/**
 * The document-validation service: checks on the identity document a
 * landlord uploads, and the translation of the server's document errors
 * into the single alert the user sees.
 *
 * Toasts and SweetAlert dialogs are returned as values (`Toast`, `Alerta`)
 * instead of being shown.
 */
module DocumentoValidacion {
  import opened Js
  import opened Text

  // ================================================================ file checks

  /** The browser `File` fields the service reads. */
  datatype File = File(tipo: string, size: nat)

  /** A toastr error: message and title. */
  datatype Toast = Toast(mensaje: string, titulo: string)

  /** The boolean a check returns, with the toast shown when it is false. */
  datatype Validacion = Valido | Invalido(toast: Toast)

  const TiposPermitidos: seq<string> := ["image/jpeg", "image/png", "application/pdf"]

  /** `1 * 1024 * 1024` bytes. */
  const MaxSize: nat := 1048576

  const ToastFormato := Toast("Solo PNG, JPG o PDF", "Formato no permitido")
  const ToastRequerido := Toast("Documento requerido", "Error")
  const ToastGrande := Toast("Archivo muy grande (máximo 1 MB)", "Error")

  /** `validarTipoDocumento(archivo)` */
  function ValidarTipoDocumento(archivo: File): (v: Validacion)
    ensures v.Valido? <==>
      archivo.tipo == "image/jpeg" || archivo.tipo == "image/png" || archivo.tipo == "application/pdf"
    ensures v.Invalido? ==> v.toast == ToastFormato
  {
    if archivo.tipo !in TiposPermitidos then Invalido(ToastFormato) else Valido
  }

  /** `validarDocumentoINE(archivo)`; `None` is a null or undefined file. */
  function ValidarDocumentoINE(archivo: Option<File>): (v: Validacion)
    ensures archivo.None? ==> v == Invalido(ToastRequerido)
    ensures archivo.Some? && ValidarTipoDocumento(archivo.value).Invalido? ==> v == Invalido(ToastFormato)
    ensures archivo.Some? && ValidarTipoDocumento(archivo.value).Valido? ==>
      (v.Valido? <==> archivo.value.size <= MaxSize)
    ensures v.Invalido? && archivo.Some? && ValidarTipoDocumento(archivo.value).Valido? ==> v.toast == ToastGrande
  {
    if archivo.None? then Invalido(ToastRequerido)
    else if ValidarTipoDocumento(archivo.value).Invalido? then ValidarTipoDocumento(archivo.value)
    else if archivo.value.size > MaxSize then Invalido(ToastGrande)
    else Valido
  }

  /** `procesarDocumento(archivo)`: presence and type only, no size limit. */
  function ProcesarDocumento(archivo: Option<File>): (v: Validacion)
    ensures archivo.None? ==> v == Invalido(ToastRequerido)
    ensures archivo.Some? ==> (v.Valido? <==> archivo.value.tipo in TiposPermitidos)
  {
    if archivo.None? then Invalido(ToastRequerido) else ValidarTipoDocumento(archivo.value)
  }

  /**
   * An accepted identity document is an allowed type of at most 1 MiB; a file
   * of exactly 1 MiB is accepted.
   */
  lemma DocumentoINEAceptado(archivo: Option<File>)
    ensures ValidarDocumentoINE(archivo).Valido? <==>
      archivo.Some? && archivo.value.tipo in TiposPermitidos && archivo.value.size <= MaxSize
  {
  }

  /** Whatever `validarDocumentoINE` accepts, `procesarDocumento` accepts too. */
  lemma INEMasEstricto(archivo: Option<File>)
    ensures ValidarDocumentoINE(archivo).Valido? ==> ProcesarDocumento(archivo).Valido?
    ensures archivo.Some? && archivo.value.size <= MaxSize ==>
      ValidarDocumentoINE(archivo) == ProcesarDocumento(archivo)
  {
  }

  // ================================================================ field names

  predicate IsAsciiLetter(c: char) {
    ('a' <= c <= 'z') || ('A' <= c <= 'Z')
  }

  /** `.replace(/_/g, ' ')` */
  function UnderscoresToSpaces(s: string): (r: string)
    ensures |r| == |s|
  {
    seq(|s|, i requires 0 <= i < |s| => if s[i] == '_' then ' ' else s[i])
  }

  /** `.toLowerCase()`, on ASCII letters. */
  function LowerAll(s: string): (r: string)
    ensures |r| == |s|
  {
    seq(|s|, i requires 0 <= i < |s| => LowerAscii(s[i]))
  }

  /** Position i is a match of `\b\w`: a word character not preceded by one. */
  predicate WordStart(s: string, i: nat)
    requires i < |s|
  {
    IsWordChar(s[i]) && (i == 0 || !IsWordChar(s[i - 1]))
  }

  /** `.replace(/\b\w/g, l => l.toUpperCase())` */
  function CapitalizeWords(s: string): (r: string)
    ensures |r| == |s|
  {
    seq(|s|, i requires 0 <= i < |s| => if WordStart(s, i) then UpperAscii(s[i]) else s[i])
  }

  /** `limpiarNombreCampo(campo)` */
  function LimpiarNombreCampo(campo: string): (r: string)
    ensures |r| == |Trim(campo)|
  {
    CapitalizeWords(LowerAll(UnderscoresToSpaces(Trim(campo))))
  }

  /**
   * The cleaned name, position by position against the trimmed name: an
   * underscore becomes a space, any other non-letter is kept, and a letter
   * stays the same letter, in upper case at the start of a word and in
   * lower case elsewhere. In particular no underscore is left.
   */
  lemma LimpiarNombreCampoForma(campo: string)
    ensures var t := Trim(campo);
      var r := LimpiarNombreCampo(campo);
      && '_' !in r
      && (forall i :: 0 <= i < |t| && t[i] == '_' ==> r[i] == ' ')
      && (forall i :: 0 <= i < |t| && t[i] != '_' && !IsAsciiLetter(t[i]) ==> r[i] == t[i])
      && (forall i :: 0 <= i < |t| && IsAsciiLetter(t[i]) ==>
            LowerAscii(r[i]) == LowerAscii(t[i])
            && (WordStart(r, i) ==> 'A' <= r[i] <= 'Z')
            && (!WordStart(r, i) ==> 'a' <= r[i] <= 'z'))
  {
    var t := Trim(campo);
    var l := LowerAll(UnderscoresToSpaces(t));
    var r := LimpiarNombreCampo(campo);
    assert r == CapitalizeWords(l);
    forall i | 0 <= i < |t|
      ensures r[i] != '_'
      ensures t[i] == '_' ==> r[i] == ' '
      ensures t[i] != '_' && !IsAsciiLetter(t[i]) ==> r[i] == t[i]
      ensures IsAsciiLetter(t[i]) ==>
        LowerAscii(r[i]) == LowerAscii(t[i])
        && (WordStart(r, i) ==> 'A' <= r[i] <= 'Z')
        && (!WordStart(r, i) ==> 'a' <= r[i] <= 'z')
    {
      CaracterLimpio(t[i], i == 0 || !IsWordChar(l[i - 1]));
    }
  }

  /** One character of the cleaning: `inicio` says no word character precedes it. */
  lemma CaracterLimpio(t: char, inicio: bool)
    ensures var l := LowerAscii(if t == '_' then ' ' else t);
      var r := if inicio && IsWordChar(l) then UpperAscii(l) else l;
      && r != '_'
      && (t == '_' ==> r == ' ')
      && (t != '_' && !IsAsciiLetter(t) ==> r == t)
      && (IsAsciiLetter(t) ==>
            IsWordChar(l)
            && LowerAscii(r) == LowerAscii(t)
            && (inicio ==> 'A' <= r <= 'Z')
            && (!inicio ==> 'a' <= r <= 'z'))
  {
  }

  /** A name without commas is cleaned into a name without commas. */
  lemma LimpiarSinComas(campo: string)
    requires ',' !in campo
    ensures ',' !in LimpiarNombreCampo(campo)
  {
    TrimKeepsOut(campo, ',');
    LimpiarNombreCampoForma(campo);
    var t := Trim(campo);
    var r := LimpiarNombreCampo(campo);
    forall i | 0 <= i < |r| ensures r[i] != ',' {
      assert t[i] != ',';
      if IsAsciiLetter(t[i]) {
        assert LowerAscii(r[i]) == LowerAscii(t[i]);
      }
    }
  }

  // ================================================================ missing-field markup

  const CamposPrefijo := "Toma una foto más clara " + "donde se vean estos campos: " + "<br><div class=\"campos-contenedor\">"
  const CamposSufijo := "</div>"

  /** The markup of one missing field. */
  function CampoSpan(campo: string): string {
    "<span class=\"campo-faltante\">" + LimpiarNombreCampo(campo) + "</span>"
  }

  function Spans(campos: seq<string>): (r: seq<string>)
    ensures |r| == |campos| && forall i :: 0 <= i < |campos| ==> r[i] == CampoSpan(campos[i])
  {
    seq(|campos|, i requires 0 <= i < |campos| => CampoSpan(campos[i]))
  }

  /** `generarCamposHTML(campos)` */
  function GenerarCamposHTML(campos: seq<string>): (html: string)
    ensures StartsWith(html, CamposPrefijo)
    ensures campos == [] ==> html == CamposPrefijo + CamposSufijo
    ensures |campos| == 1 ==> html == CamposPrefijo + CampoSpan(campos[0]) + CamposSufijo
  {
    var lista := Join(Spans(campos), ", ");
    assert campos == [] ==> lista + CamposSufijo == CamposSufijo;
    assert |campos| == 1 ==> CamposPrefijo + (lista + CamposSufijo) == CamposPrefijo + CampoSpan(campos[0]) + CamposSufijo;
    PrefixOfConcat(CamposPrefijo, lista + CamposSufijo);
    CamposPrefijo + (lista + CamposSufijo)
  }

  /** The fixed texts around the spans hold no comma. */
  lemma MarcoSinComas()
    ensures ',' !in CamposPrefijo && ',' !in CamposSufijo
  {
    assert ',' !in "Toma una foto más clara " && ',' !in "donde se vean estos campos: ";
    assert ',' !in "<br><div class=\"campos-contenedor\">";
  }

  /** A field name without commas gives a span without commas. */
  lemma SpanSinComas(campo: string)
    requires ',' !in campo
    ensures ',' !in CampoSpan(campo)
  {
    LimpiarSinComas(campo);
    assert ',' !in "<span class=\"campo-faltante\">" && ',' !in "</span>";
  }

  /**
   * Field names without commas come out as one comma-separated piece each:
   * splitting the markup at ',' gives one piece per field; the first holds
   * the heading and the first span, the last a space, the last span and
   * the closing tag, and every piece in between a space and that field's
   * span.
   */
  lemma CamposHTMLPiezas(campos: seq<string>)
    requires |campos| >= 1
    requires forall i :: 0 <= i < |campos| ==> ',' !in campos[i]
    ensures var pieces := Split(GenerarCamposHTML(campos), ',');
      && |pieces| == |campos|
      && (|campos| >= 2 ==>
            (pieces[0] == CamposPrefijo + CampoSpan(campos[0])
             && pieces[|campos| - 1] == " " + CampoSpan(campos[|campos| - 1]) + CamposSufijo))
      && (forall i :: 1 <= i < |campos| - 1 ==> pieces[i] == " " + CampoSpan(campos[i]))
  {
    var spans := Spans(campos);
    SpansSinComas(campos);
    MarcoSinComas();
    assert GenerarCamposHTML(campos) == CamposPrefijo + (Join(spans, ", ") + CamposSufijo);
    SplitJoinedListWithin(CamposPrefijo, spans, CamposSufijo);
  }

  /** Field names without commas give spans without commas. */
  lemma SpansSinComas(campos: seq<string>)
    requires forall i :: 0 <= i < |campos| ==> ',' !in campos[i]
    ensures forall i :: 0 <= i < |campos| ==> ',' !in Spans(campos)[i]
  {
    forall i | 0 <= i < |campos| ensures ',' !in Spans(campos)[i] {
      SpanSinComas(campos[i]);
    }
  }

  // ================================================================ missing-field detection

  /** The character classes the pattern repeats. */
  datatype CharClass = Space | Digit | FieldChar

  predicate InClass(c: char, k: CharClass) {
    match k
    case Space => IsSpace(c)
    case Digit => IsDigit(c)
    case FieldChar => c != ',' && c != '}'
  }

  /** The length of the longest run of class k starting at i (a greedy repetition). */
  function Run(s: string, i: nat, k: CharClass): (n: nat)
    requires i <= |s|
    ensures i + n <= |s|
    ensures forall j :: i <= j < i + n ==> InClass(s[j], k)
    ensures i + n == |s| || !InClass(s[i + n], k)
    decreases |s| - i
  {
    if i < |s| && InClass(s[i], k) then 1 + Run(s, i + 1, k) else 0
  }

  /** The maximal run is determined by where the class first fails. */
  lemma RunIs(s: string, i: nat, k: CharClass, n: nat)
    requires i + n <= |s|
    requires forall j :: i <= j < i + n ==> InClass(s[j], k)
    requires i + n == |s| || !InClass(s[i + n], k)
    ensures Run(s, i, k) == n
  {
  }

  /** The text at p equals the lower-case literal, ignoring ASCII case (the `i` flag). */
  predicate LiteralAt(s: string, p: nat, lit: string) {
    p + |lit| <= |s| && forall j :: 0 <= j < |lit| ==> LowerAscii(s[p + j]) == lit[j]
  }

  /** The two capture groups of a match. */
  datatype RawMatch = RawMatch(digits: string, campos: string)

  /**
   * `\s*([^,}]+)` at t: the second capture. The greedy `\s*` gives back one
   * white-space character when nothing but ',', '}' or the end follows it,
   * and that character is then the whole capture.
   */
  function CaptureFrom(s: string, t: nat): (c: Option<string>)
    requires t <= |s|
    ensures c.Some? ==> |c.value| >= 1 && ',' !in c.value && '}' !in c.value
  {
    var w := Run(s, t, Space);
    var u := t + w;
    var k := Run(s, u, FieldChar);
    if k > 0 then
      assert forall j :: u <= j < u + k ==> s[u..u + k][j - u] == s[j];
      Some(s[u..u + k])
    else if w > 0 then
      assert IsSpace(s[u - 1]);
      Some(s[u - 1..u])
    else None
  }

  /** `\s+campo\(s\):` at e followed by the capture. */
  function CampoFrom(s: string, e: nat): (c: Option<string>)
    requires e <= |s|
    ensures c.Some? ==> |c.value| >= 1 && ',' !in c.value && '}' !in c.value
  {
    var w := Run(s, e, Space);
    if w == 0 || !LiteralAt(s, e + w, "campo(s):") then None else CaptureFrom(s, e + w + 9)
  }

  /** `(\d+)` at d followed by the rest of the pattern. */
  function DigitsFrom(s: string, d: nat): (m: Option<RawMatch>)
    requires d <= |s|
    ensures m.Some? ==> |m.value.digits| >= 1 && AllDigits(m.value.digits)
    ensures m.Some? ==> |m.value.campos| >= 1 && ',' !in m.value.campos && '}' !in m.value.campos
  {
    var n := Run(s, d, Digit);
    if n == 0 then None
    else match CampoFrom(s, d + n)
      case None => None
      case Some(campos) => Some(RawMatch(s[d..d + n], campos))
  }

  /**
   * `\s+(\d+)\s+campo\(s\):\s*([^,}]+)` at q. Each repetition before the
   * last is forced: the class that follows it is disjoint from its own.
   */
  function MatchFrom(s: string, q: nat): (m: Option<RawMatch>)
    requires q <= |s|
    ensures m.Some? ==> |m.value.digits| >= 1 && AllDigits(m.value.digits)
    ensures m.Some? ==> |m.value.campos| >= 1 && ',' !in m.value.campos && '}' !in m.value.campos
  {
    var w := Run(s, q, Space);
    if w == 0 then None else DigitsFrom(s, q + w)
  }

  /** `/Faltan?\s+(\d+)\s+campo\(s\):\s*([^,}]+)/i` anchored at p. */
  function MatchAt(s: string, p: nat): (m: Option<RawMatch>)
    ensures m.Some? ==> |m.value.digits| >= 1 && AllDigits(m.value.digits)
    ensures m.Some? ==> |m.value.campos| >= 1 && ',' !in m.value.campos && '}' !in m.value.campos
  {
    if !LiteralAt(s, p, "falta") then None
    else if p + 5 < |s| && LowerAscii(s[p + 5]) == 'n' then MatchFrom(s, p + 6)
    else MatchFrom(s, p + 5)
  }

  /** `mensaje.match(patron)`: the match at the leftmost position where there is one. */
  function Search(s: string, p: nat): (m: Option<RawMatch>)
    requires p <= |s|
    ensures m.Some? ==> |m.value.digits| >= 1 && AllDigits(m.value.digits)
    ensures m.Some? ==> |m.value.campos| >= 1 && ',' !in m.value.campos && '}' !in m.value.campos
    decreases |s| - p
  {
    if MatchAt(s, p).Some? then MatchAt(s, p)
    else if p == |s| then None
    else Search(s, p + 1)
  }

  /** What `detectarCamposFaltantes` returns. */
  datatype Deteccion = Deteccion(hayCampos: bool, campos: seq<string>, conteo: nat)

  /** `detectarCamposFaltantes(mensaje)` */
  function DetectarCamposFaltantes(mensaje: string): (d: Deteccion)
    ensures !d.hayCampos ==> d == Deteccion(false, [], 0)
  {
    match Search(mensaje, 0)
    case None => Deteccion(false, [], 0)
    case Some(m) =>
      var partes := Split(m.campos, ',');
      Deteccion(true, seq(|partes|, i requires 0 <= i < |partes| => Trim(partes[i])), DigitsValue(m.digits))
  }

  /**
   * A match yields exactly one field: the capture stops at the first ',' or
   * '}', so splitting it at ',' leaves it whole, and the field is trimmed.
   */
  lemma UnCampo(mensaje: string)
    ensures var d := DetectarCamposFaltantes(mensaje);
      d.hayCampos ==> |d.campos| == 1 && ',' !in d.campos[0] && d.campos[0] == Trim(d.campos[0])
  {
    var r := Search(mensaje, 0);
    if r.Some? {
      SplitNoSeparator(r.value.campos, ',');
      TrimIdempotent(r.value.campos);
      TrimKeepsOut(r.value.campos, ',');
    }
  }

  /** The capture of a field name after one space. */
  lemma CaptureIs(s: string, t: nat, campo: string)
    requires t + 1 + |campo| <= |s| && IsSpace(s[t])
    requires s[t + 1..t + 1 + |campo|] == campo
    requires |campo| >= 1 && !IsSpace(campo[0]) && ',' !in campo && '}' !in campo
    requires t + 1 + |campo| == |s| || s[t + 1 + |campo|] == ',' || s[t + 1 + |campo|] == '}'
    ensures CaptureFrom(s, t) == Some(campo)
  {
    assert s[t + 1] == campo[0];
    RunIs(s, t, Space, 1);
    forall j | t + 1 <= j < t + 1 + |campo| ensures InClass(s[j], FieldChar) {
      assert s[j] == campo[j - (t + 1)];
    }
    RunIs(s, t + 1, FieldChar, |campo|);
  }

  /** " campo(s):" followed by a capture. */
  lemma CampoFromIs(s: string, e: nat, campo: string)
    requires e + 10 <= |s| && IsSpace(s[e]) && !IsSpace(s[e + 1])
    requires LiteralAt(s, e + 1, "campo(s):")
    requires CaptureFrom(s, e + 10) == Some(campo)
    ensures CampoFrom(s, e) == Some(campo)
  {
    RunIs(s, e, Space, 1);
  }

  /** A run of digits ended by " campo(s):" and a capture. */
  lemma DigitsFromIs(s: string, d: nat, digits: string, campo: string)
    requires d + |digits| <= |s| && |digits| >= 1 && AllDigits(digits)
    requires s[d..d + |digits|] == digits
    requires d + |digits| < |s| && IsSpace(s[d + |digits|])
    requires CampoFrom(s, d + |digits|) == Some(campo)
    ensures DigitsFrom(s, d) == Some(RawMatch(digits, campo))
  {
    var e := d + |digits|;
    forall j | d <= j < e ensures InClass(s[j], Digit) {
      assert s[j] == digits[j - d];
    }
    assert !IsDigit(s[e]);
    RunIs(s, d, Digit, |digits|);
  }

  /** One space, then a run of digits and the rest. */
  lemma MatchFromIs(s: string, q: nat, digits: string, campo: string)
    requires q + 1 + |digits| <= |s| && IsSpace(s[q]) && |digits| >= 1 && AllDigits(digits)
    requires s[q + 1..q + 1 + |digits|] == digits
    requires DigitsFrom(s, q + 1) == Some(RawMatch(digits, campo))
    ensures MatchFrom(s, q) == Some(RawMatch(digits, campo))
  {
    assert s[q + 1] == digits[0];
    RunIs(s, q, Space, 1);
  }

  /** Where the parts of the server's message form sit. */
  lemma MensajePartes(s: string, digits: string, campo: string, resto: string)
    requires s == "Faltan " + digits + " campo(s): " + campo + resto
    ensures var e := 7 + |digits|;
      var u := e + 11;
      && u + |campo| <= |s|
      && s[..7] == "Faltan " && s[7..e] == digits && s[e..u] == " campo(s): "
      && s[u..u + |campo|] == campo
      && (u + |campo| == |s| || s[u + |campo|] == resto[0])
  {
    var e := 7 + |digits|;
    var u := e + 11;
    assert s[..7] == "Faltan ";
    assert s[7..e] == digits;
    assert s[e..u] == " campo(s): ";
    assert s[u..u + |campo|] == campo;
    if u + |campo| < |s| {
      assert s[u + |campo|] == resto[0];
    }
  }

  /** "Faltan " opens a match of `Faltan?\s`. */
  lemma FaltanLiteral(s: string)
    requires |s| >= 7 && s[..7] == "Faltan "
    ensures LiteralAt(s, 0, "falta") && LowerAscii(s[5]) == 'n' && IsSpace(s[6])
  {
    assert s[0] == 'F' && s[1] == 'a' && s[2] == 'l' && s[3] == 't' && s[4] == 'a' && s[5] == 'n';
  }

  /** " campo(s): " holds the middle of the pattern and a space before the field. */
  lemma CampoLiteral(s: string, e: nat)
    requires e + 11 <= |s| && s[e..e + 11] == " campo(s): "
    ensures IsSpace(s[e]) && !IsSpace(s[e + 1]) && LiteralAt(s, e + 1, "campo(s):") && IsSpace(s[e + 10])
  {
    var lit := "campo(s):";
    assert s[e] == ' ' && s[e + 1] == 'c' && s[e + 10] == ' ';
    forall j | 0 <= j < 9 ensures LowerAscii(s[e + 1 + j]) == lit[j] {
      assert s[e + 1 + j] == s[e..e + 11][j + 1];
    }
  }

  /** "Faltan", one space and the digits, followed by the rest of a match. */
  lemma FaltanCoincide(s: string, digits: string, campo: string)
    requires |digits| >= 1 && AllDigits(digits)
    requires 8 + |digits| <= |s|
    requires LiteralAt(s, 0, "falta") && LowerAscii(s[5]) == 'n' && IsSpace(s[6])
    requires s[7..7 + |digits|] == digits && IsSpace(s[7 + |digits|])
    requires CampoFrom(s, 7 + |digits|) == Some(campo)
    ensures MatchAt(s, 0) == Some(RawMatch(digits, campo))
  {
    DigitsFromIs(s, 7, digits, campo);
    MatchFromIs(s, 6, digits, campo);
  }

  /** The pattern matches the server's message form at its first character. */
  lemma MensajeCoincide(s: string, digits: string, campo: string)
    requires |digits| >= 1 && AllDigits(digits)
    requires |campo| >= 1 && !IsSpace(campo[0]) && ',' !in campo && '}' !in campo
    requires 18 + |digits| + |campo| <= |s|
    requires s[..7] == "Faltan " && s[7..7 + |digits|] == digits
    requires s[7 + |digits|..18 + |digits|] == " campo(s): "
    requires s[18 + |digits|..18 + |digits| + |campo|] == campo
    requires 18 + |digits| + |campo| == |s| || s[18 + |digits| + |campo|] in {',', '}'}
    ensures MatchAt(s, 0) == Some(RawMatch(digits, campo))
  {
    var e := 7 + |digits|;
    CampoLiteral(s, e);
    CaptureIs(s, e + 10, campo);
    CampoFromIs(s, e, campo);
    FaltanLiteral(s);
    FaltanCoincide(s, digits, campo);
  }

  /**
   * The message form the server sends is recognised: "Faltan N campo(s): "
   * followed by a field name that does not start with white space, up to
   * the first ',' or '}', gives that one trimmed name and the count N.
   */
  lemma DetectaMensaje(n: nat, campo: string, resto: string)
    requires |campo| >= 1 && !IsSpace(campo[0])
    requires ',' !in campo && '}' !in campo
    requires resto == [] || resto[0] == ',' || resto[0] == '}'
    ensures DetectarCamposFaltantes("Faltan " + NatToString(n) + " campo(s): " + campo + resto)
         == Deteccion(true, [Trim(campo)], n)
  {
    var digits := NatToString(n);
    var s := "Faltan " + digits + " campo(s): " + campo + resto;
    MensajePartes(s, digits, campo, resto);
    MensajeCoincide(s, digits, campo);
    assert Search(s, 0) == Some(RawMatch(digits, campo));
    SplitNoSeparator(campo, ',');
    DigitsValueOfNatToString(n);
  }

  // ================================================================ error handling

  /**
   * The fields of an error body that `manejarErrores` reads. A field that is
   * absent, null or of another type is `None`.
   */
  datatype Payload = Payload(
    tipo: Option<string>,
    subtipo: Option<string>,
    detalles: Option<seq<string>>,
    faltantes: Option<seq<string>>,
    mensaje: Option<string>)

  /** The `{}` that stands in when there is no error at all. */
  const PayloadVacio := Payload(None, None, None, None, None)

  /**
   * An HTTP error as the subscription hands it over: the response body
   * (`error.error`, None when null or undefined), the error object's own
   * fields of the same names, its `status` and its `message`.
   */
  datatype HttpError = HttpError(body: Option<Payload>, propio: Payload, status: Option<int>, message: Option<string>)

  datatype Icono = Warning | Error

  /** One SweetAlert dialog. */
  datatype Alerta = Alerta(titulo: string, html: string, icono: Icono) {
    /** The colour of the dialog's left border. */
    function Borde(): string {
      if icono == Warning then "#ff9800" else "#f44336"
    }
  }

  const SubtipoFaltan := "FALTAN CAMPOS AL DOCUMENTO"
  const TituloCampos := "Campos no visibles"
  const AlertaInvalido := Alerta("Documento inválido", "Verifica que sea el documento correcto e intenta de nuevo", Error)
  const AlertaArchivo := Alerta("Error en archivo", "Verifica el formato o tamaño del documento", Error)
  const AlertaOcr := Alerta("Error al procesar", "No se pudo leer el documento, intenta de nuevo", Error)
  const AlertaRed := Alerta("Error de conexión", "Verifica tu conexión e intenta de nuevo", Error)

  /** `error?.error ?? error ?? {}` */
  function PayloadOf(error: Option<HttpError>): Payload {
    match error
    case None => PayloadVacio
    case Some(e) => if e.body.Some? then e.body.value else e.propio
  }

  /** `payload?.detalles || payload?.faltantes || []`: an array is truthy even when empty. */
  function DetallesOf(p: Payload): seq<string> {
    if p.detalles.Some? then p.detalles.value
    else if p.faltantes.Some? then p.faltantes.value
    else []
  }

  /** A present, non-empty string is truthy. */
  predicate Truthy(s: Option<string>) {
    s.Some? && s.value != ""
  }

  /** The DOCUMENTO branch applies: a truthy message in which the pattern matches. */
  predicate DocumentoConCampos(p: Payload) {
    p.tipo == Some("DOCUMENTO") && Truthy(p.mensaje) && DetectarCamposFaltantes(p.mensaje.value).hayCampos
  }

  predicate ErrorDeRed(error: Option<HttpError>) {
    error.Some? && (error.value.status == Some(0) || error.value.status == Some(500))
  }

  /** `payload?.mensaje || error?.message || 'Error desconocido'` */
  function MensajeGenerico(error: Option<HttpError>): (m: string)
    ensures m != ""
  {
    var p := PayloadOf(error);
    if Truthy(p.mensaje) then p.mensaje.value
    else if error.Some? && Truthy(error.value.message) then error.value.message.value
    else "Error desconocido"
  }

  /**
   * `manejarErrores(error)`: the one alert shown for an error, the first
   * applicable rule winning. The `contexto` argument is never read.
   */
  function ManejarErrores(error: Option<HttpError>): (a: Alerta)
    ensures var p := PayloadOf(error);
      && (p.tipo == Some("VALIDACION_DOCUMENTO") ==>
            a == (if p.subtipo == Some(SubtipoFaltan)
                  then Alerta(TituloCampos, GenerarCamposHTML(DetallesOf(p)), Warning)
                  else AlertaInvalido))
      && (DocumentoConCampos(p) ==>
            var d := DetectarCamposFaltantes(p.mensaje.value);
            a == (if d.conteo >= 4 then AlertaInvalido
                  else Alerta(TituloCampos, GenerarCamposHTML(d.campos), Warning)))
      && (p.tipo == Some("ARCHIVO") ==> a == AlertaArchivo)
      && (p.tipo == Some("OCR") ==> a == AlertaOcr)
      && (p.tipo !in {Some("VALIDACION_DOCUMENTO"), Some("ARCHIVO"), Some("OCR")} && !DocumentoConCampos(p) ==>
            a == (if ErrorDeRed(error) then AlertaRed else Alerta("Error", MensajeGenerico(error), Error)))
  {
    var p := PayloadOf(error);
    if p.tipo == Some("VALIDACION_DOCUMENTO") then
      if p.subtipo == Some(SubtipoFaltan) then Alerta(TituloCampos, GenerarCamposHTML(DetallesOf(p)), Warning)
      else AlertaInvalido
    else if DocumentoConCampos(p) then
      var d := DetectarCamposFaltantes(p.mensaje.value);
      if d.conteo >= 4 then AlertaInvalido
      else Alerta(TituloCampos, GenerarCamposHTML(d.campos), Warning)
    else if p.tipo == Some("ARCHIVO") then AlertaArchivo
    else if p.tipo == Some("OCR") then AlertaOcr
    else if ErrorDeRed(error) then AlertaRed
    else Alerta("Error", MensajeGenerico(error), Error)
  }

  /**
   * The warning ('Campos no visibles') is shown exactly for the missing-field
   * subtype of VALIDACION_DOCUMENTO and for a DOCUMENTO message naming fewer
   * than four missing fields; its text always opens with the photo advice.
   */
  lemma AvisoSoloPorCampos(error: Option<HttpError>)
    ensures var p := PayloadOf(error);
      var a := ManejarErrores(error);
      && (a.icono == Warning <==>
            || (p.tipo == Some("VALIDACION_DOCUMENTO") && p.subtipo == Some(SubtipoFaltan))
            || (DocumentoConCampos(p) && DetectarCamposFaltantes(p.mensaje.value).conteo < 4))
      && (a.icono == Warning <==> a.titulo == TituloCampos)
      && (a.icono == Warning ==> StartsWith(a.html, CamposPrefijo))
  {
  }

  /** The error with its payload's `tipo` removed. */
  function SinTipo(error: HttpError): HttpError {
    if error.body.Some? then error.(body := Some(error.body.value.(tipo := None)))
    else error.(propio := error.propio.(tipo := None))
  }

  /**
   * A DOCUMENTO error whose message lacks the missing-field pattern is
   * handled exactly like an error with no `tipo`: the network check, then
   * the generic message.
   */
  lemma DocumentoSinPatron(error: HttpError)
    requires PayloadOf(Some(error)).tipo == Some("DOCUMENTO")
    requires !DocumentoConCampos(PayloadOf(Some(error)))
    ensures ManejarErrores(Some(error)) == ManejarErrores(Some(SinTipo(error)))
  {
    assert PayloadOf(Some(SinTipo(error))) == PayloadOf(Some(error)).(tipo := None);
  }

  /**
   * The network rule reads the outer error's status: whatever the body says,
   * a status of 0 or 500 on an error of no recognised kind shows the
   * connection alert.
   */
  lemma ConexionPorEstadoExterno(error: HttpError, body: Payload)
    requires body.tipo.None?
    requires error.status == Some(0) || error.status == Some(500)
    ensures ManejarErrores(Some(error.(body := Some(body)))) == AlertaRed
  {
  }

  /**
   * The server's missing-field message ends in the warning when it names
   * fewer than four fields and in the invalid-document alert otherwise; the
   * warning lists the one field the message names.
   */
  lemma MensajeDeCamposFaltantes(error: HttpError, n: nat, campo: string)
    requires error.body.Some? && error.body.value.tipo == Some("DOCUMENTO")
    requires |campo| >= 1 && !IsSpace(campo[0]) && ',' !in campo && '}' !in campo
    requires error.body.value.mensaje == Some("Faltan " + NatToString(n) + " campo(s): " + campo)
    ensures ManejarErrores(Some(error))
         == if n >= 4 then AlertaInvalido else Alerta(TituloCampos, GenerarCamposHTML([Trim(campo)]), Warning)
  {
    DetectaMensaje(n, campo, "");
    assert "Faltan " + NatToString(n) + " campo(s): " + campo + "" == error.body.value.mensaje.value;
  }
}
