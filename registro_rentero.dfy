/**
 * The landlord's sign-up page: a two-step wizard (personal data, then an
 * identity document), the validation messages of its fields, and the
 * notifications shown for the registration's outcome.
 *
 * Field values are held as text; the verdict of Angular's e-mail validator
 * is taken as given. The preview URL `URL.createObjectURL` makes is a
 * parameter, and notifications are returned as values. The request is
 * returned as what is sent, and its answer and failure are handler methods.
 */
module RegistroRentero {
  import opened Js
  import opened Text

  /** The five data fields of the first step. */
  datatype Campo = Nombre | Apellido | Telefono | Email | Password

  /** The controls' values. */
  datatype Valores = Valores(nombre: string, apellido: string, telefono: string, email: string, password: string)

  /** The file chosen in the second step; `tipo` is its MIME type. */
  datatype Archivo = Archivo(nombre: string, tipo: string, size: nat)

  /** A control's validation errors: which validators failed. */
  datatype Errores = Errores(required: bool, minlength: Option<nat>, email: bool, pattern: bool)

  /** A toastr notification. */
  datatype Aviso = Aviso(exito: bool, mensaje: string, titulo: string)

  const Campos: seq<Campo> := [Nombre, Apellido, Telefono, Email, Password]
  const ValoresVacios := Valores("", "", "", "", "")

  // ================================================================ validation

  /** The name `obtenerMensajeError` is called with. */
  function NombreCampo(c: Campo): string {
    match c
    case Nombre => "nombre"
    case Apellido => "apellido"
    case Telefono => "telefono"
    case Email => "email"
    case Password => "password"
  }

  function Valor(v: Valores, c: Campo): string {
    match c
    case Nombre => v.nombre
    case Apellido => v.apellido
    case Telefono => v.telefono
    case Email => v.email
    case Password => v.password
  }

  /** `Validators.minLength(n)` of each field, if it has one. */
  function LongitudMinima(c: Campo): Option<nat> {
    match c
    case Nombre => Some(2)
    case Apellido => Some(2)
    case Password => Some(6)
    case _ => None
  }

  /** `Validators.pattern(/^[0-9]{10}$/)`: exactly ten decimal digits. */
  predicate TelefonoValido(t: string) {
    |t| == 10 && AllDigits(t)
  }

  /**
   * A control's errors, as Angular's validators report them: an empty value
   * fails `required` only, since the length, pattern and e-mail validators
   * pass empty values; `None` when no validator fails.
   */
  function ErroresDe(c: Campo, valor: string, emailConFormato: bool): (r: Option<Errores>)
    ensures r.None? <==> (valor != ""
      && (LongitudMinima(c).None? || Utf16Length(valor) >= LongitudMinima(c).value)
      && (c == Telefono ==> TelefonoValido(valor))
      && (c == Email ==> emailConFormato))
    ensures r.Some? ==> (r.value.required <==> valor == "")
  {
    var required := valor == "";
    var minlength := if !required && LongitudMinima(c).Some? && Utf16Length(valor) < LongitudMinima(c).value then LongitudMinima(c) else None;
    var email := !required && c == Email && !emailConFormato;
    var pattern := !required && c == Telefono && !TelefonoValido(valor);
    if required || minlength.Some? || email || pattern then Some(Errores(required, minlength, email, pattern)) else None
  }

  /** A telephone is accepted exactly when it is ten digits; formatting characters are not. */
  lemma TelefonoDiezDigitos(t: string, emailConFormato: bool)
    ensures ErroresDe(Telefono, t, emailConFormato).None? <==> |t| == 10 && AllDigits(t)
    ensures ErroresDe(Telefono, "55-1234-567", emailConFormato).Some?
  {
    assert !IsDigit("55-1234-567"[2]);
  }

  /** `obtenerMensajeError(campo)`: nothing unless touched with errors; then required, length, e-mail, pattern. */
  function MensajeError(c: Campo, errores: Option<Errores>, tocado: bool): (m: string)
    ensures errores.None? || !tocado ==> m == ""
    ensures errores.Some? && tocado ==> m != ""
    ensures errores.Some? && tocado && errores.value.required ==> m == NombreCampo(c) + " es requerido"
    ensures errores.Some? && tocado && !errores.value.required && errores.value.minlength.Some? ==>
      m == NombreCampo(c) + " debe tener al menos " + IntToString(errores.value.minlength.value) + " caracteres"
    ensures errores.Some? && tocado && !errores.value.required && errores.value.minlength.None? ==>
      m == (if errores.value.email then "Email inválido"
            else if errores.value.pattern then "Formato inválido"
            else "Campo inválido")
  {
    if errores.None? || !tocado then ""
    else if errores.value.required then NombreCampo(c) + " es requerido"
    else if errores.value.minlength.Some? then
      NombreCampo(c) + " debe tener al menos " + IntToString(errores.value.minlength.value) + " caracteres"
    else if errores.value.email then "Email inválido"
    else if errores.value.pattern then "Formato inválido"
    else "Campo inválido"
  }

  /** A short password gets the length message, naming the six characters required. */
  lemma PasswordCorta(valor: string, emailConFormato: bool)
    requires valor != "" && Utf16Length(valor) < 6
    ensures MensajeError(Password, ErroresDe(Password, valor, emailConFormato), true)
         == "password debe tener al menos 6 caracteres"
  {
  }

  /** Length is counted in UTF-16 units: three emoji make a password of length six. */
  lemma PasswordAstral(emailConFormato: bool)
    ensures ErroresDe(Password, "\U{1F600}\U{1F600}\U{1F600}", emailConFormato).None?
  {
    var s := "\U{1F600}\U{1F600}\U{1F600}";
    assert s[1..][1..][1..] == [];
    assert Utf16Length(s) == 6;
  }

  /** A touched field shows a message exactly when one of its validators fails. */
  lemma MensajeSiInvalido(c: Campo, valor: string, emailConFormato: bool)
    ensures MensajeError(c, ErroresDe(c, valor, emailConFormato), true) == "" <==> ErroresDe(c, valor, emailConFormato).None?
  {
  }

  /** `respuesta.errores?.join(', ') || respuesta.mensaje`. */
  function MensajeRechazo(mensaje: string, errores: Option<seq<string>>): (m: string)
    ensures errores.Some? && Join(errores.value, ", ") != "" ==> m == Join(errores.value, ", ")
    ensures errores.None? || Join(errores.value, ", ") == "" ==> m == mensaje
  {
    if errores.Some? && Join(errores.value, ", ") != "" then Join(errores.value, ", ") else mensaje
  }

  /** Errors listed one per entry, without commas, can be told apart again in the text. */
  lemma RechazoRecuperable(mensaje: string, errores: seq<string>)
    requires |errores| >= 1 && errores[0] != ""
    requires forall i :: 0 <= i < |errores| ==> ',' !in errores[i]
    ensures var pieces := Split(MensajeRechazo(mensaje, Some(errores)), ',');
      |pieces| == |errores| && pieces[0] == errores[0]
      && forall i :: 1 <= i < |errores| ==> pieces[i] == " " + errores[i]
  {
    var j := Join(errores, ", ");
    assert j != "" by {
      if |errores| > 1 {
        assert j == errores[0] + ", " + Join(errores[1..], ", ");
      }
    }
    assert MensajeRechazo(mensaje, Some(errores)) == j;
    SplitJoin(errores);
  }

  /** `error.error?.mensaje || error.message || 'Error al conectar con el servidor'`. */
  function MensajeFallo(cuerpoMensaje: Option<string>, message: Option<string>): (m: string)
    ensures cuerpoMensaje.Some? && cuerpoMensaje.value != "" ==> m == cuerpoMensaje.value
    ensures (cuerpoMensaje.None? || cuerpoMensaje.value == "") && message.Some? && message.value != "" ==> m == message.value
    ensures (cuerpoMensaje.None? || cuerpoMensaje.value == "") && (message.None? || message.value == "") ==>
      m == "Error al conectar con el servidor"
    ensures m != ""
  {
    if cuerpoMensaje.Some? && cuerpoMensaje.value != "" then cuerpoMensaje.value
    else if message.Some? && message.value != "" then message.value
    else "Error al conectar con el servidor"
  }

  // ================================================================ the component

  class RegistroRenteroComponent {
    var pasoActual: int
    var valores: Valores
    var emailConFormato: bool
    var tocados: set<Campo>
    var archivoControl: Option<Archivo>
    var archivoSeleccionado: Option<Archivo>
    var urlPrevisualizacion: Option<string>
    var procesando: bool

    /** The wizard is on one of its two steps, and a preview exists exactly for a chosen file. */
    predicate Valid()
      reads this
    {
      (pasoActual == 1 || pasoActual == 2) && (urlPrevisualizacion.Some? <==> archivoSeleccionado.Some?)
    }

    constructor ()
      ensures Valid()
      ensures pasoActual == 1 && valores == ValoresVacios && tocados == {}
      ensures archivoControl.None? && archivoSeleccionado.None? && urlPrevisualizacion.None? && !procesando
    {
      pasoActual := 1;
      valores := ValoresVacios;
      emailConFormato := false;
      tocados := {};
      archivoControl := None;
      archivoSeleccionado := None;
      urlPrevisualizacion := None;
      procesando := false;
    }

    /** `datosValidos`: the five data fields pass their validators. */
    predicate DatosValidos()
      reads this
    {
      forall c: Campo :: ErroresDe(c, Valor(valores, c), emailConFormato).None?
    }

    /** `formulario.valid`: the data fields and the file control. */
    predicate FormularioValido()
      reads this
    {
      DatosValidos() && archivoControl.Some?
    }

    /** `esImagen`. */
    function EsImagen(): (r: bool)
      reads this
      ensures r <==> archivoSeleccionado.Some? && StartsWith(archivoSeleccionado.value.tipo, "image/")
    {
      archivoSeleccionado.Some? && StartsWith(archivoSeleccionado.value.tipo, "image/")
    }

    /** `esPdf`. */
    function EsPdf(): (r: bool)
      reads this
      ensures r <==> archivoSeleccionado.Some? && archivoSeleccionado.value.tipo == "application/pdf"
      ensures r ==> !EsImagen()
    {
      assert "application/pdf"[..6] != "image/" by {
        assert "application/pdf"[..6][0] == 'a';
      }
      archivoSeleccionado.Some? && archivoSeleccionado.value.tipo == "application/pdf"
    }

    /** `obtenerMensajeError(campo)`. */
    function ObtenerMensajeError(c: Campo): (m: string)
      reads this
      ensures c !in tocados ==> m == ""
      ensures c in tocados ==> (m == "" <==> ErroresDe(c, Valor(valores, c), emailConFormato).None?)
      ensures c in tocados && Valor(valores, c) == "" ==> m == NombreCampo(c) + " es requerido"
    {
      MensajeSiInvalido(c, Valor(valores, c), emailConFormato);
      MensajeError(c, ErroresDe(c, Valor(valores, c), emailConFormato), c in tocados)
    }

    /** `siguientePaso()`: on to the document only with valid data. */
    method SiguientePaso()
      requires Valid()
      modifies this
      ensures Valid()
      ensures pasoActual == if DatosValidos() then 2 else old(pasoActual)
      ensures valores == old(valores) && archivoSeleccionado == old(archivoSeleccionado)
      ensures archivoControl == old(archivoControl) && urlPrevisualizacion == old(urlPrevisualizacion)
      ensures emailConFormato == old(emailConFormato) && tocados == old(tocados) && procesando == old(procesando)
    {
      if DatosValidos() {
        pasoActual := 2;
      }
    }

    /** `anteriorPaso()`: always back to the data. */
    method AnteriorPaso()
      requires Valid()
      modifies this
      ensures Valid() && pasoActual == 1
      ensures valores == old(valores) && archivoSeleccionado == old(archivoSeleccionado)
      ensures archivoControl == old(archivoControl) && urlPrevisualizacion == old(urlPrevisualizacion)
      ensures emailConFormato == old(emailConFormato) && tocados == old(tocados) && procesando == old(procesando)
    {
      pasoActual := 1;
    }

    /**
     * `onArchivoSeleccionado(event)`: a chosen file becomes the selection,
     * with its preview, and the control's value; choosing none clears the
     * selection and the preview but leaves the control's value as it was.
     */
    method OnArchivoSeleccionado(archivo: Option<Archivo>, urlNueva: string)
      requires Valid()
      modifies this
      ensures Valid()
      ensures archivo.Some? ==>
        archivoSeleccionado == archivo && urlPrevisualizacion == Some(urlNueva) && archivoControl == archivo
      ensures archivo.None? ==>
        archivoSeleccionado.None? && urlPrevisualizacion.None? && archivoControl == old(archivoControl)
      ensures pasoActual == old(pasoActual) && valores == old(valores) && procesando == old(procesando)
      ensures emailConFormato == old(emailConFormato) && tocados == old(tocados)
    {
      if archivo.Some? {
        archivoSeleccionado := archivo;
        urlPrevisualizacion := Some(urlNueva);
        archivoControl := archivo;
      } else {
        archivoSeleccionado := None;
        urlPrevisualizacion := None;
      }
    }

    /**
     * `registrar()`: with an invalid form or no chosen file, only a
     * notification; otherwise the data and the file are sent.
     */
    method Registrar() returns (envio: Option<(Valores, Archivo)>, aviso: Option<Aviso>)
      requires Valid()
      modifies this
      ensures Valid()
      ensures !FormularioValido() || archivoSeleccionado.None? ==>
        envio.None? && aviso == Some(Aviso(false, "Por favor completa todos los campos", "Formulario incompleto"))
        && procesando == old(procesando)
      ensures FormularioValido() && archivoSeleccionado.Some? ==>
        envio == Some((valores, archivoSeleccionado.value)) && aviso.None? && procesando
      ensures pasoActual == old(pasoActual) && valores == old(valores) && archivoSeleccionado == old(archivoSeleccionado)
      ensures archivoControl == old(archivoControl) && urlPrevisualizacion == old(urlPrevisualizacion)
      ensures emailConFormato == old(emailConFormato) && tocados == old(tocados)
    {
      if !FormularioValido() || archivoSeleccionado.None? {
        envio := None;
        aviso := Some(Aviso(false, "Por favor completa todos los campos", "Formulario incompleto"));
        return;
      }
      procesando := true;
      envio := Some((valores, archivoSeleccionado.value));
      aviso := None;
    }

    /** `reiniciarFormulario()`: empty, untouched controls, no file, first step. */
    method ReiniciarFormulario()
      modifies this
      ensures Valid()
      ensures pasoActual == 1 && valores == ValoresVacios && tocados == {}
      ensures archivoControl.None? && archivoSeleccionado.None? && urlPrevisualizacion.None?
      ensures procesando == old(procesando) && emailConFormato == old(emailConFormato)
    {
      valores := ValoresVacios;
      tocados := {};
      archivoControl := None;
      archivoSeleccionado := None;
      urlPrevisualizacion := None;
      pasoActual := 1;
    }

    /** The registration answered: success starts over; a refusal shows its errors or its message. */
    method OnRespuesta(exito: bool, mensaje: string, errores: Option<seq<string>>) returns (aviso: Aviso)
      requires Valid()
      modifies this
      ensures Valid() && !procesando
      ensures exito ==> (aviso == Aviso(true, mensaje, "¡Registro exitoso!")
        && pasoActual == 1 && valores == ValoresVacios && archivoSeleccionado.None? && urlPrevisualizacion.None?
        && tocados == {} && archivoControl.None?)
      ensures !exito ==> (aviso == Aviso(false, MensajeRechazo(mensaje, errores), "Error en el registro")
        && pasoActual == old(pasoActual) && valores == old(valores) && archivoSeleccionado == old(archivoSeleccionado)
        && urlPrevisualizacion == old(urlPrevisualizacion) && tocados == old(tocados)
        && archivoControl == old(archivoControl))
      ensures emailConFormato == old(emailConFormato)
    {
      procesando := false;
      if exito {
        aviso := Aviso(true, mensaje, "¡Registro exitoso!");
        ReiniciarFormulario();
      } else {
        var texto := if errores.Some? then Join(errores.value, ", ") else "";
        if texto == "" {
          texto := mensaje;
        }
        aviso := Aviso(false, texto, "Error en el registro");
      }
    }

    /** The registration request failed. */
    method OnError(cuerpoMensaje: Option<string>, message: Option<string>) returns (aviso: Aviso)
      requires Valid()
      modifies this
      ensures Valid() && !procesando
      ensures aviso == Aviso(false, MensajeFallo(cuerpoMensaje, message), "Error del servidor")
      ensures pasoActual == old(pasoActual) && valores == old(valores) && archivoSeleccionado == old(archivoSeleccionado)
      ensures urlPrevisualizacion == old(urlPrevisualizacion) && tocados == old(tocados)
      ensures archivoControl == old(archivoControl) && emailConFormato == old(emailConFormato)
    {
      procesando := false;
      aviso := Aviso(false, MensajeFallo(cuerpoMensaje, message), "Error del servidor");
    }
  }
}
