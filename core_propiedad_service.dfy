/**
 * The property service: the query parameters of the filter request and the
 * multipart form of the property registration.
 *
 * `HttpParams` is a list of key/value pairs in insertion order; `set`
 * replaces the value of a key already present and appends a new key
 * otherwise. The HTTP call itself is left out: a method returns the request
 * it would send.
 */
module CorePropiedadService {
  import opened Js
  import opened Text

  // ================================================================ query parameters

  datatype Param = Param(key: string, value: string)

  /** The value of the first pair with this key, as `params.get(key)` reads it. */
  function Lookup(ps: seq<Param>, key: string): (v: Option<string>)
    ensures v.Some? <==> exists i :: 0 <= i < |ps| && ps[i].key == key
  {
    if |ps| == 0 then None
    else if ps[0].key == key then Some(ps[0].value)
    else Lookup(ps[1..], key)
  }

  predicate DistinctKeys(ps: seq<Param>) {
    forall i, j :: 0 <= i < j < |ps| ==> ps[i].key != ps[j].key
  }

  /** `params.set(key, value)` */
  function SetParam(ps: seq<Param>, key: string, value: string): (r: seq<Param>)
  {
    if |ps| == 0 then [Param(key, value)]
    else if ps[0].key == key then [Param(key, value)] + ps[1..]
    else [ps[0]] + SetParam(ps[1..], key, value)
  }

  /**
   * After `set`, the key reads back the new value, every other key reads as
   * before, and keys stay pairwise distinct.
   */
  lemma {:induction false} SetParamLookup(ps: seq<Param>, key: string, value: string)
    requires DistinctKeys(ps)
    ensures Lookup(SetParam(ps, key, value), key) == Some(value)
    ensures forall k :: k != key ==> Lookup(SetParam(ps, key, value), k) == Lookup(ps, k)
    ensures DistinctKeys(SetParam(ps, key, value))
    ensures forall i :: 0 <= i < |SetParam(ps, key, value)| ==>
      SetParam(ps, key, value)[i].key == key || exists j :: 0 <= j < |ps| && ps[j].key == SetParam(ps, key, value)[i].key
  {
    var r := SetParam(ps, key, value);
    if |ps| > 0 && ps[0].key != key {
      SetParamLookup(ps[1..], key, value);
      var t := SetParam(ps[1..], key, value);
      assert r == [ps[0]] + t;
      forall k | k != key ensures Lookup(r, k) == Lookup(ps, k) {
        assert r[1..] == t;
      }
      forall i, j | 0 <= i < j < |r| ensures r[i].key != r[j].key {
        if i == 0 {
          var k := r[j].key;
          if k != key {
            var m :| 0 <= m < |ps[1..]| && ps[1..][m].key == k;
            assert ps[m + 1].key == k;
          }
        } else {
          assert r[i] == t[i - 1] && r[j] == t[j - 1];
        }
      }
      forall i | 0 <= i < |r| && r[i].key != key
        ensures exists j :: 0 <= j < |ps| && ps[j].key == r[i].key
      {
        if i == 0 {
          assert ps[0].key == r[0].key;
        } else {
          assert r[i] == t[i - 1];
          var m :| 0 <= m < |ps[1..]| && ps[1..][m].key == t[i - 1].key;
          assert ps[m + 1].key == r[i].key;
        }
      }
    } else if |ps| > 0 {
      forall k | k != key ensures Lookup(r, k) == Lookup(ps, k) {
        assert r[1..] == ps[1..];
      }
      forall i | 0 <= i < |r| && r[i].key != key
        ensures exists j :: 0 <= j < |ps| && ps[j].key == r[i].key
      {
        assert r[i] == ps[i];
      }
    }
  }

  // ================================================================ filter request

  /**
   * The filter object the search page passes. `Nullable` prices are tested
   * against both `undefined` and `null`; the other fields are tested for
   * truthiness, so a missing, null or empty value is `None`, `""` or `0`.
   */
  datatype Filtros = Filtros(
    precioMin: Nullable<int>,
    precioMax: Nullable<int>,
    colonia: Option<string>,
    municipio: Option<string>,
    universidadId: Option<int>,
    universidadNombre: Option<string>,
    rangoKm: Option<int>)

  const ApiUrl := "http://localhost:3000/propiedades"

  /** A GET request: its URL and query parameters. */
  datatype Get = Get(url: string, params: seq<Param>)

  const ClavesFiltro: set<string> :=
    {"precioMin", "precioMax", "colonia", "municipio", "universidadId", "universidadNombre", "rangoKm"}

  /** A string filter is sent when it is truthy: present and non-empty. */
  function TextoEnviado(s: Option<string>): Option<string> {
    if s.Some? && s.value != "" then s else None
  }

  /** A number filter tested for truthiness is sent when present and not 0. */
  function NumeroEnviado(n: Option<int>): Option<string> {
    if n.Some? && IntTruthy(n.value) then Some(IntToString(n.value)) else None
  }

  /** A price is sent when it is neither undefined nor null, so 0 is sent. */
  function PrecioEnviado(n: Nullable<int>): Option<string> {
    if n.Value? then Some(IntToString(n.value)) else None
  }

  /** The value the filter request carries for a key, or None when the key is left out. */
  function ValorEnviado(f: Filtros, clave: string): Option<string> {
    if clave == "precioMin" then PrecioEnviado(f.precioMin)
    else if clave == "precioMax" then PrecioEnviado(f.precioMax)
    else if clave == "colonia" then TextoEnviado(f.colonia)
    else if clave == "municipio" then TextoEnviado(f.municipio)
    else if clave == "universidadId" then NumeroEnviado(f.universidadId)
    else if clave == "universidadNombre" then TextoEnviado(f.universidadNombre)
    else if clave == "rangoKm" then NumeroEnviado(f.rangoKm)
    else None
  }

  /** The value each of the seven keys carries, key by key. */
  lemma ValoresPorClave(f: Filtros)
    ensures ValorEnviado(f, "precioMin") == PrecioEnviado(f.precioMin)
    ensures ValorEnviado(f, "precioMax") == PrecioEnviado(f.precioMax)
    ensures ValorEnviado(f, "colonia") == TextoEnviado(f.colonia)
    ensures ValorEnviado(f, "municipio") == TextoEnviado(f.municipio)
    ensures ValorEnviado(f, "universidadId") == NumeroEnviado(f.universidadId)
    ensures ValorEnviado(f, "universidadNombre") == TextoEnviado(f.universidadNombre)
    ensures ValorEnviado(f, "rangoKm") == NumeroEnviado(f.rangoKm)
  {
  }

  /** Only the seven filter keys can ever be sent. */
  lemma SoloClavesFiltro(f: Filtros, clave: string)
    requires ValorEnviado(f, clave).Some?
    ensures clave in ClavesFiltro
  {
  }

  /**
   * Every number sent reads back as the number given, and a price of 0 is
   * sent while a university id or range of 0 is not.
   */
  lemma NumerosEnviados(f: Filtros)
    ensures f.precioMin.Value? ==>
      var v := ValorEnviado(f, "precioMin");
      v.Some? && IsIntText(v.value) && IntValue(v.value) == f.precioMin.value
    ensures f.precioMax.Value? ==>
      var v := ValorEnviado(f, "precioMax");
      v.Some? && IsIntText(v.value) && IntValue(v.value) == f.precioMax.value
    ensures ValorEnviado(f, "universidadId").Some? ==>
      IsIntText(ValorEnviado(f, "universidadId").value)
      && IntValue(ValorEnviado(f, "universidadId").value) == f.universidadId.value != 0
    ensures ValorEnviado(f, "rangoKm").Some? ==>
      IsIntText(ValorEnviado(f, "rangoKm").value)
      && IntValue(ValorEnviado(f, "rangoKm").value) == f.rangoKm.value != 0
  {
    if f.precioMin.Value? { IntValueOfIntToString(f.precioMin.value); }
    if f.precioMax.Value? { IntValueOfIntToString(f.precioMax.value); }
    if f.universidadId.Some? { IntValueOfIntToString(f.universidadId.value); }
    if f.rangoKm.Some? { IntValueOfIntToString(f.rangoKm.value); }
  }

  /** The filter keys in the order the request sets them. */
  const Claves: seq<string> :=
    ["precioMin", "precioMax", "colonia", "municipio", "universidadId", "universidadNombre", "rangoKm"]

  /** The parameters once the first i keys have been considered, in that order. */
  function Hasta(f: Filtros, i: nat): seq<Param>
    requires i <= |Claves|
  {
    if i == 0 then []
    else
      var v := ValorEnviado(f, Claves[i - 1]);
      if v.Some? then SetParam(Hasta(f, i - 1), Claves[i - 1], v.value) else Hasta(f, i - 1)
  }

  /**
   * After the first i keys the parameters hold each key among them whose
   * value is sent, with that value, each once, and no other key.
   */
  lemma {:induction false} HastaLookup(f: Filtros, i: nat)
    requires i <= |Claves|
    ensures DistinctKeys(Hasta(f, i))
    ensures forall k :: Lookup(Hasta(f, i), k) == if k in Claves[..i] then ValorEnviado(f, k) else None
  {
    if i > 0 {
      HastaLookup(f, i - 1);
      var v := ValorEnviado(f, Claves[i - 1]);
      assert forall k :: k in Claves[..i] <==> k in Claves[..i - 1] || k == Claves[i - 1] by {
        assert Claves[..i] == Claves[..i - 1] + [Claves[i - 1]];
      }
      if v.Some? {
        SetParamLookup(Hasta(f, i - 1), Claves[i - 1], v.value);
      }
    }
  }

  /** With all seven keys considered, the parameters are exactly the values sent. */
  lemma HastaTodas(f: Filtros)
    ensures DistinctKeys(Hasta(f, |Claves|))
    ensures forall k :: Lookup(Hasta(f, |Claves|), k) == ValorEnviado(f, k)
  {
    HastaLookup(f, |Claves|);
    assert Claves[..|Claves|] == Claves;
  }

  /**
   * `filtrarPropiedades(filtros)`: the request to `/filtrar`, whose
   * parameters hold exactly the keys whose value is sent, each once, with
   * that value.
   */
  method FiltrarPropiedades(filtros: Filtros) returns (req: Get)
    ensures req.url == ApiUrl + "/filtrar"
    ensures DistinctKeys(req.params)
    ensures forall k :: Lookup(req.params, k) == ValorEnviado(filtros, k)
    ensures req.params == Hasta(filtros, |Claves|)
  {
    ValoresPorClave(filtros);
    var params: seq<Param> := [];
    if filtros.precioMin != Undefined && filtros.precioMin != Null {
      params := SetParam(params, "precioMin", IntToString(filtros.precioMin.value));
    }
    assert params == Hasta(filtros, 1);
    if filtros.precioMax != Undefined && filtros.precioMax != Null {
      params := SetParam(params, "precioMax", IntToString(filtros.precioMax.value));
    }
    assert params == Hasta(filtros, 2);
    if filtros.colonia.Some? && filtros.colonia.value != "" {
      params := SetParam(params, "colonia", filtros.colonia.value);
    }
    assert params == Hasta(filtros, 3);
    if filtros.municipio.Some? && filtros.municipio.value != "" {
      params := SetParam(params, "municipio", filtros.municipio.value);
    }
    assert params == Hasta(filtros, 4);
    if filtros.universidadId.Some? && IntTruthy(filtros.universidadId.value) {
      params := SetParam(params, "universidadId", IntToString(filtros.universidadId.value));
    }
    assert params == Hasta(filtros, 5);
    if filtros.universidadNombre.Some? && filtros.universidadNombre.value != "" {
      params := SetParam(params, "universidadNombre", filtros.universidadNombre.value);
    }
    assert params == Hasta(filtros, 6);
    if filtros.rangoKm.Some? && IntTruthy(filtros.rangoKm.value) {
      params := SetParam(params, "rangoKm", IntToString(filtros.rangoKm.value));
    }
    assert params == Hasta(filtros, 7);
    HastaTodas(filtros);
    req := Get(ApiUrl + "/filtrar", params);
  }

  /** The first text field with this name is the one at position i. */
  lemma CampoFormEn(body: seq<FormEntry>, i: nat, name: string)
    requires i < |body| && body[i].Campo? && body[i].name == name
    requires forall j :: 0 <= j < i ==> body[j].name != name
    ensures CampoForm(body, name) == Some(body[i].value)
  {
    if i > 0 {
      CampoFormEn(body[1..], i - 1, name);
    }
  }

  // ================================================================ registration form

  /** A `File` as the form receives it. */
  datatype Archivo = Archivo(name: string, tipo: string, size: nat)

  /** One `formData.append`: a text field, or a file with its file name. */
  datatype FormEntry = Campo(name: string, value: string) | Fichero(name: string, file: Archivo, filename: string)

  /**
   * The registration data. `ubicacionJson` is the text `JSON.stringify`
   * gives for the location object, which is not modelled here.
   */
  datatype FormularioRegistroPropiedad = FormularioRegistroPropiedad(nombre: string, ubicacionJson: string, renteroId: int)

  /** A POST request: its URL and multipart body. */
  datatype Post = Post(url: string, body: seq<FormEntry>)

  /** The value of the first text field with this name. */
  function CampoForm(body: seq<FormEntry>, name: string): Option<string> {
    if |body| == 0 then None
    else if body[0].Campo? && body[0].name == name then Some(body[0].value)
    else CampoForm(body[1..], name)
  }

  /** `tipoDocumentoId?.toString() || '1'`: any id that is present is sent, 0 included. */
  function TipoIdTexto(tipoDocumentoId: Option<int>): (t: string)
    ensures tipoDocumentoId.None? ==> t == "1"
    ensures tipoDocumentoId.Some? ==> IsIntText(t) && IntValue(t) == tipoDocumentoId.value
  {
    if tipoDocumentoId.Some? then
      IntValueOfIntToString(tipoDocumentoId.value);
      IntToString(tipoDocumentoId.value)
    else "1"
  }

  /** `registrarPropiedad(datos, archivo, tipoDocumentoId)` */
  method RegistrarPropiedad(datos: FormularioRegistroPropiedad, archivo: Archivo, tipoDocumentoId: Option<int>)
    returns (req: Post)
    ensures req.url == ApiUrl + "/registrar"
    ensures |req.body| == 5
    ensures req.body[3] == Fichero("documento", archivo, archivo.name)
    ensures CampoForm(req.body, "nombre") == Some(datos.nombre)
    ensures CampoForm(req.body, "ubicacion") == Some(datos.ubicacionJson)
    ensures var r := CampoForm(req.body, "rentero_id");
      r.Some? && IsIntText(r.value) && IntValue(r.value) == datos.renteroId
    ensures CampoForm(req.body, "tipo_id") == Some(TipoIdTexto(tipoDocumentoId))
  {
    var formData: seq<FormEntry> := [];
    formData := formData + [Campo("nombre", datos.nombre)];
    formData := formData + [Campo("rentero_id", IntToString(datos.renteroId))];
    formData := formData + [Campo("ubicacion", datos.ubicacionJson)];
    formData := formData + [Fichero("documento", archivo, archivo.name)];
    var tipo := if tipoDocumentoId.Some? then IntToString(tipoDocumentoId.value) else "";
    formData := formData + [Campo("tipo_id", if tipo != "" then tipo else "1")];
    IntValueOfIntToString(datos.renteroId);
    CampoFormEn(formData, 0, "nombre");
    CampoFormEn(formData, 1, "rentero_id");
    CampoFormEn(formData, 2, "ubicacion");
    CampoFormEn(formData, 4, "tipo_id");
    req := Post(ApiUrl + "/registrar", formData);
  }
}
