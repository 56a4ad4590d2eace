/**
 * The landlord's form for creating or editing a unit: the mode taken from
 * the route, the selected services, an image list of at most ten URLs, the
 * payloads sent on save, and the messages shown.
 *
 * Angular's form is reduced to a snapshot of its values (`ValorFormulario`)
 * and its validity to a flag. The route's numeric parameters arrive parsed:
 * `None` stands for NaN. Alerts are returned as their text; requests are
 * returned as the payload sent, and each answer is a handler method.
 */
module FormularioUnidad {
  import opened Js
  import opened Text
  import opened Interfaces

  /** The form's value: every control may be empty (`null`/`''` for the price). */
  datatype ValorFormulario = ValorFormulario(
    precio: Option<real>,
    terraza: Option<bool>,
    amueblado: Option<bool>,
    caracteristicas: Option<string>,
    disponible: Option<bool>,
    imagenes: Option<seq<string>>)

  /** The values `crearFormulario` starts with. */
  const FormularioInicial := ValorFormulario(None, Some(false), Some(false), Some(""), Some(true), Some([]))

  const MaxImagenes: nat := 10

  /** The body of a creation request. */
  datatype DatosUnidad = DatosUnidad(propiedadId: int, precio: JsNumber, descripcion: Descripcion, imagenes: seq<string>)

  /** The body of an update request: only the members present are sent. */
  datatype DatosActualizacion = DatosActualizacion(
    precio: Option<JsNumber>,
    disponible: Option<bool>,
    descripcion: Option<Descripcion>,
    imagenes: Option<seq<string>>)

  /** What `guardarUnidad` sends, if anything. */
  datatype Envio = SinEnvio | Registro(datos: DatosUnidad) | Actualizacion(unidadId: Option<int>, cambios: DatosActualizacion)

  /** The body of an error answer to a creation request. */
  datatype ErrorRegistro = ErrorRegistro(
    cuerpoMessage: Option<string>,
    cuerpoMensaje: Option<string>,
    message: Option<string>,
    status: int)

  /** A control's validation errors (`control.errors`), when it has any. */
  datatype ErroresControl = ErroresControl(required: bool, min: Option<int>)

  // ================================================================ pure parts

  /** `mostrarError(mensaje, titulo)`: the alert text. */
  function Alerta(titulo: string, mensaje: string): string {
    titulo + ": " + mensaje
  }

  /** `!id || id === 0 || isNaN(id)`: the id is missing. */
  predicate IdInvalido(id: Option<int>) {
    id.None? || id.value == 0
  }

  /** `String(id)` for a parsed route parameter. */
  function IdTexto(id: Option<int>): string {
    if id.None? then "NaN" else IntToString(id.value)
  }

  /** `xs.indexOf(x)`. */
  function IndexOf(xs: seq<string>, x: string): (r: int)
    ensures -1 <= r < |xs|
    ensures r == -1 <==> x !in xs
    ensures r >= 0 ==> xs[r] == x && x !in xs[..r]
  {
    if |xs| == 0 then -1
    else if xs[0] == x then 0
    else
      var r := IndexOf(xs[1..], x);
      assert r >= 0 ==> xs[1..][..r] == xs[1..r + 1];
      if r == -1 then -1 else r + 1
  }

  predicate SinDuplicados(xs: seq<string>) {
    forall i, j :: 0 <= i < j < |xs| ==> xs[i] != xs[j]
  }

  /**
   * `toggleServicio` on the selection: an absent service is appended, a
   * present one is removed where it first occurs. On a selection without
   * duplicates, membership of that service flips, every other service
   * keeps its membership, and there are still no duplicates.
   */
  function Alternar(xs: seq<string>, s: string): (r: seq<string>)
    ensures s !in xs ==> r == xs + [s]
    ensures s in xs ==> |r| == |xs| - 1
    ensures s in xs ==> exists i :: 0 <= i < |xs| && xs[i] == s && s !in xs[..i] && r == xs[..i] + xs[i + 1..]
    ensures forall t :: t != s ==> (t in r <==> t in xs)
    ensures SinDuplicados(xs) ==> SinDuplicados(r) && (s in r <==> s !in xs)
  {
    var i := IndexOf(xs, s);
    if i == -1 then xs + [s]
    else
      var r := xs[..i] + xs[i + 1..];
      assert xs == xs[..i] + [xs[i]] + xs[i + 1..];
      assert SinDuplicados(xs) ==> s !in xs[i + 1..] by {
        if SinDuplicados(xs) {
          assert forall j :: i + 1 <= j < |xs| ==> xs[j] != xs[i];
        }
      }
      r
  }

  /** Choosing a service that was not selected and then choosing it again restores the selection. */
  lemma AlternarDosVeces(xs: seq<string>, s: string)
    requires s !in xs
    ensures Alternar(Alternar(xs, s), s) == xs
  {
    var ys := xs + [s];
    assert IndexOf(ys, s) == |xs| by {
      assert ys[..|xs|] == xs;
    }
    assert ys[..|xs|] == xs;
  }

  /**
   * `agregarImagen` on the list: the trimmed URL is appended when it is not
   * blank and fewer than ten images are there; otherwise nothing changes.
   */
  function ConImagen(actuales: seq<string>, url: Option<string>): (r: seq<string>)
    ensures url.None? || IsBlank(url.value) || |actuales| >= MaxImagenes ==> r == actuales
    ensures url.Some? && !IsBlank(url.value) && |actuales| < MaxImagenes ==> r == actuales + [Trim(url.value)]
    ensures |actuales| <= MaxImagenes ==> |r| <= MaxImagenes
    ensures forall i :: 0 <= i < |r| ==> (i < |actuales| && r[i] == actuales[i]) || (r[i] != "" && r[i] == Trim(r[i]))
  {
    if url.Some? && Trim(url.value) != "" && |actuales| < MaxImagenes then
      TrimIdempotent(url.value);
      actuales + [Trim(url.value)]
    else actuales
  }

  /** `xs.splice(index, 1)` on the list: the start is counted from the end when negative and clamped. */
  function SpliceUno(xs: seq<string>, index: int): (r: seq<string>)
    ensures 0 <= index < |xs| ==> r == xs[..index] + xs[index + 1..]
    ensures index >= |xs| ==> r == xs
    ensures -|xs| <= index < 0 ==> r == xs[..|xs| + index] + xs[|xs| + index + 1..]
    ensures index < -|xs| && |xs| > 0 ==> r == xs[1..]
  {
    var inicio := if index < 0 then (if |xs| + index < 0 then 0 else |xs| + index) else index;
    if inicio < |xs| then xs[..inicio] + xs[inicio + 1..] else xs
  }

  /** Removing an image keeps the others in order and never grows the list. */
  lemma SpliceUnoConserva(xs: seq<string>, index: int)
    ensures |SpliceUno(xs, index)| == if |xs| == 0 || index >= |xs| then |xs| else |xs| - 1
    ensures forall t :: t in SpliceUno(xs, index) ==> t in xs
  {
  }

  /** The creation body: flags default to false and the text to '', and the services are the selection. */
  function DatosCreacion(propiedadId: int, valor: ValorFormulario, servicios: seq<string>): (d: DatosUnidad)
    ensures d.propiedadId == propiedadId
    ensures d.precio == if valor.precio.Some? then Finite(valor.precio.value) else NaN
    ensures d.descripcion.terraza == Some(valor.terraza == Some(true))
    ensures d.descripcion.amueblado == Some(valor.amueblado == Some(true))
    ensures d.descripcion.servicios == Some(servicios)
    ensures d.descripcion.caracteristicas == Some(valor.caracteristicas.GetOr(""))
    ensures d.imagenes == valor.imagenes.GetOr([])
  {
    DatosUnidad(
      propiedadId,
      if valor.precio.Some? then Finite(valor.precio.value) else NaN,
      Descripcion(Some(valor.terraza == Some(true)), Some(valor.amueblado == Some(true)),
                  Some(servicios), Some(valor.caracteristicas.GetOr(""))),
      valor.imagenes.GetOr([]))
  }

  /** The update body: the price only when truthy, the images only when present, the description always. */
  function DatosEdicion(valor: ValorFormulario, servicios: seq<string>): (d: DatosActualizacion)
    ensures d.precio.Some? <==> valor.precio.Some? && valor.precio.value != 0.0
    ensures d.precio.Some? ==> d.precio.value == Finite(valor.precio.value)
    ensures d.disponible == valor.disponible
    ensures d.descripcion.Some? && d.descripcion.value.servicios == Some(servicios)
    ensures d.descripcion.value.terraza == Some(valor.terraza == Some(true))
    ensures d.descripcion.value.amueblado == Some(valor.amueblado == Some(true))
    ensures d.descripcion.value.caracteristicas == Some(valor.caracteristicas.GetOr(""))
    ensures d.imagenes == valor.imagenes
  {
    DatosActualizacion(
      if valor.precio.Some? && valor.precio.value != 0.0 then Some(Finite(valor.precio.value)) else None,
      valor.disponible,
      Some(Descripcion(Some(valor.terraza == Some(true)), Some(valor.amueblado == Some(true)),
                       Some(servicios), Some(valor.caracteristicas.GetOr("")))),
      valor.imagenes)
  }

  /** The two bodies describe a unit the same way. */
  lemma MismaDescripcion(propiedadId: int, valor: ValorFormulario, servicios: seq<string>)
    ensures DatosEdicion(valor, servicios).descripcion == Some(DatosCreacion(propiedadId, valor, servicios).descripcion)
  {
  }

  /** The text of a failed creation, by priority. */
  function MensajeRegistro(e: ErrorRegistro): (m: string)
    ensures e.cuerpoMessage.Some? && e.cuerpoMessage.value != "" ==> m == e.cuerpoMessage.value
    ensures !(e.cuerpoMessage.Some? && e.cuerpoMessage.value != "") && e.cuerpoMensaje.Some? && e.cuerpoMensaje.value != ""
      ==> m == e.cuerpoMensaje.value
    ensures (!(e.cuerpoMessage.Some? && e.cuerpoMessage.value != "") && !(e.cuerpoMensaje.Some? && e.cuerpoMensaje.value != "")
      && e.message.Some? && e.message.value != "") ==> m == e.message.value
    ensures ((e.cuerpoMessage.None? || e.cuerpoMessage.value == "") && (e.cuerpoMensaje.None? || e.cuerpoMensaje.value == "")
      && (e.message.None? || e.message.value == "")) ==> m == "Error interno del servidor"
    ensures m != ""
  {
    if e.cuerpoMessage.Some? && e.cuerpoMessage.value != "" then e.cuerpoMessage.value
    else if e.cuerpoMensaje.Some? && e.cuerpoMensaje.value != "" then e.cuerpoMensaje.value
    else if e.message.Some? && e.message.value != "" then e.message.value
    else "Error interno del servidor"
  }

  /** `obtenerMensajeError(campo)`: nothing for an untouched or valid control; required first, then the minimum. */
  function ObtenerMensajeError(campo: string, errores: Option<ErroresControl>, tocado: bool): (m: string)
    ensures errores.None? || !tocado ==> m == ""
    ensures errores.Some? && tocado && errores.value.required ==> m == campo + " es requerido"
    ensures errores.Some? && tocado && !errores.value.required && errores.value.min.Some? ==>
      m == "El precio debe ser mayor a " + IntToString(errores.value.min.value)
    ensures errores.Some? && tocado && !errores.value.required && errores.value.min.None? ==> m == "Campo inválido"
  {
    if errores.None? || !tocado then ""
    else if errores.value.required then campo + " es requerido"
    else if errores.value.min.Some? then "El precio debe ser mayor a " + IntToString(errores.value.min.value)
    else "Campo inválido"
  }

  /** A message is shown exactly when the control was touched and has errors. */
  lemma MensajeSoloConErrores(campo: string, errores: Option<ErroresControl>, tocado: bool)
    ensures ObtenerMensajeError(campo, errores, tocado) != "" <==> errores.Some? && tocado
  {
  }

  /** `propiedades.find(p => p.id === id)`: the first property with that id. */
  function Buscar(propiedades: seq<PropiedadBackend>, id: Option<int>): (r: Option<PropiedadBackend>)
    ensures r.Some? ==> id.Some? && r.value in propiedades && r.value.id == id.value
    ensures r.None? ==> id.None? || forall p :: p in propiedades ==> p.id != id.value
    ensures r.Some? ==> exists i :: (0 <= i < |propiedades| && propiedades[i] == r.value
      && forall j :: 0 <= j < i ==> propiedades[j].id != id.value)
  {
    if id.None? || |propiedades| == 0 then None
    else if propiedades[0].id == id.value then Some(propiedades[0])
    else
      var r := Buscar(propiedades[1..], id);
      if r.Some? then
        var i :| 0 <= i < |propiedades[1..]| && propiedades[1..][i] == r.value
          && forall j :: 0 <= j < i ==> propiedades[1..][j].id != id.value;
        assert propiedades[i + 1] == r.value;
        r
      else r
  }

  // ================================================================ the component

  class FormularioUnidadComponent {
    var formulario: ValorFormulario
    var procesando: bool
    var propiedadId: Option<int>
    var unidadId: Option<int>
    var propiedadNombre: string
    var esEdicion: bool
    var serviciosSeleccionados: seq<string>

    constructor ()
      ensures formulario == FormularioInicial && !procesando && !esEdicion
      ensures propiedadId == Some(0) && unidadId == Some(0) && propiedadNombre == "" && serviciosSeleccionados == []
    {
      formulario := FormularioInicial;
      procesando := false;
      propiedadId := Some(0);
      unidadId := Some(0);
      propiedadNombre := "";
      esEdicion := false;
      serviciosSeleccionados := [];
    }

    /** `get imagenesFormArray()`. */
    function Imagenes(): seq<string>
      reads this
    {
      formulario.imagenes.GetOr([])
    }

    /** `isServicioSeleccionado(servicio)`. */
    function IsServicioSeleccionado(servicio: string): (r: bool)
      reads this
      ensures r <==> exists i :: 0 <= i < |serviciosSeleccionados| && serviciosSeleccionados[i] == servicio
    {
      servicio in serviciosSeleccionados
    }

    /**
     * `detectarModo()`: a `nueva-unidad` route creates a unit for the
     * property in the route, and a missing (0 or NaN) id stops there with an
     * alert; an `editar` route edits the unit in the route. `cargarNombre`
     * says the property's name is requested.
     */
    method DetectarModo(segmentos: seq<string>, propiedadParam: Option<int>, unidadParam: Option<int>)
      returns (cargarNombre: bool, aviso: Option<string>)
      modifies this
      ensures "nueva-unidad" in segmentos ==>
        !esEdicion && propiedadId == propiedadParam && unidadId == old(unidadId)
        && propiedadNombre == old(propiedadNombre)
        && (IdInvalido(propiedadParam) ==> !cargarNombre && aviso == Some(Alerta("Error de navegación", "ID de propiedad inválido")))
        && (!IdInvalido(propiedadParam) ==> cargarNombre && aviso.None?)
      ensures "nueva-unidad" !in segmentos && "editar" in segmentos ==>
        esEdicion && unidadId == unidadParam && propiedadId == old(propiedadId)
        && propiedadNombre == "Cargando..." && !cargarNombre && aviso.None?
      ensures "nueva-unidad" !in segmentos && "editar" !in segmentos ==>
        esEdicion == old(esEdicion) && unidadId == old(unidadId) && propiedadId == old(propiedadId)
        && propiedadNombre == old(propiedadNombre) && !cargarNombre && aviso.None?
      ensures formulario == old(formulario) && procesando == old(procesando)
      ensures serviciosSeleccionados == old(serviciosSeleccionados)
    {
      cargarNombre := false;
      aviso := None;
      if "nueva-unidad" in segmentos {
        esEdicion := false;
        propiedadId := propiedadParam;
        if IdInvalido(propiedadId) {
          aviso := Some(Alerta("Error de navegación", "ID de propiedad inválido"));
          return;
        }
        cargarNombre := true;
      } else if "editar" in segmentos {
        esEdicion := true;
        unidadId := unidadParam;
        propiedadNombre := "Cargando...";
      }
    }

    /** What the route decided: the mode, both ids and the property's name. */
    function Ruta(): (bool, Option<int>, Option<int>, string)
      reads this
    {
      (esEdicion, propiedadId, unidadId, propiedadNombre)
    }

    /** The landlord's properties arrived: the name of this one, or its id when it is not among them. */
    method OnNombreRespuesta(success: bool, data: Option<seq<PropiedadBackend>>)
      modifies this
      ensures success && data.Some? ==> (propiedadNombre ==
        var p := Buscar(data.value, propiedadId); if p.Some? then p.value.nombre else "Propiedad ID: " + IdTexto(propiedadId))
      ensures !(success && data.Some?) ==> propiedadNombre == old(propiedadNombre)
      ensures propiedadId == old(propiedadId) && formulario == old(formulario) && procesando == old(procesando)
      ensures serviciosSeleccionados == old(serviciosSeleccionados) && esEdicion == old(esEdicion)
      ensures unidadId == old(unidadId)
    {
      if success && data.Some? {
        var p := Buscar(data.value, propiedadId);
        propiedadNombre := if p.Some? then p.value.nombre else "Propiedad ID: " + IdTexto(propiedadId);
      }
    }

    /** The properties could not be loaded: the page names the property by its id. */
    method OnNombreError()
      modifies this
      ensures propiedadNombre == "Propiedad ID: " + IdTexto(propiedadId)
      ensures propiedadId == old(propiedadId) && formulario == old(formulario) && procesando == old(procesando)
      ensures serviciosSeleccionados == old(serviciosSeleccionados) && esEdicion == old(esEdicion)
      ensures unidadId == old(unidadId)
    {
      propiedadNombre := "Propiedad ID: " + IdTexto(propiedadId);
    }

    /** `toggleServicio(servicio)`. */
    method ToggleServicio(servicio: string)
      modifies this
      ensures serviciosSeleccionados == Alternar(old(serviciosSeleccionados), servicio)
      ensures formulario == old(formulario) && procesando == old(procesando) && esEdicion == old(esEdicion)
      ensures propiedadId == old(propiedadId) && unidadId == old(unidadId) && propiedadNombre == old(propiedadNombre)
    {
      var index := IndexOf(serviciosSeleccionados, servicio);
      if index == -1 {
        serviciosSeleccionados := serviciosSeleccionados + [servicio];
      } else {
        serviciosSeleccionados := serviciosSeleccionados[..index] + serviciosSeleccionados[index + 1..];
      }
    }

    /**
     * `agregarImagen()`, given what the prompt returned (`None` when it
     * was cancelled): the list of images grows by the trimmed URL while it
     * has fewer than ten, and the limit is reported otherwise.
     */
    method AgregarImagen(url: Option<string>) returns (aviso: Option<string>)
      modifies this
      ensures Imagenes() == ConImagen(old(Imagenes()), url)
      ensures |old(Imagenes())| <= MaxImagenes ==> |Imagenes()| <= MaxImagenes
      ensures aviso.Some? <==> url.Some? && !IsBlank(url.value) && |old(Imagenes())| >= MaxImagenes
      ensures aviso.Some? ==> aviso.value == Alerta("Límite alcanzado", "Solo puedes agregar hasta 10 imágenes")
      ensures formulario.precio == old(formulario.precio) && formulario.terraza == old(formulario.terraza)
      ensures formulario.amueblado == old(formulario.amueblado) && formulario.disponible == old(formulario.disponible)
      ensures formulario.caracteristicas == old(formulario.caracteristicas)
      ensures serviciosSeleccionados == old(serviciosSeleccionados) && procesando == old(procesando)
      ensures Ruta() == old(Ruta())
    {
      aviso := None;
      if url.Some? && Trim(url.value) != "" {
        var actuales := formulario.imagenes.GetOr([]);
        if |actuales| < MaxImagenes {
          actuales := actuales + [Trim(url.value)];
          formulario := formulario.(imagenes := Some(actuales));
        } else {
          aviso := Some(Alerta("Límite alcanzado", "Solo puedes agregar hasta 10 imágenes"));
        }
      }
    }

    /** `eliminarImagen(index)`. */
    method EliminarImagen(index: int)
      modifies this
      ensures formulario == old(formulario).(imagenes := Some(SpliceUno(old(Imagenes()), index)))
      ensures 0 <= index < |old(Imagenes())| ==> Imagenes() == old(Imagenes())[..index] + old(Imagenes())[index + 1..]
      ensures serviciosSeleccionados == old(serviciosSeleccionados) && procesando == old(procesando)
      ensures Ruta() == old(Ruta())
    {
      var actuales := formulario.imagenes.GetOr([]);
      actuales := SpliceUno(actuales, index);
      formulario := formulario.(imagenes := Some(actuales));
    }

    /**
     * `guardarUnidad()`, given the form's validity and the stored token:
     * an invalid form or a missing token stop with an alert; otherwise the
     * update is sent in edit mode, and in create mode the unit is sent
     * unless the property id is missing, which leaves `procesando` off.
     */
    method GuardarUnidad(valido: bool, token: Option<string>) returns (envio: Envio, aviso: Option<string>)
      modifies this
      ensures !valido ==> (envio.SinEnvio?
        && aviso == Some(Alerta("Formulario incompleto", "Por favor completa todos los campos requeridos"))
        && procesando == old(procesando))
      ensures valido && (token.None? || token.value == "") ==> (envio.SinEnvio?
        && aviso == Some(Alerta("Error de autenticación", "No estás autenticado")) && procesando == old(procesando))
      ensures valido && token.Some? && token.value != "" && esEdicion ==>
        envio == Actualizacion(unidadId, DatosEdicion(formulario, serviciosSeleccionados)) && aviso.None? && procesando
      ensures valido && token.Some? && token.value != "" && !esEdicion && IdInvalido(propiedadId) ==>
        envio.SinEnvio? && aviso == Some(Alerta("Error de datos", "ID de propiedad inválido")) && !procesando
      ensures valido && token.Some? && token.value != "" && !esEdicion && !IdInvalido(propiedadId) ==>
        envio == Registro(DatosCreacion(propiedadId.value, formulario, serviciosSeleccionados)) && aviso.None? && procesando
      ensures formulario == old(formulario) && serviciosSeleccionados == old(serviciosSeleccionados)
      ensures esEdicion == old(esEdicion) && propiedadId == old(propiedadId) && unidadId == old(unidadId)
      ensures propiedadNombre == old(propiedadNombre)
    {
      envio := SinEnvio;
      aviso := None;
      if !valido {
        aviso := Some(Alerta("Formulario incompleto", "Por favor completa todos los campos requeridos"));
        return;
      }
      if token.None? || token.value == "" {
        aviso := Some(Alerta("Error de autenticación", "No estás autenticado"));
        return;
      }
      if esEdicion {
        procesando := true;
        envio := Actualizacion(unidadId, DatosEdicion(formulario, serviciosSeleccionados));
      } else {
        procesando := true;
        if IdInvalido(propiedadId) {
          procesando := false;
          aviso := Some(Alerta("Error de datos", "ID de propiedad inválido"));
          return;
        }
        envio := Registro(DatosCreacion(propiedadId.value, formulario, serviciosSeleccionados));
      }
    }

    /** The creation answered; `volver` says the page goes back to the dashboard. */
    method OnRegistroRespuesta(success: bool) returns (aviso: string, volver: bool)
      modifies this
      ensures !procesando && volver == success
      ensures aviso == if success then "Unidad registrada exitosamente" else Alerta("Error", "Error al registrar la unidad")
      ensures formulario == old(formulario) && serviciosSeleccionados == old(serviciosSeleccionados)
      ensures Ruta() == old(Ruta())
    {
      procesando := false;
      if success {
        aviso := "Unidad registrada exitosamente";
        volver := true;
      } else {
        aviso := Alerta("Error", "Error al registrar la unidad");
        volver := false;
      }
    }

    /** The creation failed: the best message available, with the status. */
    method OnRegistroError(e: ErrorRegistro) returns (aviso: string)
      modifies this
      ensures !procesando
      ensures aviso == Alerta("Error al registrar unidad", MensajeRegistro(e) + " (Status: " + IntToString(e.status) + ")")
      ensures formulario == old(formulario) && serviciosSeleccionados == old(serviciosSeleccionados)
      ensures Ruta() == old(Ruta())
    {
      procesando := false;
      var mensaje := "Error interno del servidor";
      if e.cuerpoMessage.Some? && e.cuerpoMessage.value != "" {
        mensaje := e.cuerpoMessage.value;
      } else if e.cuerpoMensaje.Some? && e.cuerpoMensaje.value != "" {
        mensaje := e.cuerpoMensaje.value;
      } else if e.message.Some? && e.message.value != "" {
        mensaje := e.message.value;
      }
      aviso := Alerta("Error al registrar unidad", mensaje + " (Status: " + IntToString(e.status) + ")");
    }

    /** The update answered. */
    method OnActualizacionRespuesta(success: bool) returns (aviso: string, volver: bool)
      modifies this
      ensures !procesando && volver == success
      ensures aviso == if success then "Unidad actualizada exitosamente" else Alerta("Error", "Error al actualizar la unidad")
      ensures formulario == old(formulario) && serviciosSeleccionados == old(serviciosSeleccionados)
      ensures Ruta() == old(Ruta())
    {
      procesando := false;
      if success {
        aviso := "Unidad actualizada exitosamente";
        volver := true;
      } else {
        aviso := Alerta("Error", "Error al actualizar la unidad");
        volver := false;
      }
    }

    /** The update failed. */
    method OnActualizacionError() returns (aviso: string)
      modifies this
      ensures !procesando && aviso == Alerta("Error del servidor", "Error al actualizar la unidad")
      ensures formulario == old(formulario) && serviciosSeleccionados == old(serviciosSeleccionados)
      ensures Ruta() == old(Ruta())
    {
      procesando := false;
      aviso := Alerta("Error del servidor", "Error al actualizar la unidad");
    }
  }
}
