/**
 * The student home page: the search filters it turns into a filter request,
 * the results and error message it shows, the hero carousel, and whether
 * the search bar sticks to the top of the page.
 *
 * HTTP calls are left out: a request method returns the request it would
 * send, and each response or error handler is a method of its own. Timers
 * and the `IntersectionObserver` only deliver the events modelled here.
 */
module Home {
  import opened Js
  import opened Text
  import Core = CorePropiedadService
  import MapaBusqueda

  type Propiedad = MapaBusqueda.Listing

  /** `{ success, data }` of the listing endpoints; `data` may be absent. */
  datatype Respuesta = Respuesta(success: bool, data: Option<seq<Propiedad>>)

  /** An HTTP error: the body's `mensaje` (None when absent or not a string) and the status. */
  datatype ErrorHttp = ErrorHttp(mensaje: Option<string>, status: int)

  /** What the `IntersectionObserver` reports an entry for. */
  datatype Objetivo = Sentinela | Mapa | Otro

  /** One `IntersectionObserverEntry`. */
  datatype Entrada = Entrada(objetivo: Objetivo, visible: bool)

  // ================================================================ filters

  /**
   * The filter object `aplicarFiltros` builds: prices only when positive,
   * place names trimmed and only when not blank, and the distance only with
   * a university, where it defaults to 2 km.
   */
  function FiltrosDe(precioMin: Option<int>, precioMax: Option<int>, colonia: string, municipio: string,
                     universidadNombre: string, rangoKm: Option<int>): (f: Core.Filtros)
    ensures f.precioMin.Value? <==> precioMin.Some? && precioMin.value > 0
    ensures f.precioMin.Value? ==> f.precioMin.value == precioMin.value
    ensures f.precioMax.Value? <==> precioMax.Some? && precioMax.value > 0
    ensures f.precioMax.Value? ==> f.precioMax.value == precioMax.value
    ensures f.colonia.Some? <==> !IsBlank(colonia)
    ensures f.colonia.Some? ==> f.colonia.value == Trim(colonia) != ""
    ensures f.municipio.Some? <==> !IsBlank(municipio)
    ensures f.municipio.Some? ==> f.municipio.value == Trim(municipio) != ""
    ensures f.universidadNombre.Some? <==> !IsBlank(universidadNombre)
    ensures f.universidadNombre.Some? ==> f.universidadNombre.value == Trim(universidadNombre) != ""
    ensures f.rangoKm.Some? <==> f.universidadNombre.Some?
    ensures f.rangoKm.Some? ==>
      (f.rangoKm.value > 0 && f.rangoKm.value == (if rangoKm.Some? && rangoKm.value > 0 then rangoKm.value else 2))
    ensures f.universidadId.None?
  {
    var vacio := Core.Filtros(Undefined, Undefined, None, None, None, None, None);
    var f1 := if precioMin.Some? && precioMin.value > 0 then vacio.(precioMin := Value(precioMin.value)) else vacio;
    var f2 := if precioMax.Some? && precioMax.value > 0 then f1.(precioMax := Value(precioMax.value)) else f1;
    var f3 := if Trim(colonia) != "" then f2.(colonia := Some(Trim(colonia))) else f2;
    var f4 := if Trim(municipio) != "" then f3.(municipio := Some(Trim(municipio))) else f3;
    if Trim(universidadNombre) != "" then
      f4.(universidadNombre := Some(Trim(universidadNombre)),
          rangoKm := Some(if rangoKm.Some? && rangoKm.value > 0 then rangoKm.value else 2))
    else f4
  }

  /**
   * The filter object built field by field, as `aplicarFiltros` does;
   * it is the one `FiltrosDe` describes.
   */
  method ArmarFiltros(pMin: Option<int>, pMax: Option<int>, col: string, mun: string, uni: string, rango: Option<int>)
    returns (filtros: Core.Filtros)
    ensures filtros == FiltrosDe(pMin, pMax, col, mun, uni, rango)
  {
    filtros := Core.Filtros(Undefined, Undefined, None, None, None, None, None);
    if pMin.Some? && pMin.value > 0 {
      filtros := filtros.(precioMin := Value(pMin.value));
    }
    if pMax.Some? && pMax.value > 0 {
      filtros := filtros.(precioMax := Value(pMax.value));
    }
    if Trim(col) != "" {
      filtros := filtros.(colonia := Some(Trim(col)));
    }
    if Trim(mun) != "" {
      filtros := filtros.(municipio := Some(Trim(mun)));
    }
    if Trim(uni) != "" {
      filtros := filtros.(universidadNombre := Some(Trim(uni)));
      filtros := filtros.(rangoKm := Some(if rango.Some? && rango.value > 0 then rango.value else 2));
    }
  }

  /**
   * What the home page's filters put on the wire through the property
   * service: a price only when positive, the trimmed place names only when
   * not blank, the trimmed university with a positive distance, and never
   * a university id.
   */
  lemma FiltrosEnviados(precioMin: Option<int>, precioMax: Option<int>, colonia: string, municipio: string,
                        universidadNombre: string, rangoKm: Option<int>)
    ensures var f := FiltrosDe(precioMin, precioMax, colonia, municipio, universidadNombre, rangoKm);
      && (Core.ValorEnviado(f, "precioMin").Some? <==> precioMin.Some? && precioMin.value > 0)
      && (Core.ValorEnviado(f, "precioMax").Some? <==> precioMax.Some? && precioMax.value > 0)
      && Core.ValorEnviado(f, "colonia") == (if IsBlank(colonia) then None else Some(Trim(colonia)))
      && Core.ValorEnviado(f, "municipio") == (if IsBlank(municipio) then None else Some(Trim(municipio)))
      && Core.ValorEnviado(f, "universidadNombre")
         == (if IsBlank(universidadNombre) then None else Some(Trim(universidadNombre)))
      && (Core.ValorEnviado(f, "rangoKm").Some? <==> !IsBlank(universidadNombre))
      && Core.ValorEnviado(f, "universidadId").None?
  {
  }

  // ================================================================ messages

  /** The message for a failed load, by priority. */
  function MensajeErrorCarga(err: ErrorHttp): (m: string)
    ensures err.mensaje.Some? && err.mensaje.value != "" ==> m == err.mensaje.value
    ensures !(err.mensaje.Some? && err.mensaje.value != "") ==>
      m == (if err.status == 0 then "No se puede conectar con el servidor."
            else if err.status == 404 then "Endpoint no encontrado."
            else if err.status == 500 then "Error en el servidor."
            else "Error al cargar las propiedades.")
    ensures m != ""
  {
    if err.mensaje.Some? && err.mensaje.value != "" then err.mensaje.value
    else if err.status == 0 then "No se puede conectar con el servidor."
    else if err.status == 404 then "Endpoint no encontrado."
    else if err.status == 500 then "Error en el servidor."
    else "Error al cargar las propiedades."
  }

  /** The server's own message wins over every status rule. */
  lemma MensajeServidorPrimero(m: string, s1: int, s2: int)
    requires m != ""
    ensures MensajeErrorCarga(ErrorHttp(Some(m), s1)) == MensajeErrorCarga(ErrorHttp(Some(m), s2)) == m
  {
  }

  /**
   * `encodeURIComponent('Hola, me interesa una de tus propiedades en UniRenta 🏠')`:
   * the comma, the spaces and the UTF-8 bytes of U+1F3E0 percent-encoded.
   */
  const MensajeContacto := "Hola%2C%20me%20interesa%20una%20de%20tus%20propiedades%20en%20UniRenta%20%F0%9F%8F%A0"

  const PrefijoWhatsApp := "https://wa.me/52"

  /** `contactarRentero(telefono)`: the WhatsApp link opened, if any. */
  function ContactarRentero(telefono: Option<string>): (url: Option<string>)
    ensures url.None? <==> telefono.None? || telefono.value == ""
    ensures url.Some? ==> (StartsWith(url.value, PrefijoWhatsApp)
      && Before(url.value[|PrefijoWhatsApp|..], '?') == KeepDigits(telefono.value)
      && After(url.value[|PrefijoWhatsApp|..], '?') == "text=" + MensajeContacto)
  {
    if telefono.None? || telefono.value == "" then None
    else
      var d := KeepDigits(telefono.value);
      EnlaceLegible(PrefijoWhatsApp, d, "text=" + MensajeContacto);
      Some(PrefijoWhatsApp + d + "?" + ("text=" + MensajeContacto))
  }

  /**
   * The link carries the telephone's digits and nothing else of it:
   * formatting characters are dropped, and two numbers with the same digits
   * give the same link.
   */
  lemma ContactoSoloDigitos(a: string, b: string)
    requires a != "" && b != ""
    ensures var u := ContactarRentero(Some(a)).value;
      StartsWith(u, PrefijoWhatsApp) && AllDigits(u[|PrefijoWhatsApp|..|PrefijoWhatsApp| + |KeepDigits(a)|])
    ensures KeepDigits(a) == KeepDigits(b) ==> ContactarRentero(Some(a)) == ContactarRentero(Some(b))
  {
    var d := KeepDigits(a);
    var u := PrefijoWhatsApp + d + "?" + ("text=" + MensajeContacto);
    assert u[..|PrefijoWhatsApp|] == PrefijoWhatsApp;
    assert u[|PrefijoWhatsApp|..|PrefijoWhatsApp| + |d|] == d;
  }

  // ================================================================ carousel

  const Slides: nat := 3

  /** Euclidean division and remainder recombine to the dividend. */
  lemma DivRem(a: int, n: nat)
    requires n > 0
    ensures a == (a / n) * n + a % n
  {
  }

  /**
   * JavaScript's `a % n` for n > 0: `a - n * trunc(a / n)`, truncating
   * toward zero, so the sign follows a.
   */
  function JsRem(a: int, n: nat): (r: int)
    requires n > 0
    ensures a >= 0 ==> 0 <= r < n && a - r == (a / n) * n
    ensures a < 0 ==> -(n as int) < r <= 0 && a - r == -(((-a) / n) * n)
  {
    if a >= 0 then DivRem(a, n); a % n else DivRem(-a, n); -((-a) % n)
  }

  /**
   * `goToSlide` stores any index; a tick from slide -5 computes `(-4) % 3`,
   * which is -1 in JavaScript, so the slide is still out of range.
   */
  lemma TickDesdeNegativo()
    ensures Siguiente(-5) == -1
  {
    assert JsRem(-4, Slides) == -1;
  }

  /** One carousel tick: `(currentSlide + 1) % 3`. */
  function Siguiente(slide: int): (r: int)
    ensures 0 <= slide < Slides ==> 0 <= r < Slides && r == (slide + 1) % Slides
  {
    JsRem(slide + 1, Slides)
  }

  /**
   * Whatever `goToSlide` stored, at most three ticks bring the slide back
   * into 0..2, and from there the carousel cycles with period three.
   */
  lemma TresTicks(slide: int)
    ensures 0 <= Siguiente(Siguiente(Siguiente(slide))) < Slides
    ensures 0 <= slide < Slides ==> Siguiente(Siguiente(Siguiente(slide))) == slide
  {
    var a := Siguiente(slide);
    var b := Siguiente(a);
    if slide < 0 {
      assert -3 < a <= 0;
      assert -2 < b <= 1;
    }
  }

  // ================================================================ the component

  /** The last visibility reported for a target, or `actual` when none is. */
  function UltimaVisibilidad(entradas: seq<Entrada>, objetivo: Objetivo, actual: bool): bool {
    if |entradas| == 0 then actual
    else if entradas[|entradas| - 1].objetivo == objetivo then entradas[|entradas| - 1].visible
    else UltimaVisibilidad(entradas[..|entradas| - 1], objetivo, actual)
  }

  /** A batch that says nothing about a target leaves its visibility as it was. */
  lemma {:induction false} UltimaSinMencion(entradas: seq<Entrada>, objetivo: Objetivo, actual: bool)
    requires forall i :: 0 <= i < |entradas| ==> entradas[i].objetivo != objetivo
    ensures UltimaVisibilidad(entradas, objetivo, actual) == actual
  {
    if |entradas| > 0 {
      UltimaSinMencion(entradas[..|entradas| - 1], objetivo, actual);
    }
  }

  class HomeComponent {
    var propiedades: seq<Propiedad>
    var cargando: bool
    var error: string
    var precioMin: Option<int>
    var precioMax: Option<int>
    var colonia: string
    var municipio: string
    var universidadNombre: string
    var rangoKm: Option<int>
    var currentSlide: int
    var isSticky: bool
    var sentinelVisible: bool
    var mapVisible: bool

    constructor ()
      ensures propiedades == [] && !cargando && error == ""
      ensures precioMin.None? && precioMax.None? && rangoKm.None?
      ensures colonia == "" && municipio == "" && universidadNombre == ""
      ensures currentSlide == 0 && !isSticky && sentinelVisible && !mapVisible
    {
      propiedades := [];
      cargando := false;
      error := "";
      precioMin := None;
      precioMax := None;
      colonia := "";
      municipio := "";
      universidadNombre := "";
      rangoKm := None;
      currentSlide := 0;
      isSticky := false;
      sentinelVisible := true;
      mapVisible := false;
    }

    /** The six filter fields are cleared. */
    predicate FiltrosVacios()
      reads this
    {
      precioMin.None? && precioMax.None? && colonia == "" && municipio == "" && universidadNombre == "" && rangoKm.None?
    }

    /** The six filter fields, read together. */
    function Criterios(): (Option<int>, Option<int>, string, string, string, Option<int>)
      reads this
    {
      (precioMin, precioMax, colonia, municipio, universidadNombre, rangoKm)
    }

    /** What the observer last reported for the sentinel and the map. */
    function Observados(): (bool, bool)
      reads this
    {
      (sentinelVisible, mapVisible)
    }

    /** `cargarPropiedades()` up to the request: loading starts and the error clears. */
    method CargarPropiedades()
      modifies this
      ensures cargando && error == ""
      ensures propiedades == old(propiedades) && currentSlide == old(currentSlide) && isSticky == old(isSticky)
      ensures precioMin == old(precioMin) && precioMax == old(precioMax) && rangoKm == old(rangoKm)
      ensures colonia == old(colonia) && municipio == old(municipio) && universidadNombre == old(universidadNombre)
      ensures sentinelVisible == old(sentinelVisible) && mapVisible == old(mapVisible)
    {
      cargando := true;
      error := "";
    }

    /** The load succeeded: the listings are shown, or the page says they could not be loaded. */
    method OnCargaRespuesta(r: Respuesta)
      modifies this
      ensures !cargando
      ensures r.success && r.data.Some? ==> propiedades == r.data.value && error == old(error)
      ensures !(r.success && r.data.Some?) ==>
        propiedades == [] && error == "No se pudieron cargar las propiedades."
      ensures isSticky == old(isSticky) && currentSlide == old(currentSlide)
      ensures Criterios() == old(Criterios()) && Observados() == old(Observados())
    {
      if r.success && r.data.Some? {
        propiedades := r.data.value;
      } else {
        error := "No se pudieron cargar las propiedades.";
        propiedades := [];
      }
      cargando := false;
    }

    /** The load failed: no listings, and the message for the error. */
    method OnCargaError(err: ErrorHttp)
      modifies this
      ensures !cargando && propiedades == [] && error == MensajeErrorCarga(err)
      ensures isSticky == old(isSticky) && currentSlide == old(currentSlide)
      ensures Criterios() == old(Criterios()) && Observados() == old(Observados())
    {
      if err.mensaje.Some? && err.mensaje.value != "" {
        error := err.mensaje.value;
      } else if err.status == 0 {
        error := "No se puede conectar con el servidor.";
      } else if err.status == 404 {
        error := "Endpoint no encontrado.";
      } else if err.status == 500 {
        error := "Error en el servidor.";
      } else {
        error := "Error al cargar las propiedades.";
      }
      propiedades := [];
      cargando := false;
    }

    /** `aplicarFiltros()` up to the request: the filter object and the request sent for it. */
    method AplicarFiltros() returns (filtros: Core.Filtros, req: Core.Get)
      modifies this
      ensures cargando && error == ""
      ensures filtros == FiltrosDe(precioMin, precioMax, colonia, municipio, universidadNombre, rangoKm)
      ensures forall k :: Core.Lookup(req.params, k) == Core.ValorEnviado(filtros, k)
      ensures precioMin == old(precioMin) && precioMax == old(precioMax) && rangoKm == old(rangoKm)
      ensures colonia == old(colonia) && municipio == old(municipio) && universidadNombre == old(universidadNombre)
      ensures propiedades == old(propiedades) && isSticky == old(isSticky) && currentSlide == old(currentSlide)
      ensures Observados() == old(Observados())
    {
      cargando := true;
      error := "";
      filtros := ArmarFiltros(precioMin, precioMax, colonia, municipio, universidadNombre, rangoKm);
      req := Core.FiltrarPropiedades(filtros);
    }

    /** The filter request answered: results, or the filter failure message. */
    method OnFiltroRespuesta(r: Respuesta)
      modifies this
      ensures !cargando
      ensures r.success && r.data.Some? ==>
        propiedades == r.data.value && error == old(error)
        && isSticky == (old(isSticky) && r.data.value != [])
      ensures !(r.success && r.data.Some?) ==>
        propiedades == [] && error == "No se pudieron filtrar las propiedades." && !isSticky
      ensures currentSlide == old(currentSlide)
      ensures Criterios() == old(Criterios()) && Observados() == old(Observados())
    {
      if r.success && r.data.Some? {
        propiedades := r.data.value;
        if |propiedades| == 0 {
          isSticky := false;
        }
      } else {
        error := "No se pudieron filtrar las propiedades.";
        propiedades := [];
        isSticky := false;
      }
      cargando := false;
    }

    /** The filter request failed. */
    method OnFiltroError()
      modifies this
      ensures !cargando && propiedades == [] && !isSticky
      ensures error == "Error al filtrar las propiedades. Por favor, intenta de nuevo."
      ensures currentSlide == old(currentSlide)
      ensures Criterios() == old(Criterios()) && Observados() == old(Observados())
    {
      error := "Error al filtrar las propiedades. Por favor, intenta de nuevo.";
      propiedades := [];
      cargando := false;
      isSticky := false;
    }

    /** `limpiarFiltros()`: the six filters are cleared and the full list is requested again. */
    method LimpiarFiltros()
      modifies this
      ensures FiltrosVacios()
      ensures cargando && error == ""
      ensures propiedades == old(propiedades) && currentSlide == old(currentSlide)
      ensures isSticky == old(isSticky) && Observados() == old(Observados())
    {
      precioMin := None;
      precioMax := None;
      colonia := "";
      municipio := "";
      universidadNombre := "";
      rangoKm := None;
      CargarPropiedades();
    }

    /** One tick of the carousel interval. */
    method Tick()
      modifies this
      ensures currentSlide == Siguiente(old(currentSlide))
      ensures 0 <= old(currentSlide) < Slides ==> 0 <= currentSlide < Slides
      ensures propiedades == old(propiedades) && isSticky == old(isSticky)
      ensures cargando == old(cargando) && error == old(error)
      ensures Criterios() == old(Criterios()) && Observados() == old(Observados())
    {
      currentSlide := JsRem(currentSlide + 1, Slides);
    }

    /** `goToSlide(index)`: no range check. */
    method GoToSlide(index: int)
      modifies this
      ensures currentSlide == index
      ensures propiedades == old(propiedades) && isSticky == old(isSticky)
      ensures cargando == old(cargando) && error == old(error)
      ensures Criterios() == old(Criterios()) && Observados() == old(Observados())
    {
      currentSlide := index;
    }

    /**
     * The observer callback: each entry updates the visibility of its
     * target, in order, then the search bar sticks exactly when neither the
     * sentinel nor the map is visible.
     */
    method OnInterseccion(entradas: seq<Entrada>)
      modifies this
      ensures sentinelVisible == UltimaVisibilidad(entradas, Sentinela, old(sentinelVisible))
      ensures mapVisible == UltimaVisibilidad(entradas, Mapa, old(mapVisible))
      ensures isSticky <==> !sentinelVisible && !mapVisible
      ensures propiedades == old(propiedades) && currentSlide == old(currentSlide)
      ensures cargando == old(cargando) && error == old(error) && Criterios() == old(Criterios())
    {
      var sentinela := sentinelVisible;
      var mapa := mapVisible;
      for n := 0 to |entradas|
        invariant sentinela == UltimaVisibilidad(entradas[..n], Sentinela, old(sentinelVisible))
        invariant mapa == UltimaVisibilidad(entradas[..n], Mapa, old(mapVisible))
      {
        assert entradas[..n + 1][..n] == entradas[..n];
        if entradas[n].objetivo == Sentinela {
          sentinela := entradas[n].visible;
        }
        if entradas[n].objetivo == Mapa {
          mapa := entradas[n].visible;
        }
      }
      assert entradas[..|entradas|] == entradas;
      sentinelVisible := sentinela;
      mapVisible := mapa;
      isSticky := !sentinelVisible && !mapVisible;
    }
  }
}
