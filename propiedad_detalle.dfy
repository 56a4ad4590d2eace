/**
 * A property's detail page for students: the property loaded by id, an
 * image gallery that wraps around at both ends, and a WhatsApp link to the
 * landlord.
 *
 * The request is left out: its answer and its failure are handler methods.
 * `encodeURIComponent` is taken as a parameter of the link.
 */
module PropiedadDetalle {
  import opened Js
  import opened Text
  import opened Interfaces

  // ================================================================ gallery steps

  /** `imagenAnterior` on the index: from 0 to the last image, otherwise one back. */
  function Anterior(actual: int, n: int): (r: int)
    ensures 0 < n && 0 <= actual < n ==> 0 <= r < n
    ensures actual == 0 ==> r == n - 1
  {
    if actual == 0 then n - 1 else actual - 1
  }

  /** `imagenSiguiente` on the index: from the last image to 0, otherwise one on. */
  function Siguiente(actual: int, n: int): (r: int)
    ensures 0 < n && 0 <= actual < n ==> 0 <= r < n
    ensures actual == n - 1 ==> r == 0
  {
    if actual == n - 1 then 0 else actual + 1
  }

  /** Going on and then back, or back and then on, returns to the same image. */
  lemma AnteriorSiguienteInversas(actual: int, n: int)
    requires 0 <= actual < n
    ensures Anterior(Siguiente(actual, n), n) == actual
    ensures Siguiente(Anterior(actual, n), n) == actual
  {
  }

  /** `k` steps forward. */
  function Avanzar(actual: int, n: int, k: nat): int {
    if k == 0 then actual else Siguiente(Avanzar(actual, n, k - 1), n)
  }

  /** Steps forward add up. */
  lemma {:induction false} AvanzarSuma(actual: int, n: int, j: nat, k: nat)
    ensures Avanzar(actual, n, j + k) == Avanzar(Avanzar(actual, n, j), n, k)
  {
    if k > 0 {
      AvanzarSuma(actual, n, j, k - 1);
    }
  }

  /** Before the last image, k steps forward move k images on. */
  lemma {:induction false} AvanzarSinVuelta(actual: int, n: int, k: nat)
    requires 0 <= actual && actual + k < n
    ensures Avanzar(actual, n, k) == actual + k
  {
    if k > 0 {
      AvanzarSinVuelta(actual, n, k - 1);
    }
  }

  /** As many steps forward as there are images come back to the start. */
  lemma VueltaCompleta(actual: int, n: int)
    requires 0 <= actual < n
    ensures Avanzar(actual, n, n) == actual
  {
    var hastaUltima := n - 1 - actual;
    AvanzarSinVuelta(actual, n, hastaUltima);
    AvanzarSuma(actual, n, hastaUltima, 1);
    assert Avanzar(actual, n, n - actual) == 0;
    AvanzarSuma(actual, n, n - actual, actual);
    AvanzarSinVuelta(0, n, actual);
  }

  /**
   * With no images the steps leave the valid range: back from 0 gives -1,
   * and on from 0 gives 1, since 0 is not the last index -1.
   */
  lemma SinImagenes()
    ensures Anterior(0, 0) == -1 && Siguiente(0, 0) == 1
  {
  }

  // ================================================================ messages and links

  /** The message for a failed load. */
  function MensajeErrorCarga(status: int): (m: string)
    ensures status == 404 ==> m == "Propiedad no encontrada"
    ensures status == 0 ==> m == "No se puede conectar con el servidor"
    ensures status != 404 && status != 0 ==> m == "Error al cargar la propiedad"
  {
    if status == 404 then "Propiedad no encontrada"
    else if status == 0 then "No se puede conectar con el servidor"
    else "Error al cargar la propiedad"
  }

  /** The text sent to the landlord, before URI encoding. */
  function MensajeContacto(p: Propiedad): string {
    "Hola " + p.rentero.nombre + ", me interesa tu propiedad \"" + p.nombre + "\" en UniRenta"
  }

  const PrefijoWhatsApp := "https://wa.me/52"

  /**
   * The link `contactarRentero` opens, given `encodeURIComponent`: nothing
   * without a property or a telephone, otherwise the telephone's digits
   * after the Mexican country code, then the encoded message.
   */
  function EnlaceContacto(propiedad: Option<Propiedad>, codificar: string -> string): (url: Option<string>)
    ensures url.None? <==> (propiedad.None? || propiedad.value.rentero.telefono.None?
      || propiedad.value.rentero.telefono.value == "")
    ensures url.Some? ==> (StartsWith(url.value, PrefijoWhatsApp)
      && Before(url.value[|PrefijoWhatsApp|..], '?') == KeepDigits(propiedad.value.rentero.telefono.value)
      && After(url.value[|PrefijoWhatsApp|..], '?') == "text=" + codificar(MensajeContacto(propiedad.value)))
  {
    if propiedad.None? || propiedad.value.rentero.telefono.None? || propiedad.value.rentero.telefono.value == "" then None
    else
      var p := propiedad.value;
      var d := KeepDigits(p.rentero.telefono.value);
      EnlaceLegible(PrefijoWhatsApp, d, "text=" + codificar(MensajeContacto(p)));
      Some(PrefijoWhatsApp + d + "?" + ("text=" + codificar(MensajeContacto(p))))
  }

  /**
   * The number in the link is made of digits only, follows the country
   * code, and is the telephone itself when that was written with digits only.
   */
  lemma EnlaceSoloDigitos(p: Propiedad, codificar: string -> string)
    requires p.rentero.telefono.Some? && p.rentero.telefono.value != ""
    ensures var url := EnlaceContacto(Some(p), codificar).value;
      var d := KeepDigits(p.rentero.telefono.value);
      && StartsWith(url, PrefijoWhatsApp)
      && url[|PrefijoWhatsApp|..|PrefijoWhatsApp| + |d|] == d && AllDigits(d)
      && (AllDigits(p.rentero.telefono.value) ==> d == p.rentero.telefono.value)
  {
    var d := KeepDigits(p.rentero.telefono.value);
    var url := PrefijoWhatsApp + d + "?" + ("text=" + codificar(MensajeContacto(p)));
    assert url[..|PrefijoWhatsApp|] == PrefijoWhatsApp;
    assert url[|PrefijoWhatsApp|..|PrefijoWhatsApp| + |d|] == d;
    if AllDigits(p.rentero.telefono.value) {
      KeepDigitsOfDigits(p.rentero.telefono.value);
    }
  }

  // ================================================================ the component

  class PropiedadDetalleComponent {
    var propiedad: Option<Propiedad>
    var cargando: bool
    var error: string
    var imagenActual: int

    constructor ()
      ensures propiedad.None? && !cargando && error == "" && imagenActual == 0
    {
      propiedad := None;
      cargando := false;
      error := "";
      imagenActual := 0;
    }

    /** The number of images of the loaded property. */
    function NumImagenes(): nat
      reads this
      requires propiedad.Some?
    {
      |propiedad.value.imagenes|
    }

    /** The gallery index points at an image. */
    predicate IndiceValido()
      reads this
    {
      propiedad.Some? && 0 <= imagenActual < NumImagenes()
    }

    /** `ngOnInit`: the load starts when the route has a non-empty id, else the page reports a bad id. */
    method OnInit(id: Option<string>) returns (solicitar: bool)
      modifies this
      ensures solicitar <==> id.Some? && id.value != ""
      ensures solicitar ==> cargando && error == ""
      ensures !solicitar ==> error == "ID de propiedad no válido" && cargando == old(cargando)
      ensures propiedad == old(propiedad) && imagenActual == old(imagenActual)
    {
      if id.Some? && id.value != "" {
        cargando := true;
        error := "";
        solicitar := true;
      } else {
        error := "ID de propiedad no válido";
        solicitar := false;
      }
    }

    /** The property request answered. */
    method OnRespuesta(success: bool, data: Option<Propiedad>)
      modifies this
      ensures !cargando
      ensures success && data.Some? ==> propiedad == data && error == old(error)
      ensures !(success && data.Some?) ==> propiedad == old(propiedad) && error == "No se encontró la propiedad"
      ensures imagenActual == old(imagenActual)
    {
      if success && data.Some? {
        propiedad := data;
      } else {
        error := "No se encontró la propiedad";
      }
      cargando := false;
    }

    /** The property request failed with an HTTP status. */
    method OnError(status: int)
      modifies this
      ensures !cargando && error == MensajeErrorCarga(status)
      ensures propiedad == old(propiedad) && imagenActual == old(imagenActual)
    {
      if status == 404 {
        error := "Propiedad no encontrada";
      } else if status == 0 {
        error := "No se puede conectar con el servidor";
      } else {
        error := "Error al cargar la propiedad";
      }
      cargando := false;
    }

    /** `cambiarImagen(index)`: only an index of an existing image is taken. */
    method CambiarImagen(index: int)
      modifies this
      ensures propiedad.Some? && 0 <= index < NumImagenes() ==> imagenActual == index
      ensures !(propiedad.Some? && 0 <= index < NumImagenes()) ==> imagenActual == old(imagenActual)
      ensures old(IndiceValido()) ==> IndiceValido()
      ensures propiedad == old(propiedad) && cargando == old(cargando) && error == old(error)
    {
      if propiedad.Some? && index >= 0 && index < |propiedad.value.imagenes| {
        imagenActual := index;
      }
    }

    /** `imagenAnterior()`: one image back, wrapping to the last; nothing without a property. */
    method ImagenAnterior()
      modifies this
      ensures propiedad.Some? ==> imagenActual == Anterior(old(imagenActual), NumImagenes())
      ensures propiedad.None? ==> imagenActual == old(imagenActual)
      ensures old(IndiceValido()) ==> IndiceValido()
      ensures propiedad == old(propiedad) && cargando == old(cargando) && error == old(error)
    {
      if propiedad.Some? {
        imagenActual := if imagenActual == 0 then |propiedad.value.imagenes| - 1 else imagenActual - 1;
      }
    }

    /** `imagenSiguiente()`: one image on, wrapping to the first; nothing without a property. */
    method ImagenSiguiente()
      modifies this
      ensures propiedad.Some? ==> imagenActual == Siguiente(old(imagenActual), NumImagenes())
      ensures propiedad.None? ==> imagenActual == old(imagenActual)
      ensures old(IndiceValido()) ==> IndiceValido()
      ensures propiedad == old(propiedad) && cargando == old(cargando) && error == old(error)
    {
      if propiedad.Some? {
        imagenActual := if imagenActual == |propiedad.value.imagenes| - 1 then 0 else imagenActual + 1;
      }
    }

    /** `tieneServicios()`: the property lists at least one service. */
    function TieneServicios(): (r: bool)
      reads this
      ensures r <==> (propiedad.Some? && propiedad.value.descripcion.Some?
        && propiedad.value.descripcion.value.servicios.Some?
        && |propiedad.value.descripcion.value.servicios.value| > 0)
    {
      propiedad.Some? && propiedad.value.descripcion.Some? && propiedad.value.descripcion.value.servicios.Some?
      && |propiedad.value.descripcion.value.servicios.value| > 0
    }

    /** `contactarRentero()`: the link opened, if any. */
    function ContactarRentero(codificar: string -> string): (url: Option<string>)
      reads this
      ensures url.None? <==> (propiedad.None? || propiedad.value.rentero.telefono.None?
        || propiedad.value.rentero.telefono.value == "")
      ensures url.Some? ==> (StartsWith(url.value, PrefijoWhatsApp)
        && Before(url.value[|PrefijoWhatsApp|..], '?') == KeepDigits(propiedad.value.rentero.telefono.value)
        && After(url.value[|PrefijoWhatsApp|..], '?') == "text=" + codificar(MensajeContacto(propiedad.value)))
    {
      EnlaceContacto(propiedad, codificar)
    }
  }
}
