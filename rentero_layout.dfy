/**
 * The landlord's dashboard: the list of their properties, a per-property
 * unit counter, one property expanded at a time with its units, and the
 * local update after a unit is deleted.
 *
 * Requests are left out; each response or error handler is a method that
 * receives the decoded result. Navigation and the confirmation dialog are
 * left out too: a deletion is modelled from its successful answer.
 */
module RenteroLayout {
  import opened Js
  import opened Text
  import opened Interfaces

  // ================================================================ pure helpers

  /** `unidades.filter(u => u.id !== unidadId)`. */
  function SinUnidad(unidades: seq<Unidad>, unidadId: int): (r: seq<Unidad>)
    ensures |r| <= |unidades|
    ensures forall u :: u in r <==> u in unidades && u.id != unidadId
  {
    if |unidades| == 0 then []
    else if unidades[0].id == unidadId then SinUnidad(unidades[1..], unidadId)
    else [unidades[0]] + SinUnidad(unidades[1..], unidadId)
  }

  /**
   * Filtering works piece by piece, so the units kept stay in the order
   * they had.
   */
  lemma {:induction false} SinUnidadConcat(a: seq<Unidad>, b: seq<Unidad>, unidadId: int)
    ensures SinUnidad(a + b, unidadId) == SinUnidad(a, unidadId) + SinUnidad(b, unidadId)
  {
    if |a| == 0 {
      assert a + b == b;
    } else {
      assert (a + b)[0] == a[0] && (a + b)[1..] == a[1..] + b;
      SinUnidadConcat(a[1..], b, unidadId);
    }
  }

  /** Deleting an id no unit has changes nothing. */
  lemma {:induction false} SinUnidadAusente(unidades: seq<Unidad>, unidadId: int)
    requires forall i :: 0 <= i < |unidades| ==> unidades[i].id != unidadId
    ensures SinUnidad(unidades, unidadId) == unidades
  {
    if |unidades| > 0 {
      SinUnidadAusente(unidades[1..], unidadId);
      assert [unidades[0]] + unidades[1..] == unidades;
    }
  }

  /** When ids are unique, deleting one removes exactly one unit. */
  lemma {:induction false} SinUnidadUnica(unidades: seq<Unidad>, k: nat)
    requires k < |unidades|
    requires forall i, j :: 0 <= i < j < |unidades| ==> unidades[i].id != unidades[j].id
    ensures SinUnidad(unidades, unidades[k].id) == unidades[..k] + unidades[k + 1..]
  {
    var id := unidades[k].id;
    assert unidades == unidades[..k] + ([unidades[k]] + unidades[k + 1..]);
    SinUnidadConcat(unidades[..k], [unidades[k]] + unidades[k + 1..], id);
    SinUnidadConcat([unidades[k]], unidades[k + 1..], id);
    SinUnidadAusente(unidades[..k], id);
    SinUnidadAusente(unidades[k + 1..], id);
    assert SinUnidad([unidades[k]], id) == [];
  }

  const SinServicios := "Sin servicios especificados"

  /** `obtenerServicios(unidad)`: the services joined with ", ", or a fixed text when there are none recorded. */
  function ObtenerServicios(unidad: Unidad): (r: string)
    ensures unidad.descripcion.None? || unidad.descripcion.value.servicios.None? ==> r == SinServicios
    ensures unidad.descripcion.Some? && unidad.descripcion.value.servicios.Some? ==>
      r == Join(unidad.descripcion.value.servicios.value, ", ")
  {
    if unidad.descripcion.Some? && unidad.descripcion.value.servicios.Some? then
      Join(unidad.descripcion.value.servicios.value, ", ")
    else SinServicios
  }

  /**
   * The joined text gives the services back: split at the commas, it holds
   * the first service and then each later one after a single space. An
   * empty list (which is truthy) gives the empty text, not the fixed one.
   */
  lemma ServiciosRecuperables(unidad: Unidad, servicios: seq<string>)
    requires unidad.descripcion.Some? && unidad.descripcion.value.servicios == Some(servicios)
    requires forall i :: 0 <= i < |servicios| ==> ',' !in servicios[i]
    ensures servicios == [] ==> ObtenerServicios(unidad) == ""
    ensures servicios != [] ==>
      var pieces := Split(ObtenerServicios(unidad), ',');
      |pieces| == |servicios| && pieces[0] == servicios[0]
      && forall i :: 1 <= i < |servicios| ==> pieces[i] == " " + servicios[i]
  {
    if servicios != [] {
      SplitJoin(servicios);
    }
  }

  /** `x?.id || index`: the id, or the position when the record or its id is falsy. */
  function ClaveSeguimiento(index: int, id: Option<int>): (r: int)
    ensures id.Some? && id.value != 0 ==> r == id.value
    ensures id.None? || id.value == 0 ==> r == index
  {
    if id.Some? && id.value != 0 then id.value else index
  }

  /** `trackByPropiedadId(index, propiedad)`. */
  function TrackByPropiedadId(index: int, propiedad: Option<PropiedadBackend>): (r: int)
    ensures propiedad.Some? && propiedad.value.id != 0 ==> r == propiedad.value.id
    ensures propiedad.None? || propiedad.value.id == 0 ==> r == index
  {
    ClaveSeguimiento(index, if propiedad.Some? then Some(propiedad.value.id) else None)
  }

  /** `trackByUnidadId(index, unidad)`. */
  function TrackByUnidadId(index: int, unidad: Option<Unidad>): (r: int)
    ensures unidad.Some? && unidad.value.id != 0 ==> r == unidad.value.id
    ensures unidad.None? || unidad.value.id == 0 ==> r == index
  {
    ClaveSeguimiento(index, if unidad.Some? then Some(unidad.value.id) else None)
  }

  /**
   * With distinct non-zero ids, every unit of a list gets its own tracking
   * key; a zero id falls back to the position and may collide with another
   * unit's id.
   */
  lemma ClavesDistintas(unidades: seq<Unidad>)
    requires forall i :: 0 <= i < |unidades| ==> unidades[i].id != 0
    requires forall i, j :: 0 <= i < j < |unidades| ==> unidades[i].id != unidades[j].id
    ensures forall i, j :: 0 <= i < j < |unidades| ==>
      TrackByUnidadId(i, Some(unidades[i])) != TrackByUnidadId(j, Some(unidades[j]))
  {
  }

  /** A zero id and the position it falls back to: the collision the fallback allows. */
  lemma ClaveColisiona(a: Unidad, b: Unidad)
    requires a.id == 0 && b.id == 1
    ensures TrackByUnidadId(1, Some(a)) == TrackByUnidadId(0, Some(b))
  {
  }

  // ================================================================ the component

  class RenteroLayoutComponent {
    var propiedades: seq<PropiedadBackend>
    var cargando: bool
    var error: string
    var unidadesPorPropiedad: map<int, int>
    var propiedadExpandida: Option<int>
    var unidadesActuales: seq<Unidad>
    var cargandoUnidades: bool

    constructor ()
      ensures propiedades == [] && !cargando && error == "" && unidadesPorPropiedad == map[]
      ensures propiedadExpandida.None? && unidadesActuales == [] && !cargandoUnidades
    {
      propiedades := [];
      cargando := false;
      error := "";
      unidadesPorPropiedad := map[];
      propiedadExpandida := None;
      unidadesActuales := [];
      cargandoUnidades := false;
    }

    /** `contarUnidades(propiedadId)`: the stored counter, or 0 when there is none. */
    function ContarUnidades(propiedadId: int): (r: int)
      reads this
      ensures propiedadId in unidadesPorPropiedad ==> r == unidadesPorPropiedad[propiedadId]
      ensures propiedadId !in unidadesPorPropiedad ==> r == 0
    {
      if propiedadId in unidadesPorPropiedad && unidadesPorPropiedad[propiedadId] != 0 then
        unidadesPorPropiedad[propiedadId]
      else 0
    }

    /** `cargarPropiedades()` up to the request. */
    method CargarPropiedades()
      modifies this
      ensures cargando && error == ""
      ensures propiedades == old(propiedades) && unidadesPorPropiedad == old(unidadesPorPropiedad)
      ensures propiedadExpandida == old(propiedadExpandida) && unidadesActuales == old(unidadesActuales)
      ensures cargandoUnidades == old(cargandoUnidades)
    {
      cargando := true;
      error := "";
    }

    /**
     * The landlord's properties arrived. On success they are shown and one
     * counter request goes out per property, in list order (the ids are
     * returned); otherwise the page reports the failure.
     */
    method OnPropiedadesRespuesta(success: bool, data: Option<seq<PropiedadBackend>>) returns (contadores: seq<int>)
      modifies this
      ensures !cargando
      ensures success && data.Some? ==>
        propiedades == data.value && error == old(error)
        && |contadores| == |propiedades| && forall i :: 0 <= i < |propiedades| ==> contadores[i] == propiedades[i].id
      ensures !(success && data.Some?) ==>
        propiedades == old(propiedades) && contadores == [] && error == "No se pudieron cargar las propiedades"
      ensures unidadesPorPropiedad == old(unidadesPorPropiedad)
      ensures propiedadExpandida == old(propiedadExpandida) && unidadesActuales == old(unidadesActuales)
      ensures cargandoUnidades == old(cargandoUnidades)
    {
      contadores := [];
      if success && data.Some? {
        propiedades := data.value;
        var i := 0;
        while i < |propiedades|
          invariant 0 <= i <= |propiedades|
          invariant |contadores| == i
          invariant forall j :: 0 <= j < i ==> contadores[j] == propiedades[j].id
        {
          contadores := contadores + [propiedades[i].id];
          i := i + 1;
        }
      } else {
        error := "No se pudieron cargar las propiedades";
      }
      cargando := false;
    }

    /** The property list request failed. */
    method OnPropiedadesError()
      modifies this
      ensures !cargando && error == "Error al cargar las propiedades. Intenta de nuevo."
      ensures propiedades == old(propiedades) && unidadesPorPropiedad == old(unidadesPorPropiedad)
      ensures propiedadExpandida == old(propiedadExpandida) && unidadesActuales == old(unidadesActuales)
      ensures cargandoUnidades == old(cargandoUnidades)
    {
      error := "Error al cargar las propiedades. Intenta de nuevo.";
      cargando := false;
    }

    /** A counter request answered: the number of units, or 0 when the answer is not a success. */
    method OnContadorRespuesta(propiedadId: int, success: bool, data: Option<seq<Unidad>>)
      modifies this
      ensures unidadesPorPropiedad == old(unidadesPorPropiedad)[propiedadId := if success && data.Some? then |data.value| else 0]
      ensures ContarUnidades(propiedadId) == if success && data.Some? then |data.value| else 0
      ensures forall p :: p != propiedadId ==> ContarUnidades(p) == old(ContarUnidades(p))
      ensures propiedades == old(propiedades) && propiedadExpandida == old(propiedadExpandida)
      ensures unidadesActuales == old(unidadesActuales)
      ensures cargando == old(cargando) && error == old(error) && cargandoUnidades == old(cargandoUnidades)
    {
      if success && data.Some? {
        unidadesPorPropiedad := unidadesPorPropiedad[propiedadId := |data.value|];
      } else {
        unidadesPorPropiedad := unidadesPorPropiedad[propiedadId := 0];
      }
    }

    /** A counter request failed: the counter reads 0. */
    method OnContadorError(propiedadId: int)
      modifies this
      ensures unidadesPorPropiedad == old(unidadesPorPropiedad)[propiedadId := 0]
      ensures ContarUnidades(propiedadId) == 0
      ensures propiedades == old(propiedades) && propiedadExpandida == old(propiedadExpandida)
      ensures unidadesActuales == old(unidadesActuales)
      ensures cargando == old(cargando) && error == old(error) && cargandoUnidades == old(cargandoUnidades)
    {
      unidadesPorPropiedad := unidadesPorPropiedad[propiedadId := 0];
    }

    /**
     * `toggleUnidades(propiedadId)`: the expanded property collapses and its
     * units are dropped; any other property becomes the expanded one, with
     * an empty list while its units load (`cargar` tells the load goes out).
     */
    method ToggleUnidades(propiedadId: int) returns (cargar: bool)
      modifies this
      ensures old(propiedadExpandida) == Some(propiedadId) ==>
        propiedadExpandida.None? && unidadesActuales == [] && !cargar && cargandoUnidades == old(cargandoUnidades)
      ensures old(propiedadExpandida) != Some(propiedadId) ==>
        propiedadExpandida == Some(propiedadId) && unidadesActuales == [] && cargar && cargandoUnidades
      ensures propiedades == old(propiedades) && unidadesPorPropiedad == old(unidadesPorPropiedad)
      ensures cargando == old(cargando) && error == old(error)
    {
      if propiedadExpandida == Some(propiedadId) {
        propiedadExpandida := None;
        unidadesActuales := [];
        cargar := false;
      } else {
        propiedadExpandida := Some(propiedadId);
        cargandoUnidades := true;
        unidadesActuales := [];
        cargar := true;
      }
    }

    /** The expanded property's units arrived. */
    method OnUnidadesDetalleRespuesta(success: bool, data: Option<seq<Unidad>>)
      modifies this
      ensures !cargandoUnidades
      ensures unidadesActuales == if success && data.Some? then data.value else old(unidadesActuales)
      ensures propiedadExpandida == old(propiedadExpandida) && unidadesPorPropiedad == old(unidadesPorPropiedad)
      ensures propiedades == old(propiedades) && cargando == old(cargando) && error == old(error)
    {
      if success && data.Some? {
        unidadesActuales := data.value;
      }
      cargandoUnidades := false;
    }

    /** The expanded property's units could not be loaded. */
    method OnUnidadesDetalleError()
      modifies this
      ensures !cargandoUnidades
      ensures unidadesActuales == old(unidadesActuales) && propiedadExpandida == old(propiedadExpandida)
      ensures unidadesPorPropiedad == old(unidadesPorPropiedad) && propiedades == old(propiedades)
      ensures cargando == old(cargando) && error == old(error)
    {
      cargandoUnidades := false;
    }

    /**
     * A unit was deleted: it leaves the shown list, and the expanded
     * property's counter becomes the new list length, unless that
     * property's id is 0, which JavaScript takes as no property.
     */
    method OnUnidadEliminada(unidadId: int)
      modifies this
      ensures unidadesActuales == SinUnidad(old(unidadesActuales), unidadId)
      ensures propiedadExpandida.Some? && propiedadExpandida.value != 0 ==>
        unidadesPorPropiedad == old(unidadesPorPropiedad)[propiedadExpandida.value := |unidadesActuales|]
        && ContarUnidades(propiedadExpandida.value) == |unidadesActuales|
      ensures propiedadExpandida.None? || propiedadExpandida.value == 0 ==>
        unidadesPorPropiedad == old(unidadesPorPropiedad)
      ensures propiedadExpandida == old(propiedadExpandida) && propiedades == old(propiedades)
      ensures cargandoUnidades == old(cargandoUnidades) && cargando == old(cargando) && error == old(error)
    {
      unidadesActuales := SinUnidad(unidadesActuales, unidadId);
      if propiedadExpandida.Some? && propiedadExpandida.value != 0 {
        unidadesPorPropiedad := unidadesPorPropiedad[propiedadExpandida.value := |unidadesActuales|];
      }
    }
  }
}
