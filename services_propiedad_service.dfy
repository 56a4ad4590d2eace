/**
 * The second property service, used by the student pages. Its filter
 * request is written out line for line as in the core service, so it is
 * modelled by that service's method, with the same guarantees.
 */
module ServicesPropiedadService {
  import opened Js
  import Core = CorePropiedadService

  /**
   * `filtrarPropiedades(filtros)`: prices are sent unless undefined or null,
   * texts when non-empty, the university id and range when non-zero, and
   * nothing else.
   */
  method FiltrarPropiedades(filtros: Core.Filtros) returns (req: Core.Get)
    ensures req.url == Core.ApiUrl + "/filtrar"
    ensures Core.DistinctKeys(req.params)
    ensures forall k :: Core.Lookup(req.params, k) == Core.ValorEnviado(filtros, k)
    ensures forall k :: Core.Lookup(req.params, k).Some? ==> k in Core.ClavesFiltro
  {
    req := Core.FiltrarPropiedades(filtros);
    forall k | Core.Lookup(req.params, k).Some? ensures k in Core.ClavesFiltro {
      Core.SoloClavesFiltro(filtros, k);
    }
  }
}
