# UniRenta front end: decision logic in Dafny

UniRenta is a rental site for students. Students search properties on a map. Landlords register, list their properties and manage rentable units. This project models the logic of the Angular front end and proves what it promises. It leaves out the libraries around that logic: Mapbox, HTTP, SweetAlert and toastr.

One Dafny module per source file:

| module | file | models |
|---|---|---|
| `MapaBusqueda` | `mapa_busqueda.dfy` | grouping listings by coordinates, popup contents, HTML escaping, click zoom, the marker rebuild |
| `DocumentoValidacion` | `documento_validacion.dfy` | file type/size checks, the missing-field pattern, field-name cleaning, the error classifier |
| `CorePropiedadService` | `core_propiedad_service.dfy` | which filter keys go into the query string; the registration form data |
| `ServicesPropiedadService` | `services_propiedad_service.dfy` | the second service's filter request, written the same way |
| `Home` | `home.dfy` | the student home page: filter object, load errors, carousel, sticky search bar, contact link |
| `RenteroLayout` | `rentero_layout.dfy` | the landlord dashboard: expand/collapse, unit counters, local deletion, display helpers |
| `PropiedadDetalle` | `propiedad_detalle.dfy` | the property detail page: the wrap-around gallery, load errors, contact link |
| `FormularioUnidad` | `formulario_unidad.dfy` | the unit form: route mode, services toggle, the 10-image list, payloads, messages |
| `RegistroRentero` | `registro_rentero.dfy` | the landlord sign-up wizard: steps, validators, notifications |

Shared modules:

- `Js` holds JavaScript value shapes: optional, nullable, and numbers with NaN and the infinities.
- `Text` holds JavaScript string operations: `trim`, `split`, `join`, `String(n)`, `\d`, ASCII case mapping.
- `Interfaces` holds the record shapes of the backend.

Imperative code is written as imperative Dafny:

- Components are classes whose methods change their fields.
- HTTP answers and errors are handler methods that receive the already-decoded value.
- Alerts, notifications and requests are returned as values.

`groupByCoordinates` and `filtrarPropiedades` are proved against specification functions (`Grouped`, `ValorEnviado`). The properties of those functions are proved as lemmas.

For a message such as `Faltan 2 campo(s): nombre, fecha`, the regular expression in `detectarCamposFaltantes` (`src/app/core/services/documento-validacion.service.ts`, line 164) captures only up to the first `,` or `}`. So it yields one field, `nombre`, whatever count the message announces. `DocumentoValidacion.UnCampo` proves that every match yields exactly one field.

## Model

| member | source | states |
|---|---|---|
| MapaBusqueda.KeyOfPolicy | src/app/shared/componentes/mapas/mapa-busqueda/mapa-busqueda.component.ts:153-158 | A listing is skipped exactly when its coordinates are missing, not an array, shorter than two, or either is NaN. Infinity is kept. The key is the first two entries. |
| MapaBusqueda.GroupedInvariant | src/app/shared/componentes/mapas/mapa-busqueda/mapa-busqueda.component.ts:150-167 | Group keys are pairwise distinct. Each group holds exactly the listings with its key, in input order. Groups follow the first occurrence of their keys. Sizes add up to the number of listings kept. |
| MapaBusqueda.GroupsNonEmpty | src/app/shared/componentes/mapas/mapa-busqueda/mapa-busqueda.component.ts:161-165 | No returned group is empty. |
| MapaBusqueda.GroupedDistinct | src/app/shared/componentes/mapas/mapa-busqueda/mapa-busqueda.component.ts:160-165 | No two groups share a coordinate key. |
| MapaBusqueda.SameGroupIffSameKey | src/app/shared/componentes/mapas/mapa-busqueda/mapa-busqueda.component.ts:160-165 | Two grouped listings are in the same group exactly when their `lng\|lat` keys are equal. |
| MapaBusqueda.KeptListingHasGroup | src/app/shared/componentes/mapas/mapa-busqueda/mapa-busqueda.component.ts:152-165 | Every listing that is not skipped is in the group with its key. |
| MapaBusqueda.StepShape | src/app/shared/componentes/mapas/mapa-busqueda/mapa-busqueda.component.ts:161-165 | One loop step keeps keys distinct, opens a group at the end only for a new key, and adds one to the total size for a kept listing. |
| MapaBusqueda.StepItems | src/app/shared/componentes/mapas/mapa-busqueda/mapa-busqueda.component.ts:161-165 | One loop step keeps each group equal to the listings seen so far with its key. |
| MapaBusqueda.FindGroupByIndex | src/app/shared/componentes/mapas/mapa-busqueda/mapa-busqueda.component.ts:161-164 | The key-to-group map the loop keeps gives the same answer as a search of the groups. |
| MapaBusqueda.GroupByCoordinates | src/app/shared/componentes/mapas/mapa-busqueda/mapa-busqueda.component.ts:150-168 | The loop over the listings returns exactly the specified grouping. |
| MapaBusqueda.EscapeHtml | src/app/shared/componentes/mapas/mapa-busqueda/mapa-busqueda.component.ts:212-216 | The output has no `<`, `>`, `"` or `'`. Text without the five markup characters comes back unchanged. |
| MapaBusqueda.EscapedAmpersandsAreEntities | src/app/shared/componentes/mapas/mapa-busqueda/mapa-busqueda.component.ts:212-216 | Every `&` in the output opens one of the five entities. |
| MapaBusqueda.UnescapeEscape | src/app/shared/componentes/mapas/mapa-busqueda/mapa-busqueda.component.ts:212-216 | Decoding the five entities in the escaped text gives back the original text. |
| MapaBusqueda.BuildPopup | src/app/shared/componentes/mapas/mapa-busqueda/mapa-busqueda.component.ts:170-205 | One listing gives one entry, with default name 'Departamento'. Otherwise there are min(n, 8) entries, the first listings in order, with default name 'Depto'. A "+(n-8) más" line appears exactly when n > 8. |
| MapaBusqueda.PopupTitlesDecode | src/app/shared/componentes/mapas/mapa-busqueda/mapa-busqueda.component.ts:173-189 | Every popup title decodes to the listing's name, or to the default name when the name is empty. |
| MapaBusqueda.MoreLineCount | src/app/shared/componentes/mapas/mapa-busqueda/mapa-busqueda.component.ts:199-201 | The number in the extra line reads back as the count of listings not shown. |
| MapaBusqueda.ClickZoom | src/app/shared/componentes/mapas/mapa-busqueda/mapa-busqueda.component.ts:124-126 | The target zoom is at most 18. It is at least 14 for a group of several and at least 13 for a single listing. It never zooms out from a level ≤ 18. Below the cap it is max(z+2, 14) or max(z+1, 13); from 16 (several) or 17 (one) upwards it is exactly 18, so a map zoomed past 18 eases back to 18. |
| MapaBusqueda.MarkerFor | src/app/shared/componentes/mapas/mapa-busqueda/mapa-busqueda.component.ts:76-101 | A marker sits at its group's coordinates and carries its size. It has the badge and the tooltip "n propiedades en esta ubicación" exactly when the group has more than one listing. Its popup is the one `BuildPopup` gives for the group's listings. |
| MapaBusqueda.MarkersFor | src/app/shared/componentes/mapas/mapa-busqueda/mapa-busqueda.component.ts:77-101 | The markers `renderMarkers` places: one `MarkerFor` per group, in group order. It is the specification that `RenderMarkers`, `OnLoad` and `OnChanges` are proved against. |
| MapaBusqueda.MapaBusquedaComponent.constructor | src/app/shared/componentes/mapas/mapa-busqueda/mapa-busqueda.component.ts:12-25 | The component starts with no listings, no markers, no map, and the map loader on. |
| MapaBusqueda.MapaBusquedaComponent.Init | src/app/shared/componentes/mapas/mapa-busqueda/mapa-busqueda.component.ts:32-51 | After `ngOnInit` the map exists and is loading. |
| MapaBusqueda.MapaBusquedaComponent.OnLoad | src/app/shared/componentes/mapas/mapa-busqueda/mapa-busqueda.component.ts:46-50 | On the load event the markers are rendered and the map loader clears. With listings to show, the data loader is on and the view fits every group's coordinates. With none, the data loader is off and no bounds are fitted. |
| MapaBusqueda.MapaBusquedaComponent.OnChanges | src/app/shared/componentes/mapas/mapa-busqueda/mapa-busqueda.component.ts:53-58 | New listings are re-rendered once the map exists, with the loaders and bounds `renderMarkers` gives. Before that nothing but the input changes. The map loader is never touched. |
| MapaBusqueda.MapaBusquedaComponent.RenderMarkers | src/app/shared/componentes/mapas/mapa-busqueda/mapa-busqueda.component.ts:60-148 | Every old marker is removed, then there is exactly one marker per group. With no groups the list is empty and no bounds are fitted. Otherwise the view fits all group coordinates. |
| MapaBusqueda.MapaBusquedaComponent.OnFinCarga | src/app/shared/componentes/mapas/mapa-busqueda/mapa-busqueda.component.ts:147 | The timer started by `renderMarkers` clears the data loader and changes nothing else. |
| DocumentoValidacion.ValidarTipoDocumento | src/app/core/services/documento-validacion.service.ts:11-18 | Exactly 'image/jpeg', 'image/png' and 'application/pdf' are accepted. The others get the format toast. |
| DocumentoValidacion.ValidarDocumentoINE | src/app/core/services/documento-validacion.service.ts:20-37 | The checks run in order: a missing file, then a disallowed type, then a size above 1 048 576 bytes. Each has its toast. |
| DocumentoValidacion.DocumentoINEAceptado | src/app/core/services/documento-validacion.service.ts:20-37 | An identity document is accepted exactly when it is present, of an allowed type, and at most 1 MiB. Exactly 1 MiB passes. |
| DocumentoValidacion.ProcesarDocumento | src/app/core/services/documento-validacion.service.ts:139-145 | A missing file is refused. A present one is accepted exactly when its type is allowed, whatever its size. |
| DocumentoValidacion.INEMasEstricto | src/app/core/services/documento-validacion.service.ts:20-37 | Whatever the identity check accepts, `procesarDocumento` accepts too. The two agree on files up to 1 MiB. |
| DocumentoValidacion.LimpiarNombreCampo | src/app/core/services/documento-validacion.service.ts:155-161 | The cleaned name is as long as the trimmed input. |
| DocumentoValidacion.LimpiarNombreCampoForma | src/app/core/services/documento-validacion.service.ts:155-161 | The cleaned name has no '_'; each '_' becomes a space. Other non-letters are kept. Letters are upper case at a word start and lower case elsewhere. |
| DocumentoValidacion.LimpiarSinComas | src/app/core/services/documento-validacion.service.ts:155-161 | Cleaning adds no comma. |
| DocumentoValidacion.GenerarCamposHTML | src/app/core/services/documento-validacion.service.ts:147-153 | The markup starts with the fixed heading. An empty list gives the heading and the closing tag. A single field gives the heading, that field's span and the closing tag. |
| DocumentoValidacion.CamposHTMLPiezas | src/app/core/services/documento-validacion.service.ts:147-153 | Split at commas, the markup has one piece per field. The first piece is the heading and the first span. The last is a space, the last span and the closing tag. Each inner piece is a space followed by that field's span. |
| DocumentoValidacion.DetectarCamposFaltantes | src/app/core/services/documento-validacion.service.ts:163-173 | Without a match the result is (false, [], 0). |
| DocumentoValidacion.UnCampo | src/app/core/services/documento-validacion.service.ts:163-173 | A match yields exactly one trimmed field, which has no comma. |
| DocumentoValidacion.DetectaMensaje | src/app/core/services/documento-validacion.service.ts:163-173 | "Faltan n campo(s): f" followed by nothing, ',' or '}' is detected with count n and the single field trim(f). |
| DocumentoValidacion.MensajeCoincide | src/app/core/services/documento-validacion.service.ts:165-166 | The case-insensitive pattern matches such a message at its start, with the digits and the field as its captures. |
| DocumentoValidacion.MensajeGenerico | src/app/core/services/documento-validacion.service.ts:127 | The fallback text is never empty: the payload's message, else the error's message, else 'Error desconocido'. |
| DocumentoValidacion.ManejarErrores | src/app/core/services/documento-validacion.service.ts:39-129 | Exactly one alert, first match wins: VALIDACION_DOCUMENTO, then DOCUMENTO with a pattern match (count ≥ 4 is an error, fewer a warning), then ARCHIVO, OCR, status 0/500, then the fallback. |
| DocumentoValidacion.AvisoSoloPorCampos | src/app/core/services/documento-validacion.service.ts:46-94 | The alert is a warning exactly for the missing-fields subtype or a detected count below 4. Warnings and only warnings carry the 'Campos no visibles' title and the field markup. |
| DocumentoValidacion.DocumentoSinPatron | src/app/core/services/documento-validacion.service.ts:75-94 | A DOCUMENTO error without the pattern is handled exactly like one without a type. |
| DocumentoValidacion.ConexionPorEstadoExterno | src/app/core/services/documento-validacion.service.ts:117-125 | The network alert follows the outer error's status 0 or 500, whatever the body holds. |
| DocumentoValidacion.MensajeDeCamposFaltantes | src/app/core/services/documento-validacion.service.ts:75-94 | A DOCUMENTO message "Faltan n campo(s): f" gives the invalid-document error for n ≥ 4. Below that it gives the warning listing trim(f). |
| CorePropiedadService.Lookup | src/app/core/services/propiedad.service.ts:31-55 | A key has a value exactly when some parameter carries it. |
| CorePropiedadService.SetParamLookup | src/app/core/services/propiedad.service.ts:33-53 | `set` gives the key its new value, leaves other keys as they were, and keeps keys distinct. |
| CorePropiedadService.SoloClavesFiltro | src/app/core/services/propiedad.service.ts:31-55 | Only the seven filter keys can be sent. |
| CorePropiedadService.NumerosEnviados | src/app/core/services/propiedad.service.ts:33-53 | Each number sent reads back as its input. Prices are sent when not undefined or null, so 0 is sent. The university id and the range are never 0 when sent. |
| CorePropiedadService.HastaLookup | src/app/core/services/propiedad.service.ts:33-53 | After the first i conditionals, exactly the keys among the first i carry their specified values. |
| CorePropiedadService.HastaTodas | src/app/core/services/propiedad.service.ts:31-55 | After all seven conditionals, every key carries its specified value. |
| CorePropiedadService.FiltrarPropiedades | src/app/core/services/propiedad.service.ts:22-56 | The request goes to /filtrar with distinct keys. Each key carries exactly the value the inclusion rules give: prices unless undefined or null, texts when non-empty, id and range when truthy. The parameters are `Hasta` of all seven keys, so they appear in the order the conditionals set them. |
| CorePropiedadService.CampoFormEn | src/app/core/services/propiedad.service.ts:62-72 | A form field's value is that of its first entry. |
| CorePropiedadService.TipoIdTexto | src/app/core/services/propiedad.service.ts:72 | tipo_id is '1' when the id is undefined. Otherwise it is the id's text, 0 included. |
| CorePropiedadService.RegistrarPropiedad | src/app/core/services/propiedad.service.ts:58-75 | The request goes to /registrar with five entries. They carry the name, rentero_id as text that reads back as the id, the location text, the document file with its name, and tipo_id. |
| ServicesPropiedadService.FiltrarPropiedades | src/app/services/propiedad.service.ts:86-120 | The same inclusion rules as the core service. Only the seven filter keys can appear. |
| Home.FiltrosDe | src/app/modules/estudiante/pages/home/home.component.ts:124-132 | Prices enter only when non-null and > 0. Colonia and municipio enter trimmed and only when non-blank. rangoKm is present exactly with a non-blank university and defaults to 2 when null or ≤ 0. There is never a university id. |
| Home.ArmarFiltros | src/app/modules/estudiante/pages/home/home.component.ts:123-132 | Building the filter field by field gives the object `FiltrosDe` describes. |
| Home.FiltrosEnviados | src/app/modules/estudiante/pages/home/home.component.ts:124-135 | Through the service, a price is sent exactly when positive. Place names and the university are sent trimmed exactly when non-blank. A range is sent exactly with a university. No university id is ever sent. |
| Home.MensajeErrorCarga | src/app/modules/estudiante/pages/home/home.component.ts:107-111 | The server's message comes first, then status 0, 404 and 500, then the generic text. The result is never empty. |
| Home.MensajeServidorPrimero | src/app/modules/estudiante/pages/home/home.component.ts:107 | A non-empty server message wins whatever the status. |
| Home.ContactarRentero | src/app/modules/estudiante/pages/home/home.component.ts:167-173 | There is no link without a telephone. Otherwise the link starts with wa.me/52. Read back, the number before '?' is the telephone's digits and the query after it is the encoded greeting. |
| Home.ContactoSoloDigitos | src/app/modules/estudiante/pages/home/home.component.ts:168-170 | The number in the link is digits only. Telephones with the same digits give the same link. |
| Home.JsRem | src/app/modules/estudiante/pages/home/home.component.ts:74 | JavaScript's `%`: `a - n * trunc(a / n)`. The quotient truncates toward zero, so the result has the dividend's sign and is smaller than the divisor in size. |
| Home.Siguiente | src/app/modules/estudiante/pages/home/home.component.ts:74 | From a slide in {0,1,2} the next slide is in {0,1,2} and is (s+1) mod 3. |
| Home.TresTicks | src/app/modules/estudiante/pages/home/home.component.ts:72-82 | Whatever `goToSlide` stored, three ticks bring the slide into {0,1,2}. From there three ticks are the identity. |
| Home.TickDesdeNegativo | src/app/modules/estudiante/pages/home/home.component.ts:74-79 | `goToSlide` stores an index unchecked. A tick from slide -5 computes `(-4) % 3`, which is -1, so the slide is still out of range. |
| Home.HomeComponent.constructor | src/app/modules/estudiante/pages/home/home.component.ts:11-29 | The page starts with empty filters, slide 0, and the sentinel taken as visible. |
| Home.HomeComponent.CargarPropiedades | src/app/modules/estudiante/pages/home/home.component.ts:91-94 | Loading starts and the error clears. |
| Home.HomeComponent.OnCargaRespuesta | src/app/modules/estudiante/pages/home/home.component.ts:96-105 | On success the listings are shown. Otherwise the list is emptied and the failure is reported. The filters, the slide, the bar and the observed visibilities are unchanged. |
| Home.HomeComponent.OnCargaError | src/app/modules/estudiante/pages/home/home.component.ts:106-114 | A failed load empties the list and shows the message by priority. The filters, the slide, the bar and the observed visibilities are unchanged. |
| Home.HomeComponent.AplicarFiltros | src/app/modules/estudiante/pages/home/home.component.ts:120-135 | The filter object is `FiltrosDe` of the fields. The request carries exactly the values the service sends for it. Only the loader and the error change. |
| Home.HomeComponent.OnFiltroRespuesta | src/app/modules/estudiante/pages/home/home.component.ts:135-146 | Results are shown, and an empty result unsticks the bar. A failure empties the list, unsticks the bar and reports it. The filters, the slide and the observed visibilities are unchanged. |
| Home.HomeComponent.OnFiltroError | src/app/modules/estudiante/pages/home/home.component.ts:147-153 | A failed filter empties the list, unsticks the bar and reports the failure. The filters, the slide and the observed visibilities are unchanged. |
| Home.HomeComponent.LimpiarFiltros | src/app/modules/estudiante/pages/home/home.component.ts:157-165 | All six filter fields are reset to null or '', and the full list is requested again. The listings, the slide, the bar and the observed visibilities are unchanged. |
| Home.HomeComponent.Tick | src/app/modules/estudiante/pages/home/home.component.ts:72-76 | A tick moves to the next slide and stays in {0,1,2} when it started there. Nothing else changes. |
| Home.HomeComponent.GoToSlide | src/app/modules/estudiante/pages/home/home.component.ts:78-82 | The slide becomes the index given, without a range check. Nothing else changes. |
| Home.HomeComponent.OnInterseccion | src/app/modules/estudiante/pages/home/home.component.ts:51-62 | Each target's visibility is the last one reported for it. The bar sticks exactly when neither the sentinel nor the map is visible. Listings, loader, error, filters and slide are unchanged. |
| RenteroLayout.SinUnidad | src/app/modules/rentero/pages/rentero-layout/rentero-layout.component.ts:124 | The units kept are exactly those whose id differs from the one deleted. |
| RenteroLayout.SinUnidadConcat | src/app/modules/rentero/pages/rentero-layout/rentero-layout.component.ts:124 | Filtering works piece by piece, so the kept units stay in order. |
| RenteroLayout.SinUnidadAusente | src/app/modules/rentero/pages/rentero-layout/rentero-layout.component.ts:124 | Deleting an id no unit has changes nothing. |
| RenteroLayout.SinUnidadUnica | src/app/modules/rentero/pages/rentero-layout/rentero-layout.component.ts:124 | With unique ids, deleting a unit removes exactly that element and keeps the rest in order. |
| RenteroLayout.ObtenerServicios | src/app/modules/rentero/pages/rentero-layout/rentero-layout.component.ts:180-185 | The services are joined with ', '. Without a description or services the result is 'Sin servicios especificados'. |
| RenteroLayout.ServiciosRecuperables | src/app/modules/rentero/pages/rentero-layout/rentero-layout.component.ts:180-185 | Split at commas, the joined text gives back the services. An empty list gives ''. |
| RenteroLayout.ClaveSeguimiento | src/app/modules/rentero/pages/rentero-layout/rentero-layout.component.ts:163-169 | The key is the id, or the position when the id is falsy. |
| RenteroLayout.TrackByPropiedadId | src/app/modules/rentero/pages/rentero-layout/rentero-layout.component.ts:163-165 | A property with a non-zero id is tracked by its id. A missing property or id 0 is tracked by its position. |
| RenteroLayout.TrackByUnidadId | src/app/modules/rentero/pages/rentero-layout/rentero-layout.component.ts:167-169 | A unit with a non-zero id is tracked by its id. A missing unit or id 0 is tracked by its position. |
| RenteroLayout.ClavesDistintas | src/app/modules/rentero/pages/rentero-layout/rentero-layout.component.ts:167-169 | Distinct non-zero ids give every unit its own key. |
| RenteroLayout.ClaveColisiona | src/app/modules/rentero/pages/rentero-layout/rentero-layout.component.ts:167-169 | A zero id falls back to its position and can collide with another unit's id. |
| RenteroLayout.RenteroLayoutComponent.constructor | src/app/modules/rentero/pages/rentero-layout/rentero-layout.component.ts:23-31 | The dashboard starts empty, with nothing expanded. |
| RenteroLayout.RenteroLayoutComponent.ContarUnidades | src/app/modules/rentero/pages/rentero-layout/rentero-layout.component.ts:141-143 | The count is the stored counter, or 0 when there is none. |
| RenteroLayout.RenteroLayoutComponent.CargarPropiedades | src/app/modules/rentero/pages/rentero-layout/rentero-layout.component.ts:42-45 | Loading starts and the error clears. |
| RenteroLayout.RenteroLayoutComponent.OnPropiedadesRespuesta | src/app/modules/rentero/pages/rentero-layout/rentero-layout.component.ts:47-57 | On success the properties are shown and one counter request goes out per property, in order. Otherwise the failure is reported. |
| RenteroLayout.RenteroLayoutComponent.OnPropiedadesError | src/app/modules/rentero/pages/rentero-layout/rentero-layout.component.ts:58-62 | A failed load is reported. Nothing else changes. |
| RenteroLayout.RenteroLayoutComponent.OnContadorRespuesta | src/app/modules/rentero/pages/rentero-layout/rentero-layout.component.ts:69-75 | The counter becomes the data length on success and 0 otherwise. Other counters and every other field are unchanged. |
| RenteroLayout.RenteroLayoutComponent.OnContadorError | src/app/modules/rentero/pages/rentero-layout/rentero-layout.component.ts:76-79 | A failed counter request sets the counter to 0. Nothing else changes. |
| RenteroLayout.RenteroLayoutComponent.ToggleUnidades | src/app/modules/rentero/pages/rentero-layout/rentero-layout.component.ts:85-99 | Toggling the expanded id collapses it and empties the units. Any other id expands it and empties the list while the units load. |
| RenteroLayout.RenteroLayoutComponent.OnUnidadesDetalleRespuesta | src/app/modules/rentero/pages/rentero-layout/rentero-layout.component.ts:102-107 | On success the units are shown. The unit loader clears either way, and nothing else changes. |
| RenteroLayout.RenteroLayoutComponent.OnUnidadesDetalleError | src/app/modules/rentero/pages/rentero-layout/rentero-layout.component.ts:108-111 | A failed unit load only clears the unit loader. |
| RenteroLayout.RenteroLayoutComponent.OnUnidadEliminada | src/app/modules/rentero/pages/rentero-layout/rentero-layout.component.ts:122-129 | The deleted id's units leave the list. The expanded property's counter becomes the new length, unless its id is 0. Nothing else changes. |
| PropiedadDetalle.Anterior | src/app/modules/estudiante/pages/propiedad-detalle/propiedad-detalle.component.ts:72-78 | Back from 0 goes to the last image. An index in range stays in range. |
| PropiedadDetalle.Siguiente | src/app/modules/estudiante/pages/propiedad-detalle/propiedad-detalle.component.ts:80-86 | On from the last image goes to 0. An index in range stays in range. |
| PropiedadDetalle.AnteriorSiguienteInversas | src/app/modules/estudiante/pages/propiedad-detalle/propiedad-detalle.component.ts:72-86 | Next then previous, or previous then next, returns to the same image. |
| PropiedadDetalle.AvanzarSuma | src/app/modules/estudiante/pages/propiedad-detalle/propiedad-detalle.component.ts:80-86 | Forward steps add up. |
| PropiedadDetalle.AvanzarSinVuelta | src/app/modules/estudiante/pages/propiedad-detalle/propiedad-detalle.component.ts:80-86 | Before the last image, k steps move k images on. |
| PropiedadDetalle.VueltaCompleta | src/app/modules/estudiante/pages/propiedad-detalle/propiedad-detalle.component.ts:80-86 | n steps on n images return to the start. |
| PropiedadDetalle.SinImagenes | src/app/modules/estudiante/pages/propiedad-detalle/propiedad-detalle.component.ts:72-86 | With no images the steps leave the range: back from 0 gives -1, on from 0 gives 1. |
| PropiedadDetalle.MensajeErrorCarga | src/app/modules/estudiante/pages/propiedad-detalle/propiedad-detalle.component.ts:53-59 | 404 gives 'Propiedad no encontrada', 0 gives the connection message, anything else the generic one. |
| PropiedadDetalle.MensajeContacto | src/app/modules/estudiante/pages/propiedad-detalle/propiedad-detalle.component.ts:96 | The greeting before URI encoding: "Hola", the landlord's name, and the property's name in quotes. `EnlaceContacto` states that the link's query is its encoding. |
| PropiedadDetalle.EnlaceContacto | src/app/modules/estudiante/pages/propiedad-detalle/propiedad-detalle.component.ts:88-102 | There is no link without a property or a telephone. Otherwise the link starts with wa.me/52. Read back, the number before '?' is the telephone's digits and the query after it is the encoded greeting naming the landlord and the property. |
| PropiedadDetalle.EnlaceSoloDigitos | src/app/modules/estudiante/pages/propiedad-detalle/propiedad-detalle.component.ts:94-98 | The number follows the country code and is digits only. A telephone already written in digits is kept as it is. |
| PropiedadDetalle.PropiedadDetalleComponent.constructor | src/app/modules/estudiante/pages/propiedad-detalle/propiedad-detalle.component.ts:12-15 | The page starts with no property, at image 0. |
| PropiedadDetalle.PropiedadDetalleComponent.OnInit | src/app/modules/estudiante/pages/propiedad-detalle/propiedad-detalle.component.ts:23-32 | The load starts exactly when the route has a non-empty id. Otherwise the bad id is reported. |
| PropiedadDetalle.PropiedadDetalleComponent.OnRespuesta | src/app/modules/estudiante/pages/propiedad-detalle/propiedad-detalle.component.ts:39-49 | On success the property is shown. Otherwise 'No se encontró la propiedad'. |
| PropiedadDetalle.PropiedadDetalleComponent.OnError | src/app/modules/estudiante/pages/propiedad-detalle/propiedad-detalle.component.ts:50-62 | A failed load shows the message for its status. |
| PropiedadDetalle.PropiedadDetalleComponent.CambiarImagen | src/app/modules/estudiante/pages/propiedad-detalle/propiedad-detalle.component.ts:66-70 | The index changes only to an existing image's index, and is otherwise unchanged. |
| PropiedadDetalle.PropiedadDetalleComponent.ImagenAnterior | src/app/modules/estudiante/pages/propiedad-detalle/propiedad-detalle.component.ts:72-78 | The gallery moves one image back, wrapping. A valid index stays valid. Without a property nothing happens. |
| PropiedadDetalle.PropiedadDetalleComponent.ImagenSiguiente | src/app/modules/estudiante/pages/propiedad-detalle/propiedad-detalle.component.ts:80-86 | The gallery moves one image on, wrapping. A valid index stays valid. Without a property nothing happens. |
| PropiedadDetalle.PropiedadDetalleComponent.TieneServicios | src/app/modules/estudiante/pages/propiedad-detalle/propiedad-detalle.component.ts:109-112 | True exactly when the property lists at least one service. |
| PropiedadDetalle.PropiedadDetalleComponent.ContactarRentero | src/app/modules/estudiante/pages/propiedad-detalle/propiedad-detalle.component.ts:88-102 | For the property on the page: no link without a property or a telephone. Otherwise the number read back from the link is the telephone's digits, and the query is the encoded greeting. |
| FormularioUnidad.Alerta | src/app/modules/rentero/components/formulario-unidad/formulario-unidad.component.ts:319-321 | The `mostrarError` text: the title, ": " and the message. Every alert in the contracts of `DetectarModo`, `GuardarUnidad` and the answer handlers is one of these. |
| FormularioUnidad.IdInvalido | src/app/modules/rentero/components/formulario-unidad/formulario-unidad.component.ts:194 | The property id check `!id \|\| id === 0 \|\| isNaN(id)`: NaN (a missing parse) or 0. `DetectarModo` (line 54) and `GuardarUnidad` (line 194) branch on it. |
| FormularioUnidad.IndexOf | src/app/modules/rentero/components/formulario-unidad/formulario-unidad.component.ts:111 | Gives -1 exactly for an absent service, otherwise its first position. |
| FormularioUnidad.Alternar | src/app/modules/rentero/components/formulario-unidad/formulario-unidad.component.ts:110-116 | An absent service is appended. A present one is removed at its first occurrence, and the rest keep their order. Other services keep their membership. On a duplicate-free selection the service's membership flips and there are still no duplicates. |
| FormularioUnidad.AlternarDosVeces | src/app/modules/rentero/components/formulario-unidad/formulario-unidad.component.ts:110-116 | Choosing an unselected service twice restores the selection. |
| FormularioUnidad.ConImagen | src/app/modules/rentero/components/formulario-unidad/formulario-unidad.component.ts:124-135 | The trimmed URL is appended only when it is non-blank and there are fewer than 10 images. The list never passes 10. Added entries are trimmed and non-empty. |
| FormularioUnidad.SpliceUno | src/app/modules/rentero/components/formulario-unidad/formulario-unidad.component.ts:137-141 | An index in range removes exactly that image and keeps the order. A negative index counts from the end. An index past the end changes nothing. |
| FormularioUnidad.SpliceUnoConserva | src/app/modules/rentero/components/formulario-unidad/formulario-unidad.component.ts:137-141 | Removal shrinks the list by at most one and adds nothing. |
| FormularioUnidad.DatosCreacion | src/app/modules/rentero/components/formulario-unidad/formulario-unidad.component.ts:201-211 | terraza and amueblado default to false and caracteristicas to ''. The services are the selection, the images default to []. The price is parsed, NaN when empty. |
| FormularioUnidad.DatosEdicion | src/app/modules/rentero/components/formulario-unidad/formulario-unidad.component.ts:262-274 | The price is sent only when truthy and the images only when present. The description is always sent. |
| FormularioUnidad.MismaDescripcion | src/app/modules/rentero/components/formulario-unidad/formulario-unidad.component.ts:204-272 | Creation and update describe a unit the same way. |
| FormularioUnidad.MensajeRegistro | src/app/modules/rentero/components/formulario-unidad/formulario-unidad.component.ts:244-251 | The body's message comes first, then its mensaje, then the error's message, then 'Error interno del servidor'. |
| FormularioUnidad.ObtenerMensajeError | src/app/modules/rentero/components/formulario-unidad/formulario-unidad.component.ts:308-317 | '' unless the control is touched with errors. Then required comes before min, and anything else is 'Campo inválido'. |
| FormularioUnidad.MensajeSoloConErrores | src/app/modules/rentero/components/formulario-unidad/formulario-unidad.component.ts:308-317 | A message shows exactly for a touched control with errors. |
| FormularioUnidad.Buscar | src/app/modules/rentero/components/formulario-unidad/formulario-unidad.component.ts:94 | The property found is the first in the list with the id. When none is found, no property has it. |
| FormularioUnidad.FormularioUnidadComponent.constructor | src/app/modules/rentero/components/formulario-unidad/formulario-unidad.component.ts:17-38 | The form starts with its initial values, in create mode, with ids 0 and no services. |
| FormularioUnidad.FormularioUnidadComponent.Imagenes | src/app/modules/rentero/components/formulario-unidad/formulario-unidad.component.ts:143-145 | The image list as `get imagenesFormArray` reads it: the control's value, or `[]` when it has none. `AgregarImagen` and `EliminarImagen` state the new list in its terms. |
| FormularioUnidad.FormularioUnidadComponent.IsServicioSeleccionado | src/app/modules/rentero/components/formulario-unidad/formulario-unidad.component.ts:120-122 | True exactly when the service is in the selection. |
| FormularioUnidad.FormularioUnidadComponent.DetectarModo | src/app/modules/rentero/components/formulario-unidad/formulario-unidad.component.ts:45-69 | 'nueva-unidad' takes the property id and stops with an alert when it is 0 or NaN. 'editar' takes the unit id. |
| FormularioUnidad.FormularioUnidadComponent.OnNombreRespuesta | src/app/modules/rentero/components/formulario-unidad/formulario-unidad.component.ts:92-97 | The name is that of the property with the id, else "Propiedad ID: " and the id. Nothing else changes. |
| FormularioUnidad.FormularioUnidadComponent.OnNombreError | src/app/modules/rentero/components/formulario-unidad/formulario-unidad.component.ts:98-101 | A failed load names the property by its id. Nothing else changes. |
| FormularioUnidad.FormularioUnidadComponent.ToggleServicio | src/app/modules/rentero/components/formulario-unidad/formulario-unidad.component.ts:110-118 | The selection becomes `Alternar` of the old one. |
| FormularioUnidad.FormularioUnidadComponent.AgregarImagen | src/app/modules/rentero/components/formulario-unidad/formulario-unidad.component.ts:124-135 | The images become `ConImagen` of the old ones and stay at most 10. The limit alert shows exactly when a non-blank URL meets a full list. The other form values, the services, the mode, the ids and the name are unchanged. |
| FormularioUnidad.FormularioUnidadComponent.EliminarImagen | src/app/modules/rentero/components/formulario-unidad/formulario-unidad.component.ts:137-141 | The images become `SpliceUno` of the old ones. An index in range removes exactly that image. The rest of the form, the mode, the ids and the name are unchanged. |
| FormularioUnidad.FormularioUnidadComponent.GuardarUnidad | src/app/modules/rentero/components/formulario-unidad/formulario-unidad.component.ts:147-211 | An invalid form or missing token only alerts. Edit mode sends the update. Create mode with a 0 or NaN property id alerts and leaves `procesando` false; otherwise it sends the creation body. The form, the mode, the ids and the name are unchanged. |
| FormularioUnidad.FormularioUnidadComponent.OnRegistroRespuesta | src/app/modules/rentero/components/formulario-unidad/formulario-unidad.component.ts:221-232 | Processing ends. Success returns to the dashboard; failure alerts. Nothing else changes. |
| FormularioUnidad.FormularioUnidadComponent.OnRegistroError | src/app/modules/rentero/components/formulario-unidad/formulario-unidad.component.ts:233-254 | Processing ends. The alert carries the message by priority and the status. Nothing else changes. |
| FormularioUnidad.FormularioUnidadComponent.OnActualizacionRespuesta | src/app/modules/rentero/components/formulario-unidad/formulario-unidad.component.ts:277-286 | Processing ends. Success returns to the dashboard; failure alerts. Nothing else changes. |
| FormularioUnidad.FormularioUnidadComponent.OnActualizacionError | src/app/modules/rentero/components/formulario-unidad/formulario-unidad.component.ts:287-291 | Processing ends with the server-error alert. Nothing else changes. |
| RegistroRentero.LongitudMinima | src/app/modules/rentero/pages/registro-rentero/registro-rentero.component.ts:25-29 | The `Validators.minLength` of each field: 2 for the names, 6 for the password, none for the telephone and e-mail. `ErroresDe` uses it. |
| RegistroRentero.TelefonoValido | src/app/modules/rentero/pages/registro-rentero/registro-rentero.component.ts:27 | The telephone pattern `^[0-9]{10}$`: exactly ten decimal digits. `ErroresDe` uses it and `TelefonoDiezDigitos` states it. |
| RegistroRentero.ErroresDe | src/app/modules/rentero/pages/registro-rentero/registro-rentero.component.ts:24-31 | A field has no error exactly when it is non-empty, long enough in UTF-16 units (as JavaScript counts), a ten-digit telephone where applicable, and a well-formed e-mail where applicable. `required` fails exactly on an empty value. |
| RegistroRentero.TelefonoDiezDigitos | src/app/modules/rentero/pages/registro-rentero/registro-rentero.component.ts:27 | A telephone is accepted exactly when it is ten digits. Formatting characters are refused. |
| RegistroRentero.MensajeError | src/app/modules/rentero/pages/registro-rentero/registro-rentero.component.ts:127-137 | '' unless touched with errors. Then required, minlength, email and pattern are checked in that order, and anything else is 'Campo inválido'. |
| RegistroRentero.PasswordCorta | src/app/modules/rentero/pages/registro-rentero/registro-rentero.component.ts:29-132 | A password shorter than six UTF-16 units gets the message naming the six characters required. |
| RegistroRentero.PasswordAstral | src/app/modules/rentero/pages/registro-rentero/registro-rentero.component.ts:29 | Three emoji make a password of length six, so it passes the minimum length. |
| RegistroRentero.MensajeSiInvalido | src/app/modules/rentero/pages/registro-rentero/registro-rentero.component.ts:127-137 | A touched field shows a message exactly when a validator fails. |
| RegistroRentero.MensajeRechazo | src/app/modules/rentero/pages/registro-rentero/registro-rentero.component.ts:107 | The errors are joined with ', ' when that text is non-empty. Otherwise the response's message is used. |
| RegistroRentero.RechazoRecuperable | src/app/modules/rentero/pages/registro-rentero/registro-rentero.component.ts:107 | Errors without commas can be read back from the text. |
| RegistroRentero.MensajeFallo | src/app/modules/rentero/pages/registro-rentero/registro-rentero.component.ts:113 | The body's mensaje comes first, then the error's message, then the connection text. The result is never empty. |
| RegistroRentero.RegistroRenteroComponent.constructor | src/app/modules/rentero/pages/registro-rentero/registro-rentero.component.ts:13-32 | The wizard starts on step 1 with empty fields and no file. |
| RegistroRentero.RegistroRenteroComponent.EsImagen | src/app/modules/rentero/pages/registro-rentero/registro-rentero.component.ts:49-51 | True exactly when a file is chosen and its type starts with 'image/'. |
| RegistroRentero.RegistroRenteroComponent.EsPdf | src/app/modules/rentero/pages/registro-rentero/registro-rentero.component.ts:53-55 | True exactly when the type is 'application/pdf'. Such a file is never taken as an image. |
| RegistroRentero.RegistroRenteroComponent.ObtenerMensajeError | src/app/modules/rentero/pages/registro-rentero/registro-rentero.component.ts:127-137 | An untouched field shows nothing. A touched field shows a message exactly when a validator fails, and an empty one shows 'x es requerido'. |
| RegistroRentero.RegistroRenteroComponent.DatosValidos | src/app/modules/rentero/pages/registro-rentero/registro-rentero.component.ts:40-43 | `datosValidos`: every one of the five data fields passes all its validators (`ErroresDe` is `None`). `SiguientePaso` advances exactly when it holds. |
| RegistroRentero.RegistroRenteroComponent.SiguientePaso | src/app/modules/rentero/pages/registro-rentero/registro-rentero.component.ts:57-61 | Moves to step 2 only when all five data fields are valid. |
| RegistroRentero.RegistroRenteroComponent.AnteriorPaso | src/app/modules/rentero/pages/registro-rentero/registro-rentero.component.ts:63-65 | Always returns to step 1. |
| RegistroRentero.RegistroRenteroComponent.OnArchivoSeleccionado | src/app/modules/rentero/pages/registro-rentero/registro-rentero.component.ts:67-83 | A chosen file becomes the selection with its preview. Choosing none clears both but leaves the form control as it was. |
| RegistroRentero.RegistroRenteroComponent.FormularioValido | src/app/modules/rentero/pages/registro-rentero/registro-rentero.component.ts:86 | `formulario.valid`: the five data fields are valid and the file control holds a file. `Registrar` sends nothing unless it holds. |
| RegistroRentero.RegistroRenteroComponent.Registrar | src/app/modules/rentero/pages/registro-rentero/registro-rentero.component.ts:85-100 | An invalid form or no chosen file only notifies, and `procesando` is unchanged. Otherwise the data and the file are sent. |
| RegistroRentero.RegistroRenteroComponent.ReiniciarFormulario | src/app/modules/rentero/pages/registro-rentero/registro-rentero.component.ts:120-125 | The fields are empty and untouched, with no file or preview, on step 1. |
| RegistroRentero.RegistroRenteroComponent.OnRespuesta | src/app/modules/rentero/pages/registro-rentero/registro-rentero.component.ts:101-110 | Success notifies and starts over, untouched and without a file. A refusal shows its errors or its message, and the form, the file, the preview and the touched fields stay as they were. |
| RegistroRentero.RegistroRenteroComponent.OnError | src/app/modules/rentero/pages/registro-rentero/registro-rentero.component.ts:111-116 | A transport error shows its message by priority. The form, the file, the preview and the touched fields stay as they were. |

## Left out

- Mapbox (map, markers, popups, `fitBounds`, `easeTo`): markers are values. The popup HTML is a list of entries, not a string.
- HTTP and RxJS: each answer or error is a handler method with the decoded value. The order in which answers arrive is not modelled.
- SweetAlert, toastr, `alert`, `confirm`, `prompt`, `window.open`, the router and `console`: their texts and targets are returned as values, or they are left out.
- `Number(...)` parsing: a listing carries its parsed coordinates, and route ids arrive as integers, with `None` for NaN. Fractional or infinite route ids are not modelled.
- Floating-point arithmetic: filter prices, distances and counts are integers; zoom levels are reals without rounding.
- `formatMoney` and `formatearPrecio` (locale-dependent formatting) are not modelled. A popup entry keeps the raw price.
- `JSON.stringify` of the location: the location enters the form data as its JSON text.
- `encodeURIComponent`: on the home page the encoded greeting is written out. On the detail page the encoder is a parameter of the link.
- `setInterval`, `setTimeout`, `IntersectionObserver` and window resizing: only the events they deliver are modelled, as handler methods (`Tick`, `OnInterseccion`, `OnFinCarga`). The 300 ms delay itself is not modelled. The observer is assumed to have both elements.
- Angular `Validators.email`: its verdict is an input. Angular's form `reset()` to null values is modelled as empty strings, which the validators treat alike.
- `manejarErrores`'s `contexto` parameter is unused by the code and not modelled.
- Case-insensitive matching and `toLowerCase`/`toUpperCase` are modelled for ASCII letters. The `\b\w` title-casing of `limpiarNombreCampo` is modelled for ASCII word characters.
- `URL.createObjectURL` and `revokeObjectURL`: the preview URL is a parameter; revoking is not modelled.
- The `estudiante.service.ts` wrappers, routing modules, the map-detail and map-selection components, and `formulario-propiedad` are not part of this model.
