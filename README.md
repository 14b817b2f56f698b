# Transport logistics services, modelled in Dafny

This project models the core of a container-transport platform built as Spring
microservices. A client asks for a container to be moved from one address to
another. The logistics service plans tentative routes: a direct one, and one
through 1, 2 or 3 intermediate deposits when the trip is long. It assigns one
route and turns it into legs. Each leg gets a truck and a driver, then starts
and finishes. When every leg is finished, the service closes the request. The
requests service keeps clients, containers and requests. The billing service
issues invoices and bills deposit stays. The API gateway maps Keycloak realm
roles to Spring authorities.

Each module models one source file of the core:

| module | models |
|---|---|
| `Common` | optional values, results of calls that may throw, `findById` over IDENTITY tables, sums, Java's truncating `long` division |
| `Text` | the `String`/`Long` operations the services rely on: ASCII case mapping, `trim`, `replace`, `split(",")`, joining, `Long.toString`, `Long.parseLong`, `%06d` |
| `LogisticaDb` | the ms-logistica tables (routes, legs, deposits, trucks, drivers) as a class of `seq` fields, and `save` of a changed row |
| `GoogleMaps` | `GoogleMapsService`: the Distance Matrix answer checks, the metre-to-km rounding, the city-pair fallback table with its 700 km default, and the 80 km/h time estimate |
| `SeleccionDepositos` | `RutaService.seleccionarDepositosOptimos`: the greedy nearest-deposit selection, as a function and as the two nested loops |
| `Rutas` | `RutaService.calcularRutasTentativas` and its helpers: distance bands, the direct and the deposit candidates, the comma-separated id list and `convertirARutaDTO` |
| `RutaAsignacion` | `RutaService.asignarRutaASolicitud` and `crearTramosDesdeRuta` with its three leg builders |
| `Camiones` | `CamionRepository.findDisponiblesConCapacidad` |
| `Logistica` | `LogisticaService`: truck assignment, leg start and finish, the in-memory map of open deposit stays, the completion rollup, and the older direct-only planner |
| `Tarifas` | `TarifaRepository`: the tariffs in force on a date, newest first |
| `Facturacion` | `FacturacionService`: both invoice paths, invoice numbers, deposit stay check-in and check-out |
| `Solicitudes` | `SolicitudService`: request creation with its client and container, confirmation, status and estimate updates, delivery, and the cost/time rollup |
| `SecurityConfig` | the gateway's `KeycloakJwtGrantedAuthoritiesConverter.convert` |

Each service with state is a class whose fields are its tables. The methods
change those fields, and every method is proved equal to a pure function of
the old tables. The properties the services promise are lemmas about those
functions. Database ids come from an IDENTITY column. In the model, row `i`
has id `i + 1`. Every service class is `@Transactional`, so an operation that
throws leaves its tables as they were. The model keeps this rule. The one
exception is the in-memory map of open stays in `LogisticaService`, which a
rollback does not restore. The model does not keep IDENTITY counters: after a
rollback, the next insert reuses the ids the undone insert had taken (see
"Left out").

Three behaviours of the code are easy to miss:

- The leg builder for several deposits always creates 3 legs. It reads only
  the first two deposit ids. A three-deposit candidate records 4 legs, but
  assigning it creates 3, and the third deposit is never visited
  (`RutaAsignacion.TresParadasTresTramos`).
- The planner prices a candidate at 150 per km. The completion rollup in
  `LogisticaService` charges 10000 per km as the real cost
  (`Logistica.CierreEfecto`). The requests service's own rollup, run when a
  request's status is set to FINALIZADA, charges 150 per km
  (`Solicitudes.CostoRealSegunKm`).
- The IN_TRANSIT update is sent when, after the save, exactly one leg of the
  request is INICIADO (`Logistica.IniciarEfecto`). It is not limited to the
  request's first leg. A leg started after the earlier legs have finished
  sends the update again.

## Model

| member | source | states |
|---|---|---|
| Common.FindById | ms-logistica/src/main/java/com/tpi/logistica/service/LogisticaService.java:146-147 | `findById` on an IDENTITY table: a row is found exactly when 1 <= id <= size, and it is row id-1 |
| Common.TruncDiv | ms-solicitudes-v2/src/main/java/com/tpi/solicitudes/service/SolicitudService.java:243-246 | Java's `long` division truncates toward zero: Euclidean division for a non-negative dividend, mirrored for a negative one |
| Text.Lower | ms-logistica/src/main/java/com/tpi/logistica/service/GoogleMapsService.java:108 | `toLowerCase()` maps every character on its own (ASCII letters change) and keeps the length |
| Text.Upper | api-gateway/src/main/java/com/tpi/gateway/api_gateway/config/SecurityConfig.java:113 | `toUpperCase()` maps every character on its own (ASCII letters change) and keeps the length |
| Text.Trim | api-gateway/src/main/java/com/tpi/gateway/api_gateway/config/SecurityConfig.java:111 | `trim()` keeps the piece between the first and last character above U+0020 and cuts only characters at or below it |
| Text.TrimUnique | api-gateway/src/main/java/com/tpi/gateway/api_gateway/config/SecurityConfig.java:111 | any cut with non-trimmable ends that removes only trimmable characters is the cut `trim()` makes |
| Text.TrimLeadingBlank | api-gateway/src/main/java/com/tpi/gateway/api_gateway/config/SecurityConfig.java:111 | a blank in front never changes the trimmed string |
| Text.TrimTrailingBlank | api-gateway/src/main/java/com/tpi/gateway/api_gateway/config/SecurityConfig.java:111 | a blank at the end never changes the trimmed string |
| Text.JavaSplitJoin | ms-logistica/src/main/java/com/tpi/logistica/service/RutaService.java:440-441 | `split(",")` of a `joining(",")` of non-empty comma-free pieces gives the pieces back |
| Text.NatToStringValue | ms-logistica/src/main/java/com/tpi/logistica/service/RutaService.java:208 | the decimal digits printed for a number denote that number |
| Text.NatToStringInjective | ms-facturacion-v2/src/main/java/com/tpi/facturacion/service/FacturacionService.java:283 | two numbers print the same digits only if they are equal |
| Text.LongToString | ms-logistica/src/main/java/com/tpi/logistica/service/RutaService.java:208 | `Long.toString` prints a non-empty string without commas (an optional '-' and digits) |
| Text.ParseLongToString | ms-logistica/src/main/java/com/tpi/logistica/service/RutaService.java:392 | `Long.parseLong` of what `Long.toString` printed gives the number back, for every value of a `long` |
| Text.ZeroPad | ms-facturacion-v2/src/main/java/com/tpi/facturacion/service/FacturacionService.java:283 | `%06d`: at least six digits, exactly the digits of n when it has six or more, and the value n |
| GoogleMaps.Round2 | ms-logistica/src/main/java/com/tpi/logistica/service/GoogleMapsService.java:84 | `Math.round(x*100)/100` is a whole number of hundredths and lies in the half-open interval (x - 0.005, x + 0.005] |
| GoogleMaps.MetresToKmExact | ms-logistica/src/main/java/com/tpi/logistica/service/GoogleMapsService.java:83-84 | the metre-to-km conversion is round(metres/10)/100 exactly, rounding half up |
| GoogleMaps.DistanciasEstimadas | ms-logistica/src/main/java/com/tpi/logistica/service/GoogleMapsService.java:112-128 | the fallback table has one entry per city pair of the route table, keyed by the two normalised names |
| GoogleMaps.TableEntry | ms-logistica/src/main/java/com/tpi/logistica/service/GoogleMapsService.java:112-128 | every entry of the fallback table is a known route and every route length is positive |
| GoogleMaps.RutasSymmetric | ms-logistica/src/main/java/com/tpi/logistica/service/GoogleMapsService.java:113-128 | each route of the table is listed in both directions with the same length |
| GoogleMaps.TableSymmetric | ms-logistica/src/main/java/com/tpi/logistica/service/GoogleMapsService.java:112-130 | the string-keyed table gives a route the same length both ways |
| GoogleMaps.Estimada | ms-logistica/src/main/java/com/tpi/logistica/service/GoogleMapsService.java:131-140 | the lookup gives one of the table's route lengths or the 700 km default, and is positive |
| GoogleMaps.UsarDistanciaEstimada | ms-logistica/src/main/java/com/tpi/logistica/service/GoogleMapsService.java:104-141 | the fallback is the length of the route the normalised addresses name, or 700 km; always positive |
| GoogleMaps.EstimadaSymmetric | ms-logistica/src/main/java/com/tpi/logistica/service/GoogleMapsService.java:130-140 | swapping origin and destination never changes the looked-up distance, default included |
| GoogleMaps.FallbackSymmetric | ms-logistica/src/main/java/com/tpi/logistica/service/GoogleMapsService.java:104-141 | the fallback distance is the same in both directions |
| GoogleMaps.FallbackIgnoresCase | ms-logistica/src/main/java/com/tpi/logistica/service/GoogleMapsService.java:108-109 | addresses that differ only in letter case get the same fallback distance |
| GoogleMaps.CalcularDistancia | ms-logistica/src/main/java/com/tpi/logistica/service/GoogleMapsService.java:35-99 | a well-formed answer of m metres gives round(m/10)/100 km; any other outcome gives the fallback, which is positive; never null |
| GoogleMaps.EveryFailureFallsBack | ms-logistica/src/main/java/com/tpi/logistica/service/GoogleMapsService.java:53-98 | an exception, an empty body, a non-OK status, no rows, no elements, a non-OK element or a missing distance each give exactly the fallback |
| GoogleMaps.AnswerIsUsed | ms-logistica/src/main/java/com/tpi/logistica/service/GoogleMapsService.java:83-89 | a well-formed OK answer of m metres gives m in km rounded to hundredths |
| GoogleMaps.CalcularTiempoEstimado | ms-logistica/src/main/java/com/tpi/logistica/service/GoogleMapsService.java:150-154 | the hours at 80 km/h are a whole number of hundredths within 0.005 of d/80, and 0 km gives 0 hours |
| GoogleMaps.TiempoMonotone | ms-logistica/src/main/java/com/tpi/logistica/service/GoogleMapsService.java:150-154 | a longer distance never gets a shorter time estimate |
| SeleccionDepositos.ConCoordenadas | ms-logistica/src/main/java/com/tpi/logistica/service/RutaService.java:245 | `removeIf` keeps exactly the deposits with both coordinates, and never more than the list holds |
| SeleccionDepositos.ConCoordenadasConcat | ms-logistica/src/main/java/com/tpi/logistica/service/RutaService.java:245 | `removeIf` on a concatenation is the concatenation of the filtered parts, so kept deposits keep their order |
| SeleccionDepositos.ConCoordenadasSubmultiset | ms-logistica/src/main/java/com/tpi/logistica/service/RutaService.java:245 | `removeIf` only removes: the kept deposits are a sub-multiset of the list |
| SeleccionDepositos.ConCoordenadasIdentidad | ms-logistica/src/main/java/com/tpi/logistica/service/RutaService.java:245 | a list whose deposits all have coordinates is left unchanged |
| SeleccionDepositos.ConCoordenadasCons | ms-logistica/src/main/java/com/tpi/logistica/service/RutaService.java:245 | read from the front, `removeIf` keeps the first deposit exactly when it has both coordinates, followed by the filtered rest |
| SeleccionDepositos.MasCercano | ms-logistica/src/main/java/com/tpi/logistica/service/RutaService.java:259-269 | the scan keeps the first deposit strictly closer than every earlier one and no farther than every later one, or none |
| SeleccionDepositos.MasCercanoUnico | ms-logistica/src/main/java/com/tpi/logistica/service/RutaService.java:265 | with the strict `<`, at most one position is the first nearest deposit |
| SeleccionDepositos.RemoveAt | ms-logistica/src/main/java/com/tpi/logistica/service/RutaService.java:273-275 | removing the chosen deposit drops exactly that one occurrence and keeps every other |
| SeleccionDepositos.Greedy | ms-logistica/src/main/java/com/tpi/logistica/service/RutaService.java:254-279 | the loop picks at most n deposits, all of the list and all with coordinates |
| SeleccionDepositos.GreedyDistintos | ms-logistica/src/main/java/com/tpi/logistica/service/RutaService.java:273-275 | the greedy loop never picks the same deposit twice |
| SeleccionDepositos.GreedyCompleto | ms-logistica/src/main/java/com/tpi/logistica/service/RutaService.java:254-271 | with every distance below `Double.MAX_VALUE` and enough deposits, the loop never breaks and picks exactly n |
| SeleccionDepositos.GreedyPrimero | ms-logistica/src/main/java/com/tpi/logistica/service/RutaService.java:255-273 | each pick `i` is the first of the closest deposits, measured from the previous point, among those the loop still holds (`Restantes`: the list minus the earlier picks) |
| SeleccionDepositos.RestantesSinElegidos | ms-logistica/src/main/java/com/tpi/logistica/service/RutaService.java:254-275 | before pick `i`, `depositosRestantes` holds exactly the located deposits minus the earlier picks, counted as multisets |
| SeleccionDepositos.GreedyCabeza | ms-logistica/src/main/java/com/tpi/logistica/service/RutaService.java:259-269 | the first pick is no farther from the origin than any deposit |
| SeleccionDepositos.GreedyMasCercano | ms-logistica/src/main/java/com/tpi/logistica/service/RutaService.java:254-279 | the i-th pick is no farther from the previous point than any deposit not picked before it |
| SeleccionDepositos.SeleccionCorrecta | ms-logistica/src/main/java/com/tpi/logistica/service/RutaService.java:237-282 | a non-null selection is exactly n deposits of the list, all with coordinates, none twice |
| SeleccionDepositos.SeleccionNula | ms-logistica/src/main/java/com/tpi/logistica/service/RutaService.java:245-281 | with distances below `Double.MAX_VALUE`, the selection is null exactly when fewer than n deposits have coordinates |
| SeleccionDepositos.BuscarMasCercano | ms-logistica/src/main/java/com/tpi/logistica/service/RutaService.java:259-269 | the inner loop returns the position `MasCercano` specifies |
| SeleccionDepositos.ElegirGreedy | ms-logistica/src/main/java/com/tpi/logistica/service/RutaService.java:254-279 | the outer loop returns exactly the greedy choice |
| SeleccionDepositos.SeleccionarDepositosOptimos | ms-logistica/src/main/java/com/tpi/logistica/service/RutaService.java:237-282 | the method returns exactly what `Seleccion` gives, null cases included |
| Rutas.CantidadDepositosBandas | ms-logistica/src/main/java/com/tpi/logistica/service/RutaService.java:54-87 | 0 stops up to 500 km, 1 up to 1000 km, 2 up to 1500 km, 3 beyond, each band an if-and-only-if; a longer trip never gets fewer stops |
| Rutas.ParseAll | ms-logistica/src/main/java/com/tpi/logistica/service/RutaService.java:537-539 | a successful parse gives one id per piece, each the `parseLong` of its piece |
| Rutas.ParseAllIdStrings | ms-logistica/src/main/java/com/tpi/logistica/service/RutaService.java:537-539 | parsing the printed ids gives back the ids |
| Rutas.IdsRoundTrip | ms-logistica/src/main/java/com/tpi/logistica/service/RutaService.java:535-540 | the id list stored by joining ids with ',' parses back to the same ordered list; a null or empty string reads as null |
| Rutas.ConvertirARutaDTO | ms-logistica/src/main/java/com/tpi/logistica/service/RutaService.java:534-559 | conversion fails exactly on a malformed id list; otherwise every field is the row's, and the id list is the parsed one |
| Rutas.RutaDirectaForma | ms-logistica/src/main/java/com/tpi/logistica/service/RutaService.java:96-123 | the direct candidate is TENTATIVA, DIRECTA, one leg, no deposits, cost 150 per km, the travel-time estimate, and it always converts |
| Rutas.Activos | ms-logistica/src/main/java/com/tpi/logistica/service/RutaService.java:131 | `findByEstado("ACTIVO")` returns exactly the ACTIVO deposits of the table, none twice when the table has no repeats |
| Rutas.DistanciasTramos | ms-logistica/src/main/java/com/tpi/logistica/service/RutaService.java:168-193 | one distance per consecutive pair of stops, from the origin through the deposits to the destination |
| Rutas.RutaConDepositosNula | ms-logistica/src/main/java/com/tpi/logistica/service/RutaService.java:130-157 | the deposit candidate is null exactly when too few deposits are ACTIVO, an address has no coordinates, or the selection fails |
| Rutas.SeleccionDeActivos | ms-logistica/src/main/java/com/tpi/logistica/service/RutaService.java:150-157 | the deposits chosen are n distinct ACTIVO rows of the table, all with coordinates |
| Rutas.ArmarRutaForma | ms-logistica/src/main/java/com/tpi/logistica/service/RutaService.java:162-226 | the row has n+1 legs whose distances add up to the total, hours +4 per stop, cost 150/km plus each deposit's daily cost, and ids that parse back |
| Rutas.RutaConDepositosForma | ms-logistica/src/main/java/com/tpi/logistica/service/RutaService.java:130-231 | a built deposit candidate has n+1 legs summing to its total, the hours and cost formulas, and the ids of n distinct ACTIVO deposits in pick order |
| Rutas.TentativasForma | ms-logistica/src/main/java/com/tpi/logistica/service/RutaService.java:32-91 | the direct candidate comes first; a second exists exactly above 500 km when the band's deposit candidate can be built |
| Rutas.GuardarRuta | ms-logistica/src/main/java/com/tpi/logistica/service/RutaService.java:120 | saving a new route appends it with the next IDENTITY id and changes no other table |
| Rutas.CalcularRutaDirecta | ms-logistica/src/main/java/com/tpi/logistica/service/RutaService.java:96-123 | saves and returns exactly the direct candidate; only the route table grows |
| Rutas.RecorrerTramos | ms-logistica/src/main/java/com/tpi/logistica/service/RutaService.java:162-193 | the leg loop computes every leg's distance, their total, the daily costs and names of the deposits |
| Rutas.CalcularRutaConDepositos | ms-logistica/src/main/java/com/tpi/logistica/service/RutaService.java:130-231 | saves the deposit candidate and returns it, or saves nothing and returns null, as `RutaConDepositos` says |
| Rutas.GuardarRutaConDepositos | ms-logistica/src/main/java/com/tpi/logistica/service/RutaService.java:203-230 | once the deposits are chosen, saves the row `ArmarRuta` describes and returns it converted |
| Rutas.ConstruirRutaConDepositos | ms-logistica/src/main/java/com/tpi/logistica/service/RutaService.java:162-226 | once the deposits are chosen, fills the row exactly as `ArmarRuta` describes |
| Rutas.CalcularRutaSegunDistancia | ms-logistica/src/main/java/com/tpi/logistica/service/RutaService.java:52-87 | tries the deposit candidate of the direct distance's band, none up to 500 km |
| Rutas.CalcularRutasTentativas | ms-logistica/src/main/java/com/tpi/logistica/service/RutaService.java:32-91 | saves and returns exactly the candidates `Tentativas` describes |
| RutaAsignacion.EtapasForma | ms-logistica/src/main/java/com/tpi/logistica/service/RutaService.java:365-503 | legs numbered 1..k with consecutive ids, PENDIENTE, no truck or driver, of the route and request, with distances adding up to the route's total |
| RutaAsignacion.EtapasCadena | ms-logistica/src/main/java/com/tpi/logistica/service/RutaService.java:365-503 | the legs chain the client's origin through each deposit to the client's destination |
| RutaAsignacion.UnaParada | ms-logistica/src/main/java/com/tpi/logistica/service/RutaService.java:391-393 | success means the whole string parses to an id whose deposit row exists, and the stop is that row; a null string is NumberFormat, a parse error propagates, a missing row is NotFound |
| RutaAsignacion.DosParadas | ms-logistica/src/main/java/com/tpi/logistica/service/RutaService.java:440-447 | success means the first two pieces of `split(",")` parse to ids whose rows exist, and the two stops are those rows in order; a null string is NullReference, no piece is IndexOutOfBounds |
| RutaAsignacion.TramosDeRuta | ms-logistica/src/main/java/com/tpi/logistica/service/RutaService.java:345-360 | DIRECTA gives 1 leg over the whole distance, UN_DEPOSITO 2, MULTIPLES_DEPOSITOS 3, anything else none; a failed request fetch, and a failure of `UnaParada` or `DosParadas`, propagates |
| RutaAsignacion.Cancelar | ms-logistica/src/main/java/com/tpi/logistica/service/RutaService.java:320-327 | every TENTATIVA sibling of the request becomes CANCELADA; every other route is unchanged |
| RutaAsignacion.Asignar | ms-logistica/src/main/java/com/tpi/logistica/service/RutaService.java:306-340 | a missing route is NotFound, another request's route IllegalArgument, a non-TENTATIVA route IllegalState, in that order |
| RutaAsignacion.AsignarEfecto | ms-logistica/src/main/java/com/tpi/logistica/service/RutaService.java:320-339 | on success the route is ASIGNADA, its TENTATIVA siblings CANCELADA, other routes untouched, its legs appended after the existing ones |
| RutaAsignacion.AsignarSinTentativas | ms-logistica/src/main/java/com/tpi/logistica/service/RutaService.java:320-332 | after an assignment no route of the request is TENTATIVA and the ASIGNADA routes are the old ones plus the chosen one |
| RutaAsignacion.TramosDeCandidata | ms-logistica/src/main/java/com/tpi/logistica/service/RutaService.java:389-503 | a candidate built by the planner is read back: its legs pass through the first one or two deposits picked, in order |
| RutaAsignacion.UnaParadaDeCandidata | ms-logistica/src/main/java/com/tpi/logistica/service/RutaService.java:389-393 | the one-deposit candidate's id string parses back to its deposit |
| RutaAsignacion.DosParadasDeCandidata | ms-logistica/src/main/java/com/tpi/logistica/service/RutaService.java:438-447 | a multi-deposit candidate's id string yields its first two deposits, in order |
| RutaAsignacion.TresParadasTresTramos | ms-logistica/src/main/java/com/tpi/logistica/service/RutaService.java:438-503 | a three-deposit candidate records 4 legs but assigning it creates 3, none reaching the third deposit |
| RutaAsignacion.GuardarTramo | ms-logistica/src/main/java/com/tpi/logistica/service/RutaService.java:381 | saving a new leg appends it with the next IDENTITY id; only the leg table changes |
| RutaAsignacion.ActualizarRuta | ms-logistica/src/main/java/com/tpi/logistica/service/RutaService.java:325 | saving a changed route replaces the row with its id; only the route table changes |
| RutaAsignacion.Deshacer | ms-logistica/src/main/java/com/tpi/logistica/service/RutaService.java:19 | the class-level transaction rollback restores both tables |
| RutaAsignacion.CrearTramoDirecto | ms-logistica/src/main/java/com/tpi/logistica/service/RutaService.java:365-384 | saves the single direct leg `TramosDeRuta` gives |
| RutaAsignacion.CrearTramosConUnDeposito | ms-logistica/src/main/java/com/tpi/logistica/service/RutaService.java:389-433 | parses and finds the deposit first, then saves the two legs; a failure saves nothing |
| RutaAsignacion.CrearTramosConMultiplesDepositos | ms-logistica/src/main/java/com/tpi/logistica/service/RutaService.java:438-507 | parses and finds both deposits first, then saves the three legs; a failure saves nothing |
| RutaAsignacion.CrearTramosDesdeRuta | ms-logistica/src/main/java/com/tpi/logistica/service/RutaService.java:345-360 | fetches the request and saves the legs `TramosDeRuta` gives for the route's strategy |
| RutaAsignacion.CancelarOtrasTentativas | ms-logistica/src/main/java/com/tpi/logistica/service/RutaService.java:320-327 | the loop leaves the route table as `Cancelar` describes |
| RutaAsignacion.AsignarRutaASolicitud | ms-logistica/src/main/java/com/tpi/logistica/service/RutaService.java:306-340 | the tables become what `Asignar` gives on success and stay as they were on any exception |
| Camiones.Filtrar | ms-logistica/src/main/java/com/tpi/logistica/repository/CamionRepository.java:17-18 | a truck is kept exactly when it is in the table and meets the WHERE clause |
| Camiones.DisponiblesCorrectos | ms-logistica/src/main/java/com/tpi/logistica/repository/CamionRepository.java:17-19 | every truck returned is DISPONIBLE with both capacities at least the load (equality counts), every such truck is returned, and a null parameter returns none |
| Camiones.DisponiblesEnOrden | ms-logistica/src/main/java/com/tpi/logistica/repository/CamionRepository.java:17-19 | the answer lists each truck once, by increasing id (the query has no ORDER BY; table order is assumed) |
| Logistica.AsignacionCamionRechazos | ms-logistica/src/main/java/com/tpi/logistica/service/LogisticaService.java:166-188 | the assignment is refused exactly when the truck or driver is not DISPONIBLE (IllegalState, truck first) or the load exceeds a capacity (IllegalArgument, weight first) |
| Logistica.AsignacionCamionExito | ms-logistica/src/main/java/com/tpi/logistica/service/LogisticaService.java:193-206 | a successful assignment makes the leg ASIGNADO with that truck and driver, the truck ASIGNADO, the driver EN_USO, nothing else changed |
| Logistica.DisponibleEsAsignable | ms-logistica/src/main/java/com/tpi/logistica/service/LogisticaService.java:142-188 | a truck the capacity query returns for the container passes every truck check of the assignment |
| Logistica.TramoIniciable | ms-logistica/src/main/java/com/tpi/logistica/service/LogisticaService.java:218-231 | a leg can start exactly when it exists, has a truck and a driver, and is ASIGNADO |
| Logistica.IniciadosUno | ms-logistica/src/main/java/com/tpi/logistica/service/LogisticaService.java:270-273 | with this leg started, exactly one started leg means no other leg of the request is started |
| Logistica.IniciarEfecto | ms-logistica/src/main/java/com/tpi/logistica/service/LogisticaService.java:233-280 | the leg becomes INICIADO at the given time, its truck EN_USO, nothing else; EN_TRANSITO is sent exactly when no other leg of the request is INICIADO |
| Logistica.TrasSalidaEfecto | ms-logistica/src/main/java/com/tpi/logistica/service/LogisticaService.java:237-259 | the active-stay map changes only for a leg leaving a deposit, by removing the container's stay after its check-out was recorded |
| Logistica.Finalizar | ms-logistica/src/main/java/com/tpi/logistica/service/LogisticaService.java:293-298 | finishing fails for a missing leg or one that is not INICIADO |
| Logistica.FinalizarEfecto | ms-logistica/src/main/java/com/tpi/logistica/service/LogisticaService.java:296-323 | the leg becomes FINALIZADO at the given time; its truck DISPONIBLE at the destination, its driver DISPONIBLE; no other row changes |
| Logistica.TrasEntradaEfecto | ms-logistica/src/main/java/com/tpi/logistica/service/LogisticaService.java:326-352 | the map changes only for a leg reaching a deposit, by storing the stay opened there under the container's id |
| Logistica.TramosDe | ms-logistica/src/main/java/com/tpi/logistica/service/LogisticaService.java:355 | `findBySolicitudId` returns exactly the legs of the table that belong to the request |
| Logistica.CierreEfecto | ms-logistica/src/main/java/com/tpi/logistica/service/LogisticaService.java:354-376 | the rollup runs exactly when every leg of the request is FINALIZADO, and then charges 10000 per km |
| Logistica.TentativasDirectasComoRutaDirecta | ms-logistica/src/main/java/com/tpi/logistica/service/LogisticaService.java:43-86 | the older planner proposes one ESTIMADO client-to-client leg whose figures match the newer direct candidate |
| Logistica.TramoEstimadoComoPropuesto | ms-logistica/src/main/java/com/tpi/logistica/service/LogisticaService.java:91-124 | the leg the older `crearTramos` saves is the proposed leg with the next id and no route, truck or driver |
| Logistica.LogisticaService.constructor | ms-logistica/src/main/java/com/tpi/logistica/service/LogisticaService.java:36 | the service starts with an empty map of active stays |
| Logistica.LogisticaService.AsignarCamion | ms-logistica/src/main/java/com/tpi/logistica/service/LogisticaService.java:142-210 | the tables become what `AsignacionCamion` gives; a refusal leaves them unchanged |
| Logistica.LogisticaService.RegistrarSalida | ms-logistica/src/main/java/com/tpi/logistica/service/LogisticaService.java:237-259 | the map becomes what `TrasSalida` gives |
| Logistica.LogisticaService.IniciarTramo | ms-logistica/src/main/java/com/tpi/logistica/service/LogisticaService.java:215-285 | the tables become what `Iniciar` gives; a failure restores them but keeps the map change made before it |
| Logistica.LogisticaService.RegistrarEntrada | ms-logistica/src/main/java/com/tpi/logistica/service/LogisticaService.java:326-352 | the map becomes what `TrasEntrada` gives |
| Logistica.LogisticaService.FinalizarTramo | ms-logistica/src/main/java/com/tpi/logistica/service/LogisticaService.java:290-403 | the tables become what `Finalizar` gives, the map what `TrasEntrada` gives, and the rollup is returned exactly when `CierreDe` gives one |
| Logistica.LogisticaService.Liberar | ms-logistica/src/main/java/com/tpi/logistica/service/LogisticaService.java:304-321 | frees the leg's truck at its destination and its driver; a missing row changes nothing |
| Logistica.LogisticaService.CrearTramos | ms-logistica/src/main/java/com/tpi/logistica/service/LogisticaService.java:91-124 | saves and returns the one ESTIMADO direct leg `TramoEstimado` describes |
| LogisticaDb.Db.ActualizarTramo | ms-logistica/src/main/java/com/tpi/logistica/service/LogisticaService.java:206 | saving a changed leg replaces the row with its id; no other table changes |
| LogisticaDb.Db.ActualizarCamion | ms-logistica/src/main/java/com/tpi/logistica/service/LogisticaService.java:201 | saving a changed truck replaces its row; no other table changes |
| LogisticaDb.Db.ActualizarTransportista | ms-logistica/src/main/java/com/tpi/logistica/service/LogisticaService.java:204 | saving a changed driver replaces its row; no other table changes |
| Tarifas.Vigentes | ms-facturacion-v2/src/main/java/com/tpi/facturacion/repository/TarifaRepository.java:14-16 | keeps exactly the ACTIVA tariffs whose period contains the date, an open end included |
| Tarifas.InsertarPermuta | ms-facturacion-v2/src/main/java/com/tpi/facturacion/repository/TarifaRepository.java:17 | inserting into the ordered list adds the tariff and loses nothing |
| Tarifas.OrdenarPorDesde | ms-facturacion-v2/src/main/java/com/tpi/facturacion/repository/TarifaRepository.java:17 | the result is ordered by start date, newest first |
| Tarifas.OrdenarPermuta | ms-facturacion-v2/src/main/java/com/tpi/facturacion/repository/TarifaRepository.java:17 | sorting keeps exactly the same tariffs |
| Tarifas.TarifasVigentesCorrectas | ms-facturacion-v2/src/main/java/com/tpi/facturacion/repository/TarifaRepository.java:14-18 | the query returns exactly the tariffs in force on the date, newest first |
| Tarifas.TarifaVigenteCorrecta | ms-facturacion-v2/src/main/java/com/tpi/facturacion/repository/TarifaRepository.java:20-22 | none exactly when no tariff is in force; otherwise one in force that no other in force starts after |
| Facturacion.NumeroFacturaForma | ms-facturacion-v2/src/main/java/com/tpi/facturacion/service/FacturacionService.java:281-284 | the number is "FC-", at least six digits worth n (exactly six below a million), '-' and the year |
| Facturacion.NumeroFacturaInyectivo | ms-facturacion-v2/src/main/java/com/tpi/facturacion/service/FacturacionService.java:281-284 | two invoice numbers are equal only for the same sequence number and year |
| Facturacion.EmitirCorrecto | ms-facturacion-v2/src/main/java/com/tpi/facturacion/service/FacturacionService.java:82-108 | every issued invoice adds up, totals 121% of its subtotal, is PENDIENTE, due 30 days later, and carries the next number |
| Facturacion.Transportes | ms-facturacion-v2/src/main/java/com/tpi/facturacion/service/FacturacionService.java:66-68 | each leg's transport cost is its km times its truck's cost per km |
| Facturacion.Combustibles | ms-facturacion-v2/src/main/java/com/tpi/facturacion/service/FacturacionService.java:72-74 | each leg's fuel cost is its km times its consumption times the fuel price |
| Facturacion.CalculoFacturaRechazos | ms-facturacion-v2/src/main/java/com/tpi/facturacion/service/FacturacionService.java:47-61 | calculation succeeds exactly when the request has no invoice, a tariff is in force today and every leg has its figures |
| Facturacion.CalculoFacturaImportes | ms-facturacion-v2/src/main/java/com/tpi/facturacion/service/FacturacionService.java:56-108 | the invoice charges the tariff base plus its per-leg charge, each leg's km at its cost per km, and the litres at the fuel price |
| Facturacion.CombustibleSegunLitros | ms-facturacion-v2/src/main/java/com/tpi/facturacion/service/FacturacionService.java:72-74 | the fuel charge is the price times the litres of all legs |
| Facturacion.CombustiblesEstimados | ms-facturacion-v2/src/main/java/com/tpi/facturacion/service/FacturacionService.java:170-174 | each leg's estimated fuel is its km (0 if null) times 0.08 times the price |
| Facturacion.GeneracionFacturaRechazos | ms-facturacion-v2/src/main/java/com/tpi/facturacion/service/FacturacionService.java:143-161 | generation refuses a second invoice (IllegalState), propagates a failed request or leg call, refuses a request with no legs (MissingData) and a day without a tariff in force (NotFound), and succeeds in every other case |
| Facturacion.GeneracionFacturaImportes | ms-facturacion-v2/src/main/java/com/tpi/facturacion/service/FacturacionService.java:163-205 | a generated invoice charges the real cost (0 when unknown), 10% of it for management, and 0.08 l/km at the fuel price |
| Facturacion.CombustibleSegunKm | ms-facturacion-v2/src/main/java/com/tpi/facturacion/service/FacturacionService.java:170-174 | the estimated fuel charge is 0.08 l per km of all legs at the price |
| Facturacion.NumerosUnicos | ms-facturacion-v2/src/main/java/com/tpi/facturacion/service/FacturacionService.java:281-284 | no two invoices of the table share a number |
| Facturacion.EmitirConserva | ms-facturacion-v2/src/main/java/com/tpi/facturacion/service/FacturacionService.java:51-53 | issuing keeps one invoice per request and unique numbers, and a second invoice is then refused by both paths |
| Facturacion.DiasFacturables | ms-facturacion-v2/src/main/java/com/tpi/facturacion/service/FacturacionService.java:252-253 | at least one day is billed; under two days exactly one; from one day on, the whole days between entry and exit |
| Facturacion.SalidaCorrecta | ms-facturacion-v2/src/main/java/com/tpi/facturacion/service/FacturacionService.java:241-267 | check-out succeeds exactly on an open stay, closes it now and bills at least a day at its daily cost; it cannot be repeated |
| Facturacion.EntradaLuegoSalida | ms-facturacion-v2/src/main/java/com/tpi/facturacion/service/FacturacionService.java:217-236 | a stay just opened is open and can be checked out |
| Facturacion.SumarCargos | ms-facturacion-v2/src/main/java/com/tpi/facturacion/service/FacturacionService.java:65-74 | the loop reports complete figures exactly when every leg has them, and then the sums of `Transportes` and `Combustibles` |
| Facturacion.EstimarCombustible | ms-facturacion-v2/src/main/java/com/tpi/facturacion/service/FacturacionService.java:170-174 | the loop computes the sum of `CombustiblesEstimados` |
| Facturacion.FacturacionService.Guardar | ms-facturacion-v2/src/main/java/com/tpi/facturacion/service/FacturacionService.java:110 | saving an invoice appends it; the other tables are unchanged |
| Facturacion.FacturacionService.CalcularFactura | ms-facturacion-v2/src/main/java/com/tpi/facturacion/service/FacturacionService.java:47-114 | the result is `CalculoFactura`'s, and the invoice table grows by it exactly on success |
| Facturacion.FacturacionService.GenerarFactura | ms-facturacion-v2/src/main/java/com/tpi/facturacion/service/FacturacionService.java:140-212 | the result is `GeneracionFactura`'s, and the invoice table grows by it exactly on success |
| Facturacion.FacturacionService.RegistrarEntradaDeposito | ms-facturacion-v2/src/main/java/com/tpi/facturacion/service/FacturacionService.java:217-236 | appends the open stay `NuevaEstadia` describes |
| Facturacion.FacturacionService.RegistrarSalidaDeposito | ms-facturacion-v2/src/main/java/com/tpi/facturacion/service/FacturacionService.java:241-267 | replaces the stay with the closed one `Salida` gives, only on success |
| Solicitudes.IndiceEmail | ms-solicitudes-v2/src/main/java/com/tpi/solicitudes/service/SolicitudService.java:98 | finds the first client with the email, or reports that none has it |
| Solicitudes.ClienteObtenidoCorrecto | ms-solicitudes-v2/src/main/java/com/tpi/solicitudes/service/SolicitudService.java:97-110 | the client has the email and is in the table; an existing one is reused, otherwise exactly one is appended; emails stay unique |
| Solicitudes.ContenedorCreadoCorrecto | ms-solicitudes-v2/src/main/java/com/tpi/solicitudes/service/SolicitudService.java:115-139 | a container is created exactly when its number is new, CREADO at the origin, of the given type or ESTANDAR; numbers stay unique |
| Solicitudes.PrimeraDirecta | ms-solicitudes-v2/src/main/java/com/tpi/solicitudes/service/SolicitudService.java:71-73 | finds the first DIRECTA candidate, or reports that none is |
| Solicitudes.RutaParaEstimarCorrecta | ms-solicitudes-v2/src/main/java/com/tpi/solicitudes/service/SolicitudService.java:70-78 | a non-empty list yields the first DIRECTA candidate if any, else its head; an empty list yields none |
| Solicitudes.CreacionSolicitudCorrecta | ms-solicitudes-v2/src/main/java/com/tpi/solicitudes/service/SolicitudService.java:31-92 | fails only on a duplicate container; the request is BORRADOR with the client and new container; a routing failure leaves the estimates unset |
| Solicitudes.ConfirmacionCorrecta | ms-solicitudes-v2/src/main/java/com/tpi/solicitudes/service/SolicitudService.java:155-179 | succeeds exactly on a BORRADOR request with a positive cost estimate, only changes status to PLANIFICADA, and cannot be repeated |
| Solicitudes.ActualizacionEstadoCorrecta | ms-solicitudes-v2/src/main/java/com/tpi/solicitudes/service/SolicitudService.java:184-200 | any status is accepted for an existing request; only FINALIZADA with legs fills the actual figures, and exactly then an invoice is asked for the request's id |
| Solicitudes.ActualizacionCostoCorrecta | ms-solicitudes-v2/src/main/java/com/tpi/solicitudes/service/SolicitudService.java:307-321 | every existing request takes both estimates and becomes PROGRAMADA, whatever its status |
| Solicitudes.FinalizacionCorrecta | ms-solicitudes-v2/src/main/java/com/tpi/solicitudes/service/SolicitudService.java:326-349 | the request becomes ENTREGADA with the figures and its own container ENTREGADO at the destination; fails only for a missing row |
| Solicitudes.CostosTramos | ms-solicitudes-v2/src/main/java/com/tpi/solicitudes/service/SolicitudService.java:221-227 | each leg's actual cost is 150 per km, nothing for a leg without distance |
| Solicitudes.CostoRealSegunKm | ms-solicitudes-v2/src/main/java/com/tpi/solicitudes/service/SolicitudService.java:221-227 | the actual cost is 150 times the legs' total distance |
| Solicitudes.PrimeraFechaInicioEsMinima | ms-solicitudes-v2/src/main/java/com/tpi/solicitudes/service/SolicitudService.java:231-235 | the earliest start is absent exactly when no leg started, else one leg's start and no later than any |
| Solicitudes.UltimaFechaFinEsMaxima | ms-solicitudes-v2/src/main/java/com/tpi/solicitudes/service/SolicitudService.java:237-241 | the latest end is absent exactly when no leg finished, else one leg's end and no earlier than any |
| Solicitudes.CierreConCalculosCorrecto | ms-solicitudes-v2/src/main/java/com/tpi/solicitudes/service/SolicitudService.java:205-269 | without legs nothing changes and no invoice is asked for; with legs: 150 per km, hours from earliest start to latest end in whole minutes over 60, delivered now, nothing else, and `generarFactura` is called for the request's id |
| Solicitudes.SumarTramos | ms-solicitudes-v2/src/main/java/com/tpi/solicitudes/service/SolicitudService.java:218-227 | the loop computes the sums of `CostosTramos` and `Distancias` |
| Solicitudes.FinalizarConCalculos | ms-solicitudes-v2/src/main/java/com/tpi/solicitudes/service/SolicitudService.java:205-269 | the request becomes what `CierreConCalculos` gives, and the invoice call is the one `FacturaPedida` names |
| Solicitudes.SolicitudService.ObtenerOCrearCliente | ms-solicitudes-v2/src/main/java/com/tpi/solicitudes/service/SolicitudService.java:97-110 | the client table and client become what `ClienteObtenido` gives; other tables unchanged |
| Solicitudes.SolicitudService.CrearContenedor | ms-solicitudes-v2/src/main/java/com/tpi/solicitudes/service/SolicitudService.java:115-139 | the container table grows by `ContenedorCreado`'s result exactly on success |
| Solicitudes.SolicitudService.CrearSolicitud | ms-solicitudes-v2/src/main/java/com/tpi/solicitudes/service/SolicitudService.java:31-92 | the tables become what `CreacionSolicitud` gives; a failure rolls back the new client too |
| Solicitudes.SolicitudService.ConfirmarSolicitud | ms-solicitudes-v2/src/main/java/com/tpi/solicitudes/service/SolicitudService.java:155-179 | the request row becomes `Confirmacion`'s result exactly on success |
| Solicitudes.SolicitudService.ActualizarEstado | ms-solicitudes-v2/src/main/java/com/tpi/solicitudes/service/SolicitudService.java:184-200 | the request row becomes `ActualizacionEstado`'s result exactly on success, and the invoice call made is `FacturaTrasEstado`'s |
| Solicitudes.SolicitudService.ActualizarCostoEstimado | ms-solicitudes-v2/src/main/java/com/tpi/solicitudes/service/SolicitudService.java:307-321 | the request row becomes `ActualizacionCosto`'s result exactly on success |
| Solicitudes.SolicitudService.FinalizarSolicitud | ms-solicitudes-v2/src/main/java/com/tpi/solicitudes/service/SolicitudService.java:326-349 | the request and container rows become `Finalizacion`'s results exactly on success |
| SecurityConfig.Convert | api-gateway/src/main/java/com/tpi/gateway/api_gateway/config/SecurityConfig.java:97-106 | a missing or non-map `realm_access`, or a missing or non-list `roles`, gives no authorities |
| SecurityConfig.PipelineIsElementwise | api-gateway/src/main/java/com/tpi/gateway/api_gateway/config/SecurityConfig.java:108-117 | the stream pipeline equals mapping each role on its own and concatenating |
| SecurityConfig.ConvertIsElementwise | api-gateway/src/main/java/com/tpi/gateway/api_gateway/config/SecurityConfig.java:97-117 | `convert` gives the authorities of the roles list, entry by entry |
| SecurityConfig.AuthorityOf | api-gateway/src/main/java/com/tpi/gateway/api_gateway/config/SecurityConfig.java:108-117 | each entry contributes at most one authority |
| SecurityConfig.AuthoritiesAppend | api-gateway/src/main/java/com/tpi/gateway/api_gateway/config/SecurityConfig.java:108-117 | the authorities of a concatenation are the concatenation: order and duplicates kept |
| SecurityConfig.AuthoritiesLength | api-gateway/src/main/java/com/tpi/gateway/api_gateway/config/SecurityConfig.java:108-117 | never more authorities than roles |
| SecurityConfig.AuthorityShape | api-gateway/src/main/java/com/tpi/gateway/api_gateway/config/SecurityConfig.java:111-116 | every authority is ROLE_ plus a non-empty, upper-cased, trimmed, non-excluded role of the list |
| SecurityConfig.ExcludedRoleDropped | api-gateway/src/main/java/com/tpi/gateway/api_gateway/config/SecurityConfig.java:113-115 | a role whose trimmed upper-case form is excluded maps to nothing |
| SecurityConfig.OfflineAccessIgnoresCase | api-gateway/src/main/java/com/tpi/gateway/api_gateway/config/SecurityConfig.java:33 | every spelling whose upper case is OFFLINE_ACCESS is dropped |
| SecurityConfig.UmaAuthorizationIgnoresCase | api-gateway/src/main/java/com/tpi/gateway/api_gateway/config/SecurityConfig.java:33 | every spelling whose upper case is UMA_AUTHORIZATION is dropped |
| SecurityConfig.DefaultRolesDropped | api-gateway/src/main/java/com/tpi/gateway/api_gateway/config/SecurityConfig.java:115 | every role that starts with `default-` in any letter case (Keycloak's default-roles-<realm>) is dropped by its prefix |
| SecurityConfig.AdminMapped | api-gateway/src/main/java/com/tpi/gateway/api_gateway/config/SecurityConfig.java:116 | an illustration of `AuthorityShape`: a role `admin` becomes ROLE_ADMIN |
| SecurityConfig.BlanksAroundIgnored | api-gateway/src/main/java/com/tpi/gateway/api_gateway/config/SecurityConfig.java:111 | blanks around a role never change what it maps to |
| SecurityConfig.NonStringsAndBlanksDropped | api-gateway/src/main/java/com/tpi/gateway/api_gateway/config/SecurityConfig.java:109-112 | non-string entries and blank strings contribute nothing |

## Left out

- Network calls are parameters of the operations that make them: the Distance Matrix HTTP call, geocoding, the Feign clients between services and the WebClient calls. Each is modelled as a value given to the operation: the answer, or a failure. `obtenerCoordenadas` (geocoding) is not part of this model beyond that.
- The haversine distance is a parameter `dist`. Every property of the deposit selection is proved for any distance function, so the trigonometry is not modelled.
- `double` arithmetic is modelled with exact reals. Rounding is modelled only where the code rounds on purpose (`Math.round(x * 100.0) / 100.0`). Floating-point error is not modelled.
- Clocks are parameters: instants are integer seconds, and calendar dates are whole days. Time zones and `LocalDate` conversion are not modelled.
- Logging, and the `log.warn` lines that report a swallowed failure, are not modelled.
- Concurrency is not modelled: simultaneous calls, the read-then-write race on truck and driver status, and transaction isolation. Each operation runs alone.
- Logistica.LogisticaService.FinalizarTramo: the follow-up calls to `finalizarSolicitud` and `generarFactura` after the rollup are returned as a value. They are not carried out, and their failures are swallowed, as in the code.
- Logistica.CierreEfecto: the rollup's hours (the sum over the legs of whole minutes over 60) are stated only through the per-leg function `HorasTramo`, not as a closed formula.
- Camiones.DisponiblesEnOrden: the JPQL query has no ORDER BY. The model fixes table order, which the database does not promise.
- Rutas.Activos: `findByEstado("ACTIVO")` has no ORDER BY. The model fixes table order, which the database does not promise; the greedy selection's tie-break (first of equal distances) depends on it.
- Solicitudes.SolicitudService.CrearSolicitud: IDENTITY values taken by a rolled-back insert are not modelled. When a new client is saved and the duplicate container number then throws, the model gives the next client the same id; the database would skip it.
- RutaAsignacion.AsignarRutaASolicitud: the same holds for the legs saved before `convertirARutaDTO` throws on a malformed id list. After the rollback the model reuses their ids.
- RutaAsignacion.Deshacer: it restores the tables, not the IDENTITY counters.
- Tarifas.OrdenarPorDesde: the order of tariffs that start on the same day is left open by ORDER BY. The model keeps their table order.
- Text.Lower and Text.Upper: case mapping covers ASCII letters only, not the full Unicode case mapping of `toLowerCase`/`toUpperCase`.
- The null checks on the result of `calcularDistancia` in `RutaService` and `LogisticaService` (defaults of 700 and 200 km) are dead code: that method never returns null. Types rule the null out, so those branches are not modelled.
- A Feign call that answers with a null body counts as a failed call.
- Unchecked `RuntimeException`s are modelled by the failure kind the code's message describes: NotFound, IllegalState, IllegalArgument, or MissingData for related data that is absent: a referenced row that does not exist, or (in `generarFactura`) a request with no legs.
- The `(int)` cast of the stay's day count is not modelled; the day count is an unbounded integer.
- Creation and update timestamps are set where an operation's contract mentions them. Elsewhere they are carried along unchanged.
- The route fields `costoTotalReal`, `tiempoRealHoras` and `fechaCompletada` are not modelled: no operation of the core sets them.
- The read-only operations are not modelled: `obtenerSolicitud`, the `listar*` methods, the `convertir*DTO` methods other than `convertirARutaDTO`, `obtenerFacturaPorSolicitud` and `obtenerTarifaVigente`. They return rows or copies of rows.
- The `tramos` field of `RutaDTO` is not modelled; `convertirARutaDTO` never sets it.
