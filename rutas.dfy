/** `RutaService` of ms-logistica: tentative route candidates for a request
    (a direct one, and one through 1, 2 or 3 deposits depending on the direct
    distance), their assignment, and the legs an assigned route turns into.

    The services the class calls are parameters: `km(a, b)` is what
    `GoogleMapsService.calcularDistancia(a, b)` returns (modelled by
    `GoogleMaps.CalcularDistancia` over the Distance Matrix reply for the
    pair), `geo(a)` the coordinates of an address, and `dist` the haversine
    distance, left uninterpreted. `ahora` stands for
    `LocalDateTime.now()`. */
module Rutas {
  import opened Common
  import opened Text
  import opened LogisticaDb
  import opened GoogleMaps
  import opened SeleccionDepositos

  type Distancia = (string, string) -> real
  type Geocoder = string -> Option<Coord>
  type Haversine = (Coord, Coord) -> real

  /** The `RutaDTO` the service returns; the id list is parsed back from the
      stored string. */
  datatype RutaDTO = RutaDTO(
    id: int, solicitudId: int, estado: string, cantidadTramos: int,
    depositosIntermedios: Option<seq<int>>,
    distanciaTotal: real, costoTotalEstimado: real, tiempoEstimadoHoras: real,
    estrategia: string, fechaCreacion: int, fechaAsignacion: Option<int>,
    observaciones: string)

  const CostoPorKm: real := 150.0
  const HorasPorParada: real := 4.0
  const UmbralUnDeposito: real := 500.0
  const UmbralDosDepositos: real := 1000.0
  const UmbralTresDepositos: real := 1500.0

  // ---------------------------------------------------------------- strategy by distance

  /** How many intermediate deposits `calcularRutasTentativas` tries for a
      direct distance `d` (0 means: the direct candidate only). */
  function CantidadDepositos(d: real): nat
  {
    if UmbralUnDeposito < d <= UmbralDosDepositos then 1
    else if UmbralDosDepositos < d <= UmbralTresDepositos then 2
    else if d > UmbralTresDepositos then 3
    else 0
  }

  /** The bands are contiguous and ordered: none up to 500 km, then one, two
      and three deposits, and a longer trip never gets fewer stops. */
  lemma CantidadDepositosBandas(d: real, e: real)
    ensures CantidadDepositos(d) == 0 <==> d <= 500.0
    ensures CantidadDepositos(d) == 1 <==> 500.0 < d <= 1000.0
    ensures CantidadDepositos(d) == 2 <==> 1000.0 < d <= 1500.0
    ensures CantidadDepositos(d) == 3 <==> d > 1500.0
    ensures d <= e ==> CantidadDepositos(d) <= CantidadDepositos(e)
  {
  }

  // ---------------------------------------------------------------- the id list

  function IdStrings(ids: seq<int>): (r: seq<string>)
    ensures |r| == |ids|
    ensures forall i {:trigger r[i]} :: 0 <= i < |r| ==> r[i] == LongToString(ids[i])
  {
    seq(|ids|, i requires 0 <= i < |ids| => LongToString(ids[i]))
  }

  /** `ids.stream().map(toString).collect(joining(","))`. */
  function IdsString(ids: seq<int>): string
  {
    Join(IdStrings(ids), ",")
  }

  /** `Long.parseLong` over every piece, in order; the first bad piece throws. */
  function ParseAll(pieces: seq<string>): (r: Result<seq<int>>)
    ensures r.Ok? ==> |r.value| == |pieces|
    ensures r.Ok? ==> forall i {:trigger r.value[i]} :: 0 <= i < |pieces| ==> ParseLong(pieces[i]) == Ok(r.value[i])
  {
    if pieces == [] then Ok([])
    else
      match ParseLong(pieces[0])
      case Err(e) => Err(e)
      case Ok(v) =>
        match ParseAll(pieces[1..])
        case Err(e) => Err(e)
        case Ok(vs) => Ok([v] + vs)
  }

  /** The id list of `convertirARutaDTO`: null for a null or empty string,
      otherwise every comma-separated piece parsed as a `long`. */
  function ParseIds(s: Option<string>): Result<Option<seq<int>>>
  {
    if s.None? || s.value == "" then Ok(None)
    else
      match ParseAll(JavaSplit(s.value, ','))
      case Err(e) => Err(e)
      case Ok(ids) => Ok(Some(ids))
  }

  lemma {:induction false} ParseAllIdStrings(ids: seq<int>)
    requires forall i :: 0 <= i < |ids| ==> LongMin <= ids[i] <= LongMax
    ensures ParseAll(IdStrings(ids)) == Ok(ids)
  {
    if ids != [] {
      ParseLongToString(ids[0]);
      assert IdStrings(ids)[1..] == IdStrings(ids[1..]);
      ParseAllIdStrings(ids[1..]);
      assert [ids[0]] + ids[1..] == ids;
    }
  }

  /** Joining the ids with "," and parsing the string back gives the same
      ordered list; no list at all is stored as null and read back as null. */
  lemma IdsRoundTrip(ids: seq<int>)
    requires ids != []
    requires forall i :: 0 <= i < |ids| ==> LongMin <= ids[i] <= LongMax
    ensures IdsString(ids) != ""
    ensures ParseIds(Some(IdsString(ids))) == Ok(Some(ids))
    ensures ParseIds(None) == Ok(None) && ParseIds(Some("")) == Ok(None)
  {
    var pieces := IdStrings(ids);
    JavaSplitJoin(pieces, ',');
    ParseAllIdStrings(ids);
    assert |IdsString(ids)| >= |pieces[0]| > 0;
  }

  /** `convertirARutaDTO`: copies the row and parses its id list, which throws
      `NumberFormatException` on a malformed piece. */
  function ConvertirARutaDTO(r: Ruta): (dto: Result<RutaDTO>)
    ensures dto.Ok? <==> ParseIds(r.depositosIntermedios).Ok?
    ensures dto.Ok? ==>
      && dto.value.id == r.id && dto.value.estado == r.estado
      && dto.value.distanciaTotal == r.distanciaTotal && dto.value.estrategia == r.estrategia
      && dto.value.depositosIntermedios == ParseIds(r.depositosIntermedios).value
      && dto.value.solicitudId == r.solicitudId && dto.value.cantidadTramos == r.cantidadTramos
      && dto.value.costoTotalEstimado == r.costoTotalEstimado
      && dto.value.tiempoEstimadoHoras == r.tiempoEstimadoHoras
      && dto.value.fechaCreacion == r.fechaCreacion && dto.value.fechaAsignacion == r.fechaAsignacion
      && dto.value.observaciones == r.observaciones
  {
    match ParseIds(r.depositosIntermedios)
    case Err(e) => Err(e)
    case Ok(ids) =>
      Ok(RutaDTO(r.id, r.solicitudId, r.estado, r.cantidadTramos, ids,
                 r.distanciaTotal, r.costoTotalEstimado, r.tiempoEstimadoHoras,
                 r.estrategia, r.fechaCreacion, r.fechaAsignacion, r.observaciones))
  }

  // ---------------------------------------------------------------- the direct candidate

  /** The row `calcularRutaDirecta` saves, with id `id`. */
  function RutaDirecta(id: int, solicitudId: int, origen: string, destino: string, km: Distancia, ahora: int): Ruta
  {
    var d := km(origen, destino);
    Ruta(id, solicitudId, TENTATIVA, 1, None, d, d * CostoPorKm,
         CalcularTiempoEstimado(d), DIRECTA, ahora, None, "Ruta directa sin paradas")
  }

  /** The direct candidate is a one-leg TENTATIVA route without deposits whose
      cost is its distance times 150, and it always converts. */
  lemma RutaDirectaForma(id: int, solicitudId: int, origen: string, destino: string, km: Distancia, ahora: int)
    ensures var r := RutaDirecta(id, solicitudId, origen, destino, km, ahora);
      && r.estado == TENTATIVA && r.cantidadTramos == 1 && r.estrategia == DIRECTA
      && r.depositosIntermedios.None?
      && r.distanciaTotal == km(origen, destino)
      && r.costoTotalEstimado == r.distanciaTotal * 150.0
      && r.tiempoEstimadoHoras == CalcularTiempoEstimado(r.distanciaTotal)
      && ConvertirARutaDTO(r).Ok? && ConvertirARutaDTO(r).value.depositosIntermedios.None?
  {
  }

  // ---------------------------------------------------------------- the deposit candidate

  /** `findByEstado("ACTIVO")`, in table order. */
  function Activos(ds: seq<Deposito>): (r: seq<Deposito>)
    ensures |r| <= |ds|
    ensures forall d {:trigger d in r} :: d in r ==> d in ds && d.estado == ACTIVO
    ensures forall d {:trigger d in ds} :: d in ds && d.estado == ACTIVO ==> d in r
    ensures Distintos(ds) ==> Distintos(r)
  {
    if ds == [] then []
    else
      var resto := Activos(ds[1..]);
      assert forall d :: d in ds ==> d == ds[0] || d in ds[1..];
      assert Distintos(ds) ==> Distintos(ds[1..]) && ds[0] !in resto;
      if ds[0].estado == ACTIVO then
        assert forall k :: 0 < k < |[ds[0]] + resto| ==> ([ds[0]] + resto)[k] == resto[k - 1];
        [ds[0]] + resto
      else resto
  }

  /** Rows with distinct ids are distinct. */
  lemma DepositosDistintos(ds: seq<Deposito>)
    requires DepositoIds(ds)
    ensures Distintos(ds)
  {
  }

  function Direcciones(sel: seq<Deposito>): (r: seq<string>)
    ensures |r| == |sel| && forall i {:trigger r[i]} :: 0 <= i < |sel| ==> r[i] == sel[i].direccion
  {
    seq(|sel|, i requires 0 <= i < |sel| => sel[i].direccion)
  }

  function Nombres(sel: seq<Deposito>): (r: seq<string>)
    ensures |r| == |sel| && forall i {:trigger r[i]} :: 0 <= i < |sel| ==> r[i] == sel[i].nombre
  {
    seq(|sel|, i requires 0 <= i < |sel| => sel[i].nombre)
  }

  function Costos(sel: seq<Deposito>): (r: seq<real>)
    ensures |r| == |sel| && forall i {:trigger r[i]} :: 0 <= i < |sel| ==> r[i] == sel[i].costoDia
  {
    seq(|sel|, i requires 0 <= i < |sel| => sel[i].costoDia)
  }

  function Ids(sel: seq<Deposito>): (r: seq<int>)
    ensures |r| == |sel| && forall i {:trigger r[i]} :: 0 <= i < |sel| ==> r[i] == sel[i].id
  {
    seq(|sel|, i requires 0 <= i < |sel| => sel[i].id)
  }

  /** The stops of the trip: the origin, each deposit's address, the destination. */
  function Puntos(origen: string, sel: seq<Deposito>, destino: string): (r: seq<string>)
    ensures |r| == |sel| + 2 && r[0] == origen && r[|r| - 1] == destino
    ensures forall i {:trigger r[i]} :: 1 <= i <= |sel| ==> r[i] == sel[i - 1].direccion
  {
    [origen] + Direcciones(sel) + [destino]
  }

  /** The service's distance for every consecutive pair of stops. */
  function DistanciasTramos(puntos: seq<string>, km: Distancia): (r: seq<real>)
    requires |puntos| >= 1
    ensures |r| == |puntos| - 1
    ensures forall i {:trigger r[i]} :: 0 <= i < |r| ==> r[i] == km(puntos[i], puntos[i + 1])
  {
    seq(|puntos| - 1, i requires 0 <= i < |puntos| - 1 => km(puntos[i], puntos[i + 1]))
  }

  /** The row `calcularRutaConDepositos` saves for the deposits `sel`. */
  function ArmarRuta(id: int, solicitudId: int, origen: string, destino: string, n: nat,
                     sel: seq<Deposito>, km: Distancia, ahora: int): Ruta
  {
    var total := Sum(DistanciasTramos(Puntos(origen, sel, destino), km));
    Ruta(id, solicitudId, TENTATIVA, n + 1, Some(IdsString(Ids(sel))), total,
         total * CostoPorKm + Sum(Costos(sel)),
         CalcularTiempoEstimado(total) + n as real * HorasPorParada,
         if n == 1 then UN_DEPOSITO else MULTIPLES_DEPOSITOS, ahora, None,
         "Ruta con " + NatToString(n) + " parada(s): " + Join(Nombres(sel), ", "))
  }

  /** `calcularRutaConDepositos` with `n` stops: null when fewer than `n`
      deposits are ACTIVO, when either address has no coordinates, or when the
      greedy selection fails; otherwise the saved row. */
  function RutaConDepositos(id: int, solicitudId: int, origen: string, destino: string, n: nat,
                            depositos: seq<Deposito>, geo: Geocoder, dist: Haversine,
                            km: Distancia, ahora: int): Option<Ruta>
  {
    var activos := Activos(depositos);
    if |activos| < n then None
    else if geo(origen).None? || geo(destino).None? then None
    else
      match Seleccion(activos, geo(origen).value, n, dist)
      case None => None
      case Some(sel) =>
        if |sel| != n then None
        else Some(ArmarRuta(id, solicitudId, origen, destino, n, sel, km, ahora))
  }

  /** The deposit candidate is null exactly in the three failure cases. */
  lemma RutaConDepositosNula(id: int, solicitudId: int, origen: string, destino: string, n: nat,
                             depositos: seq<Deposito>, geo: Geocoder, dist: Haversine, km: Distancia, ahora: int)
    ensures RutaConDepositos(id, solicitudId, origen, destino, n, depositos, geo, dist, km, ahora).None?
      <==> || |Activos(depositos)| < n
           || geo(origen).None? || geo(destino).None?
           || Seleccion(Activos(depositos), geo(origen).value, n, dist).None?
  {
    var activos := Activos(depositos);
    if |activos| >= n && geo(origen).Some? && geo(destino).Some? {
      var s := Seleccion(activos, geo(origen).value, n, dist);
      if s.Some? {
        SeleccionCorrecta(activos, geo(origen).value, n, dist);
      }
    }
  }

  /** What the greedy selection returns for the deposit candidate: `n`
      distinct ACTIVO rows of the table, all with coordinates. */
  lemma SeleccionDeActivos(depositos: seq<Deposito>, origen: Coord, n: nat, dist: Haversine)
    requires DepositoIds(depositos)
    requires Seleccion(Activos(depositos), origen, n, dist).Some?
    ensures var sel := Seleccion(Activos(depositos), origen, n, dist).value;
      && |sel| == n && Distintos(sel)
      && (forall i :: 0 <= i < n ==> sel[i] in depositos && sel[i].estado == ACTIVO && TieneCoordenadas(sel[i]))
      && (forall i :: 0 <= i < n ==> LongMin <= sel[i].id <= LongMax)
  {
    var activos := Activos(depositos);
    var sel := Seleccion(activos, origen, n, dist).value;
    SeleccionCorrecta(activos, origen, n, dist);
    DepositosDistintos(depositos);
    forall i | 0 <= i < n
      ensures sel[i] in depositos && LongMin <= sel[i].id <= LongMax
    {
      assert sel[i] in activos;
      var j :| 0 <= j < |depositos| && depositos[j] == sel[i];
    }
  }

  /** The row built for deposits `sel`: `|sel| + 1` legs whose distances add
      up to the total, hours and cost by the formulas, and an id list that
      parses back to the ids of `sel`. */
  lemma ArmarRutaForma(id: int, solicitudId: int, origen: string, destino: string, n: nat,
                       sel: seq<Deposito>, km: Distancia, ahora: int)
    requires |sel| == n > 0
    requires forall i :: 0 <= i < n ==> LongMin <= sel[i].id <= LongMax
    ensures var r := ArmarRuta(id, solicitudId, origen, destino, n, sel, km, ahora);
      && r.estado == TENTATIVA && r.cantidadTramos == n + 1
      && r.estrategia == (if n == 1 then UN_DEPOSITO else MULTIPLES_DEPOSITOS)
      && |DistanciasTramos(Puntos(origen, sel, destino), km)| == n + 1
      && r.distanciaTotal == Sum(DistanciasTramos(Puntos(origen, sel, destino), km))
      && r.tiempoEstimadoHoras == CalcularTiempoEstimado(r.distanciaTotal) + n as real * 4.0
      && r.costoTotalEstimado == r.distanciaTotal * 150.0 + Sum(Costos(sel))
      && r.depositosIntermedios == Some(IdsString(Ids(sel)))
      && ConvertirARutaDTO(r).Ok?
      && ConvertirARutaDTO(r).value.depositosIntermedios == Some(Ids(sel))
  {
    IdsRoundTrip(Ids(sel));
  }

  /** A deposit candidate with `n` stops: `n + 1` legs whose Distance Matrix
      distances add up to the total; hours are the estimate for the total
      plus 4 per stop; cost is 150 per km plus each deposit's daily cost; the
      stored id list names `n` distinct ACTIVO deposits with coordinates, in
      the order they were picked, and parses back to exactly those ids. */
  lemma RutaConDepositosForma(id: int, solicitudId: int, origen: string, destino: string, n: nat,
                              depositos: seq<Deposito>, geo: Geocoder, dist: Haversine, km: Distancia, ahora: int)
    requires DepositoIds(depositos) && n > 0
    requires RutaConDepositos(id, solicitudId, origen, destino, n, depositos, geo, dist, km, ahora).Some?
    ensures geo(origen).Some? && Seleccion(Activos(depositos), geo(origen).value, n, dist).Some?
    ensures var sel := Seleccion(Activos(depositos), geo(origen).value, n, dist).value;
      && |sel| == n && Distintos(sel)
      && (forall i :: 0 <= i < n ==> sel[i] in depositos && sel[i].estado == ACTIVO && TieneCoordenadas(sel[i]))
      && RutaConDepositos(id, solicitudId, origen, destino, n, depositos, geo, dist, km, ahora)
         == Some(ArmarRuta(id, solicitudId, origen, destino, n, sel, km, ahora))
      && ConvertirARutaDTO(ArmarRuta(id, solicitudId, origen, destino, n, sel, km, ahora)).Ok?
  {
    var sel := Seleccion(Activos(depositos), geo(origen).value, n, dist).value;
    SeleccionDeActivos(depositos, geo(origen).value, n, dist);
    ArmarRutaForma(id, solicitudId, origen, destino, n, sel, km, ahora);
  }

  /** The step of `CalcularRutaConDepositos` once the selection is known. */
  lemma RutaConDepositosGuardada(id: int, solicitudId: int, origen: string, destino: string, n: nat,
                                 depositos: seq<Deposito>, geo: Geocoder, dist: Haversine, km: Distancia, ahora: int,
                                 sel: seq<Deposito>)
    requires DepositoIds(depositos) && n > 0 && |sel| == n && |Activos(depositos)| >= n
    requires geo(origen).Some? && geo(destino).Some?
    requires Seleccion(Activos(depositos), geo(origen).value, n, dist) == Some(sel)
    ensures RutaConDepositos(id, solicitudId, origen, destino, n, depositos, geo, dist, km, ahora)
            == Some(ArmarRuta(id, solicitudId, origen, destino, n, sel, km, ahora))
    ensures ConvertirARutaDTO(ArmarRuta(id, solicitudId, origen, destino, n, sel, km, ahora)).Ok?
  {
    RutaConDepositosForma(id, solicitudId, origen, destino, n, depositos, geo, dist, km, ahora);
  }

  // ---------------------------------------------------------------- the candidates of a request

  /** The rows `calcularRutasTentativas` saves after `base` existing routes:
      the direct candidate first, then the deposit candidate when the direct
      distance asks for stops and one could be built. */
  function Tentativas(base: nat, solicitudId: int, origen: string, destino: string,
                      depositos: seq<Deposito>, geo: Geocoder, dist: Haversine,
                      km: Distancia, ahora: int): seq<Ruta>
  {
    var directa := RutaDirecta(base + 1, solicitudId, origen, destino, km, ahora);
    match RutaSegunDistancia(base + 2, solicitudId, origen, destino, directa.distanciaTotal, depositos, geo, dist, km, ahora)
    case None => [directa]
    case Some(r) => [directa, r]
  }

  /** The `if` over the distance bands: no deposit candidate up to 500 km,
      otherwise the candidate with the band's number of stops. */
  function RutaSegunDistancia(id: int, solicitudId: int, origen: string, destino: string, distanciaDirecta: real,
                              depositos: seq<Deposito>, geo: Geocoder, dist: Haversine,
                              km: Distancia, ahora: int): Option<Ruta>
  {
    var n := CantidadDepositos(distanciaDirecta);
    if n == 0 then None
    else RutaConDepositos(id, solicitudId, origen, destino, n, depositos, geo, dist, km, ahora)
  }

  /** The direct candidate always comes first; a second one exists exactly
      when the direct distance is above 500 km and the deposit candidate for
      its band could be built, and it then has one leg more than its stops. */
  lemma TentativasForma(base: nat, solicitudId: int, origen: string, destino: string,
                        depositos: seq<Deposito>, geo: Geocoder, dist: Haversine, km: Distancia, ahora: int)
    ensures var t := Tentativas(base, solicitudId, origen, destino, depositos, geo, dist, km, ahora);
      var d := km(origen, destino);
      var n := CantidadDepositos(d);
      && 1 <= |t| <= 2
      && t[0] == RutaDirecta(base + 1, solicitudId, origen, destino, km, ahora)
      && (d <= 500.0 ==> |t| == 1)
      && (|t| == 2 <==> n > 0 && RutaConDepositos(base + 2, solicitudId, origen, destino, n, depositos, geo, dist, km, ahora).Some?)
      && (|t| == 2 ==> t[1].cantidadTramos == n + 1 && t[1].estado == TENTATIVA
                       && t[1].estrategia == (if n == 1 then UN_DEPOSITO else MULTIPLES_DEPOSITOS))
  {
    var d := km(origen, destino);
    CantidadDepositosBandas(d, d);
  }

  // ---------------------------------------------------------------- saving candidates

  /** Only the route table changes. */
  twostate predicate SoloRutas(db: Db)
    reads db
  {
    && db.tramos == old(db.tramos) && db.depositos == old(db.depositos)
    && db.camiones == old(db.camiones) && db.transportistas == old(db.transportistas)
  }

  /** `rutaRepository.save` of a new row: the IDENTITY column gives it the
      next id. */
  method GuardarRuta(db: Db, ruta: Ruta)
    requires db.Valid() && ruta.id == |db.rutas| + 1
    modifies db
    ensures db.Valid() && SoloRutas(db)
    ensures db.rutas == old(db.rutas) + [ruta]
  {
    db.rutas := db.rutas + [ruta];
  }

  /** `calcularRutaDirecta`: saves the direct candidate and returns it. */
  method CalcularRutaDirecta(db: Db, solicitudId: int, origen: string, destino: string, km: Distancia, ahora: int)
    returns (dto: RutaDTO)
    requires db.Valid()
    modifies db
    ensures db.Valid() && SoloRutas(db)
    ensures db.rutas == old(db.rutas) + [RutaDirecta(|old(db.rutas)| + 1, solicitudId, origen, destino, km, ahora)]
    ensures ConvertirARutaDTO(RutaDirecta(|old(db.rutas)| + 1, solicitudId, origen, destino, km, ahora)) == Ok(dto)
  {
    var distancia := km(origen, destino);
    var tiempo := CalcularTiempoEstimado(distancia);
    var costoEstimado := distancia * CostoPorKm;
    var ruta := Ruta(|db.rutas| + 1, solicitudId, TENTATIVA, 1, None, distancia, costoEstimado,
                     tiempo, DIRECTA, ahora, None, "Ruta directa sin paradas");
    GuardarRuta(db, ruta);
    RutaDirectaForma(ruta.id, solicitudId, origen, destino, km, ahora);
    dto := ConvertirARutaDTO(ruta).value;
  }

  /** The loop over the legs of a deposit candidate: the distance of every
      leg, their total, the deposits' daily costs and their names. */
  method RecorrerTramos(origen: string, destino: string, sel: seq<Deposito>, km: Distancia)
    returns (distancias: seq<real>, total: real, costoDepositos: real, nombres: seq<string>)
    ensures distancias == DistanciasTramos(Puntos(origen, sel, destino), km)
    ensures total == Sum(distancias)
    ensures costoDepositos == Sum(Costos(sel))
    ensures nombres == Nombres(sel)
  {
    ghost var puntos := Puntos(origen, sel, destino);
    ghost var todas := DistanciasTramos(puntos, km);
    ghost var costos := Costos(sel);
    ghost var todosNombres := Nombres(sel);
    distancias, total, costoDepositos, nombres := [], 0.0, 0.0, [];
    var puntoActual := origen;
    for i := 0 to |sel|
      invariant distancias == todas[..i]
      invariant total == Sum(distancias)
      invariant costoDepositos == Sum(costos[..i])
      invariant nombres == todosNombres[..i]
      invariant puntoActual == puntos[i]
    {
      var distTramo := km(puntoActual, sel[i].direccion);
      assert puntos[i + 1] == sel[i].direccion;
      assert todas[i] == distTramo;
      SumAppend(distancias, distTramo);
      SumAppend(costos[..i], sel[i].costoDia);
      PrefijoMas(costos, i);
      PrefijoMas(todas, i);
      PrefijoMas(todosNombres, i);
      distancias := distancias + [distTramo];
      total := total + distTramo;
      costoDepositos := costoDepositos + sel[i].costoDia;
      nombres := nombres + [sel[i].nombre];
      puntoActual := sel[i].direccion;
    }
    var distUltimoTramo := km(puntoActual, destino);
    SumAppend(distancias, distUltimoTramo);
    assert costos[..|sel|] == costos;
    assert todosNombres[..|sel|] == todosNombres;
    PrefijoMas(todas, |sel|);
    assert todas[..|sel| + 1] == todas;
    distancias := distancias + [distUltimoTramo];
    total := total + distUltimoTramo;
  }

  lemma AgregarDos<T>(s: seq<T>, x: T, y: T)
    ensures s + [x] + [y] == s + [x, y]
  {
  }

  lemma PrefijoMas<T>(s: seq<T>, i: nat)
    requires i < |s|
    ensures s[..i + 1] == s[..i] + [s[i]]
  {
  }

  /** `calcularRutaConDepositos`: saves the deposit candidate with `n` stops
      and returns it, or saves nothing and returns null. */
  method CalcularRutaConDepositos(db: Db, solicitudId: int, origen: string, destino: string, n: nat,
                                  geo: Geocoder, dist: Haversine, km: Distancia, ahora: int)
    returns (dto: Option<RutaDTO>)
    requires db.Valid() && n > 0
    modifies db
    ensures db.Valid() && SoloRutas(db)
    ensures var r := RutaConDepositos(|old(db.rutas)| + 1, solicitudId, origen, destino, n, db.depositos, geo, dist, km, ahora);
      && (r.None? ==> dto.None? && db.rutas == old(db.rutas))
      && (r.Some? ==> db.rutas == old(db.rutas) + [r.value] && dto.Some? && ConvertirARutaDTO(r.value) == Ok(dto.value))
  {
    ghost var esperada := RutaConDepositos(|db.rutas| + 1, solicitudId, origen, destino, n, db.depositos, geo, dist, km, ahora);
    dto := None;
    var depositosActivos := Activos(db.depositos);
    var coordOrigen := geo(origen);
    var coordDestino := geo(destino);
    if |depositosActivos| >= n && coordOrigen.Some? && coordDestino.Some? {
      var seleccionados := SeleccionarDepositosOptimos(depositosActivos, coordOrigen.value, n, dist);
      if seleccionados.Some? && |seleccionados.value| == n {
        SeleccionDeActivos(db.depositos, coordOrigen.value, n, dist);
        RutaConDepositosGuardada(|db.rutas| + 1, solicitudId, origen, destino, n, db.depositos, geo, dist, km, ahora, seleccionados.value);
        var r := GuardarRutaConDepositos(db, solicitudId, origen, destino, n, km, ahora, seleccionados.value);
        dto := Some(r);
      }
    }
  }

  /** The end of `calcularRutaConDepositos` once `n` deposits are chosen:
      builds the row, saves it and returns it converted. */
  method GuardarRutaConDepositos(db: Db, solicitudId: int, origen: string, destino: string, n: nat,
                                 km: Distancia, ahora: int, sel: seq<Deposito>)
    returns (dto: RutaDTO)
    requires db.Valid() && |sel| == n > 0
    requires forall i :: 0 <= i < n ==> LongMin <= sel[i].id <= LongMax
    modifies db
    ensures db.Valid() && SoloRutas(db)
    ensures var r := ArmarRuta(|old(db.rutas)| + 1, solicitudId, origen, destino, n, sel, km, ahora);
      db.rutas == old(db.rutas) + [r] && ConvertirARutaDTO(r) == Ok(dto)
  {
    var ruta := ConstruirRutaConDepositos(|db.rutas| + 1, solicitudId, origen, destino, n, sel, km, ahora);
    ArmarRutaForma(|db.rutas| + 1, solicitudId, origen, destino, n, sel, km, ahora);
    GuardarRuta(db, ruta);
    dto := ConvertirARutaDTO(ruta).value;
  }

  /** The body of `calcularRutaConDepositos` once the deposits are chosen:
      walks the legs and fills the row. */
  method ConstruirRutaConDepositos(id: int, solicitudId: int, origen: string, destino: string, n: nat,
                                   sel: seq<Deposito>, km: Distancia, ahora: int)
    returns (ruta: Ruta)
    ensures ruta == ArmarRuta(id, solicitudId, origen, destino, n, sel, km, ahora)
  {
    var distancias, distanciaTotal, costoDepositosTotal, nombresDepositos := RecorrerTramos(origen, destino, sel, km);
    var tiempoTotal := CalcularTiempoEstimado(distanciaTotal) + n as real * HorasPorParada;
    var costoEstimado := distanciaTotal * CostoPorKm + costoDepositosTotal;
    var depositosIds := IdsString(Ids(sel));
    var estrategia := if n == 1 then UN_DEPOSITO else MULTIPLES_DEPOSITOS;
    ruta := Ruta(id, solicitudId, TENTATIVA, n + 1, Some(depositosIds), distanciaTotal,
                 costoEstimado, tiempoTotal, estrategia, ahora, None,
                 "Ruta con " + NatToString(n) + " parada(s): " + Join(nombresDepositos, ", "));
  }

  /** `Tentativas` seen from the direct candidate's returned distance. */
  lemma TentativasDesdeDirecta(base: nat, solicitudId: int, origen: string, destino: string,
                               depositos: seq<Deposito>, geo: Geocoder, dist: Haversine, km: Distancia, ahora: int,
                               dto: RutaDTO)
    requires ConvertirARutaDTO(RutaDirecta(base + 1, solicitudId, origen, destino, km, ahora)) == Ok(dto)
    ensures var directa := RutaDirecta(base + 1, solicitudId, origen, destino, km, ahora);
      Tentativas(base, solicitudId, origen, destino, depositos, geo, dist, km, ahora)
      == match RutaSegunDistancia(base + 2, solicitudId, origen, destino, dto.distanciaTotal, depositos, geo, dist, km, ahora)
         case None => [directa]
         case Some(r) => [directa, r]
  {
  }

  /** How the two saves of `calcularRutasTentativas` add up. */
  lemma TentativasCompone(antes: seq<Ruta>, despues: seq<Ruta>, solicitudId: int, origen: string, destino: string,
                          depositos: seq<Deposito>, geo: Geocoder, dist: Haversine, km: Distancia, ahora: int,
                          dtoDirecta: RutaDTO, dtoExtra: Option<RutaDTO>, rutas: seq<RutaDTO>)
    requires ConvertirARutaDTO(RutaDirecta(|antes| + 1, solicitudId, origen, destino, km, ahora)) == Ok(dtoDirecta)
    requires var directa := RutaDirecta(|antes| + 1, solicitudId, origen, destino, km, ahora);
      var extra := RutaSegunDistancia(|antes| + 2, solicitudId, origen, destino, dtoDirecta.distanciaTotal,
                                      depositos, geo, dist, km, ahora);
      && (extra.None? ==> dtoExtra.None? && despues == antes + [directa])
      && (extra.Some? ==> && despues == antes + [directa] + [extra.value] && dtoExtra.Some?
                          && ConvertirARutaDTO(extra.value) == Ok(dtoExtra.value))
    requires rutas == if dtoExtra.Some? then [dtoDirecta] + [dtoExtra.value] else [dtoDirecta]
    ensures var t := Tentativas(|antes|, solicitudId, origen, destino, depositos, geo, dist, km, ahora);
      && despues == antes + t && |rutas| == |t|
      && forall i :: 0 <= i < |t| ==> ConvertirARutaDTO(t[i]) == Ok(rutas[i])
  {
    TentativasDesdeDirecta(|antes|, solicitudId, origen, destino, depositos, geo, dist, km, ahora, dtoDirecta);
    var directa := RutaDirecta(|antes| + 1, solicitudId, origen, destino, km, ahora);
    var extra := RutaSegunDistancia(|antes| + 2, solicitudId, origen, destino, dtoDirecta.distanciaTotal,
                                    depositos, geo, dist, km, ahora);
    if extra.Some? {
      AgregarDos(antes, directa, extra.value);
    }
  }

  /** The strategy step of `calcularRutasTentativas`: tries the deposit
      candidate for the band of the direct distance. */
  method CalcularRutaSegunDistancia(db: Db, solicitudId: int, origen: string, destino: string, distanciaDirecta: real,
                                    geo: Geocoder, dist: Haversine, km: Distancia, ahora: int)
    returns (dto: Option<RutaDTO>)
    requires db.Valid()
    modifies db
    ensures db.Valid() && SoloRutas(db)
    ensures var r := RutaSegunDistancia(|old(db.rutas)| + 1, solicitudId, origen, destino, distanciaDirecta, db.depositos, geo, dist, km, ahora);
      && (r.None? ==> dto.None? && db.rutas == old(db.rutas))
      && (r.Some? ==> db.rutas == old(db.rutas) + [r.value] && dto.Some? && ConvertirARutaDTO(r.value) == Ok(dto.value))
  {
    dto := None;
    var n := CantidadDepositos(distanciaDirecta);
    if n > 0 {
      dto := CalcularRutaConDepositos(db, solicitudId, origen, destino, n, geo, dist, km, ahora);
    }
  }

  /** `calcularRutasTentativas`: saves and returns the candidates of a
      request. */
  method CalcularRutasTentativas(db: Db, solicitudId: int, origen: string, destino: string,
                                 geo: Geocoder, dist: Haversine, km: Distancia, ahora: int)
    returns (rutas: seq<RutaDTO>)
    requires db.Valid()
    modifies db
    ensures db.Valid() && SoloRutas(db)
    ensures var t := Tentativas(|old(db.rutas)|, solicitudId, origen, destino, db.depositos, geo, dist, km, ahora);
      && db.rutas == old(db.rutas) + t
      && |rutas| == |t|
      && forall i :: 0 <= i < |t| ==> ConvertirARutaDTO(t[i]) == Ok(rutas[i])
  {
    ghost var antes := db.rutas;
    ghost var depositos := db.depositos;
    var rutaDirecta := CalcularRutaDirecta(db, solicitudId, origen, destino, km, ahora);
    var conDepositos := CalcularRutaSegunDistancia(db, solicitudId, origen, destino, rutaDirecta.distanciaTotal,
                                                   geo, dist, km, ahora);
    rutas := [rutaDirecta];
    if conDepositos.Some? {
      rutas := rutas + [conDepositos.value];
    }
    TentativasCompone(antes, db.rutas, solicitudId, origen, destino, depositos, geo, dist, km, ahora, rutaDirecta,
                      conDepositos, rutas);
  }
}
