/** `RutaService.asignarRutaASolicitud` and `crearTramosDesdeRuta` with its
    three builders: choosing one candidate of a request, cancelling its other
    TENTATIVA candidates and inserting the legs of the chosen route.
    The ms-solicitudes call `obtenerSolicitud` is a parameter `obtener`: the
    request it returns, or the exception the Feign call raises. The service
    class is `@Transactional`, so an exception undoes every change of the call;
    the method restores both tables before it reports one. */
module RutaAsignacion {
  import opened Common
  import opened Text
  import opened LogisticaDb
  import opened SeleccionDepositos
  import opened Rutas

  /** A deposit of the route as a builder holds it: the id parsed from the
      route's id string and the row `depositoRepository.findById` found. */
  datatype Parada = Parada(id: int, deposito: Deposito)

  // ---------------------------------------------------------------- the legs

  /** Leg `i` (from 0) of a route through `paradas`, as the builders fill it:
      it leaves the client's origin or the previous deposit, reaches the next
      deposit or the client's destination, is PENDIENTE with order `i + 1`,
      and carries the whole distance (no stops) or an equal share of it; its
      id is the next IDENTITY value after `base` rows. */
  function Etapa(ruta: Ruta, sol: SolicitudDTO, paradas: seq<Parada>, base: int, i: nat): Tramo
    requires i <= |paradas|
  {
    var k := |paradas|;
    Tramo(base + i + 1, ruta.solicitudId, Some(ruta.id), None, None,
          if i == 0 then CLIENTE else DEPOSITO,
          if i == 0 then None else Some(paradas[i - 1].id),
          if i == 0 then sol.origenDireccion else paradas[i - 1].deposito.direccion,
          if i == k then CLIENTE else DEPOSITO,
          if i == k then None else Some(paradas[i].id),
          if i == k then sol.destinoDireccion else paradas[i].deposito.direccion,
          if k == 0 then DIRECTO else DEPOSITO,
          Some(if k == 0 then ruta.distanciaTotal else ruta.distanciaTotal / (k + 1) as real),
          i + 1, PENDIENTE, None, None)
  }

  function Etapas(ruta: Ruta, sol: SolicitudDTO, paradas: seq<Parada>, base: int): (ts: seq<Tramo>)
    ensures |ts| == |paradas| + 1
    ensures forall i {:trigger ts[i]} :: 0 <= i < |ts| ==> ts[i] == Etapa(ruta, sol, paradas, base, i)
  {
    seq(|paradas| + 1, i requires 0 <= i <= |paradas| => Etapa(ruta, sol, paradas, base, i))
  }

  /** `k` equal terms add up to `k` times the term. */
  lemma {:induction false} SumIguales(xs: seq<real>, x: real)
    requires forall i :: 0 <= i < |xs| ==> xs[i] == x
    ensures Sum(xs) == |xs| as real * x
  {
    if xs != [] {
      SumIguales(xs[..|xs| - 1], x);
    }
  }

  /** The legs are numbered 1..k with consecutive ids, all PENDIENTE, of the
      route and its request, without truck or driver, DIRECTO only without
      stops; and their distances add up to the route's total. */
  lemma EtapasForma(ruta: Ruta, sol: SolicitudDTO, paradas: seq<Parada>, base: int, ts: seq<Tramo>)
    requires ts == Etapas(ruta, sol, paradas, base)
    ensures |ts| == |paradas| + 1
    ensures forall i :: 0 <= i < |ts| ==>
      && ts[i].id == base + i + 1 && ts[i].ordenTramo == i + 1 && ts[i].estado == PENDIENTE
      && ts[i].solicitudId == ruta.solicitudId && ts[i].rutaId == Some(ruta.id)
      && ts[i].camionId.None? && ts[i].transportistaId.None?
      && ts[i].tipoTramo == (if paradas == [] then DIRECTO else DEPOSITO)
    ensures Sum(Kilometros(ts)) == ruta.distanciaTotal
  {
    var k := |paradas|;
    var parte := if k == 0 then ruta.distanciaTotal else ruta.distanciaTotal / (k + 1) as real;
    SumIguales(Kilometros(ts), parte);
  }

  /** The legs form one chain from the client's origin through each deposit
      in turn to the client's destination. */
  lemma EtapasCadena(ruta: Ruta, sol: SolicitudDTO, paradas: seq<Parada>, base: int, ts: seq<Tramo>)
    requires ts == Etapas(ruta, sol, paradas, base)
    ensures |ts| == |paradas| + 1
    ensures ts[0].origenTipo == CLIENTE && ts[0].origenId.None? && ts[0].origenDireccion == sol.origenDireccion
    ensures ts[|ts| - 1].destinoTipo == CLIENTE && ts[|ts| - 1].destinoId.None?
    ensures ts[|ts| - 1].destinoDireccion == sol.destinoDireccion
    ensures forall i :: 0 <= i < |paradas| ==>
      && ts[i].destinoTipo == DEPOSITO && ts[i].destinoId == Some(paradas[i].id)
      && ts[i].destinoDireccion == paradas[i].deposito.direccion
    ensures forall i :: 0 < i < |ts| ==>
      && ts[i].origenTipo == DEPOSITO && ts[i].origenId == Some(paradas[i - 1].id)
      && ts[i].origenDireccion == paradas[i - 1].deposito.direccion
  {
  }

  // ---------------------------------------------------------------- the deposits of a route

  /** `crearTramosConUnDeposito`: `Long.parseLong` of the whole id string
      (a null string throws `NumberFormatException`), then the row. */
  function UnaParada(s: Option<string>, depositos: seq<Deposito>): (r: Result<seq<Parada>>)
    ensures r.Ok? ==> |r.value| == 1
    ensures r.Ok? ==> s.Some? && ParseLong(s.value) == Ok(r.value[0].id)
                      && FindById(depositos, r.value[0].id) == Some(r.value[0].deposito)
    ensures s.None? ==> r == Err(NumberFormat)
    ensures s.Some? && ParseLong(s.value).Err? ==> r == Err(ParseLong(s.value).error)
    ensures s.Some? && ParseLong(s.value).Ok? && FindById(depositos, ParseLong(s.value).value).None?
            ==> r == Err(NotFound)
  {
    if s.None? then Err(NumberFormat)
    else
      match ParseLong(s.value)
      case Err(e) => Err(e)
      case Ok(id) =>
        match FindById(depositos, id)
        case None => Err(NotFound)
        case Some(d) => Ok([Parada(id, d)])
  }

  /** `crearTramosConMultiplesDepositos`: `split(",")` (a null string throws
      `NullPointerException`), pieces 0 and 1 parsed in that order (a missing
      piece throws `ArrayIndexOutOfBoundsException`), then both rows. Any
      further piece is ignored. */
  function DosParadas(s: Option<string>, depositos: seq<Deposito>): (r: Result<seq<Parada>>)
    ensures r.Ok? ==> |r.value| == 2
    ensures r.Ok? ==> s.Some? && |JavaSplit(s.value, ',')| >= 2
                      && ParseLong(JavaSplit(s.value, ',')[0]) == Ok(r.value[0].id)
                      && ParseLong(JavaSplit(s.value, ',')[1]) == Ok(r.value[1].id)
                      && FindById(depositos, r.value[0].id) == Some(r.value[0].deposito)
                      && FindById(depositos, r.value[1].id) == Some(r.value[1].deposito)
    ensures s.None? ==> r == Err(NullReference)
    ensures s.Some? && |JavaSplit(s.value, ',')| == 0 ==> r == Err(IndexOutOfBounds)
  {
    if s.None? then Err(NullReference)
    else
      var partes := JavaSplit(s.value, ',');
      if |partes| == 0 then Err(IndexOutOfBounds)
      else
        match ParseLong(partes[0])
        case Err(e) => Err(e)
        case Ok(id1) =>
          if |partes| < 2 then Err(IndexOutOfBounds)
          else
            match ParseLong(partes[1])
            case Err(e) => Err(e)
            case Ok(id2) =>
              match FindById(depositos, id1)
              case None => Err(NotFound)
              case Some(d1) =>
                match FindById(depositos, id2)
                case None => Err(NotFound)
                case Some(d2) => Ok([Parada(id1, d1), Parada(id2, d2)])
  }

  /** `crearTramosDesdeRuta`: the legs for the route's strategy, after `base`
      existing legs; none for an unknown strategy. */
  function TramosDeRuta(ruta: Ruta, obtener: Solicitudes, depositos: seq<Deposito>, base: int): (r: Result<seq<Tramo>>)
    ensures obtener(ruta.solicitudId).Err? ==> r == Err(obtener(ruta.solicitudId).error)
    ensures r.Ok? ==> |r.value| == (if ruta.estrategia == DIRECTA then 1
                                    else if ruta.estrategia == UN_DEPOSITO then 2
                                    else if ruta.estrategia == MULTIPLES_DEPOSITOS then 3
                                    else 0)
    ensures r.Ok? && ruta.estrategia == DIRECTA ==> r.value[0].distanciaKm == Some(ruta.distanciaTotal)
    ensures obtener(ruta.solicitudId).Ok? && ruta.estrategia == UN_DEPOSITO
            && UnaParada(ruta.depositosIntermedios, depositos).Err?
            ==> r == Err(UnaParada(ruta.depositosIntermedios, depositos).error)
    ensures obtener(ruta.solicitudId).Ok? && ruta.estrategia == MULTIPLES_DEPOSITOS
            && DosParadas(ruta.depositosIntermedios, depositos).Err?
            ==> r == Err(DosParadas(ruta.depositosIntermedios, depositos).error)
  {
    match obtener(ruta.solicitudId)
    case Err(e) => Err(e)
    case Ok(sol) =>
      if ruta.estrategia == DIRECTA then Ok(Etapas(ruta, sol, [], base))
      else if ruta.estrategia == UN_DEPOSITO then
        match UnaParada(ruta.depositosIntermedios, depositos)
        case Err(e) => Err(e)
        case Ok(ps) => Ok(Etapas(ruta, sol, ps, base))
      else if ruta.estrategia == MULTIPLES_DEPOSITOS then
        match DosParadas(ruta.depositosIntermedios, depositos)
        case Err(e) => Err(e)
        case Ok(ps) => Ok(Etapas(ruta, sol, ps, base))
      else Ok([])
  }

  // ---------------------------------------------------------------- assignment

  /** The outcome of a successful assignment: both tables and the answer. */
  datatype Asignacion = Asignacion(rutas: seq<Ruta>, tramos: seq<Tramo>, dto: RutaDTO)

  /** The loop over `findRutasTentativas(solicitudId)`: a TENTATIVA route of
      the request other than the chosen one becomes CANCELADA. */
  function CancelarSiHermana(r: Ruta, solicitudId: int, rutaId: int): Ruta
  {
    if r.solicitudId == solicitudId && r.estado == TENTATIVA && r.id != rutaId then r.(estado := CANCELADA)
    else r
  }

  function Cancelar(rutas: seq<Ruta>, solicitudId: int, rutaId: int): (r: seq<Ruta>)
    ensures |r| == |rutas|
    ensures forall i {:trigger r[i]} :: 0 <= i < |r| ==> r[i] == CancelarSiHermana(rutas[i], solicitudId, rutaId)
  {
    seq(|rutas|, i requires 0 <= i < |rutas| => CancelarSiHermana(rutas[i], solicitudId, rutaId))
  }

  /** The chosen route after `setEstado("ASIGNADA")` and `setFechaAsignacion`. */
  function Asignada(r: Ruta, ahora: int): Ruta
  {
    r.(estado := ASIGNADA, fechaAsignacion := Some(ahora))
  }

  /** `asignarRutaASolicitud(rutaId, solicitudId)`: the checks in order (no
      such route, a route of another request, a route not TENTATIVA), then
      the cancellations, the assignment, the legs and the answer; an
      exception from any of them undoes them all. */
  function Asignar(rutas: seq<Ruta>, tramos: seq<Tramo>, depositos: seq<Deposito>, rutaId: int, solicitudId: int,
                   obtener: Solicitudes, ahora: int): (r: Result<Asignacion>)
    ensures FindById(rutas, rutaId).None? ==> r == Err(NotFound)
    ensures FindById(rutas, rutaId).Some? && rutas[rutaId - 1].solicitudId != solicitudId ==> r == Err(IllegalArgument)
    ensures (FindById(rutas, rutaId).Some? && rutas[rutaId - 1].solicitudId == solicitudId
             && rutas[rutaId - 1].estado != TENTATIVA) ==> r == Err(IllegalState)
    ensures r.Ok? ==> && 1 <= rutaId <= |rutas|
                      && rutas[rutaId - 1].solicitudId == solicitudId && rutas[rutaId - 1].estado == TENTATIVA
                      && r.value.dto.estado == ASIGNADA && r.value.dto.fechaAsignacion == Some(ahora)
                      && r.value.dto.id == rutas[rutaId - 1].id
  {
    match FindById(rutas, rutaId)
    case None => Err(NotFound)
    case Some(ruta) =>
      if ruta.solicitudId != solicitudId then Err(IllegalArgument)
      else if ruta.estado != TENTATIVA then Err(IllegalState)
      else
        var asignada := Asignada(ruta, ahora);
        match TramosDeRuta(asignada, obtener, depositos, |tramos|)
        case Err(e) => Err(e)
        case Ok(ts) =>
          match ConvertirARutaDTO(asignada)
          case Err(e) => Err(e)
          case Ok(dto) => Ok(Asignacion(Cancelar(rutas, solicitudId, rutaId)[rutaId - 1 := asignada], tramos + ts, dto))
  }

  /** On success the chosen route is ASIGNADA with the assignment time and
      otherwise unchanged, every other TENTATIVA route of the request is
      CANCELADA, every other route is untouched, and the legs of the chosen
      route follow the existing ones. */
  lemma AsignarEfecto(rutas: seq<Ruta>, tramos: seq<Tramo>, depositos: seq<Deposito>, rutaId: int, solicitudId: int,
                      obtener: Solicitudes, ahora: int)
    requires Asignar(rutas, tramos, depositos, rutaId, solicitudId, obtener, ahora).Ok?
    ensures var a := Asignar(rutas, tramos, depositos, rutaId, solicitudId, obtener, ahora).value;
      && 1 <= rutaId <= |rutas| && |a.rutas| == |rutas|
      && a.rutas[rutaId - 1] == rutas[rutaId - 1].(estado := ASIGNADA, fechaAsignacion := Some(ahora))
      && (forall i :: 0 <= i < |rutas| && i != rutaId - 1 && rutas[i].solicitudId == solicitudId
                      && rutas[i].estado == TENTATIVA && rutas[i].id != rutaId
                      ==> a.rutas[i] == rutas[i].(estado := CANCELADA))
      && (forall i :: 0 <= i < |rutas| && i != rutaId - 1
                      && !(rutas[i].solicitudId == solicitudId && rutas[i].estado == TENTATIVA && rutas[i].id != rutaId)
                      ==> a.rutas[i] == rutas[i])
      && TramosDeRuta(Asignada(rutas[rutaId - 1], ahora), obtener, depositos, |tramos|).Ok?
      && a.tramos == tramos + TramosDeRuta(Asignada(rutas[rutaId - 1], ahora), obtener, depositos, |tramos|).value
      && ConvertirARutaDTO(Asignada(rutas[rutaId - 1], ahora)) == Ok(a.dto)
  {
  }

  /** With IDENTITY ids, after a successful assignment the ids are still
      1, 2, 3, ...; no route of the request is TENTATIVA any more; and the
      ASIGNADA routes are the ones that were ASIGNADA before plus the chosen
      one. */
  lemma AsignarSinTentativas(rutas: seq<Ruta>, tramos: seq<Tramo>, depositos: seq<Deposito>, rutaId: int,
                             solicitudId: int, obtener: Solicitudes, ahora: int)
    requires RutaIds(rutas)
    requires Asignar(rutas, tramos, depositos, rutaId, solicitudId, obtener, ahora).Ok?
    ensures var a := Asignar(rutas, tramos, depositos, rutaId, solicitudId, obtener, ahora).value;
      && RutaIds(a.rutas)
      && (forall i :: 0 <= i < |a.rutas| && a.rutas[i].solicitudId == solicitudId ==> a.rutas[i].estado != TENTATIVA)
      && (forall i :: 0 <= i < |a.rutas| ==>
            (a.rutas[i].estado == ASIGNADA <==> i == rutaId - 1 || rutas[i].estado == ASIGNADA))
  {
    AsignarEfecto(rutas, tramos, depositos, rutaId, solicitudId, obtener, ahora);
  }

  // ---------------------------------------------------------------- the legs of a candidate

  /** The deposits of a candidate as the builders find them again. */
  function ParadasDe(sel: seq<Deposito>): (ps: seq<Parada>)
    ensures |ps| == |sel|
    ensures forall i {:trigger ps[i]} :: 0 <= i < |sel| ==> ps[i] == Parada(sel[i].id, sel[i])
  {
    seq(|sel|, i requires 0 <= i < |sel| => Parada(sel[i].id, sel[i]))
  }

  /** A row of the deposit table is found again by its id, which fits a `long`. */
  lemma FilaPorId(depositos: seq<Deposito>, d: Deposito)
    requires DepositoIds(depositos) && d in depositos
    ensures 1 <= d.id <= |depositos| < LongMax && FindById(depositos, d.id) == Some(d)
  {
    var j :| 0 <= j < |depositos| && depositos[j] == d;
  }

  /** The legs of a deposit candidate whose stops are rows of the table: the
      id string the candidate stored is read back, so the legs go through the
      first one or two deposits picked, in order. */
  lemma TramosDeCandidata(ruta: Ruta, sel: seq<Deposito>, obtener: Solicitudes, sol: SolicitudDTO,
                          depositos: seq<Deposito>, base: int)
    requires 1 <= |sel| <= 3
    requires ruta.estrategia == (if |sel| == 1 then UN_DEPOSITO else MULTIPLES_DEPOSITOS)
    requires ruta.depositosIntermedios == Some(IdsString(Ids(sel)))
    requires DepositoIds(depositos) && forall i :: 0 <= i < |sel| ==> sel[i] in depositos
    requires obtener(ruta.solicitudId) == Ok(sol)
    ensures TramosDeRuta(ruta, obtener, depositos, base)
            == Ok(Etapas(ruta, sol, ParadasDe(sel[..if |sel| == 1 then 1 else 2]), base))
  {
    FilaPorId(depositos, sel[0]);
    if |sel| == 1 {
      UnaParadaDeCandidata(ruta.depositosIntermedios, sel, depositos);
    } else {
      FilaPorId(depositos, sel[1]);
      DosParadasDeCandidata(ruta.depositosIntermedios, sel, depositos);
    }
  }

  lemma UnaParadaDeCandidata(s: Option<string>, sel: seq<Deposito>, depositos: seq<Deposito>)
    requires |sel| == 1 && s == Some(IdsString(Ids(sel)))
    requires LongMin <= sel[0].id <= LongMax && FindById(depositos, sel[0].id) == Some(sel[0])
    ensures UnaParada(s, depositos) == Ok(ParadasDe(sel[..1]))
  {
    assert IdsString(Ids(sel)) == LongToString(sel[0].id);
    ParseLongToString(sel[0].id);
    assert ParadasDe(sel[..1]) == [Parada(sel[0].id, sel[0])];
  }

  lemma DosParadasDeCandidata(s: Option<string>, sel: seq<Deposito>, depositos: seq<Deposito>)
    requires 2 <= |sel| && s == Some(IdsString(Ids(sel)))
    requires LongMin <= sel[0].id <= LongMax && FindById(depositos, sel[0].id) == Some(sel[0])
    requires LongMin <= sel[1].id <= LongMax && FindById(depositos, sel[1].id) == Some(sel[1])
    ensures DosParadas(s, depositos) == Ok(ParadasDe(sel[..2]))
  {
    PiezasDeIds(sel);
    var partes := JavaSplit(s.value, ',');
    assert partes[0] == LongToString(sel[0].id) && partes[1] == LongToString(sel[1].id);
    ParseLongToString(sel[0].id);
    ParseLongToString(sel[1].id);
    DosParadasLeidas(s, partes, depositos, sel[0], sel[1]);
    ParadasDeDos(sel);
  }

  lemma ParadasDeDos(sel: seq<Deposito>)
    requires 2 <= |sel|
    ensures ParadasDe(sel[..2]) == [Parada(sel[0].id, sel[0]), Parada(sel[1].id, sel[1])]
  {
    var ps := ParadasDe(sel[..2]);
    assert ps[0] == Parada(sel[0].id, sel[0]) && ps[1] == Parada(sel[1].id, sel[1]);
  }

  /** `DosParadas` once the split, the two parses and the two lookups are
      known. */
  lemma DosParadasLeidas(s: Option<string>, partes: seq<string>, depositos: seq<Deposito>, d1: Deposito, d2: Deposito)
    requires s.Some? && partes == JavaSplit(s.value, ',') && |partes| >= 2
    requires ParseLong(partes[0]) == Ok(d1.id) && ParseLong(partes[1]) == Ok(d2.id)
    requires FindById(depositos, d1.id) == Some(d1) && FindById(depositos, d2.id) == Some(d2)
    ensures DosParadas(s, depositos) == Ok([Parada(d1.id, d1), Parada(d2.id, d2)])
  {
  }

  /** Splitting the joined ids at ',' gives back each id's text. */
  lemma PiezasDeIds(sel: seq<Deposito>)
    requires sel != []
    ensures var partes := JavaSplit(IdsString(Ids(sel)), ',');
      |partes| == |sel| && forall i :: 0 <= i < |sel| ==> partes[i] == LongToString(sel[i].id)
  {
    JavaSplitJoin(IdStrings(Ids(sel)), ',');
  }

  /** The three-stop candidate records 4 legs (`n + 1`), but assigning it
      creates 3, and none of them reaches the third deposit picked. */
  lemma TresParadasTresTramos(id: int, solicitudId: int, origen: string, destino: string, sel: seq<Deposito>,
                              km: Distancia, ahora: int, asignacion: int, obtener: Solicitudes, sol: SolicitudDTO,
                              depositos: seq<Deposito>, base: int)
    requires |sel| == 3 && Distintos(sel)
    requires DepositoIds(depositos) && forall i :: 0 <= i < 3 ==> sel[i] in depositos
    requires obtener(solicitudId) == Ok(sol)
    ensures var r := ArmarRuta(id, solicitudId, origen, destino, 3, sel, km, ahora);
      && r.cantidadTramos == 4
      && TramosDeRuta(Asignada(r, asignacion), obtener, depositos, base).Ok?
      && var ts := TramosDeRuta(Asignada(r, asignacion), obtener, depositos, base).value;
         && |ts| == 3
         && forall i :: 0 <= i < 3 ==> ts[i].origenId != Some(sel[2].id) && ts[i].destinoId != Some(sel[2].id)
  {
    var r := ArmarRuta(id, solicitudId, origen, destino, 3, sel, km, ahora);
    forall i | 0 <= i < 3
      ensures LongMin <= sel[i].id <= LongMax
    {
      FilaPorId(depositos, sel[i]);
    }
    ArmarRutaForma(id, solicitudId, origen, destino, 3, sel, km, ahora);
    var asignada := Asignada(r, asignacion);
    TramosDeCandidata(asignada, sel, obtener, sol, depositos, base);
    var ps := ParadasDe(sel[..2]);
    var ts := Etapas(asignada, sol, ps, base);
    EtapasCadena(asignada, sol, ps, base, ts);
    FilaPorId(depositos, sel[0]);
    FilaPorId(depositos, sel[1]);
    FilaPorId(depositos, sel[2]);
    assert sel[2].id != sel[0].id && sel[2].id != sel[1].id;
    assert ps[0].id == sel[0].id && ps[1].id == sel[1].id;
  }

  // ---------------------------------------------------------------- the service methods

  /** Only the leg table changes. */
  twostate predicate SoloTramos(db: Db)
    reads db
  {
    && db.rutas == old(db.rutas) && db.depositos == old(db.depositos)
    && db.camiones == old(db.camiones) && db.transportistas == old(db.transportistas)
  }

  /** `tramoRepository.save` of a new leg: the IDENTITY column gives it the
      next id. */
  method GuardarTramo(db: Db, t: Tramo)
    requires db.Valid() && t.id == |db.tramos| + 1
    modifies db
    ensures db.Valid() && SoloTramos(db)
    ensures db.tramos == old(db.tramos) + [t]
  {
    db.tramos := db.tramos + [t];
  }

  /** `rutaRepository.save` of a changed row: the row with its id is replaced. */
  method ActualizarRuta(db: Db, r: Ruta)
    requires db.Valid() && 1 <= r.id <= |db.rutas|
    modifies db
    ensures db.Valid() && SoloRutas(db)
    ensures db.rutas == old(db.rutas)[r.id - 1 := r]
  {
    db.rutas := db.rutas[r.id - 1 := r];
  }

  /** The rollback of the transaction: both tables as they were. */
  method Deshacer(db: Db, rutas: seq<Ruta>, tramos: seq<Tramo>)
    requires db.Valid() && RutaIds(rutas) && TramoIds(tramos)
    modifies db
    ensures db.Valid() && db.rutas == rutas && db.tramos == tramos
    ensures db.depositos == old(db.depositos) && db.camiones == old(db.camiones)
    ensures db.transportistas == old(db.transportistas)
  {
    db.rutas := rutas;
    db.tramos := tramos;
  }

  /** `crearTramoDirecto`: one leg from the client's origin to its destination. */
  method CrearTramoDirecto(db: Db, ruta: Ruta, sol: SolicitudDTO)
    requires db.Valid()
    modifies db
    ensures db.Valid() && SoloTramos(db)
    ensures db.tramos == old(db.tramos) + Etapas(ruta, sol, [], |old(db.tramos)|)
  {
    var tramo := Etapa(ruta, sol, [], |db.tramos|, 0);
    GuardarTramo(db, tramo);
  }

  /** `crearTramosConUnDeposito`: the deposit is parsed and found first; then
      the two legs are saved. */
  method CrearTramosConUnDeposito(db: Db, ruta: Ruta, sol: SolicitudDTO) returns (fallo: Option<Failure>)
    requires db.Valid()
    modifies db
    ensures db.Valid() && SoloTramos(db)
    ensures match UnaParada(ruta.depositosIntermedios, db.depositos)
      case Err(e) => fallo == Some(e) && db.tramos == old(db.tramos)
      case Ok(ps) => fallo.None? && db.tramos == old(db.tramos) + Etapas(ruta, sol, ps, |old(db.tramos)|)
  {
    var paradas := UnaParada(ruta.depositosIntermedios, db.depositos);
    if paradas.Err? {
      fallo := Some(paradas.error);
    } else {
      var base := |db.tramos|;
      var tramo1 := Etapa(ruta, sol, paradas.value, base, 0);
      var tramo2 := Etapa(ruta, sol, paradas.value, base, 1);
      GuardarTramo(db, tramo1);
      GuardarTramo(db, tramo2);
      assert Etapas(ruta, sol, paradas.value, base) == [tramo1, tramo2];
      fallo := None;
    }
  }

  /** `crearTramosConMultiplesDepositos`: both deposits are parsed and found
      first; then the three legs are saved. */
  method CrearTramosConMultiplesDepositos(db: Db, ruta: Ruta, sol: SolicitudDTO) returns (fallo: Option<Failure>)
    requires db.Valid()
    modifies db
    ensures db.Valid() && SoloTramos(db)
    ensures match DosParadas(ruta.depositosIntermedios, db.depositos)
      case Err(e) => fallo == Some(e) && db.tramos == old(db.tramos)
      case Ok(ps) => fallo.None? && db.tramos == old(db.tramos) + Etapas(ruta, sol, ps, |old(db.tramos)|)
  {
    var paradas := DosParadas(ruta.depositosIntermedios, db.depositos);
    if paradas.Err? {
      fallo := Some(paradas.error);
    } else {
      ghost var antes := db.tramos;
      var base := |db.tramos|;
      var tramo1 := Etapa(ruta, sol, paradas.value, base, 0);
      var tramo2 := Etapa(ruta, sol, paradas.value, base, 1);
      var tramo3 := Etapa(ruta, sol, paradas.value, base, 2);
      assert Etapas(ruta, sol, paradas.value, base) == [tramo1, tramo2, tramo3];
      GuardarTramo(db, tramo1);
      GuardarTramo(db, tramo2);
      GuardarTramo(db, tramo3);
      assert db.tramos == antes + [tramo1, tramo2, tramo3];
      assert db.depositos == old(db.depositos);
      fallo := None;
    }
  }

  /** `crearTramosDesdeRuta`: fetches the request, then runs the builder for
      the route's strategy. */
  method CrearTramosDesdeRuta(db: Db, ruta: Ruta, obtener: Solicitudes) returns (fallo: Option<Failure>)
    requires db.Valid()
    modifies db
    ensures db.Valid() && SoloTramos(db)
    ensures match TramosDeRuta(ruta, obtener, db.depositos, |old(db.tramos)|)
      case Err(e) => fallo == Some(e) && db.tramos == old(db.tramos)
      case Ok(ts) => fallo.None? && db.tramos == old(db.tramos) + ts
  {
    var solicitud := obtener(ruta.solicitudId);
    if solicitud.Err? {
      fallo := Some(solicitud.error);
    } else if ruta.estrategia == DIRECTA {
      CrearTramoDirecto(db, ruta, solicitud.value);
      fallo := None;
    } else if ruta.estrategia == UN_DEPOSITO {
      fallo := CrearTramosConUnDeposito(db, ruta, solicitud.value);
    } else if ruta.estrategia == MULTIPLES_DEPOSITOS {
      fallo := CrearTramosConMultiplesDepositos(db, ruta, solicitud.value);
    } else {
      fallo := None;
      assert db.tramos == old(db.tramos) + [];
    }
  }

  /** The loop over `findRutasTentativas(solicitudId)`: each TENTATIVA route of
      the request other than `rutaId` is saved as CANCELADA. */
  method CancelarOtrasTentativas(db: Db, solicitudId: int, rutaId: int)
    requires db.Valid()
    modifies db
    ensures db.Valid() && SoloRutas(db)
    ensures db.rutas == Cancelar(old(db.rutas), solicitudId, rutaId)
  {
    ghost var antes := db.rutas;
    var i := 0;
    while i < |db.rutas|
      invariant 0 <= i <= |db.rutas| == |antes|
      invariant db.Valid() && SoloRutas(db)
      invariant forall j :: 0 <= j < i ==> db.rutas[j] == CancelarSiHermana(antes[j], solicitudId, rutaId)
      invariant forall j :: i <= j < |antes| ==> db.rutas[j] == antes[j]
    {
      var otra := db.rutas[i];
      if otra.solicitudId == solicitudId && otra.estado == TENTATIVA && otra.id != rutaId {
        ActualizarRuta(db, otra.(estado := CANCELADA));
      }
      i := i + 1;
    }
    assert db.rutas == Cancelar(antes, solicitudId, rutaId);
  }

  /** `asignarRutaASolicitud(rutaId, solicitudId)`: what `Asignar` describes;
      on an exception both tables are as before. */
  method AsignarRutaASolicitud(db: Db, rutaId: int, solicitudId: int, obtener: Solicitudes, ahora: int)
    returns (r: Result<RutaDTO>)
    requires db.Valid()
    modifies db
    ensures db.Valid()
    ensures db.depositos == old(db.depositos) && db.camiones == old(db.camiones)
    ensures db.transportistas == old(db.transportistas)
    ensures match Asignar(old(db.rutas), old(db.tramos), old(db.depositos), rutaId, solicitudId, obtener, ahora)
      case Err(e) => r == Err(e) && db.rutas == old(db.rutas) && db.tramos == old(db.tramos)
      case Ok(a) => r == Ok(a.dto) && db.rutas == a.rutas && db.tramos == a.tramos
  {
    var buscada := FindById(db.rutas, rutaId);
    if buscada.None? {
      r := Err(NotFound);
    } else if buscada.value.solicitudId != solicitudId {
      r := Err(IllegalArgument);
    } else if buscada.value.estado != TENTATIVA {
      r := Err(IllegalState);
    } else {
      var rutasAntes := db.rutas;
      var tramosAntes := db.tramos;
      CancelarOtrasTentativas(db, solicitudId, rutaId);
      var asignada := Asignada(buscada.value, ahora);
      ActualizarRuta(db, asignada);
      var fallo := CrearTramosDesdeRuta(db, asignada, obtener);
      if fallo.Some? {
        Deshacer(db, rutasAntes, tramosAntes);
        r := Err(fallo.value);
      } else {
        var dto := ConvertirARutaDTO(asignada);
        if dto.Err? {
          Deshacer(db, rutasAntes, tramosAntes);
        }
        r := dto;
      }
    }
  }
}
