/** `LogisticaService`: assigning a truck and a driver to a leg, starting and
    finishing legs, the in-memory map of active deposit stays, the completion
    rollup, and the older direct-only planning methods.
    Remote calls are parameters: `obtener` (ms-solicitudes), `entrada` and
    `salida` (ms-facturacion). The calls whose failures the service only logs
    (`actualizarEstado`, `finalizarSolicitud`) are outputs that say whether,
    and with what, the call is made. The service is `@Transactional`: an
    exception undoes the table changes of the call, but not the map. */
module Logistica {
  import opened Common
  import opened LogisticaDb
  import opened GoogleMaps
  import opened Rutas
  import opened Camiones

  /** `registrarEntradaDeposito(contenedorId, depositoId, costoDia)`: the id
      of the new stay, or `None` when the call throws. */
  type RegistroEntrada = (int, int, real) -> Option<int>

  /** `registrarSalidaDeposito(estadiaId)` returned normally. */
  type RegistroSalida = int -> bool

  const CostoRealPorKm: real := 10000.0

  // ---------------------------------------------------------------- asignarCamion

  /** The three rows `asignarCamion` saves. */
  datatype Reserva = Reserva(tramo: Tramo, camion: Camion, transportista: Transportista)

  /** `asignarCamion(tramoId, camionId, transportistaId)`: every lookup and
      check, in the order of the source, before any change. A null weight or
      volume in the container throws when it is compared. */
  function AsignacionCamion(tramos: seq<Tramo>, camiones: seq<Camion>, transportistas: seq<Transportista>,
                            tramoId: int, camionId: int, transportistaId: int, obtener: Solicitudes): Result<Reserva>
  {
    match FindById(tramos, tramoId)
    case None => Err(NotFound)
    case Some(tramo) =>
      match obtener(tramo.solicitudId)
      case Err(e) => Err(e)
      case Ok(sol) =>
        if sol.contenedor.None? then Err(MissingData)
        else
          var peso := sol.contenedor.value.pesoKg;
          var volumen := sol.contenedor.value.volumenM3;
          match FindById(camiones, camionId)
          case None => Err(NotFound)
          case Some(camion) =>
            match FindById(transportistas, transportistaId)
            case None => Err(NotFound)
            case Some(transportista) =>
              if camion.estado != DISPONIBLE then Err(IllegalState)
              else if transportista.estado != DISPONIBLE then Err(IllegalState)
              else if peso.None? then Err(NullReference)
              else if peso.value > camion.capacidadKg then Err(IllegalArgument)
              else if volumen.None? then Err(NullReference)
              else if volumen.value > camion.capacidadM3 then Err(IllegalArgument)
              else
                Ok(Reserva(tramo.(camionId := Some(camionId), transportistaId := Some(transportistaId), estado := ASIGNADO),
                           camion.(estado := ASIGNADO), transportista.(estado := EN_USO)))
  }

  /** With the leg, the container's weight and volume and both rows found,
      the assignment is refused exactly when the truck or the driver is not
      DISPONIBLE (`IllegalStateException`, the truck checked first) or the
      load exceeds the truck's weight or volume capacity
      (`IllegalArgumentException`, weight first); a load equal to a capacity
      is accepted. */
  lemma AsignacionCamionRechazos(tramos: seq<Tramo>, camiones: seq<Camion>, transportistas: seq<Transportista>,
                                 tramoId: int, camionId: int, transportistaId: int, obtener: Solicitudes,
                                 peso: real, volumen: real)
    requires FindById(tramos, tramoId).Some?
    requires obtener(tramos[tramoId - 1].solicitudId).Ok?
    requires obtener(tramos[tramoId - 1].solicitudId).value.contenedor.Some?
    requires obtener(tramos[tramoId - 1].solicitudId).value.contenedor.value.pesoKg == Some(peso)
    requires obtener(tramos[tramoId - 1].solicitudId).value.contenedor.value.volumenM3 == Some(volumen)
    requires FindById(camiones, camionId).Some? && FindById(transportistas, transportistaId).Some?
    ensures var c := camiones[camionId - 1];
      var t := transportistas[transportistaId - 1];
      var r := AsignacionCamion(tramos, camiones, transportistas, tramoId, camionId, transportistaId, obtener);
      && (r.Ok? <==> c.estado == DISPONIBLE && t.estado == DISPONIBLE && peso <= c.capacidadKg && volumen <= c.capacidadM3)
      && (c.estado != DISPONIBLE ==> r == Err(IllegalState))
      && (c.estado == DISPONIBLE && t.estado != DISPONIBLE ==> r == Err(IllegalState))
      && (c.estado == DISPONIBLE && t.estado == DISPONIBLE && peso > c.capacidadKg ==> r == Err(IllegalArgument))
      && (c.estado == DISPONIBLE && t.estado == DISPONIBLE && peso <= c.capacidadKg && volumen > c.capacidadM3
          ==> r == Err(IllegalArgument))
  {
  }

  /** A successful assignment was checked against the rows as they were: the
      leg now has the truck and the driver and is ASIGNADO, the truck is
      ASIGNADO, the driver EN_USO, and nothing else of the three rows changes. */
  lemma AsignacionCamionExito(tramos: seq<Tramo>, camiones: seq<Camion>, transportistas: seq<Transportista>,
                              tramoId: int, camionId: int, transportistaId: int, obtener: Solicitudes)
    requires AsignacionCamion(tramos, camiones, transportistas, tramoId, camionId, transportistaId, obtener).Ok?
    ensures var a := AsignacionCamion(tramos, camiones, transportistas, tramoId, camionId, transportistaId, obtener).value;
      && 1 <= tramoId <= |tramos| && 1 <= camionId <= |camiones| && 1 <= transportistaId <= |transportistas|
      && camiones[camionId - 1].estado == DISPONIBLE && transportistas[transportistaId - 1].estado == DISPONIBLE
      && a.tramo == tramos[tramoId - 1].(camionId := Some(camionId), transportistaId := Some(transportistaId),
                                        estado := ASIGNADO)
      && a.camion == camiones[camionId - 1].(estado := ASIGNADO)
      && a.transportista == transportistas[transportistaId - 1].(estado := EN_USO)
  {
  }

  /** A truck that `findDisponiblesConCapacidad` returns for the container's
      weight and volume passes every truck check of `asignarCamion`: with the
      leg found and a DISPONIBLE driver, the assignment succeeds. */
  lemma DisponibleEsAsignable(tramos: seq<Tramo>, camiones: seq<Camion>, transportistas: seq<Transportista>,
                              tramoId: int, c: Camion, transportistaId: int, obtener: Solicitudes,
                              peso: real, volumen: real)
    requires CamionIds(camiones)
    requires c in FindDisponiblesConCapacidad(camiones, Some(peso), Some(volumen))
    requires FindById(tramos, tramoId).Some?
    requires obtener(tramos[tramoId - 1].solicitudId).Ok?
    requires obtener(tramos[tramoId - 1].solicitudId).value.contenedor.Some?
    requires obtener(tramos[tramoId - 1].solicitudId).value.contenedor.value.pesoKg == Some(peso)
    requires obtener(tramos[tramoId - 1].solicitudId).value.contenedor.value.volumenM3 == Some(volumen)
    requires FindById(transportistas, transportistaId).Some?
    requires transportistas[transportistaId - 1].estado == DISPONIBLE
    ensures AsignacionCamion(tramos, camiones, transportistas, tramoId, c.id, transportistaId, obtener).Ok?
  {
    DisponiblesCorrectos(camiones, Some(peso), Some(volumen));
    var j :| 0 <= j < |camiones| && camiones[j] == c;
    assert FindById(camiones, c.id) == Some(c);
    AsignacionCamionRechazos(tramos, camiones, transportistas, tramoId, c.id, transportistaId, obtener, peso, volumen);
  }

  // ---------------------------------------------------------------- iniciarTramo

  /** The checks of `iniciarTramo`: the leg exists, has a truck and a driver,
      and is ASIGNADO. */
  function TramoIniciable(tramos: seq<Tramo>, tramoId: int): (r: Result<Tramo>)
    ensures r.Ok? <==> && FindById(tramos, tramoId).Some?
                       && tramos[tramoId - 1].camionId.Some? && tramos[tramoId - 1].transportistaId.Some?
                       && tramos[tramoId - 1].estado == ASIGNADO
    ensures r.Ok? ==> r.value == tramos[tramoId - 1]
    ensures r.Err? ==> r.error == (if FindById(tramos, tramoId).None? then NotFound else IllegalState)
  {
    match FindById(tramos, tramoId)
    case None => Err(NotFound)
    case Some(t) =>
      if t.camionId.None? then Err(IllegalState)
      else if t.transportistaId.None? then Err(IllegalState)
      else if t.estado != ASIGNADO then Err(IllegalState)
      else Ok(t)
  }

  predicate IniciadoDe(t: Tramo, solicitudId: int)
  {
    t.solicitudId == solicitudId && t.estado == INICIADO
  }

  /** `findBySolicitudIdAndEstado(solicitudId, "INICIADO").size()`. */
  function Iniciados(tramos: seq<Tramo>, solicitudId: int): nat
  {
    if tramos == [] then 0
    else (if IniciadoDe(tramos[0], solicitudId) then 1 else 0) + Iniciados(tramos[1..], solicitudId)
  }

  lemma {:induction false} IniciadosConcat(a: seq<Tramo>, b: seq<Tramo>, solicitudId: int)
    ensures Iniciados(a + b, solicitudId) == Iniciados(a, solicitudId) + Iniciados(b, solicitudId)
  {
    if a != [] {
      assert (a + b)[0] == a[0];
      assert (a + b)[1..] == a[1..] + b;
      IniciadosConcat(a[1..], b, solicitudId);
    } else {
      assert a + b == b;
    }
  }

  lemma {:induction false} IniciadosCero(tramos: seq<Tramo>, solicitudId: int)
    ensures Iniciados(tramos, solicitudId) == 0 <==> forall j :: 0 <= j < |tramos| ==> !IniciadoDe(tramos[j], solicitudId)
  {
    if tramos != [] {
      IniciadosCero(tramos[1..], solicitudId);
      assert forall j :: 1 <= j < |tramos| ==> tramos[j] == tramos[1..][j - 1];
    }
  }

  /** With leg `k` started, exactly one started leg of the request means no
      other leg of it is started. */
  lemma IniciadosUno(tramos: seq<Tramo>, solicitudId: int, k: nat)
    requires k < |tramos| && IniciadoDe(tramos[k], solicitudId)
    ensures Iniciados(tramos, solicitudId) == 1
            <==> forall j :: 0 <= j < |tramos| && j != k ==> !IniciadoDe(tramos[j], solicitudId)
  {
    var antes := tramos[..k];
    var despues := tramos[k + 1..];
    assert tramos == antes + [tramos[k]] + despues;
    IniciadosConcat(antes + [tramos[k]], despues, solicitudId);
    IniciadosConcat(antes, [tramos[k]], solicitudId);
    IniciadosCero(antes, solicitudId);
    IniciadosCero(despues, solicitudId);
    assert forall j :: k < j < |tramos| ==> tramos[j] == despues[j - k - 1];
  }

  /** What a successful start leaves behind: both tables, the saved leg, and
      whether `actualizarEstado(solicitudId, "EN_TRANSITO")` is called. */
  datatype Inicio = Inicio(tramos: seq<Tramo>, camiones: seq<Camion>, tramo: Tramo, enTransito: bool)

  /** `iniciarTramo`'s changes to the tables: the leg becomes INICIADO with its
      start time, its truck EN_USO (a missing truck throws and undoes the
      call); the request goes EN_TRANSITO when this is its only started leg. */
  function Iniciar(tramos: seq<Tramo>, camiones: seq<Camion>, tramoId: int, ahora: int): Result<Inicio>
  {
    match TramoIniciable(tramos, tramoId)
    case Err(e) => Err(e)
    case Ok(t) =>
      var iniciado := t.(estado := INICIADO, fechaInicio := Some(ahora));
      match FindById(camiones, t.camionId.value)
      case None => Err(NotFound)
      case Some(c) =>
        var nuevos := tramos[tramoId - 1 := iniciado];
        Ok(Inicio(nuevos, camiones[t.camionId.value - 1 := c.(estado := EN_USO)], iniciado,
                  Iniciados(nuevos, t.solicitudId) == 1))
  }

  /** A successful start: the leg was ASIGNADO with a truck and a driver, is
      now INICIADO at `ahora`, its truck is EN_USO, nothing else changes; the
      request is pushed to EN_TRANSITO exactly when no other of its legs is
      INICIADO. */
  lemma IniciarEfecto(tramos: seq<Tramo>, camiones: seq<Camion>, tramoId: int, ahora: int)
    requires Iniciar(tramos, camiones, tramoId, ahora).Ok?
    ensures var i := Iniciar(tramos, camiones, tramoId, ahora).value;
      var t := tramos[tramoId - 1];
      && 1 <= tramoId <= |tramos| && t.estado == ASIGNADO && t.camionId.Some? && t.transportistaId.Some?
      && 1 <= t.camionId.value <= |camiones|
      && i.tramo == t.(estado := INICIADO, fechaInicio := Some(ahora))
      && i.tramos == tramos[tramoId - 1 := i.tramo]
      && i.camiones == camiones[t.camionId.value - 1 := camiones[t.camionId.value - 1].(estado := EN_USO)]
      && (i.enTransito <==> forall j :: 0 <= j < |tramos| && j != tramoId - 1
                                       ==> !(tramos[j].solicitudId == t.solicitudId && tramos[j].estado == INICIADO))
  {
    var i := Iniciar(tramos, camiones, tramoId, ahora).value;
    var t := tramos[tramoId - 1];
    IniciadosUno(i.tramos, t.solicitudId, tramoId - 1);
    assert forall j :: 0 <= j < |tramos| && j != tramoId - 1 ==> i.tramos[j] == tramos[j];
  }

  /** The check-out step of `iniciarTramo`, for a leg leaving a deposit: when
      the request's container has an active stay and the billing call
      returns, the entry leaves the map; any failure is only logged. */
  function TrasSalida(tramo: Tramo, obtener: Solicitudes, salida: RegistroSalida, estadias: map<int, int>): map<int, int>
  {
    if tramo.origenTipo == DEPOSITO && tramo.origenId.Some? then
      match obtener(tramo.solicitudId)
      case Err(_) => estadias
      case Ok(sol) =>
        if sol.contenedor.None? || sol.contenedor.value.id.None? then estadias
        else
          var contenedorId := sol.contenedor.value.id.value;
          if contenedorId in estadias && salida(estadias[contenedorId]) then estadias - {contenedorId}
          else estadias
    else estadias
  }

  /** Starting a leg changes the map only for a leg leaving a deposit, and
      then only by removing the stay of the request's container after its
      check-out was recorded; without a stored stay the map is unchanged. */
  lemma TrasSalidaEfecto(tramo: Tramo, obtener: Solicitudes, salida: RegistroSalida, estadias: map<int, int>)
    ensures var r := TrasSalida(tramo, obtener, salida, estadias);
      && (tramo.origenTipo != DEPOSITO || tramo.origenId.None? ==> r == estadias)
      && (r != estadias ==>
            && obtener(tramo.solicitudId).Ok?
            && var c := obtener(tramo.solicitudId).value.contenedor;
               && c.Some? && c.value.id.Some? && c.value.id.value in estadias
               && salida(estadias[c.value.id.value])
               && r == estadias - {c.value.id.value})
      && ((obtener(tramo.solicitudId).Ok? && obtener(tramo.solicitudId).value.contenedor.Some?
           && obtener(tramo.solicitudId).value.contenedor.value.id.Some?
           && obtener(tramo.solicitudId).value.contenedor.value.id.value !in estadias) ==> r == estadias)
  {
  }

  // ---------------------------------------------------------------- finalizarTramo

  /** The truck of a finished leg, if it has one, is DISPONIBLE at the leg's
      destination; a missing truck throws. */
  function LiberarCamion(camiones: seq<Camion>, t: Tramo): Result<seq<Camion>>
  {
    if t.camionId.None? then Ok(camiones)
    else
      match FindById(camiones, t.camionId.value)
      case None => Err(NotFound)
      case Some(c) =>
        Ok(camiones[t.camionId.value - 1 := c.(estado := DISPONIBLE, ubicacionActual := Some(t.destinoDireccion))])
  }

  /** The driver of a finished leg, if it has one, is DISPONIBLE; a missing
      driver throws. */
  function LiberarTransportista(transportistas: seq<Transportista>, t: Tramo): Result<seq<Transportista>>
  {
    if t.transportistaId.None? then Ok(transportistas)
    else
      match FindById(transportistas, t.transportistaId.value)
      case None => Err(NotFound)
      case Some(p) => Ok(transportistas[t.transportistaId.value - 1 := p.(estado := DISPONIBLE)])
  }

  datatype Fin = Fin(tramos: seq<Tramo>, camiones: seq<Camion>, transportistas: seq<Transportista>, tramo: Tramo)

  /** `finalizarTramo`'s changes to the tables. */
  function Finalizar(tramos: seq<Tramo>, camiones: seq<Camion>, transportistas: seq<Transportista>,
                     tramoId: int, ahora: int): (r: Result<Fin>)
    ensures FindById(tramos, tramoId).None? ==> r == Err(NotFound)
    ensures FindById(tramos, tramoId).Some? && tramos[tramoId - 1].estado != INICIADO ==> r == Err(IllegalState)
  {
    match FindById(tramos, tramoId)
    case None => Err(NotFound)
    case Some(t) =>
      if t.estado != INICIADO then Err(IllegalState)
      else
        var fin := t.(estado := FINALIZADO, fechaFin := Some(ahora));
        match LiberarCamion(camiones, t)
        case Err(e) => Err(e)
        case Ok(cs) =>
          match LiberarTransportista(transportistas, t)
          case Err(e) => Err(e)
          case Ok(ps) => Ok(Fin(tramos[tramoId - 1 := fin], cs, ps, fin))
  }

  /** A successful finish: the leg was INICIADO and is now FINALIZADO at
      `ahora`; its truck, if any, is DISPONIBLE at the leg's destination; its
      driver, if any, is DISPONIBLE; no other row changes. */
  lemma FinalizarEfecto(tramos: seq<Tramo>, camiones: seq<Camion>, transportistas: seq<Transportista>,
                        tramoId: int, ahora: int)
    requires Finalizar(tramos, camiones, transportistas, tramoId, ahora).Ok?
    ensures var f := Finalizar(tramos, camiones, transportistas, tramoId, ahora).value;
      var t := tramos[tramoId - 1];
      && 1 <= tramoId <= |tramos| && t.estado == INICIADO
      && f.tramo == t.(estado := FINALIZADO, fechaFin := Some(ahora))
      && f.tramos == tramos[tramoId - 1 := f.tramo]
      && (t.camionId.None? ==> f.camiones == camiones)
      && (t.camionId.Some? ==>
            && 1 <= t.camionId.value <= |camiones|
            && f.camiones == camiones[t.camionId.value - 1 :=
                 camiones[t.camionId.value - 1].(estado := DISPONIBLE, ubicacionActual := Some(t.destinoDireccion))])
      && (t.transportistaId.None? ==> f.transportistas == transportistas)
      && (t.transportistaId.Some? ==>
            && 1 <= t.transportistaId.value <= |transportistas|
            && f.transportistas == transportistas[t.transportistaId.value - 1 :=
                 transportistas[t.transportistaId.value - 1].(estado := DISPONIBLE)])
  {
  }

  /** The check-in step of `finalizarTramo`, for a leg reaching a deposit:
      the stay the billing service opens for the request's container is
      stored under the container's id; any failure (the request, the
      deposit, the billing call) is only logged. */
  function TrasEntrada(tramo: Tramo, obtener: Solicitudes, depositos: seq<Deposito>, entrada: RegistroEntrada,
                       estadias: map<int, int>): map<int, int>
  {
    if tramo.destinoTipo == DEPOSITO && tramo.destinoId.Some? then
      match obtener(tramo.solicitudId)
      case Err(_) => estadias
      case Ok(sol) =>
        if sol.contenedor.None? || sol.contenedor.value.id.None? then estadias
        else
          var contenedorId := sol.contenedor.value.id.value;
          match FindById(depositos, tramo.destinoId.value)
          case None => estadias
          case Some(d) =>
            match entrada(contenedorId, tramo.destinoId.value, d.costoDia)
            case None => estadias
            case Some(estadiaId) => estadias[contenedorId := estadiaId]
    else estadias
  }

  /** Finishing a leg changes the map only for a leg reaching a deposit, and
      then only by storing, under the request's container, the stay opened
      at that deposit with the deposit's daily cost. */
  lemma TrasEntradaEfecto(tramo: Tramo, obtener: Solicitudes, depositos: seq<Deposito>, entrada: RegistroEntrada,
                          estadias: map<int, int>)
    ensures var r := TrasEntrada(tramo, obtener, depositos, entrada, estadias);
      && (tramo.destinoTipo != DEPOSITO || tramo.destinoId.None? ==> r == estadias)
      && (r != estadias ==>
            && tramo.destinoId.Some? && 1 <= tramo.destinoId.value <= |depositos|
            && obtener(tramo.solicitudId).Ok?
            && var c := obtener(tramo.solicitudId).value.contenedor;
               && c.Some? && c.value.id.Some?
               && entrada(c.value.id.value, tramo.destinoId.value, depositos[tramo.destinoId.value - 1].costoDia).Some?
               && r == estadias[c.value.id.value :=
                        entrada(c.value.id.value, tramo.destinoId.value, depositos[tramo.destinoId.value - 1].costoDia).value])
  {
  }

  // ---------------------------------------------------------------- the completion rollup

  /** `findBySolicitudId(solicitudId)`, in table order. */
  function TramosDe(tramos: seq<Tramo>, solicitudId: int): (r: seq<Tramo>)
    ensures forall t {:trigger t in r} :: t in r ==> t in tramos && t.solicitudId == solicitudId
    ensures forall t {:trigger t in tramos} :: t in tramos && t.solicitudId == solicitudId ==> t in r
  {
    if tramos == [] then []
    else
      assert forall t :: t in tramos ==> t == tramos[0] || t in tramos[1..];
      (if tramos[0].solicitudId == solicitudId then [tramos[0]] else []) + TramosDe(tramos[1..], solicitudId)
  }

  /** A leg's cost in the rollup: 10000 per km, a null distance counting 0. */
  function CostoTramo(t: Tramo): real
  {
    if t.distanciaKm.Some? then t.distanciaKm.value * CostoRealPorKm else 0.0
  }

  /** A leg's hours in the rollup: `Duration.between(inicio, fin).toMinutes()`
      (whole minutes, truncated toward zero) over 60; 0 when either time is
      missing. */
  function HorasTramo(t: Tramo): real
  {
    if t.fechaInicio.Some? && t.fechaFin.Some? then TruncDiv(t.fechaFin.value - t.fechaInicio.value, 60) as real / 60.0
    else 0.0
  }

  function Costos(ts: seq<Tramo>): (r: seq<real>)
    ensures |r| == |ts| && forall i {:trigger r[i]} :: 0 <= i < |ts| ==> r[i] == CostoTramo(ts[i])
  {
    seq(|ts|, i requires 0 <= i < |ts| => CostoTramo(ts[i]))
  }

  function Horas(ts: seq<Tramo>): (r: seq<real>)
    ensures |r| == |ts| && forall i {:trigger r[i]} :: 0 <= i < |ts| ==> r[i] == HorasTramo(ts[i])
  {
    seq(|ts|, i requires 0 <= i < |ts| => HorasTramo(ts[i]))
  }

  /** The `finalizarSolicitud(solicitudId, costoReal, tiempoReal)` call. */
  datatype Cierre = Cierre(solicitudId: int, costoReal: real, tiempoRealHoras: real)

  predicate TodosFinalizados(ts: seq<Tramo>)
  {
    forall i :: 0 <= i < |ts| ==> ts[i].estado == FINALIZADO
  }

  /** The rollup after a leg of `solicitudId` is saved: only when every leg of
      the request is FINALIZADO. */
  function CierreDe(tramos: seq<Tramo>, solicitudId: int): Option<Cierre>
  {
    var legs := TramosDe(tramos, solicitudId);
    if TodosFinalizados(legs) then Some(Cierre(solicitudId, Sum(Costos(legs)), Sum(Horas(legs)))) else None
  }

  /** The rollup runs exactly when no leg of the request is unfinished, and
      then bills 10000 per km of the request's legs, a null distance counting
      0. */
  lemma CierreEfecto(tramos: seq<Tramo>, solicitudId: int)
    ensures CierreDe(tramos, solicitudId).Some?
            <==> forall t :: t in tramos && t.solicitudId == solicitudId ==> t.estado == FINALIZADO
    ensures CierreDe(tramos, solicitudId).Some? ==>
              CierreDe(tramos, solicitudId).value.costoReal == CostoRealPorKm * Sum(Kilometros(TramosDe(tramos, solicitudId)))
  {
    var legs := TramosDe(tramos, solicitudId);
    if TodosFinalizados(legs) {
      SumScale(Kilometros(legs), Costos(legs), CostoRealPorKm);
    } else {
      var i :| 0 <= i < |legs| && legs[i].estado != FINALIZADO;
      assert legs[i] in legs;
    }
  }

  // ---------------------------------------------------------------- the older planner

  /** The unsaved leg of the older planner (a `TramoDTO` without id). */
  datatype TramoPropuesto = TramoPropuesto(
    solicitudId: int, origenTipo: string, origenDireccion: string,
    destinoTipo: string, destinoDireccion: string, tipoTramo: string,
    distanciaKm: real, ordenTramo: int, estado: string)

  datatype RutaTentativa = RutaTentativa(
    solicitudId: int, tramos: seq<TramoPropuesto>, distanciaTotal: real,
    costoEstimadoTransporte: real, tiempoEstimadoHoras: real, estrategia: string)

  /** The older `calcularRutasTentativas`: one ESTIMADO direct leg. */
  function RutasTentativasDirectas(solicitudId: int, origen: string, destino: string, km: Distancia): RutaTentativa
  {
    var distancia := km(origen, destino);
    RutaTentativa(solicitudId,
                  [TramoPropuesto(solicitudId, CLIENTE, origen, CLIENTE, destino, DIRECTO, distancia, 1, ESTIMADO)],
                  distancia, distancia * CostoPorKm, CalcularTiempoEstimado(distancia), DIRECTA)
  }

  /** The older planner proposes one ESTIMADO leg from client to client with
      the whole distance, and its figures are those of the newer planner's
      direct candidate. */
  lemma TentativasDirectasComoRutaDirecta(solicitudId: int, origen: string, destino: string, km: Distancia,
                                          id: int, ahora: int)
    ensures var r := RutasTentativasDirectas(solicitudId, origen, destino, km);
      var d := RutaDirecta(id, solicitudId, origen, destino, km, ahora);
      && |r.tramos| == 1 && r.estrategia == DIRECTA == d.estrategia
      && r.tramos[0].estado == ESTIMADO && r.tramos[0].ordenTramo == 1
      && r.tramos[0].origenDireccion == origen && r.tramos[0].destinoDireccion == destino
      && r.tramos[0].distanciaKm == r.distanciaTotal == d.distanciaTotal
      && r.costoEstimadoTransporte == d.costoTotalEstimado
      && r.tiempoEstimadoHoras == d.tiempoEstimadoHoras
  {
    RutaDirectaForma(id, solicitudId, origen, destino, km, ahora);
  }

  /** The leg the older `crearTramos` saves after `base` legs. */
  function TramoEstimado(base: int, solicitudId: int, origen: string, destino: string, km: Distancia): Tramo
  {
    Tramo(base + 1, solicitudId, None, None, None, CLIENTE, None, origen, CLIENTE, None, destino,
          DIRECTO, Some(km(origen, destino)), 1, ESTIMADO, None, None)
  }

  /** The leg the older `crearTramos` saves is the leg the older planner
      proposes for the same addresses, with the next id and no route, truck
      or driver. */
  lemma TramoEstimadoComoPropuesto(base: int, solicitudId: int, origen: string, destino: string, km: Distancia)
    ensures var t := TramoEstimado(base, solicitudId, origen, destino, km);
      var p := RutasTentativasDirectas(solicitudId, origen, destino, km).tramos[0];
      && t.id == base + 1 && t.rutaId.None? && t.camionId.None? && t.transportistaId.None?
      && t.solicitudId == p.solicitudId && t.origenTipo == p.origenTipo && t.origenDireccion == p.origenDireccion
      && t.destinoTipo == p.destinoTipo && t.destinoDireccion == p.destinoDireccion && t.tipoTramo == p.tipoTramo
      && t.distanciaKm == Some(p.distanciaKm) && t.ordenTramo == p.ordenTramo && t.estado == p.estado == ESTIMADO
  {
  }

  // ---------------------------------------------------------------- the service

  class LogisticaService {
    const db: Db
    /** `estadiasActivas`: container id to the id of its open deposit stay. */
    var estadiasActivas: map<int, int>

    constructor (db: Db)
      ensures this.db == db && estadiasActivas == map[]
    {
      this.db := db;
      estadiasActivas := map[];
    }

    /** `asignarCamion`: every check comes before any change, so a refused
        assignment leaves the three tables as they were. */
    method AsignarCamion(tramoId: int, camionId: int, transportistaId: int, obtener: Solicitudes)
      returns (r: Result<Tramo>)
      requires db.Valid()
      modifies db
      ensures db.Valid() && db.rutas == old(db.rutas) && db.depositos == old(db.depositos)
      ensures match AsignacionCamion(old(db.tramos), old(db.camiones), old(db.transportistas),
                                     tramoId, camionId, transportistaId, obtener)
        case Err(e) =>
          && r == Err(e) && db.tramos == old(db.tramos) && db.camiones == old(db.camiones)
          && db.transportistas == old(db.transportistas)
        case Ok(a) =>
          && r == Ok(a.tramo) && db.tramos == old(db.tramos)[tramoId - 1 := a.tramo]
          && db.camiones == old(db.camiones)[camionId - 1 := a.camion]
          && db.transportistas == old(db.transportistas)[transportistaId - 1 := a.transportista]
    {
      var tramo := FindById(db.tramos, tramoId);
      if tramo.None? {
        return Err(NotFound);
      }
      var solicitud := obtener(tramo.value.solicitudId);
      if solicitud.Err? {
        return Err(solicitud.error);
      }
      if solicitud.value.contenedor.None? {
        return Err(MissingData);
      }
      var pesoKg := solicitud.value.contenedor.value.pesoKg;
      var volumenM3 := solicitud.value.contenedor.value.volumenM3;
      var camion := FindById(db.camiones, camionId);
      if camion.None? {
        return Err(NotFound);
      }
      var transportista := FindById(db.transportistas, transportistaId);
      if transportista.None? {
        return Err(NotFound);
      }
      if camion.value.estado != DISPONIBLE || transportista.value.estado != DISPONIBLE {
        return Err(IllegalState);
      }
      if pesoKg.None? {
        return Err(NullReference);
      }
      if pesoKg.value > camion.value.capacidadKg {
        return Err(IllegalArgument);
      }
      if volumenM3.None? {
        return Err(NullReference);
      }
      if volumenM3.value > camion.value.capacidadM3 {
        return Err(IllegalArgument);
      }
      var asignado := tramo.value.(camionId := Some(camionId), transportistaId := Some(transportistaId),
                                   estado := ASIGNADO);
      db.ActualizarCamion(camion.value.(estado := ASIGNADO));
      db.ActualizarTransportista(transportista.value.(estado := EN_USO));
      db.ActualizarTramo(asignado);
      r := Ok(asignado);
    }

    /** The check-out step of `iniciarTramo` on the map. */
    method RegistrarSalida(tramo: Tramo, obtener: Solicitudes, salida: RegistroSalida)
      modifies this
      ensures estadiasActivas == TrasSalida(tramo, obtener, salida, old(estadiasActivas))
    {
      if tramo.origenTipo == DEPOSITO && tramo.origenId.Some? {
        var solicitud := obtener(tramo.solicitudId);
        if solicitud.Ok? && solicitud.value.contenedor.Some? && solicitud.value.contenedor.value.id.Some? {
          var contenedorId := solicitud.value.contenedor.value.id.value;
          if contenedorId in estadiasActivas {
            var estadiaId := estadiasActivas[contenedorId];
            var registrada := salida(estadiaId);
            if registrada {
              estadiasActivas := estadiasActivas - {contenedorId};
            }
          }
        }
      }
    }

    /** `iniciarTramo`: the map step happens before the truck lookup, so a
        missing truck undoes the table changes but not the map's. Returns the
        saved leg and whether the request is pushed to EN_TRANSITO. */
    method IniciarTramo(tramoId: int, obtener: Solicitudes, salida: RegistroSalida, ahora: int)
      returns (r: Result<Tramo>, enTransito: bool)
      requires db.Valid()
      modifies this, db
      ensures db.Valid() && db.rutas == old(db.rutas) && db.depositos == old(db.depositos)
      ensures db.transportistas == old(db.transportistas)
      ensures match TramoIniciable(old(db.tramos), tramoId)
        case Err(_) => estadiasActivas == old(estadiasActivas)
        case Ok(t) => estadiasActivas == TrasSalida(t, obtener, salida, old(estadiasActivas))
      ensures match Iniciar(old(db.tramos), old(db.camiones), tramoId, ahora)
        case Err(e) => r == Err(e) && !enTransito && db.tramos == old(db.tramos) && db.camiones == old(db.camiones)
        case Ok(i) => r == Ok(i.tramo) && enTransito == i.enTransito && db.tramos == i.tramos && db.camiones == i.camiones
    {
      var valido := TramoIniciable(db.tramos, tramoId);
      if valido.Err? {
        return Err(valido.error), false;
      }
      var tramo := valido.value.(estado := INICIADO, fechaInicio := Some(ahora));
      RegistrarSalida(tramo, obtener, salida);
      var camion := FindById(db.camiones, tramo.camionId.value);
      if camion.None? {
        return Err(NotFound), false;
      }
      db.ActualizarCamion(camion.value.(estado := EN_USO));
      db.ActualizarTramo(tramo);
      enTransito := Iniciados(db.tramos, tramo.solicitudId) == 1;
      r := Ok(tramo);
    }

    /** The check-in step of `finalizarTramo` on the map. */
    method RegistrarEntrada(tramo: Tramo, obtener: Solicitudes, entrada: RegistroEntrada)
      modifies this
      ensures estadiasActivas == TrasEntrada(tramo, obtener, db.depositos, entrada, old(estadiasActivas))
    {
      if tramo.destinoTipo == DEPOSITO && tramo.destinoId.Some? {
        var solicitud := obtener(tramo.solicitudId);
        if solicitud.Ok? && solicitud.value.contenedor.Some? && solicitud.value.contenedor.value.id.Some? {
          var contenedorId := solicitud.value.contenedor.value.id.value;
          var deposito := FindById(db.depositos, tramo.destinoId.value);
          if deposito.Some? {
            var estadia := entrada(contenedorId, tramo.destinoId.value, deposito.value.costoDia);
            if estadia.Some? {
              estadiasActivas := estadiasActivas[contenedorId := estadia.value];
            }
          }
        }
      }
    }

    /** `finalizarTramo`: the table changes, then the map step (its failures
        never undo the finish), then the rollup call when every leg of the
        request is finished. */
    method FinalizarTramo(tramoId: int, obtener: Solicitudes, entrada: RegistroEntrada, ahora: int)
      returns (r: Result<Tramo>, cierre: Option<Cierre>)
      requires db.Valid()
      modifies this, db
      ensures db.Valid() && db.rutas == old(db.rutas) && db.depositos == old(db.depositos)
      ensures match Finalizar(old(db.tramos), old(db.camiones), old(db.transportistas), tramoId, ahora)
        case Err(e) =>
          && r == Err(e) && cierre.None? && estadiasActivas == old(estadiasActivas)
          && db.tramos == old(db.tramos) && db.camiones == old(db.camiones)
          && db.transportistas == old(db.transportistas)
        case Ok(f) =>
          && r == Ok(f.tramo) && db.tramos == f.tramos && db.camiones == f.camiones
          && db.transportistas == f.transportistas
          && estadiasActivas == TrasEntrada(f.tramo, obtener, db.depositos, entrada, old(estadiasActivas))
          && cierre == CierreDe(f.tramos, f.tramo.solicitudId)
    {
      var buscado := FindById(db.tramos, tramoId);
      if buscado.None? {
        return Err(NotFound), None;
      }
      if buscado.value.estado != INICIADO {
        return Err(IllegalState), None;
      }
      var tramo := buscado.value.(estado := FINALIZADO, fechaFin := Some(ahora));
      var liberado := Liberar(tramo);
      if liberado.Some? {
        return Err(liberado.value), None;
      }
      db.ActualizarTramo(tramo);
      RegistrarEntrada(tramo, obtener, entrada);
      cierre := CierreDe(db.tramos, tramo.solicitudId);
      r := Ok(tramo);
    }

    /** Frees the truck and the driver of a finished leg; a missing row
        throws before anything is saved. */
    method Liberar(tramo: Tramo) returns (fallo: Option<Failure>)
      requires db.Valid()
      modifies db
      ensures db.Valid() && db.rutas == old(db.rutas) && db.tramos == old(db.tramos)
      ensures db.depositos == old(db.depositos)
      ensures match LiberarCamion(old(db.camiones), tramo)
        case Err(e) => fallo == Some(e) && db.camiones == old(db.camiones) && db.transportistas == old(db.transportistas)
        case Ok(cs) =>
          match LiberarTransportista(old(db.transportistas), tramo)
          case Err(e) => fallo == Some(e) && db.camiones == old(db.camiones) && db.transportistas == old(db.transportistas)
          case Ok(ps) => fallo.None? && db.camiones == cs && db.transportistas == ps
    {
      var camion: Option<Camion> := None;
      if tramo.camionId.Some? {
        camion := FindById(db.camiones, tramo.camionId.value);
        if camion.None? {
          return Some(NotFound);
        }
      }
      var transportista: Option<Transportista> := None;
      if tramo.transportistaId.Some? {
        transportista := FindById(db.transportistas, tramo.transportistaId.value);
        if transportista.None? {
          return Some(NotFound);
        }
      }
      if camion.Some? {
        db.ActualizarCamion(camion.value.(estado := DISPONIBLE, ubicacionActual := Some(tramo.destinoDireccion)));
      }
      if transportista.Some? {
        db.ActualizarTransportista(transportista.value.(estado := DISPONIBLE));
      }
      fallo := None;
    }

    /** The older `crearTramos`: saves one ESTIMADO direct leg with no route
        and returns it. */
    method CrearTramos(solicitudId: int, origen: string, destino: string, km: Distancia)
      returns (r: seq<Tramo>)
      requires db.Valid()
      modifies db
      ensures db.Valid() && db.rutas == old(db.rutas) && db.depositos == old(db.depositos)
      ensures db.camiones == old(db.camiones) && db.transportistas == old(db.transportistas)
      ensures r == [TramoEstimado(|old(db.tramos)|, solicitudId, origen, destino, km)]
      ensures db.tramos == old(db.tramos) + r
    {
      var distancia := km(origen, destino);
      var tramo := Tramo(|db.tramos| + 1, solicitudId, None, None, None, CLIENTE, None, origen, CLIENTE, None, destino,
                         DIRECTO, Some(distancia), 1, ESTIMADO, None, None);
      db.tramos := db.tramos + [tramo];
      r := [tramo];
    }
  }
}
