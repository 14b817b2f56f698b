/** `SolicitudService` of the requests service: creating a transport request
    together with its client and its container, confirming it, the status
    and estimate updates other services send, finishing it, and the
    cost/time rollup when a request is closed. Timestamps are integer
    seconds passed in as `ahora`; what the logistics service answers is a
    parameter (`None` when the call failed or answered null). */
module Solicitudes {
  import opened Common

  const BORRADOR: string := "BORRADOR"
  const PLANIFICADA: string := "PLANIFICADA"
  const PROGRAMADA: string := "PROGRAMADA"
  const FINALIZADA: string := "FINALIZADA"
  const ENTREGADA: string := "ENTREGADA"
  const CREADO: string := "CREADO"
  const ENTREGADO: string := "ENTREGADO"
  const ESTANDAR: string := "ESTANDAR"
  const DIRECTA: string := "DIRECTA"

  /** The average tariff the closing rollup charges per km. */
  const TarifaPromedioKm: real := 150.0
  const SegundosPorMinuto: int := 60

  datatype Cliente = Cliente(
    id: int,
    nombreCompleto: string,
    email: string,
    telefono: string,
    direccion: Option<string>,
    fechaRegistro: int)

  datatype Contenedor = Contenedor(
    id: int,
    clienteId: int,
    numeroIdentificacion: string,
    pesoKg: real,
    volumenM3: real,
    tipo: string,
    estado: string,
    ubicacionActual: string,
    fechaCreacion: int,
    observaciones: Option<string>)

  datatype Solicitud = Solicitud(
    id: int,
    clienteId: int,
    contenedorId: int,
    origenDireccion: string,
    destinoDireccion: string,
    estado: string,
    costoEstimado: Option<real>,
    tiempoEstimadoHoras: Option<real>,
    costoReal: Option<real>,
    tiempoRealHoras: Option<real>,
    fechaCreacion: int,
    fechaActualizacion: int,
    fechaEntrega: Option<int>)

  /** The client part of a creation request (`ClienteDTO`). */
  datatype DatosCliente = DatosCliente(nombreCompleto: string, email: string, telefono: string,
                                       direccion: Option<string>)

  /** The container part of a creation request (`ContenedorSimpleDTO`). */
  datatype DatosContenedor = DatosContenedor(numeroIdentificacion: string, pesoKg: real, volumenM3: real,
                                             tipo: Option<string>, observaciones: Option<string>)

  /** `CrearSolicitudRequest`. */
  datatype Pedido = Pedido(cliente: DatosCliente, contenedor: DatosContenedor, origenDireccion: string,
                           destinoDireccion: string)

  /** The fields of a candidate route (`RutaTentativaDTO`) the service reads. */
  datatype RutaTentativa = RutaTentativa(estrategia: Option<string>, costoTotalEstimado: Option<real>,
                                         tiempoEstimadoHoras: Option<real>)

  /** The fields of a leg (`TramoDTO`) the closing rollup reads. */
  datatype TramoLogistica = TramoLogistica(distanciaKm: Option<real>, fechaInicio: Option<int>, fechaFin: Option<int>)

  // ---------------------------------------------------------------- clients

  /** `clienteRepository.findByEmail`: the position of the first client with
      that email. */
  function IndiceEmail(clientes: seq<Cliente>, email: string): (r: Option<nat>)
    ensures r.Some? ==> r.value < |clientes| && clientes[r.value].email == email
    ensures r.Some? ==> forall j :: 0 <= j < r.value ==> clientes[j].email != email
    ensures r.None? ==> forall j :: 0 <= j < |clientes| ==> clientes[j].email != email
  {
    if clientes == [] then None
    else if clientes[0].email == email then Some(0)
    else
      match IndiceEmail(clientes[1..], email)
      case None => None
      case Some(i) => Some(i + 1)
  }

  /** The email column is unique. */
  predicate EmailsUnicos(clientes: seq<Cliente>)
  {
    forall i, j :: 0 <= i < j < |clientes| ==> clientes[i].email != clientes[j].email
  }

  function NuevoCliente(id: int, dto: DatosCliente, ahora: int): Cliente
  {
    Cliente(id, dto.nombreCompleto, dto.email, dto.telefono, dto.direccion, ahora)
  }

  /** `obtenerOCrearCliente`: the client table afterwards and the client
      used. */
  function ClienteObtenido(clientes: seq<Cliente>, dto: DatosCliente, ahora: int): (seq<Cliente>, Cliente)
  {
    match IndiceEmail(clientes, dto.email)
    case Some(i) => (clientes, clientes[i])
    case None =>
      var nuevo := NuevoCliente(|clientes| + 1, dto, ahora);
      (clientes + [nuevo], nuevo)
  }

  /** The client returned has the request's email and is in the table; an
      existing client is reused without touching the table, otherwise
      exactly one client is appended; afterwards it is the only client with
      that email. */
  lemma ClienteObtenidoCorrecto(clientes: seq<Cliente>, dto: DatosCliente, ahora: int)
    requires EmailsUnicos(clientes)
    ensures var (tabla, c) := ClienteObtenido(clientes, dto, ahora);
      && c.email == dto.email && c in tabla && EmailsUnicos(tabla)
      && (forall j :: 0 <= j < |tabla| && tabla[j].email == dto.email ==> tabla[j] == c)
      && ((exists j :: 0 <= j < |clientes| && clientes[j].email == dto.email) ==> tabla == clientes)
      && ((forall j :: 0 <= j < |clientes| ==> clientes[j].email != dto.email) ==>
            tabla == clientes + [c] && c.id == |clientes| + 1)
  {
    var (tabla, c) := ClienteObtenido(clientes, dto, ahora);
    match IndiceEmail(clientes, dto.email)
    case Some(i) =>
      assert tabla[i] == c;
    case None =>
      assert tabla[|clientes|] == c;
  }

  // ---------------------------------------------------------------- containers

  /** `existsByNumeroIdentificacion`. */
  predicate ExisteNumero(contenedores: seq<Contenedor>, numero: string)
  {
    exists i :: 0 <= i < |contenedores| && contenedores[i].numeroIdentificacion == numero
  }

  /** The container number column is unique. */
  predicate NumerosUnicos(contenedores: seq<Contenedor>)
  {
    forall i, j :: 0 <= i < j < |contenedores| ==>
      contenedores[i].numeroIdentificacion != contenedores[j].numeroIdentificacion
  }

  /** `crearContenedor`: a duplicate number is an
      `IllegalArgumentException`; otherwise a new CREADO container at the
      request's origin, of type ESTANDAR unless the request names one. */
  function ContenedorCreado(contenedores: seq<Contenedor>, clienteId: int, dto: DatosContenedor,
                            ubicacionInicial: string, ahora: int): Result<Contenedor>
  {
    if ExisteNumero(contenedores, dto.numeroIdentificacion) then Err(IllegalArgument)
    else
      Ok(Contenedor(|contenedores| + 1, clienteId, dto.numeroIdentificacion, dto.pesoKg, dto.volumenM3,
                    dto.tipo.GetOr(ESTANDAR), CREADO, ubicacionInicial, ahora, dto.observaciones))
  }

  /** A container is created exactly when its number is new; it is CREADO,
      at the given location, of the requested type or ESTANDAR, for the
      client, and adding it keeps the numbers unique. */
  lemma ContenedorCreadoCorrecto(contenedores: seq<Contenedor>, clienteId: int, dto: DatosContenedor,
                                 ubicacionInicial: string, ahora: int)
    requires NumerosUnicos(contenedores)
    ensures var r := ContenedorCreado(contenedores, clienteId, dto, ubicacionInicial, ahora);
      && (r.Ok? <==> forall i :: 0 <= i < |contenedores| ==>
                       contenedores[i].numeroIdentificacion != dto.numeroIdentificacion)
      && (r.Err? ==> r.error == IllegalArgument)
      && (r.Ok? ==>
            && r.value.id == |contenedores| + 1 && r.value.clienteId == clienteId
            && r.value.numeroIdentificacion == dto.numeroIdentificacion
            && r.value.estado == CREADO && r.value.ubicacionActual == ubicacionInicial
            && (dto.tipo.None? ==> r.value.tipo == ESTANDAR)
            && (dto.tipo.Some? ==> r.value.tipo == dto.tipo.value)
            && NumerosUnicos(contenedores + [r.value]))
  {
    var r := ContenedorCreado(contenedores, clienteId, dto, ubicacionInicial, ahora);
    if r.Ok? {
      var t := contenedores + [r.value];
      forall i, j | 0 <= i < j < |t|
        ensures t[i].numeroIdentificacion != t[j].numeroIdentificacion
      {
        if j == |contenedores| {
          assert t[i] == contenedores[i];
        } else {
          assert t[i] == contenedores[i] && t[j] == contenedores[j];
        }
      }
    }
  }

  // ---------------------------------------------------------------- new requests

  predicate EsDirecta(r: RutaTentativa)
  {
    r.estrategia == Some(DIRECTA)
  }

  /** `filter(DIRECTA).findFirst()`: the position of the first DIRECTA
      candidate. */
  function PrimeraDirecta(rutas: seq<RutaTentativa>): (r: Option<nat>)
    ensures r.Some? ==> r.value < |rutas| && EsDirecta(rutas[r.value])
    ensures r.Some? ==> forall j :: 0 <= j < r.value ==> !EsDirecta(rutas[j])
    ensures r.None? ==> forall j :: 0 <= j < |rutas| ==> !EsDirecta(rutas[j])
  {
    if rutas == [] then None
    else if EsDirecta(rutas[0]) then Some(0)
    else
      match PrimeraDirecta(rutas[1..])
      case None => None
      case Some(i) => Some(i + 1)
  }

  /** The candidate a new request takes its estimates from: the first
      DIRECTA one, otherwise the first of the list. */
  function RutaParaEstimar(rutas: seq<RutaTentativa>): Option<RutaTentativa>
  {
    if rutas == [] then None
    else
      match PrimeraDirecta(rutas)
      case Some(i) => Some(rutas[i])
      case None => Some(rutas[0])
  }

  /** A non-empty list always yields a candidate; it is DIRECTA whenever any
      candidate is, and then no earlier candidate is; otherwise it is the
      head of the list. */
  lemma RutaParaEstimarCorrecta(rutas: seq<RutaTentativa>)
    ensures RutaParaEstimar(rutas).None? <==> rutas == []
    ensures (exists j :: 0 <= j < |rutas| && EsDirecta(rutas[j])) ==>
              exists i :: 0 <= i < |rutas| && RutaParaEstimar(rutas) == Some(rutas[i]) && EsDirecta(rutas[i])
                          && forall j :: 0 <= j < i ==> !EsDirecta(rutas[j])
    ensures (forall j :: 0 <= j < |rutas| ==> !EsDirecta(rutas[j])) && rutas != [] ==>
              RutaParaEstimar(rutas) == Some(rutas[0])
  {
    if PrimeraDirecta(rutas).Some? {
      var i := PrimeraDirecta(rutas).value;
      assert RutaParaEstimar(rutas) == Some(rutas[i]);
    }
  }

  /** The estimates a new request carries: those of the chosen candidate,
      none when the routing call failed or found no candidate. */
  function Estimada(s: Solicitud, rutas: Option<seq<RutaTentativa>>): Solicitud
  {
    match rutas
    case None => s
    case Some(rs) =>
      match RutaParaEstimar(rs)
      case None => s
      case Some(ruta) => s.(costoEstimado := ruta.costoTotalEstimado, tiempoEstimadoHoras := ruta.tiempoEstimadoHoras)
  }

  /** The row `crearSolicitud` saves before asking for routes: a BORRADOR
      request without estimates or actual figures. */
  function SolicitudNueva(id: int, clienteId: int, contenedorId: int, pedido: Pedido, ahora: int): Solicitud
  {
    Solicitud(id, clienteId, contenedorId, pedido.origenDireccion, pedido.destinoDireccion, BORRADOR,
              None, None, None, None, ahora, ahora, None)
  }

  /** `crearSolicitud`: the tables afterwards and the request created. The
      client step never fails; a duplicate container number rolls the whole
      transaction back, the new client included. */
  function CreacionSolicitud(clientes: seq<Cliente>, contenedores: seq<Contenedor>, solicitudes: seq<Solicitud>,
                             pedido: Pedido, rutas: Option<seq<RutaTentativa>>, ahora: int)
    : Result<(seq<Cliente>, seq<Contenedor>, Solicitud)>
  {
    var (tabla, cliente) := ClienteObtenido(clientes, pedido.cliente, ahora);
    match ContenedorCreado(contenedores, cliente.id, pedido.contenedor, pedido.origenDireccion, ahora)
    case Err(e) => Err(e)
    case Ok(contenedor) =>
      var s := SolicitudNueva(|solicitudes| + 1, cliente.id, contenedor.id, pedido, ahora);
      Ok((tabla, contenedores + [contenedor], Estimada(s, rutas)))
  }

  /** Creation fails only on a duplicate container number. A new request is
      BORRADOR, belongs to the client with the request's email and to the
      new container (CREADO, at the origin), and has no actual figures. Its
      estimates are the chosen candidate's; a routing failure or an empty
      answer leaves them unset without failing the creation. */
  lemma CreacionSolicitudCorrecta(clientes: seq<Cliente>, contenedores: seq<Contenedor>, solicitudes: seq<Solicitud>,
                                  pedido: Pedido, rutas: Option<seq<RutaTentativa>>, ahora: int)
    requires EmailsUnicos(clientes) && NumerosUnicos(contenedores)
    requires forall i :: 0 <= i < |clientes| ==> clientes[i].id == i + 1
    ensures var r := CreacionSolicitud(clientes, contenedores, solicitudes, pedido, rutas, ahora);
      && (r.Err? <==> ExisteNumero(contenedores, pedido.contenedor.numeroIdentificacion))
      && (r.Err? ==> r.error == IllegalArgument)
    ensures var r := CreacionSolicitud(clientes, contenedores, solicitudes, pedido, rutas, ahora);
      r.Ok? ==>
        var (tabla, conts, s) := r.value;
        && s.id == |solicitudes| + 1 && s.estado == BORRADOR
        && s.origenDireccion == pedido.origenDireccion && s.destinoDireccion == pedido.destinoDireccion
        && s.costoReal.None? && s.tiempoRealHoras.None? && s.fechaEntrega.None?
        && EmailsUnicos(tabla) && NumerosUnicos(conts)
        && 1 <= s.clienteId <= |tabla| && tabla[s.clienteId - 1].email == pedido.cliente.email
        && s.contenedorId == |conts| == |contenedores| + 1 && conts[|contenedores|].estado == CREADO
        && conts[|contenedores|].ubicacionActual == pedido.origenDireccion
        && (rutas.None? || rutas == Some([]) ==> s.costoEstimado.None? && s.tiempoEstimadoHoras.None?)
        && (rutas.Some? && rutas.value != [] ==>
              exists i :: 0 <= i < |rutas.value| && s.costoEstimado == rutas.value[i].costoTotalEstimado
                          && s.tiempoEstimadoHoras == rutas.value[i].tiempoEstimadoHoras)
  {
    var (tabla, cliente) := ClienteObtenido(clientes, pedido.cliente, ahora);
    ClienteObtenidoCorrecto(clientes, pedido.cliente, ahora);
    ContenedorCreadoCorrecto(contenedores, cliente.id, pedido.contenedor, pedido.origenDireccion, ahora);
    ClienteIdEnTabla(clientes, pedido.cliente, ahora);
    if rutas.Some? && rutas.value != [] {
      RutaParaEstimarCorrecta(rutas.value);
      var ruta := RutaParaEstimar(rutas.value).value;
      if PrimeraDirecta(rutas.value).Some? {
        assert ruta == rutas.value[PrimeraDirecta(rutas.value).value];
      } else {
        assert ruta == rutas.value[0];
      }
    }
  }

  /** The client used has the id of its row. */
  lemma ClienteIdEnTabla(clientes: seq<Cliente>, dto: DatosCliente, ahora: int)
    requires forall i :: 0 <= i < |clientes| ==> clientes[i].id == i + 1
    ensures var (tabla, c) := ClienteObtenido(clientes, dto, ahora);
      1 <= c.id <= |tabla| && tabla[c.id - 1] == c && forall i :: 0 <= i < |tabla| ==> tabla[i].id == i + 1
  {
    var (tabla, c) := ClienteObtenido(clientes, dto, ahora);
    if IndiceEmail(clientes, dto.email).None? {
      assert tabla[|clientes|] == c;
    }
  }

  // ---------------------------------------------------------------- confirmation and updates

  /** `confirmarSolicitud`: only a BORRADOR request with a positive cost
      estimate becomes PLANIFICADA. */
  function Confirmacion(solicitudes: seq<Solicitud>, id: int, ahora: int): Result<Solicitud>
  {
    match FindById(solicitudes, id)
    case None => Err(NotFound)
    case Some(s) =>
      if s.estado != BORRADOR then Err(IllegalState)
      else if s.costoEstimado.None? || s.costoEstimado.value <= 0.0 then Err(IllegalState)
      else Ok(s.(estado := PLANIFICADA, fechaActualizacion := ahora))
  }

  /** Confirmation succeeds exactly on an existing BORRADOR request whose
      cost estimate is set and positive; it changes only the status and the
      update time; a confirmed request cannot be confirmed again. */
  lemma ConfirmacionCorrecta(solicitudes: seq<Solicitud>, id: int, ahora: int, despues: int)
    ensures var r := Confirmacion(solicitudes, id, ahora);
      && (r.Ok? <==> && 1 <= id <= |solicitudes| && solicitudes[id - 1].estado == BORRADOR
                     && solicitudes[id - 1].costoEstimado.Some? && solicitudes[id - 1].costoEstimado.value > 0.0)
      && (!(1 <= id <= |solicitudes|) ==> r == Err(NotFound))
      && (1 <= id <= |solicitudes| && r.Err? ==> r == Err(IllegalState))
    ensures var r := Confirmacion(solicitudes, id, ahora);
      r.Ok? ==>
        && r.value == solicitudes[id - 1].(estado := PLANIFICADA, fechaActualizacion := ahora)
        && Confirmacion(solicitudes[id - 1 := r.value], id, despues) == Err(IllegalState)
  {
  }

  /** `actualizarCostoEstimado`: stores both estimates and sets PROGRAMADA,
      whatever the status was. */
  function ActualizacionCosto(solicitudes: seq<Solicitud>, id: int, costo: Option<real>, tiempo: Option<real>,
                              ahora: int): Result<Solicitud>
  {
    match FindById(solicitudes, id)
    case None => Err(NotFound)
    case Some(s) =>
      Ok(s.(costoEstimado := costo, tiempoEstimadoHoras := tiempo, estado := PROGRAMADA, fechaActualizacion := ahora))
  }

  /** The update reaches every existing request, whatever its status, and
      leaves it PROGRAMADA; so a request updated this way can no longer be
      confirmed. */
  lemma ActualizacionCostoCorrecta(solicitudes: seq<Solicitud>, id: int, costo: Option<real>, tiempo: Option<real>,
                                   ahora: int, despues: int)
    ensures var r := ActualizacionCosto(solicitudes, id, costo, tiempo, ahora);
      && (r.Ok? <==> 1 <= id <= |solicitudes|) && (r.Err? ==> r.error == NotFound)
      && (r.Ok? ==>
            && r.value.estado == PROGRAMADA && r.value.costoEstimado == costo
            && r.value.tiempoEstimadoHoras == tiempo
            && r.value.id == solicitudes[id - 1].id && r.value.costoReal == solicitudes[id - 1].costoReal
            && Confirmacion(solicitudes[id - 1 := r.value], id, despues) == Err(IllegalState))
  {
  }

  /** `finalizarSolicitud`: the request becomes ENTREGADA with the given
      actual figures, and its container ENTREGADO at the destination; a
      container that cannot be found aborts the whole update. */
  function Finalizacion(solicitudes: seq<Solicitud>, contenedores: seq<Contenedor>, id: int,
                        costoReal: Option<real>, tiempoRealHoras: Option<real>, ahora: int)
    : Result<(Solicitud, Contenedor)>
  {
    match FindById(solicitudes, id)
    case None => Err(NotFound)
    case Some(s) =>
      match FindById(contenedores, s.contenedorId)
      case None => Err(MissingData)
      case Some(c) =>
        Ok((s.(costoReal := costoReal, tiempoRealHoras := tiempoRealHoras, estado := ENTREGADA,
               fechaEntrega := Some(ahora), fechaActualizacion := ahora),
            c.(estado := ENTREGADO, ubicacionActual := s.destinoDireccion)))
  }

  /** Every request points at an existing client and container. */
  predicate Referencias(clientes: seq<Cliente>, contenedores: seq<Contenedor>, solicitudes: seq<Solicitud>)
  {
    forall i :: 0 <= i < |solicitudes| ==>
      1 <= solicitudes[i].clienteId <= |clientes| && 1 <= solicitudes[i].contenedorId <= |contenedores|
  }

  /** Finishing fails only for an unknown request, or for one whose
      container is missing, which cannot happen while the references hold.
      On success the request is ENTREGADA with the figures given and its
      container is the request's own, ENTREGADO at the request's
      destination. */
  lemma FinalizacionCorrecta(clientes: seq<Cliente>, solicitudes: seq<Solicitud>, contenedores: seq<Contenedor>,
                             id: int, costoReal: Option<real>, tiempoRealHoras: Option<real>, ahora: int)
    ensures var r := Finalizacion(solicitudes, contenedores, id, costoReal, tiempoRealHoras, ahora);
      && (!(1 <= id <= |solicitudes|) ==> r == Err(NotFound))
      && (Referencias(clientes, contenedores, solicitudes) ==> (r.Ok? <==> 1 <= id <= |solicitudes|))
    ensures var r := Finalizacion(solicitudes, contenedores, id, costoReal, tiempoRealHoras, ahora);
      r.Ok? ==>
        var s := solicitudes[id - 1];
        var (s2, c2) := r.value;
        && s2.estado == ENTREGADA && s2.costoReal == costoReal && s2.tiempoRealHoras == tiempoRealHoras
        && s2.fechaEntrega == Some(ahora) && s2.id == s.id && s2.contenedorId == s.contenedorId
        && 1 <= s.contenedorId <= |contenedores|
        && c2 == contenedores[s.contenedorId - 1].(estado := ENTREGADO, ubicacionActual := s.destinoDireccion)
  {
  }

  // ---------------------------------------------------------------- closing rollup

  /** A leg's distance, or nothing when the leg has none. */
  function Distancias(tramos: seq<TramoLogistica>): (r: seq<real>)
    ensures |r| == |tramos|
    ensures forall i {:trigger r[i]} :: 0 <= i < |tramos| ==> r[i] == tramos[i].distanciaKm.GetOr(0.0)
  {
    seq(|tramos|, i requires 0 <= i < |tramos| => tramos[i].distanciaKm.GetOr(0.0))
  }

  /** A leg's actual cost: its distance at 150 per km; a leg without a
      distance adds nothing. */
  function CostosTramos(tramos: seq<TramoLogistica>): (r: seq<real>)
    ensures |r| == |tramos|
    ensures forall i {:trigger r[i]} :: 0 <= i < |tramos| ==>
              r[i] == if tramos[i].distanciaKm.Some? then tramos[i].distanciaKm.value * TarifaPromedioKm else 0.0
  {
    seq(|tramos|, i requires 0 <= i < |tramos| =>
      if tramos[i].distanciaKm.Some? then tramos[i].distanciaKm.value * TarifaPromedioKm else 0.0)
  }

  /** The actual cost is 150 times the total distance of the legs. */
  lemma CostoRealSegunKm(tramos: seq<TramoLogistica>)
    ensures Sum(CostosTramos(tramos)) == TarifaPromedioKm * Sum(Distancias(tramos))
  {
    var km := Distancias(tramos);
    var costos := CostosTramos(tramos);
    forall i | 0 <= i < |tramos|
      ensures costos[i] == TarifaPromedioKm * km[i]
    {
    }
    SumScale(km, costos, TarifaPromedioKm);
  }

  /** `min` over the legs' start times that are set. */
  function PrimeraFechaInicio(tramos: seq<TramoLogistica>): Option<int>
  {
    if tramos == [] then None
    else
      var resto := PrimeraFechaInicio(tramos[1..]);
      match tramos[0].fechaInicio
      case None => resto
      case Some(f) => if resto.Some? && resto.value < f then resto else Some(f)
  }

  /** `max` over the legs' end times that are set. */
  function UltimaFechaFin(tramos: seq<TramoLogistica>): Option<int>
  {
    if tramos == [] then None
    else
      var resto := UltimaFechaFin(tramos[1..]);
      match tramos[0].fechaFin
      case None => resto
      case Some(f) => if resto.Some? && resto.value > f then resto else Some(f)
  }

  /** The earliest start is absent exactly when no leg has started, and
      otherwise is one leg's start and no later than any other. */
  lemma {:induction false} PrimeraFechaInicioEsMinima(tramos: seq<TramoLogistica>)
    ensures PrimeraFechaInicio(tramos).None? <==> forall i :: 0 <= i < |tramos| ==> tramos[i].fechaInicio.None?
    ensures PrimeraFechaInicio(tramos).Some? ==>
              && (exists i :: 0 <= i < |tramos| && tramos[i].fechaInicio == PrimeraFechaInicio(tramos))
              && forall i :: 0 <= i < |tramos| && tramos[i].fechaInicio.Some? ==>
                   PrimeraFechaInicio(tramos).value <= tramos[i].fechaInicio.value
  {
    if tramos != [] {
      var cola := tramos[1..];
      PrimeraFechaInicioEsMinima(cola);
      assert forall i :: 1 <= i < |tramos| ==> tramos[i] == cola[i - 1];
      var r := PrimeraFechaInicio(tramos);
      if r.Some? && r != tramos[0].fechaInicio {
        var k :| 0 <= k < |cola| && cola[k].fechaInicio == PrimeraFechaInicio(cola);
        assert tramos[k + 1].fechaInicio == r;
      }
    }
  }

  /** The latest end is absent exactly when no leg has finished, and
      otherwise is one leg's end and no earlier than any other. */
  lemma {:induction false} UltimaFechaFinEsMaxima(tramos: seq<TramoLogistica>)
    ensures UltimaFechaFin(tramos).None? <==> forall i :: 0 <= i < |tramos| ==> tramos[i].fechaFin.None?
    ensures UltimaFechaFin(tramos).Some? ==>
              && (exists i :: 0 <= i < |tramos| && tramos[i].fechaFin == UltimaFechaFin(tramos))
              && forall i :: 0 <= i < |tramos| && tramos[i].fechaFin.Some? ==>
                   UltimaFechaFin(tramos).value >= tramos[i].fechaFin.value
  {
    if tramos != [] {
      var cola := tramos[1..];
      UltimaFechaFinEsMaxima(cola);
      assert forall i :: 1 <= i < |tramos| ==> tramos[i] == cola[i - 1];
      var r := UltimaFechaFin(tramos);
      if r.Some? && r != tramos[0].fechaFin {
        var k :| 0 <= k < |cola| && cola[k].fechaFin == UltimaFechaFin(cola);
        assert tramos[k + 1].fechaFin == r;
      }
    }
  }

  /** The actual hours: whole minutes between the earliest start and the
      latest end (`Duration.toMinutes` truncates toward zero), over 60. */
  function TiempoReal(tramos: seq<TramoLogistica>): Option<real>
  {
    var inicio := PrimeraFechaInicio(tramos);
    var fin := UltimaFechaFin(tramos);
    if inicio.Some? && fin.Some? then
      Some(TruncDiv(fin.value - inicio.value, SegundosPorMinuto) as real / 60.0)
    else None
  }

  /** `finalizarSolicitudConCalculos`: with legs, the request gets its
      actual cost and hours and is delivered now; a failed call or an empty
      list leaves it as it was. */
  function CierreConCalculos(s: Solicitud, tramos: Option<seq<TramoLogistica>>, ahora: int): Solicitud
  {
    match tramos
    case None => s
    case Some(ts) =>
      if ts == [] then s
      else s.(costoReal := Some(Sum(CostosTramos(ts))), tiempoRealHoras := TiempoReal(ts), fechaEntrega := Some(ahora))
  }

  /** The `facturacionClient.generarFactura` call the rollup makes once it
      has legs: the id of the request to invoice, or `None` when no call is
      made. The invoice, or the failure of the call, is only logged. */
  function FacturaPedida(s: Solicitud, tramos: Option<seq<TramoLogistica>>): Option<int>
  {
    match tramos
    case None => None
    case Some(ts) => if ts == [] then None else Some(s.id)
  }

  /** The rollup changes nothing without legs. With legs it charges 150 per
      km of the legs that have a distance, sets the hours exactly when some
      leg has started and some leg has finished (whole minutes from the
      earliest start to the latest end, over 60), and stamps the delivery;
      no other field changes. */
  lemma CierreConCalculosCorrecto(s: Solicitud, tramos: Option<seq<TramoLogistica>>, ahora: int)
    ensures tramos.None? || tramos == Some([]) ==> CierreConCalculos(s, tramos, ahora) == s
    ensures tramos.Some? && tramos.value != [] ==>
              var ts := tramos.value;
              var c := CierreConCalculos(s, tramos, ahora);
              && c.costoReal == Some(TarifaPromedioKm * Sum(Distancias(ts)))
              && (c.tiempoRealHoras.Some? <==> (exists i :: 0 <= i < |ts| && ts[i].fechaInicio.Some?)
                                               && (exists j :: 0 <= j < |ts| && ts[j].fechaFin.Some?))
              && (c.tiempoRealHoras.Some? ==>
                    c.tiempoRealHoras.value
                      == TruncDiv(UltimaFechaFin(ts).value - PrimeraFechaInicio(ts).value, 60) as real / 60.0)
              && c.fechaEntrega == Some(ahora)
              && c == s.(costoReal := c.costoReal, tiempoRealHoras := c.tiempoRealHoras, fechaEntrega := c.fechaEntrega)
    ensures FacturaPedida(s, tramos).Some? <==> tramos.Some? && tramos.value != []
    ensures FacturaPedida(s, tramos).Some? ==> FacturaPedida(s, tramos).value == s.id
    ensures FacturaPedida(s, tramos).None? ==> CierreConCalculos(s, tramos, ahora) == s
  {
    if tramos.Some? && tramos.value != [] {
      CostoRealSegunKm(tramos.value);
      PrimeraFechaInicioEsMinima(tramos.value);
      UltimaFechaFinEsMaxima(tramos.value);
    }
  }

  /** `actualizarEstado`: sets any status; FINALIZADA also runs the rollup. */
  function ActualizacionEstado(solicitudes: seq<Solicitud>, id: int, nuevoEstado: string,
                               tramos: Option<seq<TramoLogistica>>, ahora: int): Result<Solicitud>
  {
    match FindById(solicitudes, id)
    case None => Err(NotFound)
    case Some(s) =>
      var t := s.(estado := nuevoEstado, fechaActualizacion := ahora);
      Ok(if nuevoEstado == FINALIZADA then CierreConCalculos(t, tramos, ahora) else t)
  }

  /** The invoice `actualizarEstado` asks for: only when the request exists,
      the new status is FINALIZADA and the rollup found legs. */
  function FacturaTrasEstado(solicitudes: seq<Solicitud>, id: int, nuevoEstado: string,
                             tramos: Option<seq<TramoLogistica>>): Option<int>
  {
    match FindById(solicitudes, id)
    case None => None
    case Some(s) => if nuevoEstado == FINALIZADA then FacturaPedida(s, tramos) else None
  }

  /** Any status is accepted for an existing request; only FINALIZADA
      touches the actual figures, and a failed or empty leg listing never
      undoes the status change. */
  lemma ActualizacionEstadoCorrecta(solicitudes: seq<Solicitud>, id: int, nuevoEstado: string,
                                    tramos: Option<seq<TramoLogistica>>, ahora: int)
    ensures var r := ActualizacionEstado(solicitudes, id, nuevoEstado, tramos, ahora);
      && (r.Ok? <==> 1 <= id <= |solicitudes|) && (r.Err? ==> r.error == NotFound)
      && (r.Ok? ==>
            var s := solicitudes[id - 1];
            && r.value.estado == nuevoEstado && r.value.fechaActualizacion == ahora && r.value.id == s.id
            && (nuevoEstado != FINALIZADA || tramos.None? || tramos == Some([]) ==>
                  r.value == s.(estado := nuevoEstado, fechaActualizacion := ahora))
            && (nuevoEstado == FINALIZADA && tramos.Some? && tramos.value != [] ==>
                  r.value.costoReal == Some(TarifaPromedioKm * Sum(Distancias(tramos.value)))
                  && r.value.fechaEntrega == Some(ahora)))
    ensures var f := FacturaTrasEstado(solicitudes, id, nuevoEstado, tramos);
      && (f.Some? <==> 1 <= id <= |solicitudes| && nuevoEstado == FINALIZADA && tramos.Some? && tramos.value != [])
      && (f.Some? ==> f.value == solicitudes[id - 1].id)
  {
    if 1 <= id <= |solicitudes| {
      var s := solicitudes[id - 1];
      CierreConCalculosCorrecto(s.(estado := nuevoEstado, fechaActualizacion := ahora), tramos, ahora);
    }
  }

  /** The `for` loop of the rollup: the cost at 150 per km and the total
      distance of the legs that have one. */
  method SumarTramos(tramos: seq<TramoLogistica>) returns (costo: real, distancia: real)
    ensures costo == Sum(CostosTramos(tramos)) && distancia == Sum(Distancias(tramos))
  {
    costo, distancia := 0.0, 0.0;
    var i := 0;
    while i < |tramos|
      invariant 0 <= i <= |tramos|
      invariant costo == Sum(CostosTramos(tramos[..i]))
      invariant distancia == Sum(Distancias(tramos[..i]))
    {
      var t := tramos[i];
      var prefijo := tramos[..i];
      assert tramos[..i + 1] == prefijo + [t];
      TramosAppend(prefijo, t);
      if t.distanciaKm.Some? {
        var km := t.distanciaKm.value;
        SumAppend(Distancias(prefijo), km);
        SumAppend(CostosTramos(prefijo), km * TarifaPromedioKm);
        distancia := distancia + km;
        costo := costo + km * TarifaPromedioKm;
      } else {
        SumAppend(Distancias(prefijo), 0.0);
        SumAppend(CostosTramos(prefijo), 0.0);
      }
      i := i + 1;
    }
    assert tramos[..i] == tramos;
  }

  lemma TramosAppend(tramos: seq<TramoLogistica>, t: TramoLogistica)
    ensures Distancias(tramos + [t]) == Distancias(tramos) + [t.distanciaKm.GetOr(0.0)]
    ensures CostosTramos(tramos + [t])
         == CostosTramos(tramos) + [if t.distanciaKm.Some? then t.distanciaKm.value * TarifaPromedioKm else 0.0]
  {
    var u := tramos + [t];
    assert forall i :: 0 <= i < |tramos| ==> u[i] == tramos[i];
  }

  /** `finalizarSolicitudConCalculos` on the request being updated. */
  method FinalizarConCalculos(s: Solicitud, tramos: Option<seq<TramoLogistica>>, ahora: int)
    returns (t: Solicitud, factura: Option<int>)
    ensures t == CierreConCalculos(s, tramos, ahora)
    ensures factura == FacturaPedida(s, tramos)
  {
    if tramos.None? || tramos.value == [] {
      return s, None;
    }
    var costo, distancia := SumarTramos(tramos.value);
    var inicio := PrimeraFechaInicio(tramos.value);
    var fin := UltimaFechaFin(tramos.value);
    var horas: Option<real> := None;
    if inicio.Some? && fin.Some? {
      var minutos := TruncDiv(fin.value - inicio.value, SegundosPorMinuto);
      horas := Some(minutos as real / 60.0);
    }
    t := s.(costoReal := Some(costo), tiempoRealHoras := horas, fechaEntrega := Some(ahora));
    factura := Some(s.id);
  }

  // ---------------------------------------------------------------- the service

  class SolicitudService {
    var clientes: seq<Cliente>
    var contenedores: seq<Contenedor>
    var solicitudes: seq<Solicitud>

    /** IDENTITY ids, and the unique columns of the client and container
        tables. */
    ghost predicate Valid()
      reads this
    {
      && (forall i :: 0 <= i < |clientes| ==> clientes[i].id == i + 1)
      && (forall i :: 0 <= i < |contenedores| ==> contenedores[i].id == i + 1)
      && (forall i :: 0 <= i < |solicitudes| ==> solicitudes[i].id == i + 1)
      && EmailsUnicos(clientes) && NumerosUnicos(contenedores)
    }

    constructor ()
      ensures Valid() && clientes == [] && contenedores == [] && solicitudes == []
    {
      clientes, contenedores, solicitudes := [], [], [];
    }

    /** `obtenerOCrearCliente`. */
    method ObtenerOCrearCliente(dto: DatosCliente, ahora: int) returns (cliente: Cliente)
      requires Valid()
      modifies this
      ensures Valid() && contenedores == old(contenedores) && solicitudes == old(solicitudes)
      ensures (clientes, cliente) == ClienteObtenido(old(clientes), dto, ahora)
    {
      ClienteObtenidoCorrecto(clientes, dto, ahora);
      ClienteIdEnTabla(clientes, dto, ahora);
      var i := IndiceEmail(clientes, dto.email);
      if i.Some? {
        return clientes[i.value];
      }
      cliente := NuevoCliente(|clientes| + 1, dto, ahora);
      clientes := clientes + [cliente];
    }

    /** `crearContenedor`. */
    method CrearContenedor(clienteId: int, dto: DatosContenedor, ubicacionInicial: string, ahora: int)
      returns (r: Result<Contenedor>)
      requires Valid()
      modifies this
      ensures Valid() && clientes == old(clientes) && solicitudes == old(solicitudes)
      ensures r == ContenedorCreado(old(contenedores), clienteId, dto, ubicacionInicial, ahora)
      ensures contenedores == if r.Ok? then old(contenedores) + [r.value] else old(contenedores)
    {
      ContenedorCreadoCorrecto(contenedores, clienteId, dto, ubicacionInicial, ahora);
      if exists i :: 0 <= i < |contenedores| && contenedores[i].numeroIdentificacion == dto.numeroIdentificacion {
        return Err(IllegalArgument);
      }
      var c := Contenedor(|contenedores| + 1, clienteId, dto.numeroIdentificacion, dto.pesoKg, dto.volumenM3,
                          if dto.tipo.Some? then dto.tipo.value else ESTANDAR, CREADO, ubicacionInicial, ahora,
                          dto.observaciones);
      contenedores := contenedores + [c];
      r := Ok(c);
    }

    /** `crearSolicitud`; `rutas` is what `calcularRutasTentativas`
        answered. */
    method CrearSolicitud(pedido: Pedido, rutas: Option<seq<RutaTentativa>>, ahora: int) returns (r: Result<Solicitud>)
      requires Valid()
      modifies this
      ensures Valid()
      ensures var c := CreacionSolicitud(old(clientes), old(contenedores), old(solicitudes), pedido, rutas, ahora);
        && (r.Err? <==> c.Err?) && (r.Err? ==> r.error == c.error)
        && (c.Err? ==> clientes == old(clientes) && contenedores == old(contenedores)
                       && solicitudes == old(solicitudes))
        && (c.Ok? ==> (clientes, contenedores, r.value) == c.value && solicitudes == old(solicitudes) + [r.value])
    {
      var clientesAntes := clientes;
      var cliente := ObtenerOCrearCliente(pedido.cliente, ahora);
      var contenedor := CrearContenedor(cliente.id, pedido.contenedor, pedido.origenDireccion, ahora);
      if contenedor.Err? {
        clientes := clientesAntes;
        return Err(contenedor.error);
      }
      var guardada := SolicitudNueva(|solicitudes| + 1, cliente.id, contenedor.value.id, pedido, ahora);
      if rutas.Some? && rutas.value != [] {
        var rs := rutas.value;
        var directa := PrimeraDirecta(rs);
        var ruta := if directa.Some? then rs[directa.value] else rs[0];
        guardada := guardada.(costoEstimado := ruta.costoTotalEstimado, tiempoEstimadoHoras := ruta.tiempoEstimadoHoras);
      }
      solicitudes := solicitudes + [guardada];
      r := Ok(guardada);
    }

    /** `confirmarSolicitud`. */
    method ConfirmarSolicitud(id: int, ahora: int) returns (r: Result<Solicitud>)
      requires Valid()
      modifies this
      ensures Valid() && clientes == old(clientes) && contenedores == old(contenedores)
      ensures r == Confirmacion(old(solicitudes), id, ahora)
      ensures solicitudes == if r.Ok? then old(solicitudes)[id - 1 := r.value] else old(solicitudes)
    {
      var buscada := FindById(solicitudes, id);
      if buscada.None? {
        return Err(NotFound);
      }
      var s := buscada.value;
      if s.estado != BORRADOR {
        return Err(IllegalState);
      }
      if s.costoEstimado.None? || s.costoEstimado.value <= 0.0 {
        return Err(IllegalState);
      }
      var t := s.(estado := PLANIFICADA, fechaActualizacion := ahora);
      solicitudes := solicitudes[id - 1 := t];
      r := Ok(t);
    }

    /** `actualizarEstado`; `tramos` is what `listarTramosPorSolicitud`
        answers when the status is FINALIZADA, and `factura` the request id
        sent to `generarFactura`, if the call is made. */
    method ActualizarEstado(id: int, nuevoEstado: string, tramos: Option<seq<TramoLogistica>>, ahora: int)
      returns (r: Result<Solicitud>, factura: Option<int>)
      requires Valid()
      modifies this
      ensures Valid() && clientes == old(clientes) && contenedores == old(contenedores)
      ensures r == ActualizacionEstado(old(solicitudes), id, nuevoEstado, tramos, ahora)
      ensures solicitudes == if r.Ok? then old(solicitudes)[id - 1 := r.value] else old(solicitudes)
      ensures factura == FacturaTrasEstado(old(solicitudes), id, nuevoEstado, tramos)
    {
      factura := None;
      var buscada := FindById(solicitudes, id);
      if buscada.None? {
        return Err(NotFound), None;
      }
      var s := buscada.value.(estado := nuevoEstado, fechaActualizacion := ahora);
      if nuevoEstado == FINALIZADA {
        s, factura := FinalizarConCalculos(s, tramos, ahora);
      }
      solicitudes := solicitudes[id - 1 := s];
      r := Ok(s);
    }

    /** `actualizarCostoEstimado`. */
    method ActualizarCostoEstimado(id: int, costo: Option<real>, tiempo: Option<real>, ahora: int)
      returns (r: Result<Solicitud>)
      requires Valid()
      modifies this
      ensures Valid() && clientes == old(clientes) && contenedores == old(contenedores)
      ensures r == ActualizacionCosto(old(solicitudes), id, costo, tiempo, ahora)
      ensures solicitudes == if r.Ok? then old(solicitudes)[id - 1 := r.value] else old(solicitudes)
    {
      var buscada := FindById(solicitudes, id);
      if buscada.None? {
        return Err(NotFound);
      }
      var t := buscada.value.(costoEstimado := costo, tiempoEstimadoHoras := tiempo, estado := PROGRAMADA,
                              fechaActualizacion := ahora);
      solicitudes := solicitudes[id - 1 := t];
      r := Ok(t);
    }

    /** `finalizarSolicitud`. */
    method FinalizarSolicitud(id: int, costoReal: Option<real>, tiempoRealHoras: Option<real>, ahora: int)
      returns (r: Result<Solicitud>)
      requires Valid()
      modifies this
      ensures Valid() && clientes == old(clientes)
      ensures var f := Finalizacion(old(solicitudes), old(contenedores), id, costoReal, tiempoRealHoras, ahora);
        && (r.Err? <==> f.Err?) && (r.Err? ==> r.error == f.error)
        && (f.Err? ==> solicitudes == old(solicitudes) && contenedores == old(contenedores))
        && (f.Ok? ==>
              && r.value == f.value.0
              && solicitudes == old(solicitudes)[id - 1 := f.value.0]
              && contenedores == old(contenedores)[old(solicitudes)[id - 1].contenedorId - 1 := f.value.1])
    {
      var buscada := FindById(solicitudes, id);
      if buscada.None? {
        return Err(NotFound);
      }
      var s := buscada.value;
      var guardado := FindById(contenedores, s.contenedorId);
      if guardado.None? {
        return Err(MissingData);
      }
      var c := guardado.value.(estado := ENTREGADO, ubicacionActual := s.destinoDireccion);
      var t := s.(costoReal := costoReal, tiempoRealHoras := tiempoRealHoras, estado := ENTREGADA,
                  fechaEntrega := Some(ahora), fechaActualizacion := ahora);
      contenedores := contenedores[s.contenedorId - 1 := c];
      solicitudes := solicitudes[id - 1 := t];
      r := Ok(t);
    }
  }
}
