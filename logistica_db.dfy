/** The ms-logistica tables (`v2_rutas`, `v2_tramos`, `v2_depositos`,
    `v2_camiones`, `v2_transportistas`) and the JPA repositories over them.
    A row is a value; saving a changed row replaces it. Identifiers are
    generated by the database (IDENTITY), so the row at position `i` has id
    `i + 1`. Timestamps are integer seconds. */
module LogisticaDb {
  import opened Common
  import opened Text

  /** A latitude/longitude pair, as the `double[]{lat, lon}` the services pass. */
  type Coord = (real, real)

  // ---------------------------------------------------------------- status values

  const TENTATIVA := "TENTATIVA"
  const ASIGNADA := "ASIGNADA"
  const CANCELADA := "CANCELADA"

  const ESTIMADO := "ESTIMADO"
  const PENDIENTE := "PENDIENTE"
  const ASIGNADO := "ASIGNADO"
  const INICIADO := "INICIADO"
  const FINALIZADO := "FINALIZADO"

  const DISPONIBLE := "DISPONIBLE"
  const EN_USO := "EN_USO"
  const ACTIVO := "ACTIVO"

  const CLIENTE := "CLIENTE"
  const DEPOSITO := "DEPOSITO"
  const DIRECTO := "DIRECTO"

  const DIRECTA := "DIRECTA"
  const UN_DEPOSITO := "UN_DEPOSITO"
  const MULTIPLES_DEPOSITOS := "MULTIPLES_DEPOSITOS"

  // ---------------------------------------------------------------- rows

  datatype Deposito = Deposito(
    id: int, nombre: string, direccion: string,
    lat: Option<real>, lon: Option<real>,
    costoDia: real, estado: string)

  datatype Camion = Camion(
    id: int, transportistaId: Option<int>,
    capacidadKg: real, capacidadM3: real,
    consumoCombustibleLtKm: real, costoKm: real,
    estado: string, ubicacionActual: Option<string>)

  datatype Transportista = Transportista(id: int, nombreCompleto: string, estado: string)

  datatype Tramo = Tramo(
    id: int, solicitudId: int, rutaId: Option<int>,
    camionId: Option<int>, transportistaId: Option<int>,
    origenTipo: string, origenId: Option<int>, origenDireccion: string,
    destinoTipo: string, destinoId: Option<int>, destinoDireccion: string,
    tipoTramo: string, distanciaKm: Option<real>, ordenTramo: int,
    estado: string, fechaInicio: Option<int>, fechaFin: Option<int>)

  /** The distance of every leg, a missing one counted as 0. */
  function Kilometros(ts: seq<Tramo>): (r: seq<real>)
    ensures |r| == |ts|
    ensures forall i {:trigger r[i]} :: 0 <= i < |ts| ==> r[i] == ts[i].distanciaKm.GetOr(0.0)
  {
    seq(|ts|, i requires 0 <= i < |ts| => ts[i].distanciaKm.GetOr(0.0))
  }

  datatype Ruta = Ruta(
    id: int, solicitudId: int, estado: string, cantidadTramos: int,
    depositosIntermedios: Option<string>,
    distanciaTotal: real, costoTotalEstimado: real, tiempoEstimadoHoras: real,
    estrategia: string, fechaCreacion: int, fechaAsignacion: Option<int>,
    observaciones: string)

  /** The `SolicitudDTO` ms-logistica receives from ms-solicitudes. */
  datatype Contenedor = Contenedor(id: Option<int>, pesoKg: Option<real>, volumenM3: Option<real>)
  datatype SolicitudDTO = SolicitudDTO(
    id: int, origenDireccion: string, destinoDireccion: string,
    estado: string, contenedor: Option<Contenedor>)

  /** `SolicitudClient.obtenerSolicitud(id)`: the request, or the exception
      the Feign call raises. */
  type Solicitudes = int -> Result<SolicitudDTO>

  // ---------------------------------------------------------------- identifiers

  /** Each table's ids are the IDENTITY sequence 1, 2, 3, ...; the seeded
      tables also fit a Java `long`. */
  ghost predicate RutaIds(rows: seq<Ruta>)
  {
    forall i :: 0 <= i < |rows| ==> rows[i].id == i + 1
  }
  ghost predicate TramoIds(rows: seq<Tramo>)
  {
    forall i :: 0 <= i < |rows| ==> rows[i].id == i + 1
  }
  ghost predicate DepositoIds(rows: seq<Deposito>)
  {
    |rows| < LongMax && forall i :: 0 <= i < |rows| ==> rows[i].id == i + 1
  }
  ghost predicate CamionIds(rows: seq<Camion>)
  {
    |rows| < LongMax && forall i :: 0 <= i < |rows| ==> rows[i].id == i + 1
  }
  ghost predicate TransportistaIds(rows: seq<Transportista>)
  {
    |rows| < LongMax && forall i :: 0 <= i < |rows| ==> rows[i].id == i + 1
  }

  /** The repositories of ms-logistica. */
  class Db {
    var rutas: seq<Ruta>
    var tramos: seq<Tramo>
    var depositos: seq<Deposito>
    var camiones: seq<Camion>
    var transportistas: seq<Transportista>

    ghost predicate Valid()
      reads this
    {
      RutaIds(rutas) && TramoIds(tramos) && DepositoIds(depositos) &&
      CamionIds(camiones) && TransportistaIds(transportistas)
    }

    /** A database seeded with deposits, trucks and drivers, and no routes or legs. */
    constructor (depositos: seq<Deposito>, camiones: seq<Camion>, transportistas: seq<Transportista>)
      requires DepositoIds(depositos) && CamionIds(camiones) && TransportistaIds(transportistas)
      ensures Valid()
      ensures this.rutas == [] && this.tramos == []
      ensures this.depositos == depositos && this.camiones == camiones
      ensures this.transportistas == transportistas
    {
      this.rutas := [];
      this.tramos := [];
      this.depositos := depositos;
      this.camiones := camiones;
      this.transportistas := transportistas;
    }

    /** `tramoRepository.save` of a changed leg: the row with its id is replaced. */
    method ActualizarTramo(t: Tramo)
      requires Valid() && 1 <= t.id <= |tramos|
      modifies this
      ensures Valid() && tramos == old(tramos)[t.id - 1 := t]
      ensures rutas == old(rutas) && depositos == old(depositos)
      ensures camiones == old(camiones) && transportistas == old(transportistas)
    {
      tramos := tramos[t.id - 1 := t];
    }

    /** `camionRepository.save` of a changed truck. */
    method ActualizarCamion(c: Camion)
      requires Valid() && 1 <= c.id <= |camiones|
      modifies this
      ensures Valid() && camiones == old(camiones)[c.id - 1 := c]
      ensures rutas == old(rutas) && tramos == old(tramos) && depositos == old(depositos)
      ensures transportistas == old(transportistas)
    {
      camiones := camiones[c.id - 1 := c];
    }

    /** `transportistaRepository.save` of a changed driver. */
    method ActualizarTransportista(t: Transportista)
      requires Valid() && 1 <= t.id <= |transportistas|
      modifies this
      ensures Valid() && transportistas == old(transportistas)[t.id - 1 := t]
      ensures rutas == old(rutas) && tramos == old(tramos) && depositos == old(depositos)
      ensures camiones == old(camiones)
    {
      transportistas := transportistas[t.id - 1 := t];
    }
  }
}
