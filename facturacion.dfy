/** `FacturacionService`: invoices (from leg details, or generated from the
    request's real cost and its legs), invoice numbers, and deposit stays.
    The tables are fields of the service; ids are IDENTITY (row `i` has id
    `i + 1`) and nothing deletes a row, so `count()` is the table's length.
    The clock is a parameter: an instant in seconds, its calendar day and
    its year. The other services are parameters too. */
module Facturacion {
  import opened Common
  import opened Text
  import opened Tarifas

  const PENDIENTE: string := "PENDIENTE"
  const EN_CURSO: string := "EN_CURSO"
  const FINALIZADA: string := "FINALIZADA"

  /** Value added tax, 21 %. */
  const IVA: real := 0.21
  const DiasParaVencer: int := 30
  /** `generarFactura`'s management charge: 10 % of the real cost. */
  const TasaGestion: real := 0.10
  /** `generarFactura`'s fuel estimate: 0.08 litres per km. */
  const ConsumoEstimadoLtKm: real := 0.08
  const SegundosPorDia: int := 86400

  /** `LocalDateTime.now()`, `LocalDate.now()` and its year. */
  datatype Reloj = Reloj(ahora: int, hoy: int, anio: nat)

  /** A leg as `calcularFactura` receives it. */
  datatype TramoInfo = TramoInfo(id: int, distanciaKm: Option<real>, consumoCombustibleLtKm: Option<real>,
                                 costoKm: Option<real>)

  /** What `generarFactura` reads of the request and of its legs. */
  datatype SolicitudResumen = SolicitudResumen(id: int, estado: string, costoReal: Option<real>)
  datatype TramoResumen = TramoResumen(id: int, solicitudId: int, distanciaKm: Option<real>)

  /** `solicitudClient.obtenerSolicitud` and `logisticaClient.listarTramosPorSolicitud`. */
  type ConsultaSolicitud = int -> Result<SolicitudResumen>
  type ConsultaTramos = int -> Result<seq<TramoResumen>>

  datatype Factura = Factura(
    id: int,
    solicitudId: int,
    tarifaId: int,
    numeroFactura: string,
    cargoGestion: real,
    costoTransporte: real,
    costoCombustible: real,
    costoEstadias: real,
    subtotal: real,
    impuestos: real,
    total: real,
    estado: string,
    fechaEmision: int,
    fechaVencimiento: int,
    fechaPago: Option<int>)

  datatype EstadiaDeposito = EstadiaDeposito(
    id: int,
    contenedorId: int,
    depositoId: int,
    fechaEntrada: int,
    fechaSalida: Option<int>,
    diasEstadia: Option<int>,
    costoDia: real,
    costoTotal: Option<real>,
    estado: string,
    observaciones: Option<string>)

  // ---------------------------------------------------------------- invoice numbers

  /** `String.format("FC-%06d-%d", n, anio)`. */
  function NumeroFactura(n: nat, anio: nat): string
  {
    "FC-" + ZeroPad(n, 6) + "-" + NatToString(anio)
  }

  /** The number reads "FC-", then at least six digits worth `n` (exactly six
      below a million), then "-" and the year. */
  lemma NumeroFacturaForma(n: nat, anio: nat)
    ensures var s := NumeroFactura(n, anio);
      var k := |ZeroPad(n, 6)|;
      && s[..3] == "FC-" && 6 <= k && (n < 1000000 ==> k == 6)
      && 3 + k < |s| && s[3 + k] == '-'
      && AllDigits(s[3..3 + k]) && DigitsValue(s[3..3 + k]) == n
      && s[3 + k + 1..] == NatToString(anio)
  {
    var s := NumeroFactura(n, anio);
    var z := ZeroPad(n, 6);
    assert s == "FC-" + z + "-" + NatToString(anio);
    assert s[3..3 + |z|] == z;
    if n < 1000000 {
      assert Pot10(6) == 1000000;
      LongitudDigitos(n, 6);
    }
  }

  function Pot10(k: nat): nat
  {
    if k == 0 then 1 else 10 * Pot10(k - 1)
  }

  /** Below `10^k` a number prints in at most `k` digits. */
  lemma {:induction false} LongitudDigitos(n: nat, k: nat)
    requires 1 <= k && n < Pot10(k)
    ensures |NatToString(n)| <= k
  {
    if n >= 10 {
      assert Pot10(1) == 10;
      LongitudDigitos(n / 10, k - 1);
    }
  }

  /** Two invoice numbers are equal only for the same sequence number and
      year: the digits end at the first '-' after the prefix. */
  lemma NumeroFacturaInyectivo(n: nat, m: nat, a: nat, b: nat)
    requires NumeroFactura(n, a) == NumeroFactura(m, b)
    ensures n == m && a == b
  {
    var zn, zm := ZeroPad(n, 6), ZeroPad(m, 6);
    var ya, yb := NatToString(a), NatToString(b);
    MismoPrefijo("FC-", zn, ya, zm, yb);
    PartesSinGuion(zn, ya, zm, yb);
    NatToStringInjective(a, b);
  }

  lemma MismoPrefijo(p: string, z1: string, y1: string, z2: string, y2: string)
    requires p + z1 + "-" + y1 == p + z2 + "-" + y2
    ensures z1 + ['-'] + y1 == z2 + ['-'] + y2
  {
    var x1, x2 := z1 + ['-'] + y1, z2 + ['-'] + y2;
    assert p + z1 + "-" + y1 == p + x1;
    assert p + z2 + "-" + y2 == p + x2;
    assert x1 == (p + x1)[|p|..];
    assert x2 == (p + x2)[|p|..];
  }

  /** Digits, a '-', and the rest split back uniquely at the '-'. */
  lemma PartesSinGuion(z1: string, y1: string, z2: string, y2: string)
    requires AllDigits(z1) && AllDigits(z2)
    requires z1 + ['-'] + y1 == z2 + ['-'] + y2
    ensures z1 == z2 && y1 == y2
  {
    var t := z1 + ['-'] + y1;
    SinGuion(z1);
    SinGuion(z2);
    FirstIndexOfJoin(z1, '-', y1);
    FirstIndexOfJoin(z2, '-', y2);
    assert z1 == t[..|z1|] == z2;
    assert y1 == t[|z1| + 1..] == y2;
  }

  lemma SinGuion(z: string)
    requires AllDigits(z)
    ensures '-' !in z
  {
    assert forall i :: 0 <= i < |z| ==> z[i] != '-';
  }

  // ---------------------------------------------------------------- invoices

  /** `facturaRepository.existsBySolicitudId(solicitudId)`. */
  predicate ExisteFactura(facturas: seq<Factura>, solicitudId: int)
  {
    exists i :: 0 <= i < |facturas| && facturas[i].solicitudId == solicitudId
  }

  /** The invoice both paths save, given the three computed charges: no
      stay charge yet, 21 % tax, PENDIENTE, due 30 days after today, with the
      next id and the next number. */
  function Emitir(facturas: seq<Factura>, solicitudId: int, tarifa: Tarifa, gestion: real, transporte: real,
                  combustible: real, reloj: Reloj): Factura
  {
    var subtotal := gestion + transporte + combustible + 0.0;
    var impuestos := subtotal * IVA;
    Factura(|facturas| + 1, solicitudId, tarifa.id, NumeroFactura(|facturas| + 1, reloj.anio),
            gestion, transporte, combustible, 0.0, subtotal, impuestos, subtotal + impuestos,
            PENDIENTE, reloj.ahora, reloj.hoy + DiasParaVencer, None)
  }

  /** The invoice arithmetic: the subtotal is the four charges, the tax is
      21 % of it, and the total is the subtotal plus the tax. */
  predicate Cuadra(f: Factura)
  {
    && f.subtotal == f.cargoGestion + f.costoTransporte + f.costoCombustible + f.costoEstadias
    && f.impuestos == IVA * f.subtotal
    && f.total == f.subtotal + f.impuestos
  }

  /** Every issued invoice adds up, totals 121 % of its subtotal, is unpaid
      and due in 30 days, and carries the next sequence number. */
  lemma EmitirCorrecto(facturas: seq<Factura>, solicitudId: int, tarifa: Tarifa, gestion: real, transporte: real,
                       combustible: real, reloj: Reloj)
    ensures var f := Emitir(facturas, solicitudId, tarifa, gestion, transporte, combustible, reloj);
      && Cuadra(f) && f.total == 1.21 * f.subtotal && f.costoEstadias == 0.0
      && f.cargoGestion == gestion && f.costoTransporte == transporte && f.costoCombustible == combustible
      && f.estado == PENDIENTE && f.fechaPago.None? && f.fechaVencimiento == reloj.hoy + 30
      && f.solicitudId == solicitudId && f.tarifaId == tarifa.id
      && f.numeroFactura == NumeroFactura(|facturas| + 1, reloj.anio)
  {
  }

  predicate InfoCompleta(t: TramoInfo)
  {
    t.distanciaKm.Some? && t.consumoCombustibleLtKm.Some? && t.costoKm.Some?
  }

  /** A leg's transport cost: `distanciaKm * costoKm`. */
  function TransporteTramo(t: TramoInfo): real
    requires InfoCompleta(t)
  {
    t.distanciaKm.value * t.costoKm.value
  }

  /** A leg's litres of fuel: `distanciaKm * consumoCombustibleLtKm`. */
  function LitrosTramo(t: TramoInfo): real
    requires InfoCompleta(t)
  {
    t.distanciaKm.value * t.consumoCombustibleLtKm.value
  }

  function Transportes(tramos: seq<TramoInfo>): (r: seq<real>)
    requires forall i :: 0 <= i < |tramos| ==> InfoCompleta(tramos[i])
    ensures |r| == |tramos|
    ensures forall i {:trigger r[i]} :: 0 <= i < |tramos| ==> r[i] == TransporteTramo(tramos[i])
  {
    seq(|tramos|, i requires 0 <= i < |tramos| && InfoCompleta(tramos[i]) => TransporteTramo(tramos[i]))
  }

  function Litros(tramos: seq<TramoInfo>): (r: seq<real>)
    requires forall i :: 0 <= i < |tramos| ==> InfoCompleta(tramos[i])
    ensures |r| == |tramos|
    ensures forall i {:trigger r[i]} :: 0 <= i < |tramos| ==> r[i] == LitrosTramo(tramos[i])
  {
    seq(|tramos|, i requires 0 <= i < |tramos| && InfoCompleta(tramos[i]) => LitrosTramo(tramos[i]))
  }

  /** Fuel cost per leg, as the stream computes it: `distanciaKm * consumo * precio`. */
  function Combustibles(tramos: seq<TramoInfo>, precio: real): (r: seq<real>)
    requires forall i :: 0 <= i < |tramos| ==> InfoCompleta(tramos[i])
    ensures |r| == |tramos|
    ensures forall i {:trigger r[i]} :: 0 <= i < |tramos| ==> r[i] == LitrosTramo(tramos[i]) * precio
  {
    seq(|tramos|, i requires 0 <= i < |tramos| && InfoCompleta(tramos[i]) => LitrosTramo(tramos[i]) * precio)
  }

  /** `calcularFactura(solicitudId, tramos)`: a second invoice for the
      request, no tariff in force today, or a leg with a null figure (an
      unboxing failure) is refused. */
  function CalculoFactura(facturas: seq<Factura>, tarifas: seq<Tarifa>, solicitudId: int, tramos: seq<TramoInfo>,
                          reloj: Reloj): Result<Factura>
  {
    if ExisteFactura(facturas, solicitudId) then Err(IllegalState)
    else
      match FindTarifaVigente(tarifas, reloj.hoy)
      case None => Err(NotFound)
      case Some(tarifa) =>
        if exists i :: 0 <= i < |tramos| && !InfoCompleta(tramos[i]) then Err(NullReference)
        else
          Ok(FacturaCalculada(facturas, solicitudId, tarifa, tramos, reloj))
  }

  /** The invoice `calcularFactura` issues once its checks have passed. */
  function FacturaCalculada(facturas: seq<Factura>, solicitudId: int, tarifa: Tarifa, tramos: seq<TramoInfo>,
                            reloj: Reloj): Factura
    requires forall i :: 0 <= i < |tramos| ==> InfoCompleta(tramos[i])
  {
    Emitir(facturas, solicitudId, tarifa, tarifa.cargoGestionBase + |tramos| as real * tarifa.cargoGestionPorTramo,
           Sum(Transportes(tramos)), Sum(Combustibles(tramos, tarifa.precioCombustibleLitro)), reloj)
  }

  /** `calcularFactura` succeeds exactly when the request has no invoice, a
      tariff is in force today and every leg has its figures; a second
      invoice is an `IllegalStateException`. */
  lemma CalculoFacturaRechazos(facturas: seq<Factura>, tarifas: seq<Tarifa>, solicitudId: int,
                               tramos: seq<TramoInfo>, reloj: Reloj)
    ensures var r := CalculoFactura(facturas, tarifas, solicitudId, tramos, reloj);
      && (r.Ok? <==> && !ExisteFactura(facturas, solicitudId)
                     && (exists t :: t in tarifas && Vigente(t, reloj.hoy))
                     && forall i :: 0 <= i < |tramos| ==> InfoCompleta(tramos[i]))
      && (ExisteFactura(facturas, solicitudId) ==> r == Err(IllegalState))
  {
    TarifaVigenteCorrecta(tarifas, reloj.hoy);
  }

  /** The invoice `calcularFactura` issues charges the tariff's base plus
      its per-leg charge for each leg, each leg's km at its truck's cost per
      km, and the litres burnt at the tariff's fuel price. */
  lemma CalculoFacturaImportes(facturas: seq<Factura>, tarifas: seq<Tarifa>, solicitudId: int,
                               tramos: seq<TramoInfo>, reloj: Reloj, tarifa: Tarifa)
    requires CalculoFactura(facturas, tarifas, solicitudId, tramos, reloj).Ok?
    requires FindTarifaVigente(tarifas, reloj.hoy) == Some(tarifa)
    ensures forall i :: 0 <= i < |tramos| ==> InfoCompleta(tramos[i])
    ensures var f := CalculoFactura(facturas, tarifas, solicitudId, tramos, reloj).value;
      && Cuadra(f) && f.estado == PENDIENTE && f.solicitudId == solicitudId && f.tarifaId == tarifa.id
      && f.cargoGestion == tarifa.cargoGestionBase + |tramos| as real * tarifa.cargoGestionPorTramo
      && f.costoTransporte == Sum(Transportes(tramos))
      && f.costoCombustible == tarifa.precioCombustibleLitro * Sum(Litros(tramos))
  {
    assert CalculoFactura(facturas, tarifas, solicitudId, tramos, reloj).value
        == FacturaCalculada(facturas, solicitudId, tarifa, tramos, reloj);
    FacturaCalculadaImportes(facturas, solicitudId, tarifa, tramos, reloj);
  }

  lemma FacturaCalculadaImportes(facturas: seq<Factura>, solicitudId: int, tarifa: Tarifa, tramos: seq<TramoInfo>,
                                 reloj: Reloj)
    requires forall i :: 0 <= i < |tramos| ==> InfoCompleta(tramos[i])
    ensures var f := FacturaCalculada(facturas, solicitudId, tarifa, tramos, reloj);
      && Cuadra(f) && f.estado == PENDIENTE && f.solicitudId == solicitudId && f.tarifaId == tarifa.id
      && f.cargoGestion == tarifa.cargoGestionBase + |tramos| as real * tarifa.cargoGestionPorTramo
      && f.costoTransporte == Sum(Transportes(tramos))
      && f.costoCombustible == tarifa.precioCombustibleLitro * Sum(Litros(tramos))
  {
    CombustibleSegunLitros(tramos, tarifa.precioCombustibleLitro);
  }

  /** The fuel charge is the price times the litres of all the legs. */
  lemma CombustibleSegunLitros(tramos: seq<TramoInfo>, precio: real)
    requires forall i :: 0 <= i < |tramos| ==> InfoCompleta(tramos[i])
    ensures Sum(Combustibles(tramos, precio)) == precio * Sum(Litros(tramos))
  {
    var litros := Litros(tramos);
    var combustibles := Combustibles(tramos, precio);
    forall i | 0 <= i < |tramos|
      ensures combustibles[i] == precio * litros[i]
    {
      assert combustibles[i] == litros[i] * precio;
    }
    SumScale(litros, combustibles, precio);
  }

  /** Fuel estimate per leg in `generarFactura`: `(distanciaKm or 0) * 0.08 * precio`. */
  function CombustiblesEstimados(tramos: seq<TramoResumen>, precio: real): (r: seq<real>)
    ensures |r| == |tramos|
    ensures forall i {:trigger r[i]} :: 0 <= i < |tramos| ==>
              r[i] == tramos[i].distanciaKm.GetOr(0.0) * ConsumoEstimadoLtKm * precio
  {
    seq(|tramos|, i requires 0 <= i < |tramos| => tramos[i].distanciaKm.GetOr(0.0) * ConsumoEstimadoLtKm * precio)
  }

  function KmResumen(tramos: seq<TramoResumen>): (r: seq<real>)
    ensures |r| == |tramos|
    ensures forall i {:trigger r[i]} :: 0 <= i < |tramos| ==> r[i] == tramos[i].distanciaKm.GetOr(0.0)
  {
    seq(|tramos|, i requires 0 <= i < |tramos| => tramos[i].distanciaKm.GetOr(0.0))
  }

  /** `generarFactura(solicitudId)`: the request and its legs are fetched
      from the other services (their failures propagate); a request without
      legs or a day without a tariff in force is refused. */
  function GeneracionFactura(facturas: seq<Factura>, tarifas: seq<Tarifa>, solicitudId: int,
                             obtener: ConsultaSolicitud, listar: ConsultaTramos, reloj: Reloj): Result<Factura>
  {
    if ExisteFactura(facturas, solicitudId) then Err(IllegalState)
    else
      match obtener(solicitudId)
      case Err(e) => Err(e)
      case Ok(solicitud) =>
        match listar(solicitudId)
        case Err(e) => Err(e)
        case Ok(tramos) =>
          if tramos == [] then Err(MissingData)
          else
            match FindTarifaVigente(tarifas, reloj.hoy)
            case None => Err(NotFound)
            case Some(tarifa) =>
              var costoReal := solicitud.costoReal.GetOr(0.0);
              Ok(Emitir(facturas, solicitudId, tarifa, costoReal * TasaGestion, costoReal,
                        Sum(CombustiblesEstimados(tramos, tarifa.precioCombustibleLitro)), reloj))
  }

  /** `generarFactura` refuses a second invoice; a failed call to the
      requests or the logistics service propagates its error; a request
      without legs, or a day without a tariff in force, is refused; and
      nothing else is refused. */
  lemma GeneracionFacturaRechazos(facturas: seq<Factura>, tarifas: seq<Tarifa>, solicitudId: int,
                                  obtener: ConsultaSolicitud, listar: ConsultaTramos, reloj: Reloj)
    ensures var r := GeneracionFactura(facturas, tarifas, solicitudId, obtener, listar, reloj);
      && (ExisteFactura(facturas, solicitudId) ==> r == Err(IllegalState))
      && (!ExisteFactura(facturas, solicitudId) && obtener(solicitudId).Ok? && listar(solicitudId) == Ok([])
          ==> r == Err(MissingData))
      && (!ExisteFactura(facturas, solicitudId) && obtener(solicitudId).Err?
          ==> r == Err(obtener(solicitudId).error))
      && (!ExisteFactura(facturas, solicitudId) && obtener(solicitudId).Ok? && listar(solicitudId).Err?
          ==> r == Err(listar(solicitudId).error))
      && (!ExisteFactura(facturas, solicitudId) && obtener(solicitudId).Ok? && listar(solicitudId).Ok?
          && listar(solicitudId).value != [] && FindTarifaVigente(tarifas, reloj.hoy).None?
          ==> r == Err(NotFound))
      && (r.Ok? <==> && !ExisteFactura(facturas, solicitudId)
                     && obtener(solicitudId).Ok? && listar(solicitudId).Ok? && listar(solicitudId).value != []
                     && FindTarifaVigente(tarifas, reloj.hoy).Some?)
  {
  }

  /** A generated invoice charges the real cost (0 when unknown) for
      transport, 10 % of it for management, and 0.08 litres per km of the
      legs (a null distance counting 0) at the tariff's fuel price. */
  lemma GeneracionFacturaImportes(facturas: seq<Factura>, tarifas: seq<Tarifa>, solicitudId: int,
                                  obtener: ConsultaSolicitud, listar: ConsultaTramos, reloj: Reloj,
                                  tramos: seq<TramoResumen>, tarifa: Tarifa)
    requires GeneracionFactura(facturas, tarifas, solicitudId, obtener, listar, reloj).Ok?
    requires listar(solicitudId) == Ok(tramos) && FindTarifaVigente(tarifas, reloj.hoy) == Some(tarifa)
    ensures obtener(solicitudId).Ok?
    ensures var f := GeneracionFactura(facturas, tarifas, solicitudId, obtener, listar, reloj).value;
      && Cuadra(f) && f.estado == PENDIENTE && f.solicitudId == solicitudId && f.tarifaId == tarifa.id
      && f.costoTransporte == obtener(solicitudId).value.costoReal.GetOr(0.0)
      && f.cargoGestion == 0.10 * f.costoTransporte
      && f.costoCombustible == 0.08 * tarifa.precioCombustibleLitro * Sum(KmResumen(tramos))
  {
    CombustibleSegunKm(tramos, tarifa.precioCombustibleLitro);
  }

  /** The estimated fuel charge is 0.08 litres per km of all the legs at
      the price. */
  lemma CombustibleSegunKm(tramos: seq<TramoResumen>, precio: real)
    ensures Sum(CombustiblesEstimados(tramos, precio)) == 0.08 * precio * Sum(KmResumen(tramos))
  {
    var km := KmResumen(tramos);
    var estimados := CombustiblesEstimados(tramos, precio);
    forall i | 0 <= i < |tramos|
      ensures estimados[i] == (0.08 * precio) * km[i]
    {
      assert estimados[i] == km[i] * 0.08 * precio;
    }
    SumScale(km, estimados, 0.08 * precio);
  }

  /** The invoice table as the service keeps it: ids and numbers in issue
      order (`anios` are the years of issue), and one invoice per request. */
  ghost predicate Emitidas(facturas: seq<Factura>, anios: seq<nat>)
  {
    && |anios| == |facturas|
    && (forall i :: 0 <= i < |facturas| ==>
          facturas[i].id == i + 1 && facturas[i].numeroFactura == NumeroFactura(i + 1, anios[i]))
    && (forall i, j :: 0 <= i < j < |facturas| ==> facturas[i].solicitudId != facturas[j].solicitudId)
  }

  /** No two invoices share a number. */
  lemma NumerosUnicos(facturas: seq<Factura>, anios: seq<nat>)
    requires Emitidas(facturas, anios)
    ensures forall i, j :: 0 <= i < j < |facturas| ==> facturas[i].numeroFactura != facturas[j].numeroFactura
  {
    forall i, j | 0 <= i < j < |facturas|
      ensures facturas[i].numeroFactura != facturas[j].numeroFactura
    {
      if facturas[i].numeroFactura == facturas[j].numeroFactura {
        NumeroFacturaInyectivo(i + 1, j + 1, anios[i], anios[j]);
      }
    }
  }

  /** Issuing an invoice for a request without one keeps the table as the
      service keeps it, and a second request for the same invoice, by either
      path, is then refused. */
  lemma EmitirConserva(facturas: seq<Factura>, anios: seq<nat>, tarifas: seq<Tarifa>, solicitudId: int,
                       tarifa: Tarifa, gestion: real, transporte: real, combustible: real, reloj: Reloj,
                       tramos: seq<TramoInfo>, obtener: ConsultaSolicitud, listar: ConsultaTramos, reloj2: Reloj)
    requires Emitidas(facturas, anios) && !ExisteFactura(facturas, solicitudId)
    ensures var nuevas := facturas + [Emitir(facturas, solicitudId, tarifa, gestion, transporte, combustible, reloj)];
      && Emitidas(nuevas, anios + [reloj.anio])
      && CalculoFactura(nuevas, tarifas, solicitudId, tramos, reloj2) == Err(IllegalState)
      && GeneracionFactura(nuevas, tarifas, solicitudId, obtener, listar, reloj2) == Err(IllegalState)
  {
    var f := Emitir(facturas, solicitudId, tarifa, gestion, transporte, combustible, reloj);
    var nuevas := facturas + [f];
    assert nuevas[|facturas|] == f;
  }

  // ---------------------------------------------------------------- deposit stays

  /** The stay `registrarEntradaDeposito` opens. */
  function NuevaEstadia(estadias: seq<EstadiaDeposito>, contenedorId: int, depositoId: int, costoDia: real,
                        observaciones: Option<string>, reloj: Reloj): EstadiaDeposito
  {
    EstadiaDeposito(|estadias| + 1, contenedorId, depositoId, reloj.ahora, None, None, costoDia, None,
                    EN_CURSO, observaciones)
  }

  /** `ChronoUnit.DAYS.between(entrada, salida)`, raised to at least 1. */
  function DiasFacturables(entrada: int, salida: int): (d: int)
    ensures d >= 1
    ensures salida - entrada < 2 * SegundosPorDia ==> d == 1
    ensures salida - entrada >= SegundosPorDia ==>
              d * SegundosPorDia <= salida - entrada < (d + 1) * SegundosPorDia
  {
    var dias := TruncDiv(salida - entrada, SegundosPorDia);
    if dias < 1 then 1 else dias
  }

  /** `dias * costoDia`. */
  function CostoEstadia(dias: int, costoDia: real): real
  {
    dias as real * costoDia
  }

  /** `registrarSalidaDeposito(estadiaId)`. */
  function Salida(estadias: seq<EstadiaDeposito>, estadiaId: int, reloj: Reloj): Result<EstadiaDeposito>
  {
    match FindById(estadias, estadiaId)
    case None => Err(NotFound)
    case Some(e) =>
      if e.estado != EN_CURSO then Err(IllegalState)
      else
        var dias := DiasFacturables(e.fechaEntrada, reloj.ahora);
        Ok(e.(fechaSalida := Some(reloj.ahora), diasEstadia := Some(dias), costoTotal := Some(CostoEstadia(dias, e.costoDia)),
              estado := FINALIZADA))
  }

  /** Check-out succeeds exactly on an open stay; it closes the stay at
      `ahora` and bills at least one day at the stay's daily cost; a closed
      stay cannot be checked out again. */
  lemma SalidaCorrecta(estadias: seq<EstadiaDeposito>, estadiaId: int, reloj: Reloj, reloj2: Reloj)
    ensures var r := Salida(estadias, estadiaId, reloj);
      && (r.Ok? <==> 1 <= estadiaId <= |estadias| && estadias[estadiaId - 1].estado == EN_CURSO)
      && (FindById(estadias, estadiaId).None? ==> r == Err(NotFound))
    ensures var r := Salida(estadias, estadiaId, reloj);
      r.Ok? ==>
        var e := estadias[estadiaId - 1];
        var s := r.value;
        && s.estado == FINALIZADA && s.fechaSalida == Some(reloj.ahora)
        && s.diasEstadia.Some? && s.diasEstadia.value >= 1
        && s.costoTotal.Some? && s.costoTotal.value == (s.diasEstadia.value as real) * e.costoDia
        && s == e.(fechaSalida := s.fechaSalida, diasEstadia := s.diasEstadia, costoTotal := s.costoTotal,
                   estado := FINALIZADA)
        && Salida(estadias[estadiaId - 1 := s], estadiaId, reloj2) == Err(IllegalState)
  {
  }

  /** A stay just opened can be checked out. */
  lemma EntradaLuegoSalida(estadias: seq<EstadiaDeposito>, contenedorId: int, depositoId: int, costoDia: real,
                           observaciones: Option<string>, reloj: Reloj, reloj2: Reloj)
    ensures var e := NuevaEstadia(estadias, contenedorId, depositoId, costoDia, observaciones, reloj);
      && e.estado == EN_CURSO && e.fechaEntrada == reloj.ahora && e.costoTotal.None?
      && Salida(estadias + [e], e.id, reloj2).Ok?
  {
    var e := NuevaEstadia(estadias, contenedorId, depositoId, costoDia, observaciones, reloj);
    assert (estadias + [e])[e.id - 1] == e;
  }

  /** The two sums of `calcularFactura`, leg by leg; a leg with a null figure
      stops it. */
  method SumarCargos(tramos: seq<TramoInfo>, precio: real) returns (completos: bool, transporte: real, combustible: real)
    ensures completos <==> forall i :: 0 <= i < |tramos| ==> InfoCompleta(tramos[i])
    ensures completos ==> transporte == Sum(Transportes(tramos)) && combustible == Sum(Combustibles(tramos, precio))
  {
    transporte, combustible := 0.0, 0.0;
    var i := 0;
    while i < |tramos|
      invariant 0 <= i <= |tramos|
      invariant forall k :: 0 <= k < i ==> InfoCompleta(tramos[k])
      invariant transporte == Sum(Transportes(tramos[..i]))
      invariant combustible == Sum(Combustibles(tramos[..i], precio))
    {
      var t := tramos[i];
      if !InfoCompleta(t) {
        return false, transporte, combustible;
      }
      var prefijo := tramos[..i];
      assert tramos[..i + 1] == prefijo + [t];
      var x := TransporteTramo(t);
      var y := LitrosTramo(t) * precio;
      CargosAppend(prefijo, t, precio);
      SumAppend(Transportes(prefijo), x);
      SumAppend(Combustibles(prefijo, precio), y);
      transporte := transporte + x;
      combustible := combustible + y;
      i := i + 1;
    }
    assert tramos[..i] == tramos;
    completos := true;
  }

  lemma CargosAppend(tramos: seq<TramoInfo>, t: TramoInfo, precio: real)
    requires forall i :: 0 <= i < |tramos| ==> InfoCompleta(tramos[i])
    requires InfoCompleta(t)
    ensures forall i :: 0 <= i < |tramos + [t]| ==> InfoCompleta((tramos + [t])[i])
    ensures Transportes(tramos + [t]) == Transportes(tramos) + [TransporteTramo(t)]
    ensures Combustibles(tramos + [t], precio) == Combustibles(tramos, precio) + [LitrosTramo(t) * precio]
  {
    var u := tramos + [t];
    assert forall i :: 0 <= i < |tramos| ==> u[i] == tramos[i];
    assert forall i :: 0 <= i < |u| ==> InfoCompleta(u[i]);
    assert forall i :: 0 <= i < |u| ==> Transportes(u)[i] == (Transportes(tramos) + [TransporteTramo(t)])[i];
    assert forall i :: 0 <= i < |u| ==> Combustibles(u, precio)[i] == (Combustibles(tramos, precio) + [LitrosTramo(t) * precio])[i];
  }

  lemma EstimadosAppend(tramos: seq<TramoResumen>, t: TramoResumen, precio: real)
    ensures CombustiblesEstimados(tramos + [t], precio)
         == CombustiblesEstimados(tramos, precio) + [t.distanciaKm.GetOr(0.0) * ConsumoEstimadoLtKm * precio]
  {
    var u := tramos + [t];
    var x := t.distanciaKm.GetOr(0.0) * ConsumoEstimadoLtKm * precio;
    assert forall i :: 0 <= i < |tramos| ==> u[i] == tramos[i];
    assert forall i :: 0 <= i < |u| ==> CombustiblesEstimados(u, precio)[i] == (CombustiblesEstimados(tramos, precio) + [x])[i];
  }

  /** The fuel sum of `generarFactura`, leg by leg. */
  method EstimarCombustible(tramos: seq<TramoResumen>, precio: real) returns (combustible: real)
    ensures combustible == Sum(CombustiblesEstimados(tramos, precio))
  {
    combustible := 0.0;
    var i := 0;
    while i < |tramos|
      invariant 0 <= i <= |tramos|
      invariant combustible == Sum(CombustiblesEstimados(tramos[..i], precio))
    {
      var t := tramos[i];
      var litros := t.distanciaKm.GetOr(0.0) * ConsumoEstimadoLtKm * precio;
      var prefijo := tramos[..i];
      assert tramos[..i + 1] == prefijo + [t];
      EstimadosAppend(prefijo, t, precio);
      SumAppend(CombustiblesEstimados(prefijo, precio), litros);
      combustible := combustible + litros;
      i := i + 1;
    }
    assert tramos[..i] == tramos;
  }

  // ---------------------------------------------------------------- the service

  class FacturacionService {
    var tarifas: seq<Tarifa>
    var facturas: seq<Factura>
    var estadias: seq<EstadiaDeposito>
    /** The year each invoice was issued in. */
    ghost var anios: seq<nat>

    ghost predicate Valid()
      reads this
    {
      Emitidas(facturas, anios) && forall i :: 0 <= i < |estadias| ==> estadias[i].id == i + 1
    }

    constructor (tarifas: seq<Tarifa>)
      ensures Valid() && this.tarifas == tarifas && facturas == [] && estadias == []
    {
      this.tarifas := tarifas;
      facturas := [];
      estadias := [];
      anios := [];
    }

    method Guardar(f: Factura, ghost anio: nat)
      requires Valid() && !ExisteFactura(facturas, f.solicitudId)
      requires f.id == |facturas| + 1 && f.numeroFactura == NumeroFactura(|facturas| + 1, anio)
      modifies this
      ensures Valid() && facturas == old(facturas) + [f] && anios == old(anios) + [anio]
      ensures tarifas == old(tarifas) && estadias == old(estadias)
    {
      facturas := facturas + [f];
      anios := anios + [anio];
      assert facturas[|facturas| - 1] == f;
    }

    /** `calcularFactura`. */
    method CalcularFactura(solicitudId: int, tramos: seq<TramoInfo>, reloj: Reloj) returns (r: Result<Factura>)
      requires Valid()
      modifies this
      ensures Valid() && tarifas == old(tarifas) && estadias == old(estadias)
      ensures r == CalculoFactura(old(facturas), tarifas, solicitudId, tramos, reloj)
      ensures facturas == if r.Ok? then old(facturas) + [r.value] else old(facturas)
    {
      if exists i :: 0 <= i < |facturas| && facturas[i].solicitudId == solicitudId {
        return Err(IllegalState);
      }
      var vigente := FindTarifaVigente(tarifas, reloj.hoy);
      if vigente.None? {
        return Err(NotFound);
      }
      var tarifa := vigente.value;
      var cargoGestion := tarifa.cargoGestionBase + |tramos| as real * tarifa.cargoGestionPorTramo;
      var completos, costoTransporte, costoCombustible := SumarCargos(tramos, tarifa.precioCombustibleLitro);
      if !completos {
        return Err(NullReference);
      }
      var f := Emitir(facturas, solicitudId, tarifa, cargoGestion, costoTransporte, costoCombustible, reloj);
      assert f == FacturaCalculada(facturas, solicitudId, tarifa, tramos, reloj);
      Guardar(f, reloj.anio);
      r := Ok(f);
    }

    /** `generarFactura`. */
    method GenerarFactura(solicitudId: int, obtener: ConsultaSolicitud, listar: ConsultaTramos, reloj: Reloj)
      returns (r: Result<Factura>)
      requires Valid()
      modifies this
      ensures Valid() && tarifas == old(tarifas) && estadias == old(estadias)
      ensures r == GeneracionFactura(old(facturas), tarifas, solicitudId, obtener, listar, reloj)
      ensures facturas == if r.Ok? then old(facturas) + [r.value] else old(facturas)
    {
      if exists i :: 0 <= i < |facturas| && facturas[i].solicitudId == solicitudId {
        return Err(IllegalState);
      }
      var solicitud := obtener(solicitudId);
      if solicitud.Err? {
        return Err(solicitud.error);
      }
      var tramos := listar(solicitudId);
      if tramos.Err? {
        return Err(tramos.error);
      }
      if tramos.value == [] {
        return Err(MissingData);
      }
      var vigente := FindTarifaVigente(tarifas, reloj.hoy);
      if vigente.None? {
        return Err(NotFound);
      }
      var tarifa := vigente.value;
      var costoReal := if solicitud.value.costoReal.Some? then solicitud.value.costoReal.value else 0.0;
      var costoCombustible := EstimarCombustible(tramos.value, tarifa.precioCombustibleLitro);
      var f := Emitir(facturas, solicitudId, tarifa, costoReal * TasaGestion, costoReal, costoCombustible, reloj);
      Guardar(f, reloj.anio);
      r := Ok(f);
    }

    /** `registrarEntradaDeposito`: opens a stay. */
    method RegistrarEntradaDeposito(contenedorId: int, depositoId: int, costoDia: real,
                                    observaciones: Option<string>, reloj: Reloj)
      returns (e: EstadiaDeposito)
      requires Valid()
      modifies this
      ensures Valid() && tarifas == old(tarifas) && facturas == old(facturas)
      ensures e == NuevaEstadia(old(estadias), contenedorId, depositoId, costoDia, observaciones, reloj)
      ensures estadias == old(estadias) + [e]
    {
      e := EstadiaDeposito(|estadias| + 1, contenedorId, depositoId, reloj.ahora, None, None, costoDia, None,
                           EN_CURSO, observaciones);
      estadias := estadias + [e];
    }

    /** `registrarSalidaDeposito`: closes an open stay and bills it. */
    method RegistrarSalidaDeposito(estadiaId: int, reloj: Reloj) returns (r: Result<EstadiaDeposito>)
      requires Valid()
      modifies this
      ensures Valid() && tarifas == old(tarifas) && facturas == old(facturas)
      ensures r == Salida(old(estadias), estadiaId, reloj)
      ensures estadias == if r.Ok? then old(estadias)[estadiaId - 1 := r.value] else old(estadias)
    {
      var buscada := FindById(estadias, estadiaId);
      if buscada.None? {
        return Err(NotFound);
      }
      var estadia := buscada.value;
      if estadia.estado != EN_CURSO {
        return Err(IllegalState);
      }
      var dias := TruncDiv(reloj.ahora - estadia.fechaEntrada, SegundosPorDia);
      if dias < 1 {
        dias := 1;
      }
      var cerrada := estadia.(fechaSalida := Some(reloj.ahora), diasEstadia := Some(dias),
                              costoTotal := Some(CostoEstadia(dias, estadia.costoDia)), estado := FINALIZADA);
      estadias := estadias[estadiaId - 1 := cerrada];
      r := Ok(cerrada);
    }
  }
}
