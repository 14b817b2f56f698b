/** `GoogleMapsService`: road distance from the Distance Matrix API, with a
    table of known Argentine routes as the fallback, and the travel-time
    estimate at 80 km/h. */
module GoogleMaps {
  import opened Common
  import opened Text

  // ------------------------------------------------------------ response shape

  /** `Distance`: `value` is a nullable `Integer` number of metres. */
  datatype Distance = Distance(value: Option<int>)

  datatype Element = Element(status: Option<string>, distance: Option<Distance>)

  datatype Row = Row(elements: Option<seq<Element>>)

  datatype MatrixResponse = MatrixResponse(status: Option<string>, rows: Option<seq<Row>>)

  /** What the blocking WebClient call produced: an exception, or the decoded
      body, which is null when the body is empty. */
  datatype Reply = Threw | Body(response: Option<MatrixResponse>)

  /** The outcome of the validation cascade, in the order of its checks. */
  datatype Inspection =
    | NoResponse
    | StatusNotOk
    | NoRows
    | NoElements
    | ElementNotOk
    | NoDistance
    | CallFailed      // the call threw, or `distance.value` was null and unboxing threw
    | Metres(m: int)

  /** The chain of checks `calcularDistancia` runs over the reply. */
  function Inspect(reply: Reply): Inspection
  {
    if reply.Threw? then CallFailed
    else if reply.response.None? then NoResponse
    else
      var resp := reply.response.value;
      if resp.status != Some("OK") then StatusNotOk
      else if resp.rows.None? || resp.rows.value == [] then NoRows
      else
        var row := resp.rows.value[0];
        if row.elements.None? || row.elements.value == [] then NoElements
        else
          var elem := row.elements.value[0];
          if elem.status != Some("OK") then ElementNotOk
          else if elem.distance.None? then NoDistance
          else if elem.distance.value.value.None? then CallFailed
          else Metres(elem.distance.value.value.value)
  }

  // ------------------------------------------------------------ rounding

  /** `Math.round(x * 100.0) / 100.0`, where `Math.round(y)` is `floor(y + 0.5)`. */
  function Round2(x: real): (r: real)
    ensures x - 0.005 < r <= x + 0.005
    ensures (r * 100.0).Floor as real == r * 100.0
  {
    ((x * 100.0 + 0.5).Floor as real) / 100.0
  }

  /** Flooring a quotient of integers is integer division. */
  lemma FloorOfQuotient(a: int, b: int)
    requires b > 0
    ensures (a as real / b as real).Floor == a / b
  {
    var q, r := a / b, a % b;
    assert a == q * b + r && 0 <= r < b;
    assert (q * b) as real == q as real * b as real;
    assert a as real / b as real == q as real + r as real / b as real;
  }

  /** The metre-to-kilometre conversion of an API answer. */
  function MetresToKm(metres: int): real
  {
    Round2(metres as real / 1000.0)
  }

  /** The conversion is exact in integer hundredths of a kilometre:
      `round(metres / 10) / 100`, rounding half up. */
  lemma MetresToKmExact(metres: int)
    ensures MetresToKm(metres) == ((metres + 5) / 10) as real / 100.0
  {
    var x := metres as real / 1000.0;
    assert x * 100.0 + 0.5 == (metres + 5) as real / 10.0;
    FloorOfQuotient(metres + 5, 10);
  }

  // ------------------------------------------------------------ fallback table

  /** The cities the fallback table knows, by their normalised names. */
  datatype City = BuenosAires | Mendoza | Cordoba | Bariloche | Salta | Rosario | Neuquen

  function Name(c: City): (n: string)
    ensures n != [] && '-' !in n
  {
    match c
    case BuenosAires => "buenos aires"
    case Mendoza => "mendoza"
    case Cordoba => "cordoba"
    case Bariloche => "bariloche"
    case Salta => "salta"
    case Rosario => "rosario"
    case Neuquen => "neuquen"
  }

  /** Different cities have different names (they differ in their first
      letter or their length). */
  lemma NameInjective(c: City, d: City)
    requires Name(c) == Name(d)
    ensures c == d
  {
    assert Name(c)[0] == Name(d)[0];
  }

  /** A table key: two normalised city names joined by a hyphen. */
  function Key(origen: string, destino: string): string
  {
    origen + "-" + destino
  }

  /** The 16 `put` calls of `usarDistanciaEstimada`, by city pair, in km. */
  const Rutas: map<(City, City), real> := map[
    (BuenosAires, Mendoza) := 1050.0,
    (Mendoza, BuenosAires) := 1050.0,
    (BuenosAires, Cordoba) := 700.0,
    (Cordoba, BuenosAires) := 700.0,
    (BuenosAires, Bariloche) := 1650.0,
    (Bariloche, BuenosAires) := 1650.0,
    (BuenosAires, Salta) := 1590.0,
    (Salta, BuenosAires) := 1590.0,
    (BuenosAires, Rosario) := 300.0,
    (Rosario, BuenosAires) := 300.0,
    (Cordoba, Mendoza) := 550.0,
    (Mendoza, Cordoba) := 550.0,
    (Rosario, Cordoba) := 400.0,
    (Cordoba, Rosario) := 400.0,
    (Neuquen, Bariloche) := 430.0,
    (Bariloche, Neuquen) := 430.0
  ]

  function PairKey(p: (City, City)): string
  {
    Key(Name(p.0), Name(p.1))
  }

  lemma PairKeyInjective(p: (City, City), q: (City, City))
    requires PairKey(p) == PairKey(q)
    ensures p == q
  {
    SplitKey(Name(p.0), Name(p.1), Name(q.0), Name(q.1));
    NameInjective(p.0, q.0);
    NameInjective(p.1, q.1);
  }

  /** The table as the service builds it: string keys such as
      `"buenos aires-mendoza"` mapped to km. */
  function DistanciasEstimadas(): (table: map<string, real>)
    ensures forall p :: p in Rutas ==> PairKey(p) in table && table[PairKey(p)] == Rutas[p]
    ensures forall k :: k in table ==> exists p :: p in Rutas && PairKey(p) == k
  {
    forall p, q | p in Rutas && q in Rutas && PairKey(p) == PairKey(q)
      ensures p == q
    {
      PairKeyInjective(p, q);
    }
    map p | p in Rutas :: PairKey(p) := Rutas[p]
  }

  /** The distance used when no table entry matches. */
  const DistanciaPorDefecto: real := 700.0

  const ArgentinaSuffix: string := ", argentina"

  /** `s.toLowerCase().replace(", argentina", "").trim()` */
  function NormalizeCity(s: string): string
  {
    Trim(RemoveAll(Lower(s), ArgentinaSuffix))
  }

  function FallbackKey(origen: string, destino: string): string
  {
    Key(NormalizeCity(origen), NormalizeCity(destino))
  }

  /** Every entry of the table is a route of `Rutas`, and every route
      length is positive. */
  lemma TableEntry(k: string)
    requires k in DistanciasEstimadas()
    ensures DistanciasEstimadas()[k] in Rutas.Values
    ensures DistanciasEstimadas()[k] > 0.0
  {
    var p :| p in Rutas && PairKey(p) == k;
    RoutesPositive(p);
  }

  lemma RoutesPositive(p: (City, City))
    requires p in Rutas
    ensures Rutas[p] > 0.0
  {
  }

  /** The table lookup with the 700 km default. */
  function Estimada(key: string): (km: real)
    ensures km > 0.0
    ensures km in Rutas.Values || km == DistanciaPorDefecto
  {
    var table := DistanciasEstimadas();
    if key in table then
      TableEntry(key);
      table[key]
    else DistanciaPorDefecto
  }

  /** `usarDistanciaEstimada`: the length of the route the normalised
      addresses name, or 700 km when they name none; always positive. */
  function UsarDistanciaEstimada(origen: string, destino: string): (km: real)
    ensures km > 0.0
    ensures km in Rutas.Values || km == DistanciaPorDefecto
  {
    Estimada(FallbackKey(origen, destino))
  }

  /** A key built from hyphen-free city names splits only one way. */
  lemma SplitKey(a: string, b: string, c: string, d: string)
    requires '-' !in c && '-' !in d
    requires Key(a, b) == Key(c, d)
    ensures a == c && b == d
  {
    var k := Key(c, d);
    assert k[|c|] == '-';
    assert k[|a|] == '-';
    assert a == k[..|a|] && c == k[..|c|];
    assert b == k[|a| + 1..] && d == k[|c| + 1..];
  }

  /** The route table is symmetric. */
  lemma RutasSymmetric(c: City, d: City)
    requires (c, d) in Rutas
    ensures (d, c) in Rutas && Rutas[(d, c)] == Rutas[(c, d)]
  {
  }

  /** Hence so is the string-keyed table: a route has the same length both
      ways. */
  lemma TableSymmetric(a: string, b: string)
    requires Key(a, b) in DistanciasEstimadas()
    ensures Key(b, a) in DistanciasEstimadas()
    ensures DistanciasEstimadas()[Key(b, a)] == DistanciasEstimadas()[Key(a, b)]
  {
    var p :| p in Rutas && PairKey(p) == Key(a, b);
    SplitKey(a, b, Name(p.0), Name(p.1));
    RutasSymmetric(p.0, p.1);
    assert PairKey((p.1, p.0)) == Key(b, a);
  }

  lemma EstimadaFound(key: string)
    requires key in DistanciasEstimadas()
    ensures Estimada(key) == DistanciasEstimadas()[key]
  {
  }

  lemma EstimadaDefault(key: string)
    requires key !in DistanciasEstimadas()
    ensures Estimada(key) == DistanciaPorDefecto
  {
  }

  lemma EstimadaSymmetricFound(a: string, b: string)
    ensures Key(a, b) in DistanciasEstimadas() ==> Estimada(Key(a, b)) == Estimada(Key(b, a))
  {
    if Key(a, b) in DistanciasEstimadas() {
      TableSymmetric(a, b);
      EstimadaFound(Key(a, b));
      EstimadaFound(Key(b, a));
    }
  }

  lemma EstimadaSymmetricDefault(a: string, b: string)
    requires Key(a, b) !in DistanciasEstimadas() && Key(b, a) !in DistanciasEstimadas()
    ensures Estimada(Key(a, b)) == Estimada(Key(b, a))
  {
    EstimadaDefault(Key(a, b));
    EstimadaDefault(Key(b, a));
  }

  /** The lookup with its default is symmetric in the two city names. */
  lemma EstimadaSymmetric(a: string, b: string)
    ensures Estimada(Key(a, b)) == Estimada(Key(b, a))
  {
    EstimadaSymmetricFound(a, b);
    EstimadaSymmetricFound(b, a);
    if Key(a, b) !in DistanciasEstimadas() && Key(b, a) !in DistanciasEstimadas() {
      EstimadaSymmetricDefault(a, b);
    }
  }

  /** Hence the fallback gives the same distance in both directions. */
  lemma FallbackSymmetric(origen: string, destino: string)
    ensures UsarDistanciaEstimada(origen, destino) == UsarDistanciaEstimada(destino, origen)
  {
    EstimadaSymmetric(NormalizeCity(origen), NormalizeCity(destino));
  }

  lemma LowerOfUpper(s: string)
    ensures Lower(Upper(s)) == Lower(s)
  {
  }

  /** The normalisation makes the lookup ignore the case of the addresses. */
  lemma {:induction false} FallbackIgnoresCase(origen: string, destino: string)
    ensures UsarDistanciaEstimada(Upper(origen), Upper(destino)) == UsarDistanciaEstimada(origen, destino)
  {
    LowerOfUpper(origen);
    LowerOfUpper(destino);
    assert NormalizeCity(Upper(origen)) == NormalizeCity(origen);
    assert NormalizeCity(Upper(destino)) == NormalizeCity(destino);
  }

  // ------------------------------------------------------------ the service

  /** `calcularDistancia`: the API's distance when every check passes, the
      fallback estimate otherwise; the answer is never null. */
  function CalcularDistancia(origen: string, destino: string, reply: Reply): (km: real)
    ensures Inspect(reply).Metres? ==> km == ((Inspect(reply).m + 5) / 10) as real / 100.0
    ensures !Inspect(reply).Metres? ==> km == UsarDistanciaEstimada(origen, destino) && km > 0.0
  {
    match Inspect(reply)
    case Metres(m) =>
      MetresToKmExact(m);
      MetresToKm(m)
    case _ => UsarDistanciaEstimada(origen, destino)
  }

  /** Every failure of the cascade ends in the fallback: an exception, an
      empty body, a non-OK status, no rows, no elements in the first row, a
      non-OK first element, and a first element without a distance or with a
      null distance value. */
  lemma EveryFailureFallsBack(origen: string, destino: string, reply: Reply)
    requires
      || reply.Threw?
      || reply.response.None?
      || reply.response.value.status != Some("OK")
      || reply.response.value.rows.None?
      || reply.response.value.rows.value == []
      || reply.response.value.rows.value[0].elements.None?
      || reply.response.value.rows.value[0].elements.value == []
      || reply.response.value.rows.value[0].elements.value[0].status != Some("OK")
      || reply.response.value.rows.value[0].elements.value[0].distance.None?
      || reply.response.value.rows.value[0].elements.value[0].distance.value.value.None?
    ensures CalcularDistancia(origen, destino, reply) == UsarDistanciaEstimada(origen, destino)
  {
  }

  /** A well-formed OK answer of `metres` gives `metres` in km, rounded to
      hundredths. */
  lemma AnswerIsUsed(origen: string, destino: string, metres: int)
    ensures CalcularDistancia(origen, destino,
      Body(Some(MatrixResponse(Some("OK"), Some([Row(Some([Element(Some("OK"), Some(Distance(Some(metres))))]))])))))
      == ((metres + 5) / 10) as real / 100.0
  {
    var reply := Body(Some(MatrixResponse(Some("OK"), Some([Row(Some([Element(Some("OK"), Some(Distance(Some(metres))))]))]))));
    assert Inspect(reply) == Metres(metres);
  }

  /** `calcularTiempoEstimado`: hours at 80 km/h, rounded to hundredths. */
  function CalcularTiempoEstimado(distanciaKm: real): (horas: real)
    ensures distanciaKm / 80.0 - 0.005 < horas <= distanciaKm / 80.0 + 0.005
    ensures distanciaKm == 0.0 ==> horas == 0.0
    ensures (horas * 100.0).Floor as real == horas * 100.0
  {
    Round2(distanciaKm / 80.0)
  }

  /** Longer distances never give shorter estimates. */
  lemma TiempoMonotone(d1: real, d2: real)
    requires d1 <= d2
    ensures CalcularTiempoEstimado(d1) <= CalcularTiempoEstimado(d2)
  {
    var y1, y2 := d1 / 80.0 * 100.0 + 0.5, d2 / 80.0 * 100.0 + 0.5;
    assert y1 <= y2;
    assert y1.Floor <= y2.Floor;
  }
}
