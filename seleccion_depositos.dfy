/** `RutaService.seleccionarDepositosOptimos`: the greedy choice of the
    intermediate deposits of a route. The great-circle (haversine) distance is
    a parameter `dist`; every property below holds for any such function. */
module SeleccionDepositos {
  import opened Common
  import opened LogisticaDb

  /** `Double.MAX_VALUE`, the starting "smallest distance" of the scan. */
  const DoubleMax: real := 179769313486231570814527423731704356798070567525844996598917476803157260780028538760589558632766878171540458953514382464234321326889464182768467546703537516986049910576551282076245490090389328944075868508455133942304583236903222948165808559332123348274797826204144723168738177180919299881250404026184124858368 as real

  predicate TieneCoordenadas(d: Deposito)
  {
    d.lat.Some? && d.lon.Some?
  }

  predicate TodosConCoordenadas(ds: seq<Deposito>)
  {
    forall i :: 0 <= i < |ds| ==> TieneCoordenadas(ds[i])
  }

  function Coordenadas(d: Deposito): Coord
    requires TieneCoordenadas(d)
  {
    (d.lat.value, d.lon.value)
  }

  /** Distance from `p` to deposit `d`. */
  function Dist(dist: (Coord, Coord) -> real, p: Coord, d: Deposito): real
    requires TieneCoordenadas(d)
  {
    dist(p, Coordenadas(d))
  }

  predicate Distintos<T(==)>(xs: seq<T>)
  {
    forall i, j :: 0 <= i < j < |xs| ==> xs[i] != xs[j]
  }

  // ---------------------------------------------------------------- removeIf

  /** `removeIf(d -> d.getLat() == null || d.getLon() == null)`: the deposits
      that have both coordinates, in their original order. */
  function ConCoordenadas(ds: seq<Deposito>): (r: seq<Deposito>)
    ensures TodosConCoordenadas(r)
    ensures |r| <= |ds|
    ensures forall d :: d in r <==> d in ds && TieneCoordenadas(d)
    ensures Distintos(ds) ==> Distintos(r)
  {
    if ds == [] then []
    else
      var init := ds[..|ds| - 1];
      var last := ds[|ds| - 1];
      assert forall d :: d in ds <==> d in init || d == last;
      ConCoordenadas(init) + if TieneCoordenadas(last) then [last] else []
  }

  /** Filtering a concatenation filters each part and keeps them in order, so
      the kept deposits keep their relative order. */
  lemma {:induction false} ConCoordenadasConcat(a: seq<Deposito>, b: seq<Deposito>)
    ensures ConCoordenadas(a + b) == ConCoordenadas(a) + ConCoordenadas(b)
  {
    if b == [] {
      assert a + b == a;
    } else {
      var init := b[..|b| - 1];
      var last := b[|b| - 1];
      assert (a + b)[..|a + b| - 1] == a + init;
      assert (a + b)[|a + b| - 1] == last;
      ConCoordenadasConcat(a, init);
    }
  }

  /** Every kept deposit is kept as often as it occurs, at most. */
  lemma {:induction false} ConCoordenadasSubmultiset(ds: seq<Deposito>)
    ensures multiset(ConCoordenadas(ds)) <= multiset(ds)
  {
    if ds != [] {
      var init := ds[..|ds| - 1];
      var last := ds[|ds| - 1];
      ConCoordenadasSubmultiset(init);
      assert ds == init + [last];
    }
  }

  /** One step of the filter: the last deposit is kept exactly when it has
      both coordinates. */
  lemma ConCoordenadasUltimo(ds: seq<Deposito>)
    requires ds != []
    ensures ConCoordenadas(ds)
         == ConCoordenadas(ds[..|ds| - 1]) + if TieneCoordenadas(ds[|ds| - 1]) then [ds[|ds| - 1]] else []
  {
  }

  /** A single deposit is kept exactly when it has both coordinates. */
  lemma ConCoordenadasUno(d: Deposito)
    ensures ConCoordenadas([d]) == if TieneCoordenadas(d) then [d] else []
  {
    assert [d][..0] == [];
    assert ConCoordenadas([d][..0]) == [];
  }

  /** The filter read from the front: the first deposit is kept exactly
      when it has both coordinates. */
  lemma ConCoordenadasCons(d: Deposito, cola: seq<Deposito>)
    ensures ConCoordenadas([d] + cola) == (if TieneCoordenadas(d) then [d] else []) + ConCoordenadas(cola)
  {
    ConCoordenadasConcat([d], cola);
    ConCoordenadasUno(d);
  }

  /** A list in which every deposit has coordinates is left as it is. */
  lemma {:induction false} ConCoordenadasIdentidad(ds: seq<Deposito>)
    requires TodosConCoordenadas(ds)
    ensures ConCoordenadas(ds) == ds
  {
    if ds != [] {
      var d, cola := ds[0], ds[1..];
      assert TodosConCoordenadas(cola) by {
        forall t | 0 <= t < |cola|
          ensures TieneCoordenadas(cola[t])
        {
          assert cola[t] == ds[t + 1];
        }
      }
      ConCoordenadasIdentidad(cola);
      assert ds == [d] + cola;
      ConCoordenadasCons(d, cola);
    }
  }

  // ---------------------------------------------------------------- one scan

  /** Position `k` is the deposit the inner `for` loop keeps: closer than the
      `Double.MAX_VALUE` start, strictly closer than every earlier deposit
      (the comparison is a strict `<`, so the first of equals wins) and no
      farther than every later one. */
  predicate EsMasCercano(xs: seq<Deposito>, p: Coord, dist: (Coord, Coord) -> real, k: nat)
    requires TodosConCoordenadas(xs)
  {
    && k < |xs|
    && Dist(dist, p, xs[k]) < DoubleMax
    && (forall j :: 0 <= j < k ==> Dist(dist, p, xs[j]) > Dist(dist, p, xs[k]))
    && (forall j :: k < j < |xs| ==> Dist(dist, p, xs[j]) >= Dist(dist, p, xs[k]))
  }

  /** The deposit the inner loop keeps after scanning `xs`, or `None` when
      `mejorDeposito` stays null. */
  function MasCercano(xs: seq<Deposito>, p: Coord, dist: (Coord, Coord) -> real): (k: Option<nat>)
    requires TodosConCoordenadas(xs)
    ensures k.Some? ==> EsMasCercano(xs, p, dist, k.value)
    ensures k.None? ==> forall j :: 0 <= j < |xs| ==> Dist(dist, p, xs[j]) >= DoubleMax
  {
    if xs == [] then None
    else
      var last := |xs| - 1;
      var k := MasCercano(xs[..last], p, dist);
      var menor := if k.None? then DoubleMax else Dist(dist, p, xs[k.value]);
      if Dist(dist, p, xs[last]) < menor then Some(last) else k
  }

  /** At most one position satisfies `EsMasCercano`. */
  lemma MasCercanoUnico(xs: seq<Deposito>, p: Coord, dist: (Coord, Coord) -> real, k1: nat, k2: nat)
    requires TodosConCoordenadas(xs)
    requires EsMasCercano(xs, p, dist, k1) && EsMasCercano(xs, p, dist, k2)
    ensures k1 == k2
  {
  }

  // ---------------------------------------------------------------- the greedy choice

  function RemoveAt<T>(xs: seq<T>, k: nat): (r: seq<T>)
    requires k < |xs|
    ensures |r| == |xs| - 1
    ensures multiset(r) == multiset(xs) - multiset{xs[k]}
  {
    assert xs == xs[..k] + [xs[k]] + xs[k + 1..];
    xs[..k] + xs[k + 1..]
  }
  /** Removing a position keeps every remaining deposit located. */
  lemma RemoveAtConCoordenadas(xs: seq<Deposito>, k: nat)
    requires k < |xs| && TodosConCoordenadas(xs)
    ensures TodosConCoordenadas(RemoveAt(xs, k))
  {
    var rest := RemoveAt(xs, k);
    assert rest == xs[..k] + xs[k + 1..];
    forall t | 0 <= t < |rest|
      ensures TieneCoordenadas(rest[t])
    {
      if t < k { assert rest[t] == xs[t]; } else { assert rest[t] == xs[t + 1]; }
    }
  }


  /** The deposits the outer loop selects from `xs`, starting at `p`, asking
      for `n` more: the nearest one, then the nearest to it among the rest,
      and so on, stopping early when a scan finds nothing. */
  function Greedy(xs: seq<Deposito>, p: Coord, n: nat, dist: (Coord, Coord) -> real): (r: seq<Deposito>)
    requires TodosConCoordenadas(xs)
    ensures |r| <= n
    ensures TodosConCoordenadas(r)
    ensures forall d :: d in r ==> d in xs
    decreases n
  {
    if n == 0 then []
    else
      match MasCercano(xs, p, dist)
      case None => []
      case Some(k) =>
        var rest := RemoveAt(xs, k);
        assert forall i :: 0 <= i < |rest| ==> rest[i] in multiset(xs);
        [xs[k]] + Greedy(rest, Coordenadas(xs[k]), n - 1, dist)
  }

  /** `seleccionarDepositosOptimos`: `null` when fewer than `n` deposits have
      coordinates, or when the greedy loop stops before picking `n`. */
  function Seleccion(ds: seq<Deposito>, origen: Coord, n: nat, dist: (Coord, Coord) -> real): Option<seq<Deposito>>
  {
    var restantes := ConCoordenadas(ds);
    if |restantes| < n then None
    else
      var elegidos := Greedy(restantes, origen, n, dist);
      if |elegidos| == n then Some(elegidos) else None
  }

  // ---------------------------------------------------------------- properties of the choice

  /** The greedy choice never picks the same deposit twice. */
  lemma {:induction false} GreedyDistintos(xs: seq<Deposito>, p: Coord, n: nat, dist: (Coord, Coord) -> real)
    requires TodosConCoordenadas(xs) && Distintos(xs)
    ensures Distintos(Greedy(xs, p, n, dist))
    decreases n
  {
    if n > 0 && MasCercano(xs, p, dist).Some? {
      var k := MasCercano(xs, p, dist).value;
      var rest := RemoveAt(xs, k);
      RemoveAtDistintos(xs, k);
      GreedyDistintos(rest, Coordenadas(xs[k]), n - 1, dist);
      var tail := Greedy(rest, Coordenadas(xs[k]), n - 1, dist);
      assert Greedy(xs, p, n, dist) == [xs[k]] + tail;
      assert xs[k] !in tail;
    }
  }

  /** Removing a position from distinct elements keeps them distinct and
      drops the removed element altogether. */
  lemma RemoveAtDistintos<T>(xs: seq<T>, k: nat)
    requires k < |xs| && Distintos(xs)
    ensures Distintos(RemoveAt(xs, k)) && xs[k] !in RemoveAt(xs, k)
  {
    var rest := RemoveAt(xs, k);
    forall i | 0 <= i < |rest|
      ensures rest[i] != xs[k]
    {
      if i < k { assert rest[i] == xs[i]; } else { assert rest[i] == xs[i + 1]; }
    }
    forall i, j | 0 <= i < j < |rest|
      ensures rest[i] != rest[j]
    {
      var i' := if i < k then i else i + 1;
      var j' := if j < k then j else j + 1;
      assert rest[i] == xs[i'] && rest[j] == xs[j'];
    }
  }

  /** When every distance is below `Double.MAX_VALUE` (the haversine distance
      is at most half the Earth's circumference) and there are enough
      deposits, the loop never breaks: it picks exactly `n`. */
  lemma {:induction false} GreedyCompleto(xs: seq<Deposito>, p: Coord, n: nat, dist: (Coord, Coord) -> real)
    requires TodosConCoordenadas(xs)
    requires forall a: Coord, b: Coord :: dist(a, b) < DoubleMax
    requires n <= |xs|
    ensures |Greedy(xs, p, n, dist)| == n
    decreases n
  {
    if n > 0 {
      assert Dist(dist, p, xs[0]) < DoubleMax;
      var k := MasCercano(xs, p, dist).value;
      var rest := RemoveAt(xs, k);
      assert forall i :: 0 <= i < |rest| ==> rest[i] in multiset(xs);
      GreedyCompleto(rest, Coordenadas(xs[k]), n - 1, dist);
    }
  }

  /** The point the `i`-th scan measures from: the origin, then the
      previously chosen deposit. */
  function Previo(origen: Coord, g: seq<Deposito>, i: nat): Coord
    requires i <= |g| && TodosConCoordenadas(g)
  {
    if i == 0 then origen else Coordenadas(g[i - 1])
  }

  /** The deposits the outer loop still holds before its `i`-th pick:
      `restantes` after `i` rounds of `remove`. */
  function Restantes(xs: seq<Deposito>, p: Coord, n: nat, dist: (Coord, Coord) -> real, i: nat): (r: seq<Deposito>)
    requires TodosConCoordenadas(xs)
    ensures TodosConCoordenadas(r)
    decreases i
  {
    if i == 0 || n == 0 || MasCercano(xs, p, dist).None? then xs
    else
      var k := MasCercano(xs, p, dist).value;
      RemoveAtConCoordenadas(xs, k);
      Restantes(RemoveAt(xs, k), Coordenadas(xs[k]), n - 1, dist, i - 1)
  }

  /** One round of the outer loop: what is still held after the first pick. */
  lemma RestantesPaso(xs: seq<Deposito>, p: Coord, m: nat, dist: (Coord, Coord) -> real, j: nat, k: nat)
    requires TodosConCoordenadas(xs)
    requires MasCercano(xs, p, dist) == Some(k)
    ensures TodosConCoordenadas(RemoveAt(xs, k))
    ensures Restantes(xs, p, m + 1, dist, j + 1) == Restantes(RemoveAt(xs, k), Coordenadas(xs[k]), m, dist, j)
  {
    RemoveAtConCoordenadas(xs, k);
  }


  /** What the loop still holds before pick `i` is the list minus the
      earlier picks. */
  lemma {:induction false} RestantesSinElegidos(xs: seq<Deposito>, p: Coord, n: nat, dist: (Coord, Coord) -> real, i: nat)
    requires TodosConCoordenadas(xs)
    requires i < |Greedy(xs, p, n, dist)|
    ensures multiset(Restantes(xs, p, n, dist, i)) + multiset(Greedy(xs, p, n, dist)[..i]) == multiset(xs)
    decreases i
  {
    var k, rest, tail := GreedyDescompone(xs, p, n, dist);
    if i == 0 {
      assert Greedy(xs, p, n, dist)[..0] == [];
    } else {
      var q := Coordenadas(xs[k]);
      var m: nat, j: nat := n - 1, i - 1;
      assert tail == Greedy(rest, q, m, dist);
      RestantesSinElegidos(rest, q, m, dist, j);
      RestantesPaso(xs, p, m, dist, j, k);
      MultisetTrasQuitar(xs, k, Restantes(rest, q, m, dist, j), Restantes(xs, p, n, dist, i),
                         tail, Greedy(xs, p, n, dist), j, i);
    }
  }

  /** Taking `xs[k]` out and putting it in front of the later picks keeps
      the multiset of the list. */
  lemma MultisetTrasQuitar(xs: seq<Deposito>, k: nat, resto: seq<Deposito>, restoXs: seq<Deposito>,
                           tail: seq<Deposito>, g: seq<Deposito>, j: nat, i: nat)
    requires k < |xs| && j < |tail| && i == j + 1 && g == [xs[k]] + tail && restoXs == resto
    requires multiset(resto) + multiset(tail[..j]) == multiset(RemoveAt(xs, k))
    ensures multiset(restoXs) + multiset(g[..i]) == multiset(xs)
  {
    var uno, antes := multiset{xs[k]}, multiset(tail[..j]);
    assert g[..i] == [xs[k]] + tail[..j];
    assert multiset(g[..i]) == uno + antes;
    assert multiset(RemoveAt(xs, k)) + uno == multiset(xs) by {
      assert xs[k] in multiset(xs);
    }
    calc {
      multiset(restoXs) + multiset(g[..i]);
      multiset(resto) + (uno + antes);
      (multiset(resto) + antes) + uno;
      multiset(RemoveAt(xs, k)) + uno;
      multiset(xs);
    }
  }

  /** Each pick is an `EsMasCercano` position of the deposits still held,
      measured from the previous point: the first of the closest remaining
      deposits. What is still held is the list minus the earlier picks. */
  lemma {:induction false} GreedyPrimero(xs: seq<Deposito>, p: Coord, n: nat, dist: (Coord, Coord) -> real, i: nat)
    requires TodosConCoordenadas(xs)
    requires i < |Greedy(xs, p, n, dist)|
    ensures var g := Greedy(xs, p, n, dist);
      var resto := Restantes(xs, p, n, dist, i);
      && multiset(resto) + multiset(g[..i]) == multiset(xs)
      && exists k: nat :: EsMasCercano(resto, Previo(p, g, i), dist, k) && g[i] == resto[k]
    decreases i
  {
    RestantesSinElegidos(xs, p, n, dist, i);
    var g := Greedy(xs, p, n, dist);
    var k, rest, tail := GreedyDescompone(xs, p, n, dist);
    if i == 0 {
      assert EsMasCercano(xs, p, dist, k) && g[0] == xs[k];
    } else {
      var q := Coordenadas(xs[k]);
      var m: nat, j: nat := n - 1, i - 1;
      assert tail == Greedy(rest, q, m, dist);
      GreedyPrimero(rest, q, m, dist, j);
      RestantesPaso(xs, p, m, dist, j, k);
      assert Previo(p, g, i) == Previo(q, tail, j);
      assert g[i] == tail[j];
    }
  }

  /** A non-empty greedy choice is its first pick followed by the greedy
      choice over the rest. */
  lemma GreedyDescompone(xs: seq<Deposito>, p: Coord, n: nat, dist: (Coord, Coord) -> real)
    returns (k: nat, rest: seq<Deposito>, tail: seq<Deposito>)
    requires TodosConCoordenadas(xs)
    requires Greedy(xs, p, n, dist) != []
    ensures n > 0 && MasCercano(xs, p, dist) == Some(k) && k < |xs|
    ensures rest == RemoveAt(xs, k) && TodosConCoordenadas(rest)
    ensures tail == Greedy(rest, Coordenadas(xs[k]), n - 1, dist)
    ensures Greedy(xs, p, n, dist) == [xs[k]] + tail
  {
    k := MasCercano(xs, p, dist).value;
    rest := RemoveAt(xs, k);
    assert forall j :: 0 <= j < |rest| ==> rest[j] in multiset(xs);
    tail := Greedy(rest, Coordenadas(xs[k]), n - 1, dist);
  }

  /** The first pick is no farther from the start than any deposit. */
  lemma GreedyCabeza(xs: seq<Deposito>, p: Coord, n: nat, dist: (Coord, Coord) -> real, x: Deposito)
    requires TodosConCoordenadas(xs)
    requires Greedy(xs, p, n, dist) != [] && x in xs
    ensures TieneCoordenadas(x) && TieneCoordenadas(Greedy(xs, p, n, dist)[0])
    ensures Dist(dist, p, x) >= Dist(dist, p, Greedy(xs, p, n, dist)[0])
  {
    var k, rest, tail := GreedyDescompone(xs, p, n, dist);
    var j :| 0 <= j < |xs| && xs[j] == x;
    assert Dist(dist, p, xs[j]) >= Dist(dist, p, xs[k]);
  }

  /** Removing position `k` keeps every value other than `xs[k]`. */
  lemma QuedaTrasQuitar<T>(xs: seq<T>, k: nat, x: T)
    requires k < |xs| && x in xs && x != xs[k]
    ensures x in RemoveAt(xs, k)
  {
    var j :| 0 <= j < |xs| && xs[j] == x;
    if j < k {
      assert RemoveAt(xs, k)[j] == x;
    } else {
      assert RemoveAt(xs, k)[j - 1] == x;
    }
  }

  /** From step `j` on, the loop picks `tail == g[j..]` out of `rest`
      starting at `q`: then its `i`-th pick is no farther from the point it
      leaves from than any deposit of `rest` not picked in between. */
  lemma {:induction false} GreedyMasCercanoDesde(g: seq<Deposito>, j: nat, rest: seq<Deposito>, q: Coord, m: nat,
                                                 tail: seq<Deposito>, dist: (Coord, Coord) -> real, i: nat, x: Deposito)
    requires TodosConCoordenadas(rest) && TodosConCoordenadas(g) && j <= i < |g|
    requires tail == Greedy(rest, q, m, dist) && g[j..] == tail
    requires x in rest && forall t :: j <= t < i ==> g[t] != x
    ensures TieneCoordenadas(x)
    ensures var desde := if i == j then q else Coordenadas(g[i - 1]);
      Dist(dist, desde, x) >= Dist(dist, desde, g[i])
    decreases i - j
  {
    assert g[j] == tail[0];
    if i == j {
      GreedyCabeza(rest, q, m, dist, x);
    } else {
      var k, rest', tail' := GreedyDescompone(rest, q, m, dist);
      QuedaTrasQuitar(rest, k, x);
      assert g[j + 1..] == tail'[..];
      GreedyMasCercanoDesde(g, j + 1, rest', Coordenadas(rest[k]), m - 1, tail', dist, i, x);
    }
  }

  /** The `i`-th pick is no farther from the previous point than any deposit
      not picked before it. */
  lemma GreedyMasCercano(xs: seq<Deposito>, p: Coord, n: nat, dist: (Coord, Coord) -> real, i: nat, x: Deposito)
    requires TodosConCoordenadas(xs)
    requires i < |Greedy(xs, p, n, dist)|
    requires x in xs && x !in Greedy(xs, p, n, dist)[..i]
    ensures TieneCoordenadas(x)
    ensures Dist(dist, Previo(p, Greedy(xs, p, n, dist), i), x)
         >= Dist(dist, Previo(p, Greedy(xs, p, n, dist), i), Greedy(xs, p, n, dist)[i])
  {
    var g := Greedy(xs, p, n, dist);
    assert g[0..] == g;
    assert forall t :: 0 <= t < i ==> g[t] != x by {
      forall t | 0 <= t < i ensures g[t] != x { assert g[t] == g[..i][t]; }
    }
    GreedyMasCercanoDesde(g, 0, xs, p, n, g, dist, i, x);
  }

  /** A non-null selection holds exactly `n` deposits of the list, all with
      coordinates, and none twice when the list has no repeats. */
  lemma SeleccionCorrecta(ds: seq<Deposito>, origen: Coord, n: nat, dist: (Coord, Coord) -> real)
    requires Seleccion(ds, origen, n, dist).Some?
    ensures var s := Seleccion(ds, origen, n, dist).value;
      && |s| == n
      && (forall i :: 0 <= i < |s| ==> s[i] in ds && TieneCoordenadas(s[i]))
      && (Distintos(ds) ==> Distintos(s))
  {
    var restantes := ConCoordenadas(ds);
    if Distintos(ds) {
      GreedyDistintos(restantes, origen, n, dist);
    }
  }

  /** With distances below `Double.MAX_VALUE`, the selection is `null`
      exactly when fewer than `n` deposits have coordinates. */
  lemma SeleccionNula(ds: seq<Deposito>, origen: Coord, n: nat, dist: (Coord, Coord) -> real)
    requires forall a: Coord, b: Coord :: dist(a, b) < DoubleMax
    ensures Seleccion(ds, origen, n, dist).None? <==> |ConCoordenadas(ds)| < n
  {
    if |ConCoordenadas(ds)| >= n {
      GreedyCompleto(ConCoordenadas(ds), origen, n, dist);
    }
  }

  /** The inner `for` loop: the closest remaining deposit to `punto`. */
  method BuscarMasCercano(restantes: seq<Deposito>, punto: Coord, dist: (Coord, Coord) -> real)
    returns (mejor: Option<nat>)
    requires TodosConCoordenadas(restantes)
    ensures mejor == MasCercano(restantes, punto, dist)
  {
    mejor := None;
    var menor := DoubleMax;
    var j := 0;
    while j < |restantes|
      invariant 0 <= j <= |restantes|
      invariant mejor == MasCercano(restantes[..j], punto, dist)
      invariant menor == if mejor.None? then DoubleMax else Dist(dist, punto, restantes[mejor.value])
    {
      assert restantes[..j + 1][..j] == restantes[..j];
      var d := Dist(dist, punto, restantes[j]);
      if d < menor {
        menor := d;
        mejor := Some(j);
      }
      j := j + 1;
    }
    assert restantes[..j] == restantes;
  }

  /** One turn of the outer loop keeps "selected so far, then what the
      greedy choice still picks" equal to the whole greedy choice. */
  lemma GreedyStep(sel: seq<Deposito>, xs: seq<Deposito>, p: Coord, m: nat, dist: (Coord, Coord) -> real, k: nat,
                   resto: nat)
    requires TodosConCoordenadas(xs)
    requires m > 0 && resto == m - 1 && MasCercano(xs, p, dist) == Some(k)
    ensures k < |xs| && TodosConCoordenadas(RemoveAt(xs, k))
    ensures (sel + [xs[k]]) + Greedy(RemoveAt(xs, k), Coordenadas(xs[k]), resto, dist)
         == sel + Greedy(xs, p, m, dist)
  {
    RemoveAtConCoordenadas(xs, k);
    var tail := Greedy(RemoveAt(xs, k), Coordenadas(xs[k]), resto, dist);
    assert Greedy(xs, p, m, dist) == [xs[k]] + tail;
  }

  /** A scan that finds nothing ends the greedy choice. */
  lemma GreedyStop(xs: seq<Deposito>, p: Coord, m: nat, dist: (Coord, Coord) -> real)
    requires TodosConCoordenadas(xs)
    requires MasCercano(xs, p, dist).None?
    ensures Greedy(xs, p, m, dist) == []
  {
  }

  /** The outer `for` loop over `restantes`, all of which have coordinates. */
  method ElegirGreedy(xs: seq<Deposito>, origen: Coord, n: nat, dist: (Coord, Coord) -> real)
    returns (seleccionados: seq<Deposito>)
    requires TodosConCoordenadas(xs)
    ensures seleccionados == Greedy(xs, origen, n, dist)
  {
    var restantes := xs;
    seleccionados := [];
    var punto := origen;
    var i := 0;
    ghost var faltan: nat := n;
    while i < n
      invariant 0 <= i <= n && faltan == n - i
      invariant TodosConCoordenadas(restantes)
      invariant seleccionados + Greedy(restantes, punto, faltan, dist) == Greedy(xs, origen, n, dist)
    {
      var mejor := BuscarMasCercano(restantes, punto, dist);
      if mejor.None? {
        GreedyStop(restantes, punto, faltan, dist);
        return;
      }
      var k := mejor.value;
      GreedyStep(seleccionados, restantes, punto, faltan, dist, k, faltan - 1);
      var elegido := restantes[k];
      seleccionados := seleccionados + [elegido];
      restantes := RemoveAt(restantes, k);
      punto := Coordenadas(elegido);
      i := i + 1;
      faltan := faltan - 1;
    }
  }

  /** `seleccionarDepositosOptimos`, over a copy of the deposit list. */
  method SeleccionarDepositosOptimos(ds: seq<Deposito>, origen: Coord, n: nat, dist: (Coord, Coord) -> real)
    returns (r: Option<seq<Deposito>>)
    ensures r == Seleccion(ds, origen, n, dist)
  {
    var restantes := ConCoordenadas(ds);
    if |restantes| < n {
      return None;
    }
    var seleccionados := ElegirGreedy(restantes, origen, n, dist);
    r := if |seleccionados| == n then Some(seleccionados) else None;
  }
}
