/** `TarifaRepository`: which tariffs are in force on a date, newest first,
    and the one `findTarifaVigente` picks. Dates are whole days. */
module Tarifas {
  import opened Common

  const ACTIVA: string := "ACTIVA"

  datatype Tarifa = Tarifa(
    id: int,
    descripcion: string,
    cargoGestionBase: real,
    cargoGestionPorTramo: real,
    precioCombustibleLitro: real,
    factorEstadiaDia: real,
    desde: int,
    hasta: Option<int>,
    estado: string)

  /** The `WHERE` clause of `findTarifasVigentes`: ACTIVA, already in force,
      and either open-ended or not yet expired (both ends inclusive). */
  predicate Vigente(t: Tarifa, fecha: int)
  {
    t.estado == ACTIVA && t.desde <= fecha && (t.hasta.None? || t.hasta.value >= fecha)
  }

  function Vigentes(tarifas: seq<Tarifa>, fecha: int): (r: seq<Tarifa>)
    ensures forall t {:trigger t in r} :: t in r ==> t in tarifas && Vigente(t, fecha)
    ensures forall t {:trigger t in tarifas} :: t in tarifas && Vigente(t, fecha) ==> t in r
  {
    if tarifas == [] then []
    else
      assert forall t :: t in tarifas ==> t == tarifas[0] || t in tarifas[1..];
      (if Vigente(tarifas[0], fecha) then [tarifas[0]] else []) + Vigentes(tarifas[1..], fecha)
  }

  /** `ORDER BY fechaVigenciaDesde DESC`. */
  predicate DesdeDescendente(ts: seq<Tarifa>)
  {
    forall i, j :: 0 <= i < j < |ts| ==> ts[i].desde >= ts[j].desde
  }

  /** Puts `t` before the first tariff that starts no later than it. */
  function Insertar(t: Tarifa, ts: seq<Tarifa>): (r: seq<Tarifa>)
    requires DesdeDescendente(ts)
    ensures |r| == |ts| + 1 && (r[0] == t || (ts != [] && r[0] == ts[0]))
    ensures DesdeDescendente(r)
  {
    if ts == [] || t.desde >= ts[0].desde then
      [t] + ts
    else
      var resto := Insertar(t, ts[1..]);
      assert ts[0].desde >= resto[0].desde;
      [ts[0]] + resto
  }

  /** Inserting adds `t` and loses nothing. */
  lemma {:induction false} InsertarPermuta(t: Tarifa, ts: seq<Tarifa>)
    requires DesdeDescendente(ts)
    ensures multiset(Insertar(t, ts)) == multiset(ts) + multiset{t}
  {
    if ts != [] && t.desde < ts[0].desde {
      InsertarPermuta(t, ts[1..]);
      assert ts == [ts[0]] + ts[1..];
    }
  }

  /** The order the query returns: the same tariffs, by `desde`, newest
      first. */
  function OrdenarPorDesde(ts: seq<Tarifa>): (r: seq<Tarifa>)
    ensures |r| == |ts|
    ensures DesdeDescendente(r)
  {
    if ts == [] then [] else Insertar(ts[0], OrdenarPorDesde(ts[1..]))
  }

  /** Sorting keeps exactly the same tariffs. */
  lemma {:induction false} OrdenarPermuta(ts: seq<Tarifa>)
    ensures multiset(OrdenarPorDesde(ts)) == multiset(ts)
  {
    if ts != [] {
      var resto := OrdenarPorDesde(ts[1..]);
      OrdenarPermuta(ts[1..]);
      InsertarPermuta(ts[0], resto);
      PasoPermuta(ts, resto, OrdenarPorDesde(ts));
    }
  }

  lemma PasoPermuta<T>(ts: seq<T>, resto: seq<T>, r: seq<T>)
    requires ts != [] && multiset(resto) == multiset(ts[1..])
    requires multiset(r) == multiset(resto) + multiset{ts[0]}
    ensures multiset(r) == multiset(ts)
  {
    assert ts == [ts[0]] + ts[1..];
  }

  /** `findTarifasVigentes(fecha)`. */
  function FindTarifasVigentes(tarifas: seq<Tarifa>, fecha: int): seq<Tarifa>
  {
    OrdenarPorDesde(Vigentes(tarifas, fecha))
  }

  /** `findTarifaVigente(fecha)`: the head of the list, if any. */
  function FindTarifaVigente(tarifas: seq<Tarifa>, fecha: int): Option<Tarifa>
  {
    var ts := FindTarifasVigentes(tarifas, fecha);
    if ts == [] then None else Some(ts[0])
  }

  /** The query returns exactly the tariffs in force on `fecha`, newest
      first. */
  lemma TarifasVigentesCorrectas(tarifas: seq<Tarifa>, fecha: int)
    ensures DesdeDescendente(FindTarifasVigentes(tarifas, fecha))
    ensures forall t :: t in FindTarifasVigentes(tarifas, fecha) <==> t in tarifas && Vigente(t, fecha)
  {
    var v := Vigentes(tarifas, fecha);
    var r := FindTarifasVigentes(tarifas, fecha);
    OrdenarPermuta(v);
    forall t
      ensures t in r <==> t in v
    {
      assert t in r <==> t in multiset(r);
      assert t in v <==> t in multiset(v);
    }
  }

  /** There is no tariff in force exactly when none of the table qualifies;
      otherwise the one chosen is in force and no tariff in force starts
      later. */
  lemma TarifaVigenteCorrecta(tarifas: seq<Tarifa>, fecha: int)
    ensures FindTarifaVigente(tarifas, fecha).None? <==> forall t :: t in tarifas ==> !Vigente(t, fecha)
    ensures FindTarifaVigente(tarifas, fecha).Some? ==>
              var t := FindTarifaVigente(tarifas, fecha).value;
              && t in tarifas && Vigente(t, fecha)
              && forall u :: u in tarifas && Vigente(u, fecha) ==> u.desde <= t.desde
  {
    TarifasVigentesCorrectas(tarifas, fecha);
    var r := FindTarifasVigentes(tarifas, fecha);
    if r != [] {
      forall u | u in tarifas && Vigente(u, fecha)
        ensures u.desde <= r[0].desde
      {
        var k :| 0 <= k < |r| && r[k] == u;
        if k > 0 {
          assert r[0].desde >= r[k].desde;
        }
      }
    } else {
      forall t | t in tarifas
        ensures !Vigente(t, fecha)
      {
        assert t !in r;
      }
    }
  }
}
