/** `CamionRepository.findDisponiblesConCapacidad`: the JPQL filter over the
    truck table. A null parameter makes every comparison unknown in SQL, so no
    row qualifies. Rows come back in table order. */
module Camiones {
  import opened Common
  import opened LogisticaDb

  /** The `WHERE` clause for one truck. */
  predicate Califica(c: Camion, peso: real, volumen: real)
  {
    c.estado == DISPONIBLE && c.capacidadKg >= peso && c.capacidadM3 >= volumen
  }

  function Filtrar(camiones: seq<Camion>, peso: real, volumen: real): (r: seq<Camion>)
    ensures |r| <= |camiones|
    ensures forall c {:trigger c in r} :: c in r ==> c in camiones && Califica(c, peso, volumen)
    ensures forall c {:trigger c in camiones} :: c in camiones && Califica(c, peso, volumen) ==> c in r
  {
    if camiones == [] then []
    else
      assert forall c :: c in camiones ==> c == camiones[0] || c in camiones[1..];
      (if Califica(camiones[0], peso, volumen) then [camiones[0]] else []) + Filtrar(camiones[1..], peso, volumen)
  }

  function FindDisponiblesConCapacidad(camiones: seq<Camion>, peso: Option<real>, volumen: Option<real>): seq<Camion>
  {
    if peso.None? || volumen.None? then [] else Filtrar(camiones, peso.value, volumen.value)
  }

  /** Every truck returned is DISPONIBLE and carries at least the weight and
      the volume asked for (a load equal to the capacity qualifies), and every
      such truck of the table is returned; with a null parameter nothing is. */
  lemma DisponiblesCorrectos(camiones: seq<Camion>, peso: Option<real>, volumen: Option<real>)
    ensures var r := FindDisponiblesConCapacidad(camiones, peso, volumen);
      && (peso.None? || volumen.None? ==> r == [])
      && (forall c :: c in r ==> c in camiones && c.estado == DISPONIBLE
                                 && c.capacidadKg >= peso.value && c.capacidadM3 >= volumen.value)
      && (peso.Some? && volumen.Some? ==>
            forall c :: (c in camiones && c.estado == DISPONIBLE && c.capacidadKg >= peso.value
                         && c.capacidadM3 >= volumen.value) ==> c in r)
  {
  }

  predicate IdsCrecientes(camiones: seq<Camion>)
  {
    forall i, j :: 0 <= i < j < |camiones| ==> camiones[i].id < camiones[j].id
  }

  /** The result keeps the table's order: over IDENTITY ids it is sorted by id
      and has no truck twice. */
  lemma {:induction false} FiltrarEnOrden(camiones: seq<Camion>, peso: real, volumen: real)
    requires IdsCrecientes(camiones)
    ensures IdsCrecientes(Filtrar(camiones, peso, volumen))
  {
    if camiones != [] {
      var resto := Filtrar(camiones[1..], peso, volumen);
      FiltrarEnOrden(camiones[1..], peso, volumen);
      forall c | c in resto
        ensures camiones[0].id < c.id
      {
        var j :| 0 <= j < |camiones[1..]| && camiones[1..][j] == c;
        assert camiones[j + 1] == c;
      }
    }
  }

  lemma DisponiblesEnOrden(camiones: seq<Camion>, peso: Option<real>, volumen: Option<real>)
    requires CamionIds(camiones)
    ensures IdsCrecientes(FindDisponiblesConCapacidad(camiones, peso, volumen))
  {
    if peso.Some? && volumen.Some? {
      FiltrarEnOrden(camiones, peso.value, volumen.value);
    }
  }
}
