/**
 * The plantation list page: the initial list and selection, adding a
 * simulated plantation, replacing one plantation's reading by id, and
 * looking up the selected plantation.
 */
module PlantacionesPage {
  import opened Wrappers
  import opened Text
  import opened Plantations

  /** The initial `plantaciones` state: one real plantation with an empty reading. */
  const InitialPlantaciones: seq<Plantacion> :=
    [Plantacion("1", "Plantación A1", Real, Datos(0.0, 0.0, false, false, ""))]

  /** `plantaciones[0]?.id || null`: the first id, unless the list is empty or that id is "". */
  function InitialSeleccionadaId(ps: seq<Plantacion>): (sel: Option<string>)
    ensures sel.Some? <==> |ps| > 0 && ps[0].id != ""
    ensures sel.Some? ==> sel.value == ps[0].id
  {
    if |ps| > 0 && ps[0].id != "" then Some(ps[0].id) else None
  }

  /** No two plantations share an id. */
  predicate UniqueIds(ps: seq<Plantacion>) {
    forall i, j :: 0 <= i < j < |ps| ==> ps[i].id != ps[j].id
  }

  /** `p.id === seleccionadaId` with `null` for `None`: no id equals `null`. */
  predicate IsSelected(p: Plantacion, sel: Option<string>) {
    sel == Some(p.id)
  }

  /** The index `find` stops at: the first plantation whose id is the selected one. */
  function FindIndex(ps: seq<Plantacion>, sel: Option<string>): (k: Option<nat>)
    ensures k.None? <==> forall i :: 0 <= i < |ps| ==> !IsSelected(ps[i], sel)
    ensures k.Some? ==> k.value < |ps| && IsSelected(ps[k.value], sel)
    ensures k.Some? ==> forall i :: 0 <= i < k.value ==> !IsSelected(ps[i], sel)
  {
    if ps == [] then None
    else if IsSelected(ps[0], sel) then Some(0)
    else match FindIndex(ps[1..], sel)
      case None => None
      case Some(k) => Some(k + 1)
  }

  /** `plantaciones.find(p => p.id === seleccionadaId)` */
  function Seleccionada(ps: seq<Plantacion>, sel: Option<string>): (r: Option<Plantacion>)
    ensures r.None? <==> FindIndex(ps, sel).None?
    ensures r.Some? ==> r.value == ps[FindIndex(ps, sel).value]
  {
    match FindIndex(ps, sel)
    case None => None
    case Some(k) => Some(ps[k])
  }

  /** With unique ids the selected plantation is the only one with that id. */
  lemma SeleccionadaUnique(ps: seq<Plantacion>, id: string, i: nat)
    requires UniqueIds(ps) && i < |ps| && ps[i].id == id
    ensures Seleccionada(ps, Some(id)) == Some(ps[i])
  {
    var k := FindIndex(ps, Some(id)).value;
    assert k == i;
  }

  /** The initial page: one real plantation "1" with zero readings, selected. */
  lemma InitialState()
    ensures |InitialPlantaciones| == 1
    ensures InitialPlantaciones[0].id == "1" && InitialPlantaciones[0].tipo == Real
    ensures InitialPlantaciones[0].datos == Datos(0.0, 0.0, false, false, "")
    ensures InitialSeleccionadaId(InitialPlantaciones) == Some("1")
    ensures Seleccionada(InitialPlantaciones, InitialSeleccionadaId(InitialPlantaciones)) == Some(InitialPlantaciones[0])
  {
  }

  /** `plantaciones.map(p => p.id === id ? { ...p, datos } : p)` */
  function ActualizarDatos(ps: seq<Plantacion>, id: string, datos: Datos): (r: seq<Plantacion>)
    ensures |r| == |ps|
    ensures forall i :: 0 <= i < |ps| ==>
      r[i] == if ps[i].id == id then ps[i].(datos := datos) else ps[i]
  {
    if ps == [] then []
    else [if ps[0].id == id then ps[0].(datos := datos) else ps[0]] + ActualizarDatos(ps[1..], id, datos)
  }

  /** An update changes readings only: ids, names and kinds stay where they were. */
  lemma ActualizarKeepsIdentity(ps: seq<Plantacion>, id: string, datos: Datos)
    ensures var r := ActualizarDatos(ps, id, datos);
      |r| == |ps| &&
      forall i :: 0 <= i < |ps| ==>
        r[i].id == ps[i].id && r[i].nombre == ps[i].nombre && r[i].tipo == ps[i].tipo
    ensures UniqueIds(ps) ==> UniqueIds(ActualizarDatos(ps, id, datos))
  {
  }

  /** Delivering the same reading twice is the same as delivering it once. */
  lemma ActualizarIdempotent(ps: seq<Plantacion>, id: string, datos: Datos)
    ensures ActualizarDatos(ActualizarDatos(ps, id, datos), id, datos) == ActualizarDatos(ps, id, datos)
  {
  }

  /**
   * After an update the selected plantation is the one selected before,
   * carrying the new reading if it is the updated one.
   */
  lemma SeleccionadaAfterActualizar(ps: seq<Plantacion>, id: string, datos: Datos, sel: Option<string>)
    ensures Seleccionada(ActualizarDatos(ps, id, datos), sel) ==
      match Seleccionada(ps, sel)
      case None => None
      case Some(p) => Some(if p.id == id then p.(datos := datos) else p)
  {
    FindIndexAfterActualizar(ps, id, datos, sel);
  }

  /** An update keeps every id in place, so `find` stops at the same index. */
  lemma {:induction false} FindIndexAfterActualizar(ps: seq<Plantacion>, id: string, datos: Datos, sel: Option<string>)
    ensures FindIndex(ActualizarDatos(ps, id, datos), sel) == FindIndex(ps, sel)
  {
    if ps != [] {
      var r := ActualizarDatos(ps, id, datos);
      assert r[1..] == ActualizarDatos(ps[1..], id, datos);
      FindIndexAfterActualizar(ps[1..], id, datos, sel);
    }
  }

  /** `agregarPlantacion()`: the id (`Date.now()`), draws (`Math.random()`) and timestamp are parameters. */
  function AgregarPlantacion(ps: seq<Plantacion>, newId: string, rh: real, rl: real, now: string): (r: seq<Plantacion>)
    requires 0.0 <= rh < 1.0 && 0.0 <= rl < 1.0
    ensures |r| == |ps| + 1 && r[..|ps|] == ps
    ensures r[|ps|].id == newId && r[|ps|].tipo == Simulada
    ensures r[|ps|].nombre == "Plantación " + NatToString(|ps| + 1)
    ensures !r[|ps|].datos.riegoActivo && !r[|ps|].datos.luzActiva && r[|ps|].datos.timestamp == now
    ensures 0.0 <= r[|ps|].datos.humedad < 100.0 && 0.0 <= r[|ps|].datos.luz < 3000.0
  {
    var nueva := Plantacion(newId, "Plantación " + NatToString(|ps| + 1), Simulada,
                            Datos(rh * 100.0, rl * 3000.0, false, false, now));
    ps + [nueva]
  }

  /** A fresh id keeps the ids unique, and the new plantation can then be selected by it. */
  lemma AgregarWithFreshId(ps: seq<Plantacion>, newId: string, rh: real, rl: real, now: string)
    requires 0.0 <= rh < 1.0 && 0.0 <= rl < 1.0
    requires UniqueIds(ps)
    requires forall i :: 0 <= i < |ps| ==> ps[i].id != newId
    ensures UniqueIds(AgregarPlantacion(ps, newId, rh, rl, now))
    ensures var r := AgregarPlantacion(ps, newId, rh, rl, now); Seleccionada(r, Some(newId)) == Some(r[|ps|])
  {
    var r := AgregarPlantacion(ps, newId, rh, rl, now);
    assert forall i :: 0 <= i < |ps| ==> r[i] == ps[i];
    SeleccionadaUnique(r, newId, |ps|);
  }

  /** Adding keeps the selection of an existing plantation. */
  lemma AgregarKeepsSelection(ps: seq<Plantacion>, newId: string, rh: real, rl: real, now: string, sel: Option<string>)
    requires 0.0 <= rh < 1.0 && 0.0 <= rl < 1.0
    requires Seleccionada(ps, sel).Some?
    ensures Seleccionada(AgregarPlantacion(ps, newId, rh, rl, now), sel) == Seleccionada(ps, sel)
  {
    var r := AgregarPlantacion(ps, newId, rh, rl, now);
    assert forall i :: 0 <= i < |ps| ==> r[i] == ps[i];
    var k := FindIndex(ps, sel).value;
    var k' := FindIndex(r, sel).value;
    assert k' <= k;
  }
}
