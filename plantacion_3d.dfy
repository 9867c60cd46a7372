/**
 * The plantation panel: the manual irrigation and illumination toggles
 * (the command each one sends and the reading each one reports), and the
 * readings built from a device frame or a simulated tick.
 */
module Plantacion3D {
  import opened Wrappers
  import opened Channel
  import opened Plantations

  /** `{ [checked ? "RIEGO_ON" : "RIEGO_OFF"]: true, AUTO_OFF: true }` */
  function RiegoCommand(checked: bool): (c: Command)
    ensures |c| == 2 && DistinctKeys(c)
    ensures c[0] == Entry(if checked then RiegoOn else RiegoOff, true)
    ensures c[1] == Entry(AutoOff, true)
  {
    [Entry(if checked then RiegoOn else RiegoOff, true), Entry(AutoOff, true)]
  }

  /** `{ [checked ? "ILUM_ON" : "ILUM_OFF"]: true, AUTO_OFF: true }` */
  function IluminacionCommand(checked: bool): (c: Command)
    ensures |c| == 2 && DistinctKeys(c)
    ensures c[0] == Entry(if checked then IlumOn else IlumOff, true)
    ensures c[1] == Entry(AutoOff, true)
  {
    [Entry(if checked then IlumOn else IlumOff, true), Entry(AutoOff, true)]
  }

  /** The text of an irrigation command on the wire. */
  lemma RiegoCommandOnTheWire(checked: bool)
    ensures Serialize(RiegoCommand(checked)) ==
      "{\"" + (if checked then "RIEGO_ON" else "RIEGO_OFF") + "\":true,\"AUTO_OFF\":true}"
  {
    var k := if checked then RiegoOn else RiegoOff;
    SerializeWithAutoOff(k);
  }

  /** The text of an illumination command on the wire. */
  lemma IluminacionCommandOnTheWire(checked: bool)
    ensures Serialize(IluminacionCommand(checked)) ==
      "{\"" + (if checked then "ILUM_ON" else "ILUM_OFF") + "\":true,\"AUTO_OFF\":true}"
  {
    var k := if checked then IlumOn else IlumOff;
    SerializeWithAutoOff(k);
  }

  /** `{ ...datos, riegoActivo: checked, timestamp: now }` */
  function RiegoUpdate(datos: Datos, checked: bool, now: string): (d: Datos)
    ensures d.riegoActivo == checked && d.timestamp == now
    ensures d.humedad == datos.humedad && d.luz == datos.luz && d.luzActiva == datos.luzActiva
  {
    datos.(riegoActivo := checked, timestamp := now)
  }

  /** `{ ...datos, luzActiva: checked, timestamp: now }` */
  function IluminacionUpdate(datos: Datos, checked: bool, now: string): (d: Datos)
    ensures d.luzActiva == checked && d.timestamp == now
    ensures d.humedad == datos.humedad && d.luz == datos.luz && d.riegoActivo == datos.riegoActivo
  {
    datos.(luzActiva := checked, timestamp := now)
  }

  /** The two toggles touch disjoint flags, so they commute up to the timestamp of the later one. */
  lemma TogglesCommute(datos: Datos, r: bool, l: bool, t1: string, t2: string)
    ensures IluminacionUpdate(RiegoUpdate(datos, r, t1), l, t2) == RiegoUpdate(IluminacionUpdate(datos, l, t1), r, t2)
  {
  }

  /** Switching a toggle back restores the reading, apart from its timestamp. */
  lemma RiegoToggleUndo(datos: Datos, checked: bool, t1: string, t2: string)
    ensures RiegoUpdate(RiegoUpdate(datos, checked, t1), datos.riegoActivo, t2) == datos.(timestamp := t2)
  {
  }

  /** An inbound device frame after `JSON.parse`. */
  datatype Frame = Frame(humedad: real, ldr: int, riegoActivo: bool, timestamp: string)

  /**
   * The reading a device frame produces: humidity, irrigation flag and
   * time from the frame, light from the raw light-sensor value through
   * `estimate` (the calibration curve), and the panel's own illumination
   * flag. A frame that failed to parse (`None`) produces no reading.
   */
  function LiveUpdate(datos: Datos, frame: Option<Frame>, estimate: int -> real): (u: Option<Datos>)
    ensures frame.None? <==> u.None?
    ensures u.Some? ==>
      u.value.humedad == frame.value.humedad && u.value.luz == estimate(frame.value.ldr) &&
      u.value.riegoActivo == frame.value.riegoActivo && u.value.luzActiva == datos.luzActiva &&
      u.value.timestamp == frame.value.timestamp
  {
    match frame
    case None => None
    case Some(f) => Some(Datos(f.humedad, estimate(f.ldr), f.riegoActivo, datos.luzActiva, f.timestamp))
  }

  /**
   * One tick of a simulated plantation: new humidity and light drawn from
   * `rh` and `rl` (`Math.random()`), both flags kept.
   */
  function SimulatedTick(datos: Datos, rh: real, rl: real, now: string): (d: Datos)
    requires 0.0 <= rh < 1.0 && 0.0 <= rl < 1.0
    ensures 0.0 <= d.humedad < 100.0 && 0.0 <= d.luz < 3000.0
    ensures d.riegoActivo == datos.riegoActivo && d.luzActiva == datos.luzActiva
    ensures d.timestamp == now
  {
    Datos(rh * 100.0, rl * 3000.0, datos.riegoActivo, datos.luzActiva, now)
  }

  /** Whether a manual toggle goes to the device: only for a real plantation on an open socket. */
  predicate SendsCommand(tipo: Tipo, ws: Socket?)
    reads ws
  {
    tipo == Real && IsOpen(ws)
  }

  /** The panel's socket (`wsRef.current`) and its two toggle handlers. */
  class View {
    var wsRef: Socket?

    constructor (ws: Socket?)
      ensures wsRef == ws
    {
      wsRef := ws;
    }

    /**
     * `handleRiegoChange(checked)`: sends the irrigation command when the
     * plantation is real and the socket open, warns when it is real and the
     * socket is not, and reports the updated reading in `update`.
     */
    method HandleRiegoChange(plantacion: Plantacion, checked: bool, now: string) returns (update: Datos, warned: bool)
      modifies wsRef
      ensures update == RiegoUpdate(plantacion.datos, checked, now)
      ensures warned == (plantacion.tipo == Real && !old(IsOpen(wsRef)))
      ensures wsRef != null ==> wsRef.open == old(wsRef.open)
      ensures wsRef != null ==>
        wsRef.sent == old(wsRef.sent) + (if old(SendsCommand(plantacion.tipo, wsRef)) then [Serialize(RiegoCommand(checked))] else [])
    {
      warned := false;
      if plantacion.tipo == Real {
        if wsRef != null && wsRef.open {
          wsRef.Send(Serialize(RiegoCommand(checked)));
        } else {
          warned := true;
        }
      }
      update := plantacion.datos.(riegoActivo := checked, timestamp := now);
    }

    /** `handleIluminacionChange(checked)`, the same for the illumination switch. */
    method HandleIluminacionChange(plantacion: Plantacion, checked: bool, now: string) returns (update: Datos, warned: bool)
      modifies wsRef
      ensures update == IluminacionUpdate(plantacion.datos, checked, now)
      ensures warned == (plantacion.tipo == Real && !old(IsOpen(wsRef)))
      ensures wsRef != null ==> wsRef.open == old(wsRef.open)
      ensures wsRef != null ==>
        wsRef.sent == old(wsRef.sent) + (if old(SendsCommand(plantacion.tipo, wsRef)) then [Serialize(IluminacionCommand(checked))] else [])
    {
      warned := false;
      if plantacion.tipo == Real {
        if wsRef != null && wsRef.open {
          wsRef.Send(Serialize(IluminacionCommand(checked)));
        } else {
          warned := true;
        }
      }
      update := plantacion.datos.(luzActiva := checked, timestamp := now);
    }
  }
}
