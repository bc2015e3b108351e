/**
 The state projector as a function on the sink: what one `updateState(id, state)` call does to
 the widget's elements, what a sequence of readings does, and which reading an element shows
 at the end. The module's methods are proved equal to these functions.
 */
module Projector {
  import opened Wrappers
  import opened Readings
  import opened Dom
  import Decimal
  import Entity

  /** The selectors of the widget's markup. */
  const HEAT := "#heat"
  const GEYSER_TEXT := "#geyserText .super"
  const WATER := "#water"

  /** The CSS custom property through which the gauges read their level. */
  const PERCENTAGE_VAR := "--percentage: "

  /** The part of the configuration the engine reads: the two bound sensor ids and their thresholds. */
  datatype Config = Config(geyserId: string, tankId: string, geyser: Thresholds, tank: Thresholds)

  /**
   Number text, left abstract: `parseFloat` stands for strconv.ParseFloat(s, 64) (None when it
   fails) and `formatFloat(x, prec)` for strconv.FormatFloat(x, 'f', prec, 64).
   */
  datatype Codec = Codec(parseFloat: string -> Option<real>, formatFloat: (real, nat) -> string)

  /** A sensor state as the hub reports it: entity id and state text. */
  datatype State = State(entityId: string, state: string)

  /** A state-change event of the live feed: its type, the entity id and the new state text. */
  datatype Event = Event(eventType: string, entityId: string, newState: string)

  /** The block run on a found gauge element: set its style and swap its severity class. */
  function Restyle(elems: map<string, Element>, sel: string, style: string, cls: string): map<string, Element>
  {
    if sel in elems
    then elems[sel := Element(style, EditClasses(elems[sel].classes, cls), elems[sel].text)]
    else elems
  }

  /** The block run on a found text element. */
  function SetText(elems: map<string, Element>, sel: string, text: string): map<string, Element>
  {
    if sel in elems then elems[sel := elems[sel].(text := text)] else elems
  }

  /**
   `updateState(id, state)`: dispatch on the configured ids, the heater first; a state that does
   not parse returns early; an element that is not found is skipped.
   */
  function Apply(cfg: Config, codec: Codec, elems: map<string, Element>, id: string, state: string): (r: map<string, Element>)
    ensures r.Keys == elems.Keys
  {
    if id == cfg.geyserId then
      match codec.parseFloat(state)
      case None => elems
      case Some(v) =>
        var per := ClampHeater(v);
        var heated := Restyle(elems, HEAT, PERCENTAGE_VAR + codec.formatFloat(per, 0), BandClass(per, cfg.geyser));
        SetText(heated, GEYSER_TEXT, Decimal.Itoa(Decimal.Truncate(per)))
    else if id == cfg.tankId then
      match codec.parseFloat(state)
      case None => elems
      case Some(per) =>
        Restyle(elems, WATER, PERCENTAGE_VAR + codec.formatFloat(per, 2), BandClass(per, cfg.tank))
    else elems
  }

  /**
   The sensor whose readings an element shows. When both ids are the same the heater case is
   taken first, so nothing updates the tank gauge.
   */
  function OwnerOf(cfg: Config, sel: string): Option<string>
  {
    if sel == HEAT || sel == GEYSER_TEXT then Some(cfg.geyserId)
    else if sel == WATER && cfg.tankId != cfg.geyserId then Some(cfg.tankId)
    else None
  }

  /** What a parsed reading v of its owning sensor makes of the element at sel. */
  function Render(cfg: Config, codec: Codec, sel: string, el: Element, v: real): Element
  {
    if sel == HEAT then
      var per := ClampHeater(v);
      Element(PERCENTAGE_VAR + codec.formatFloat(per, 0), EditClasses(el.classes, BandClass(per, cfg.geyser)), el.text)
    else if sel == GEYSER_TEXT then
      el.(text := Decimal.Itoa(Decimal.Truncate(ClampHeater(v))))
    else if sel == WATER then
      Element(PERCENTAGE_VAR + codec.formatFloat(v, 2), EditClasses(el.classes, BandClass(v, cfg.tank)), el.text)
    else el
  }

  /**
   Element by element, an update changes exactly the found elements that the reading's sensor
   owns, and only when the state parses; no element appears or disappears.
   */
  lemma ApplyAt(cfg: Config, codec: Codec, elems: map<string, Element>, id: string, state: string, sel: string)
    ensures Apply(cfg, codec, elems, id, state).Keys == elems.Keys
    ensures sel in elems ==>
      Apply(cfg, codec, elems, id, state)[sel] ==
        if OwnerOf(cfg, sel) == Some(id) && codec.parseFloat(state).Some?
        then Render(cfg, codec, sel, elems[sel], codec.parseFloat(state).value)
        else elems[sel]
  {
  }

  /** An id that is neither configured sensor leaves the whole sink as it was. */
  lemma UnknownIdUnchanged(cfg: Config, codec: Codec, elems: map<string, Element>, id: string, state: string)
    requires id != cfg.geyserId && id != cfg.tankId
    ensures Apply(cfg, codec, elems, id, state) == elems
  {
  }

  /** A state that does not parse leaves the whole sink as it was. */
  lemma UnparsableUnchanged(cfg: Config, codec: Codec, elems: map<string, Element>, id: string, state: string)
    requires codec.parseFloat(state).None?
    ensures Apply(cfg, codec, elems, id, state) == elems
  {
  }

  /**
   A heater update of a found #heat: the class set loses "low" and "warning", gains the band's
   class when there is one, and keeps every other class; the style carries the clamped value.
   */
  lemma HeatClassEdit(cfg: Config, codec: Codec, elems: map<string, Element>, state: string, v: real)
    requires codec.parseFloat(state) == Some(v)
    requires HEAT in elems
    ensures var after := Apply(cfg, codec, elems, cfg.geyserId, state)[HEAT];
      var per := if v > 100.0 then 100.0 else v;
      && after.style == PERCENTAGE_VAR + codec.formatFloat(per, 0)
      && !(LOW in after.classes && WARNING in after.classes)
      && (LOW in after.classes <==> per <= cfg.geyser.low as real)
      && (WARNING in after.classes <==> cfg.geyser.low as real < per <= cfg.geyser.warning as real)
      && (forall c :: c != LOW && c != WARNING && c != NORMAL ==> (c in after.classes <==> c in elems[HEAT].classes))
      && after.text == elems[HEAT].text
  {
    ApplyAt(cfg, codec, elems, cfg.geyserId, state, HEAT);
  }

  /** A tank update of a found #water: the same class edit, on the unclamped value. */
  lemma WaterClassEdit(cfg: Config, codec: Codec, elems: map<string, Element>, state: string, v: real)
    requires cfg.tankId != cfg.geyserId
    requires codec.parseFloat(state) == Some(v)
    requires WATER in elems
    ensures var after := Apply(cfg, codec, elems, cfg.tankId, state)[WATER];
      && after.style == PERCENTAGE_VAR + codec.formatFloat(v, 2)
      && !(LOW in after.classes && WARNING in after.classes)
      && (LOW in after.classes <==> v <= cfg.tank.low as real)
      && (WARNING in after.classes <==> cfg.tank.low as real < v <= cfg.tank.warning as real)
      && (forall c :: c != LOW && c != WARNING && c != NORMAL ==> (c in after.classes <==> c in elems[WATER].classes))
      && after.text == elems[WATER].text
  {
    ApplyAt(cfg, codec, elems, cfg.tankId, state, WATER);
  }

  /**
   A missing #heat is skipped on its own: the heater's text element still receives the
   truncated integer of the clamped value, and no element is added.
   */
  lemma MissingHeatSkippedAlone(cfg: Config, codec: Codec, elems: map<string, Element>, state: string, v: real)
    requires codec.parseFloat(state) == Some(v)
    requires HEAT !in elems && GEYSER_TEXT in elems
    ensures var after := Apply(cfg, codec, elems, cfg.geyserId, state);
      && HEAT !in after
      && after[GEYSER_TEXT] == elems[GEYSER_TEXT].(text := Decimal.Itoa(Decimal.Truncate(ClampHeater(v))))
      && forall sel :: sel in elems && sel != GEYSER_TEXT ==> sel in after && after[sel] == elems[sel]
  {
    forall sel | sel in elems
      ensures sel in Apply(cfg, codec, elems, cfg.geyserId, state)
    {
      ApplyAt(cfg, codec, elems, cfg.geyserId, state, sel);
    }
  }

  /** A tank update touches #water and nothing else. */
  lemma TankTouchesOnlyWater(cfg: Config, codec: Codec, elems: map<string, Element>, state: string)
    requires cfg.tankId != cfg.geyserId
    ensures var after := Apply(cfg, codec, elems, cfg.tankId, state);
      after.Keys == elems.Keys && forall sel :: sel in elems && sel != WATER ==> after[sel] == elems[sel]
  {
  }

  /**
   The heater's value is capped at 100 for its gauge, its class and its text; the tank's is not:
   its class follows the raw value on both sides of 100.
   */
  lemma HeaterClampedTankNot(cfg: Config, codec: Codec, el: Element, v: real)
    requires v > 100.0
    ensures Render(cfg, codec, HEAT, el, v) == Render(cfg, codec, HEAT, el, 100.0)
    ensures Render(cfg, codec, GEYSER_TEXT, el, v).text == "100"
    ensures Render(cfg, codec, WATER, el, v).style == PERCENTAGE_VAR + codec.formatFloat(v, 2)
    ensures LOW in Render(cfg, codec, WATER, el, v).classes <==> v <= cfg.tank.low as real
  {
    assert Decimal.Truncate(100.0) == 100;
    assert Decimal.Digits(100) == Decimal.Digits(10) + ['0'];
  }

  /** A second reading replaces everything the first one rendered. */
  lemma RenderLastWins(cfg: Config, codec: Codec, sel: string, el: Element, first: real, second: real)
    ensures Render(cfg, codec, sel, Render(cfg, codec, sel, el, first), second) == Render(cfg, codec, sel, el, second)
  {
    if sel == HEAT {
      EditClassesLastWins(el.classes, BandClass(ClampHeater(first), cfg.geyser), BandClass(ClampHeater(second), cfg.geyser));
    } else if sel == WATER {
      EditClassesLastWins(el.classes, BandClass(first, cfg.tank), BandClass(second, cfg.tank));
    }
  }

  /** The baseline pass: `updateState` applied to each state in slice order. */
  function ApplyStates(cfg: Config, codec: Codec, elems: map<string, Element>, states: seq<State>): (r: map<string, Element>)
    ensures r.Keys == elems.Keys
    decreases |states|
  {
    if states == [] then elems
    else
      var last := states[|states| - 1];
      Apply(cfg, codec, ApplyStates(cfg, codec, elems, states[..|states| - 1]), last.entityId, last.state)
  }

  /** The reading an event carries. */
  function Reading(e: Event): State
  {
    State(e.entityId, e.newState)
  }

  /** The readings the stream forwards, in delivery order: state_changed events of sensor entities. */
  function Forwarded(events: seq<Event>): (r: seq<State>)
    ensures |r| <= |events|
    ensures forall i :: 0 <= i < |r| ==> Entity.Domain(r[i].entityId) == Entity.SENSOR_DOMAIN
    decreases |events|
  {
    if events == [] then []
    else
      var e := events[|events| - 1];
      Forwarded(events[..|events| - 1]) + if Entity.IsSensorStateChange(e.eventType, e.entityId) then [Reading(e)] else []
  }

  /**
   The stream forwards the reading of every event that passes the filter, and nothing else:
   every forwarded reading comes from a state_changed event of a sensor entity.
   */
  lemma {:induction false} ForwardedExactly(events: seq<Event>)
    ensures |Forwarded(events)| <= |events|
    ensures forall s :: s in Forwarded(events) ==>
      exists e :: e in events && Entity.IsSensorStateChange(e.eventType, e.entityId) && s == Reading(e)
    ensures forall e :: e in events && Entity.IsSensorStateChange(e.eventType, e.entityId) ==> Reading(e) in Forwarded(events)
    decreases |events|
  {
    if events != [] {
      var e := events[|events| - 1];
      var prefix := events[..|events| - 1];
      ForwardedExactly(prefix);
      assert forall x :: x in prefix ==> x in events;
      assert events == prefix + [e];
    }
  }

  /** Delivering one more event forwards it, after the earlier ones, exactly when it passes the filter. */
  lemma ForwardedStep(events: seq<Event>, k: nat)
    requires k < |events|
    ensures Forwarded(events[..k + 1]) ==
      Forwarded(events[..k]) + if Entity.IsSensorStateChange(events[k].eventType, events[k].entityId) then [Reading(events[k])] else []
  {
    assert events[..k + 1][..k] == events[..k];
  }

  /** One more reading at the end of the baseline is one more update after the others. */
  lemma ApplyStatesStep(cfg: Config, codec: Codec, elems: map<string, Element>, states: seq<State>, s: State)
    ensures ApplyStates(cfg, codec, elems, states + [s]) == Apply(cfg, codec, ApplyStates(cfg, codec, elems, states), s.entityId, s.state)
  {
    assert (states + [s])[..|states|] == states;
  }

  /** The last reading of id in states whose text parses, if any. */
  function LastValue(codec: Codec, states: seq<State>, id: string): Option<real>
    decreases |states|
  {
    if states == [] then None
    else
      var last := states[|states| - 1];
      if last.entityId == id && codec.parseFloat(last.state).Some?
      then codec.parseFloat(last.state)
      else LastValue(codec, states[..|states| - 1], id)
  }

  /** What an element shows after a sequence of readings: the last parsed reading of its owner. */
  function Final(cfg: Config, codec: Codec, sel: string, el: Element, states: seq<State>): Element
  {
    match OwnerOf(cfg, sel)
    case None => el
    case Some(id) =>
      match LastValue(codec, states, id)
      case None => el
      case Some(v) => Render(cfg, codec, sel, el, v)
  }

  /**
   Last write wins: after applying states in order, every found element shows what the last
   parsed reading of its own sensor renders, or what it showed before if there was none; the
   set of found elements does not change.
   */
  lemma {:induction false} LastWriteWins(cfg: Config, codec: Codec, elems: map<string, Element>, states: seq<State>, sel: string)
    ensures ApplyStates(cfg, codec, elems, states).Keys == elems.Keys
    ensures sel in elems ==> ApplyStates(cfg, codec, elems, states)[sel] == Final(cfg, codec, sel, elems[sel], states)
    decreases |states|
  {
    if states != [] {
      var prefix := states[..|states| - 1];
      var last := states[|states| - 1];
      var before := ApplyStates(cfg, codec, elems, prefix);
      LastWriteWins(cfg, codec, elems, prefix, sel);
      ApplyAt(cfg, codec, before, last.entityId, last.state, sel);
      if sel in elems && OwnerOf(cfg, sel) == Some(last.entityId) && codec.parseFloat(last.state).Some? {
        match LastValue(codec, prefix, last.entityId)
        case None =>
        case Some(v) =>
          RenderLastWins(cfg, codec, sel, elems[sel], v, codec.parseFloat(last.state).value);
      }
    }
  }

  /** Applying two sequences of readings one after the other is applying their concatenation. */
  lemma {:induction false} ApplyStatesAppend(cfg: Config, codec: Codec, elems: map<string, Element>, a: seq<State>, b: seq<State>)
    ensures ApplyStates(cfg, codec, ApplyStates(cfg, codec, elems, a), b) == ApplyStates(cfg, codec, elems, a + b)
    decreases |b|
  {
    if b == [] {
      assert a + b == a;
    } else {
      var front, x := b[..|b| - 1], b[|b| - 1];
      assert b == front + [x];
      assert a + b == (a + front) + [x];
      ApplyStatesAppend(cfg, codec, elems, a, front);
      ApplyStatesStep(cfg, codec, ApplyStates(cfg, codec, elems, a), front, x);
      ApplyStatesStep(cfg, codec, elems, a + front, x);
    }
  }

  /**
   A streamed reading wins over the baseline: when the stream forwards a parsed reading v of an
   element's sensor, the element ends up rendering v whatever the baseline set.
   */
  lemma StreamWinsOverBaseline(cfg: Config, codec: Codec, elems: map<string, Element>, states: seq<State>,
                               events: seq<Event>, sel: string, id: string, v: real)
    requires sel in elems
    requires OwnerOf(cfg, sel) == Some(id)
    requires LastValue(codec, Forwarded(events), id) == Some(v)
    ensures var final := ApplyStates(cfg, codec, ApplyStates(cfg, codec, elems, states), Forwarded(events));
      sel in final && final[sel] == Render(cfg, codec, sel, elems[sel], v)
  {
    var baseline := ApplyStates(cfg, codec, elems, states);
    LastWriteWins(cfg, codec, elems, states, sel);
    LastWriteWins(cfg, codec, baseline, Forwarded(events), sel);
    match LastValue(codec, states, id)
    case None =>
    case Some(b) =>
      RenderLastWins(cfg, codec, sel, elems[sel], b, v);
  }

  /**
   Worked readings with heater thresholds warning 30 and low 15, and tank thresholds warning 40
   and low 20: heater "12" is low and shows 12; heater "150" is clamped to 100, normal, and
   shows 100; tank "20" sits on the low boundary and is low.
   */
  lemma WorkedReadings(cfg: Config, codec: Codec, elems: map<string, Element>)
    requires cfg.geyser == Thresholds(30, 15) && cfg.tank == Thresholds(40, 20) && cfg.tankId != cfg.geyserId
    requires codec.parseFloat("12") == Some(12.0) && codec.parseFloat("150") == Some(150.0) && codec.parseFloat("20") == Some(20.0)
    requires HEAT in elems && GEYSER_TEXT in elems && WATER in elems
    ensures var a := Apply(cfg, codec, elems, cfg.geyserId, "12");
      LOW in a[HEAT].classes && WARNING !in a[HEAT].classes && a[GEYSER_TEXT].text == "12"
      && a[HEAT].style == PERCENTAGE_VAR + codec.formatFloat(12.0, 0)
    ensures var b := Apply(cfg, codec, elems, cfg.geyserId, "150");
      LOW !in b[HEAT].classes && WARNING !in b[HEAT].classes && b[GEYSER_TEXT].text == "100"
      && b[HEAT].style == PERCENTAGE_VAR + codec.formatFloat(100.0, 0)
    ensures var c := Apply(cfg, codec, elems, cfg.tankId, "20");
      LOW in c[WATER].classes && WARNING !in c[WATER].classes
      && c[WATER].style == PERCENTAGE_VAR + codec.formatFloat(20.0, 2)
  {
    ApplyAt(cfg, codec, elems, cfg.geyserId, "12", HEAT);
    ApplyAt(cfg, codec, elems, cfg.geyserId, "12", GEYSER_TEXT);
    ApplyAt(cfg, codec, elems, cfg.geyserId, "150", HEAT);
    ApplyAt(cfg, codec, elems, cfg.geyserId, "150", GEYSER_TEXT);
    ApplyAt(cfg, codec, elems, cfg.tankId, "20", WATER);
    assert Decimal.Truncate(12.0) == 12;
    assert Decimal.Digits(12) == Decimal.Digits(1) + ['2'];
    assert Decimal.Truncate(100.0) == 100;
    assert Decimal.Digits(100) == Decimal.Digits(10) + ['0'];
  }
}
