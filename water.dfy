/**
 The water module's engine: `updateState` driving the UI sink, the baseline pass
 `syncStates`, the stream pass `listenStates`, and the supervisor loop of `main`.
 The hub is a script: the outcome of the baseline fetch of each cycle, and the outcome of
 opening the event stream with the events it delivers before its read error.
 */
module Water {
  import opened Wrappers
  import opened Projector
  import Readings
  import Decimal
  import Entity
  import Dom

  /** The delay before every supervisor cycle but the first. */
  const RETRY_SECONDS := 10

  const SETUP_FAILED := "Could not setup module"
  const SYNC_FAILED := "Could not sync states"
  const LISTEN_FAILED := "Could not listen to states"

  /** The errors that end a cycle, each wrapping the hub's error text. */
  datatype CycleError =
    | GettingStates(cause: string)
    | CallingListen(cause: string)
    | ListeningForEvent(cause: string)

  /** The text of a cycle error: its context, then the hub's error. */
  function ErrorText(err: CycleError): string
  {
    match err
    case GettingStates(c) => "getting states: " + c
    case CallingListen(c) => "calling listen: " + c
    case ListeningForEvent(c) => "listening for event: " + c
  }

  /** What the engine does that can be seen from outside: sleep, log an error, close a listener. */
  datatype Step = Slept(seconds: nat) | Logged(msg: string, detail: string) | ListenerClosed

  /** The events an opened stream delivers, followed by the read error that ends it. */
  datatype Stream = Stream(events: seq<Event>, readErr: string)

  /** What the hub answers in one cycle: the baseline fetch, and the opening of the stream. */
  datatype Cycle = Cycle(fetched: Result<seq<State>, string>, listen: Result<Stream, string>)

  /** An open event listener: it hands out its pending events, then fails with readErr. */
  class Listener {
    var pending: seq<Event>
    const readErr: string

    constructor (s: Stream)
      ensures pending == s.events && readErr == s.readErr
    {
      pending := s.events;
      readErr := s.readErr;
    }

    /** `NextStateChanged()`: the next event in delivery order, or the read error. */
    method NextStateChanged() returns (r: Result<Event, string>)
      modifies this
      ensures old(pending) == [] ==> r == Err(readErr) && pending == []
      ensures old(pending) != [] ==> r == Ok(old(pending)[0]) && pending == old(pending)[1..]
    {
      if pending == [] {
        r := Err(readErr);
      } else {
        r := Ok(pending[0]);
        pending := pending[1..];
      }
    }
  }

  /** The steps one cycle produces, given that it is entered. */
  function CycleSteps(c: Cycle): (r: seq<Step>)
    ensures |r| == if OpensListener(c) then 2 else 1
  {
    match c.fetched
    case Err(e) => [Logged(SYNC_FAILED, ErrorText(GettingStates(e)))]
    case Ok(_) =>
      match c.listen
      case Err(e) => [Logged(LISTEN_FAILED, ErrorText(CallingListen(e)))]
      case Ok(s) => [ListenerClosed, Logged(LISTEN_FAILED, ErrorText(ListeningForEvent(s.readErr)))]
  }

  /** The steps of the supervisor loop over cycles: a sleep before each cycle but the first. */
  function RunSteps(cycles: seq<Cycle>): (r: seq<Step>)
    ensures cycles == [] <==> r == []
    decreases |cycles|
  {
    if cycles == [] then []
    else
      var prefix := cycles[..|cycles| - 1];
      RunSteps(prefix) + (if prefix == [] then [] else [Slept(RETRY_SECONDS)]) + CycleSteps(cycles[|cycles| - 1])
  }

  /** The steps of `main` after the configuration is loaded: a failed setup is logged once and ends it. */
  function ServeSteps(setupErr: Option<string>, cycles: seq<Cycle>): (r: seq<Step>)
    ensures setupErr.Some? ==> CountWhere(r, IsLog) == 1 && CountWhere(r, IsSleep) == 0 && CountWhere(r, IsClose) == 0
    ensures setupErr.None? ==> CountWhere(r, IsLog) == |cycles| && CountWhere(r, IsClose) == OpenedCount(cycles)
  {
    match setupErr
    case Some(e) =>
      var r := [Logged(SETUP_FAILED, e)];
      assert r[..0] == [];
      r
    case None =>
      RunSchedule(cycles);
      RunSteps(cycles)
  }

  /** The sink after one cycle: the baseline if the fetch succeeded, then the stream if it opened. */
  function CycleElems(cfg: Config, codec: Codec, elems: map<string, Dom.Element>, c: Cycle): (r: map<string, Dom.Element>)
    ensures r.Keys == elems.Keys
    ensures c.fetched.Err? ==> r == elems
  {
    match c.fetched
    case Err(_) => elems
    case Ok(states) =>
      var baseline := ApplyStates(cfg, codec, elems, states);
      match c.listen
      case Err(_) => baseline
      case Ok(s) => ApplyStates(cfg, codec, baseline, Forwarded(s.events))
  }

  /** The sink after the supervisor loop over cycles. */
  function RunElems(cfg: Config, codec: Codec, elems: map<string, Dom.Element>, cycles: seq<Cycle>): (r: map<string, Dom.Element>)
    ensures r.Keys == elems.Keys
    decreases |cycles|
  {
    if cycles == [] then elems
    else CycleElems(cfg, codec, RunElems(cfg, codec, elems, cycles[..|cycles| - 1]), cycles[|cycles| - 1])
  }

  /** The readings a cycle applies, in the order it applies them. */
  function CycleReadings(c: Cycle): seq<State>
  {
    match c.fetched
    case Err(_) => []
    case Ok(states) =>
      match c.listen
      case Err(_) => states
      case Ok(s) => states + Forwarded(s.events)
  }

  /** The readings the whole loop applies, cycle after cycle. */
  function RunReadings(cycles: seq<Cycle>): seq<State>
    decreases |cycles|
  {
    if cycles == [] then []
    else RunReadings(cycles[..|cycles| - 1]) + CycleReadings(cycles[|cycles| - 1])
  }

  /** The number of steps that satisfy f. */
  function CountWhere(steps: seq<Step>, f: Step -> bool): nat
    decreases |steps|
  {
    if steps == [] then 0
    else CountWhere(steps[..|steps| - 1], f) + if f(steps[|steps| - 1]) then 1 else 0
  }

  lemma {:induction false} CountWhereAppend(a: seq<Step>, b: seq<Step>, f: Step -> bool)
    ensures CountWhere(a + b, f) == CountWhere(a, f) + CountWhere(b, f)
    decreases |b|
  {
    if b == [] {
      assert a + b == a;
    } else {
      var ab := a + b;
      assert ab[..|ab| - 1] == a + b[..|b| - 1];
      CountWhereAppend(a, b[..|b| - 1], f);
    }
  }

  predicate IsSleep(s: Step) { s.Slept? }
  predicate IsLog(s: Step) { s.Logged? }
  predicate IsClose(s: Step) { s.ListenerClosed? }

  /** A cycle opens a listener when its baseline succeeded and the stream could be opened. */
  predicate OpensListener(c: Cycle)
  {
    c.fetched.Ok? && c.listen.Ok?
  }

  /** The number of cycles that open a listener. */
  function OpenedCount(cycles: seq<Cycle>): nat
    decreases |cycles|
  {
    if cycles == [] then 0
    else OpenedCount(cycles[..|cycles| - 1]) + if OpensListener(cycles[|cycles| - 1]) then 1 else 0
  }

  /**
   One cycle: the stream pass is entered only after a successful baseline; a listener is closed
   exactly when one was opened, and before the cycle's error is logged; the cycle logs exactly
   one error and does not sleep.
   */
  lemma CycleLifecycle(c: Cycle)
    ensures (exists i :: 0 <= i < |CycleSteps(c)| && CycleSteps(c)[i].Logged? && CycleSteps(c)[i].msg == LISTEN_FAILED) <==> c.fetched.Ok?
    ensures CountWhere(CycleSteps(c), IsClose) == if OpensListener(c) then 1 else 0
    ensures OpensListener(c) ==> CycleSteps(c)[0] == ListenerClosed
    ensures CountWhere(CycleSteps(c), IsLog) == 1
    ensures CountWhere(CycleSteps(c), IsSleep) == 0
    ensures forall i :: 0 <= i < |CycleSteps(c)| ==> CycleSteps(c)[i] != Slept(RETRY_SECONDS)
  {
    var st := CycleSteps(c);
    if c.fetched.Err? {
      assert st[0].msg == SYNC_FAILED;
    } else if OpensListener(c) {
      assert st[1].msg == LISTEN_FAILED;
      assert st[..1] == [ListenerClosed];
      assert st[..1][..0] == [];
      assert CountWhere(st[..1], IsClose) == 1;
      assert CountWhere(st[..1], IsLog) == 0;
      assert CountWhere(st[..1], IsSleep) == 0;
    } else {
      assert st[0].msg == LISTEN_FAILED;
    }
  }

  /**
   The supervisor's schedule: the first cycle starts without sleeping, every later one after a
   10-second sleep; every cycle ends with exactly one logged error; the listeners closed are
   exactly the listeners opened.
   */
  lemma {:induction false} RunSchedule(cycles: seq<Cycle>)
    ensures cycles != [] ==> |RunSteps(cycles)| > 0 && !RunSteps(cycles)[0].Slept?
    ensures CountWhere(RunSteps(cycles), IsSleep) == if cycles == [] then 0 else |cycles| - 1
    ensures CountWhere(RunSteps(cycles), IsLog) == |cycles|
    ensures CountWhere(RunSteps(cycles), IsClose) == OpenedCount(cycles)
    decreases |cycles|
  {
    if cycles != [] {
      var prefix := cycles[..|cycles| - 1];
      var c := cycles[|cycles| - 1];
      var sleep: seq<Step> := if prefix == [] then [] else [Slept(RETRY_SECONDS)];
      RunSchedule(prefix);
      CycleLifecycle(c);
      CountWhereAppend(RunSteps(prefix), sleep, IsSleep);
      CountWhereAppend(RunSteps(prefix) + sleep, CycleSteps(c), IsSleep);
      CountWhereAppend(RunSteps(prefix), sleep, IsLog);
      CountWhereAppend(RunSteps(prefix) + sleep, CycleSteps(c), IsLog);
      CountWhereAppend(RunSteps(prefix), sleep, IsClose);
      CountWhereAppend(RunSteps(prefix) + sleep, CycleSteps(c), IsClose);
      if prefix == [] {
        assert RunSteps(cycles) == CycleSteps(c);
        assert CycleSteps(c)[0] != Slept(RETRY_SECONDS);
      } else {
        assert sleep[..0] == [];
        assert CountWhere(sleep, IsSleep) == 1;
        assert RunSteps(cycles)[0] == RunSteps(prefix)[0];
      }
    }
  }

  /** One more cycle of the loop: its sleep, unless it is the first, then its own steps and sink. */
  lemma RunStep(cfg: Config, codec: Codec, elems: map<string, Dom.Element>, cycles: seq<Cycle>, i: nat)
    requires i < |cycles|
    ensures RunSteps(cycles[..i + 1]) ==
      RunSteps(cycles[..i]) + (if i == 0 then [] else [Slept(RETRY_SECONDS)]) + CycleSteps(cycles[i])
    ensures RunElems(cfg, codec, elems, cycles[..i + 1]) ==
      CycleElems(cfg, codec, RunElems(cfg, codec, elems, cycles[..i]), cycles[i])
  {
    assert cycles[..i + 1][..i] == cycles[..i];
  }

  /** Where the sleeps fall: every cycle after the first is entered through a 10-second sleep. */
  lemma LaterCycleSleepsFirst(cycles: seq<Cycle>, c: Cycle)
    requires cycles != []
    ensures RunSteps(cycles + [c]) == RunSteps(cycles) + [Slept(RETRY_SECONDS)] + CycleSteps(c)
  {
    assert (cycles + [c])[..|cycles|] == cycles;
  }

  /**
   Across cycles, the sink is one in-order fold: every baseline reading and every forwarded
   event of every cycle, each stream after its own baseline, cycle after cycle.
   */
  lemma {:induction false} RunIsOneFold(cfg: Config, codec: Codec, elems: map<string, Dom.Element>, cycles: seq<Cycle>)
    ensures RunElems(cfg, codec, elems, cycles) == ApplyStates(cfg, codec, elems, RunReadings(cycles))
    decreases |cycles|
  {
    if cycles != [] {
      var prefix := cycles[..|cycles| - 1];
      var c := cycles[|cycles| - 1];
      var before := RunElems(cfg, codec, elems, prefix);
      RunIsOneFold(cfg, codec, elems, prefix);
      ApplyStatesAppend(cfg, codec, elems, RunReadings(prefix), CycleReadings(c));
      match c.fetched
      case Err(_) =>
        assert CycleReadings(c) == [];
        assert RunReadings(prefix) + [] == RunReadings(prefix);
      case Ok(states) =>
        match c.listen
        case Err(_) =>
        case Ok(s) =>
          ApplyStatesAppend(cfg, codec, before, states, Forwarded(s.events));
          ApplyStatesAppend(cfg, codec, elems, RunReadings(prefix), states);
    }
  }

  /**
   So the last write wins over the whole run: each found element ends up rendering the last
   parsed reading of its sensor that any baseline or stream applied.
   */
  lemma RunLastWriteWins(cfg: Config, codec: Codec, elems: map<string, Dom.Element>, cycles: seq<Cycle>, sel: string)
    requires sel in elems
    ensures var final := RunElems(cfg, codec, elems, cycles);
      sel in final && final[sel] == Final(cfg, codec, sel, elems[sel], RunReadings(cycles))
  {
    RunIsOneFold(cfg, codec, elems, cycles);
    LastWriteWins(cfg, codec, elems, RunReadings(cycles), sel);
  }

  class Module {
    const cfg: Config
    const codec: Codec
    /** The widget's element, the UI sink. */
    const doc: Dom.Document
    /** Everything observable the engine has done so far. */
    var steps: seq<Step>

    constructor (cfg: Config, codec: Codec, doc: Dom.Document)
      ensures this.cfg == cfg && this.codec == codec && this.doc == doc && steps == []
    {
      this.cfg := cfg;
      this.codec := codec;
      this.doc := doc;
      steps := [];
    }

    /** `updateState(id, state)`: apply one reading to the sink. */
    method UpdateState(id: string, state: string)
      modifies doc
      ensures doc.elems == Apply(cfg, codec, old(doc.elems), id, state)
    {
      if id == cfg.geyserId {
        var parsed := codec.parseFloat(state);
        if parsed.None? {
          return;
        }
        var per := parsed.value;
        if per > 100.0 {
          per := 100.0;
        }
        var perStr := codec.formatFloat(per, 0);
        var cls := Readings.BandClass(per, cfg.geyser);
        var found := doc.QuerySelector(HEAT);
        if found {
          SetGauge(HEAT, PERCENTAGE_VAR + perStr, cls);
        }
        found := doc.QuerySelector(GEYSER_TEXT);
        if found {
          doc.SetTextContent(GEYSER_TEXT, Decimal.Itoa(Decimal.Truncate(per)));
        }
      } else if id == cfg.tankId {
        var parsed := codec.parseFloat(state);
        if parsed.None? {
          return;
        }
        var per := parsed.value;
        var perStr := codec.formatFloat(per, 2);
        var cls := Readings.BandClass(per, cfg.tank);
        var found := doc.QuerySelector(WATER);
        if found {
          SetGauge(WATER, PERCENTAGE_VAR + perStr, cls);
        }
      }
    }

    /** Set a found gauge's style, remove "low" and "warning", and add cls unless it is empty. */
    method SetGauge(sel: string, style: string, cls: string)
      requires sel in doc.elems
      modifies doc
      ensures doc.elems == Restyle(old(doc.elems), sel, style, cls)
    {
      doc.SetStyle(sel, style);
      doc.RemoveClass(sel, Readings.LOW);
      doc.RemoveClass(sel, Readings.WARNING);
      if cls != Readings.NORMAL {
        doc.AddClass(sel, cls);
      }
    }

    /** `syncStates`: the baseline pass over the fetched sensor states, in order. */
    method SyncStates(fetched: Result<seq<State>, string>) returns (err: Option<CycleError>)
      modifies doc
      ensures fetched.Err? ==> err == Some(GettingStates(fetched.error)) && doc.elems == old(doc.elems)
      ensures fetched.Ok? ==> err == None && doc.elems == ApplyStates(cfg, codec, old(doc.elems), fetched.value)
    {
      if fetched.Err? {
        return Some(GettingStates(fetched.error));
      }
      var states := fetched.value;
      var i := 0;
      while i < |states|
        invariant 0 <= i <= |states|
        invariant doc.elems == ApplyStates(cfg, codec, old(doc.elems), states[..i])
      {
        assert states[..i + 1][..i] == states[..i];
        UpdateState(states[i].entityId, states[i].state);
        i := i + 1;
      }
      assert states[..i] == states;
      return None;
    }

    /**
     `listenStates`: open the stream, forward its sensor state changes in delivery order until
     the read error, and close the listener on the way out. It only ever returns an error.
     */
    method ListenStates(listen: Result<Stream, string>) returns (err: CycleError)
      modifies this, doc
      ensures listen.Err? ==> err == CallingListen(listen.error) && doc.elems == old(doc.elems) && steps == old(steps)
      ensures listen.Ok? ==>
        && err == ListeningForEvent(listen.value.readErr)
        && doc.elems == ApplyStates(cfg, codec, old(doc.elems), Forwarded(listen.value.events))
        && steps == old(steps) + [ListenerClosed]
    {
      if listen.Err? {
        return CallingListen(listen.error);
      }
      var l := new Listener(listen.value);
      ghost var events := listen.value.events;
      ghost var base := doc.elems;
      ghost var k := 0;
      ghost var forwarded: seq<State> := [];
      while true
        invariant 0 <= k <= |events| && l.pending == events[k..] && l.readErr == listen.value.readErr
        invariant forwarded == Forwarded(events[..k])
        invariant doc.elems == ApplyStates(cfg, codec, base, forwarded)
        invariant steps == old(steps)
        decreases |l.pending|
      {
        var next := l.NextStateChanged();
        if next.Err? {
          assert events[..k] == events;
          // The deferred Close.
          steps := steps + [ListenerClosed];
          return ListeningForEvent(next.error);
        }
        var event := next.value;
        assert event == events[k];
        ForwardedStep(events, k);
        k := k + 1;
        if event.eventType != Entity.STATE_CHANGED {
          continue;
        }
        if Entity.TrimSuffix(Entity.FirstSplitAfterDot(event.entityId), ".") != Entity.SENSOR_DOMAIN {
          continue;
        }
        UpdateState(event.entityId, event.newState);
        ApplyStatesStep(cfg, codec, base, forwarded, Reading(event));
        forwarded := forwarded + [Reading(event)];
      }
    }

    /**
     One pass of the `main` loop after its sleep: the baseline; then, only if it succeeded, the
     stream pass; and the error that ended the pass, logged.
     */
    method RunCycle(c: Cycle)
      modifies this, doc
      ensures steps == old(steps) + CycleSteps(c)
      ensures doc.elems == CycleElems(cfg, codec, old(doc.elems), c)
    {
      var syncErr := SyncStates(c.fetched);
      if syncErr.Some? {
        steps := steps + [Logged(SYNC_FAILED, ErrorText(syncErr.value))];
        return;
      }
      var listenErr := ListenStates(c.listen);
      steps := steps + [Logged(LISTEN_FAILED, ErrorText(listenErr))];
    }

    /**
     `main` from setup on: a failed setup is logged and ends the run; otherwise the cycles run in
     order, each after a sleep except the first, each a baseline followed, when the baseline
     succeeded, by a stream pass, and each ending with its error logged.
     */
    method Serve(setupErr: Option<string>, cycles: seq<Cycle>)
      modifies this, doc
      ensures steps == old(steps) + ServeSteps(setupErr, cycles)
      ensures doc.elems == if setupErr.Some? then old(doc.elems) else RunElems(cfg, codec, old(doc.elems), cycles)
    {
      if setupErr.Some? {
        steps := steps + [Logged(SETUP_FAILED, setupErr.value)];
        return;
      }
      var first := true;
      var i := 0;
      while i < |cycles|
        invariant 0 <= i <= |cycles|
        invariant first <==> i == 0
        invariant steps == old(steps) + RunSteps(cycles[..i])
        invariant doc.elems == RunElems(cfg, codec, old(doc.elems), cycles[..i])
      {
        RunStep(cfg, codec, old(doc.elems), cycles, i);
        if !first {
          steps := steps + [Slept(RETRY_SECONDS)];
        }
        first := false;
        RunCycle(cycles[i]);
        i := i + 1;
      }
      assert cycles[..i] == cycles;
    }
  }
}
