// What becomes of each account, told from the events of a run.
module RampFates {
  import opened Common
  import opened Sequences
  import opened RampModel
  import opened RampLaws

  // What starting accounts does to one of them: nothing, or its own start.
  ghost predicate Starts(s: Loop, outside: Outside, t: Loop, a: int)
    requires a in s.slots && a in t.slots
  {
    if a in t.started && a !in s.started then
      && s.slots[a].state == Pending
      && t.slots[a] == (if outside.registers(a) then s.slots[a].(state := Activating, activatedAt := outside.now)
                        else s.slots[a].(state := Failed))
    else t.slots[a] == s.slots[a]
  }

  lemma {:induction false} ActivatesStarts(cfg: RampConfig, s: Loop, outside: Outside, t: Loop, n: nat, a: int)
    requires RampOk(cfg, s) && Activates(cfg, s, outside, t, n) && a in s.slots
    ensures a in t.slots && Starts(s, outside, t, a)
    ensures a in s.started ==> a in t.started
    decreases n
  {
    if n > 0 {
      var b :| b in s.slots && IsNext(s.slots, b) && (cfg.rampRate > 0 ==> s.tokens >= 1.0)
            && Activates(cfg, StartedOne(cfg, s, b, outside), outside, t, n - 1);
      hide TokensOk, Activates;
      PendingIsProvisioned(cfg, s, b);
      StartedOneKeeps(cfg, s, b, outside);
      ActivatesStarts(cfg, StartedOne(cfg, s, b, outside), outside, t, n - 1, a);
      assert b in In(s.slots, Pending);
    }
  }

  // An account that is activating was started by the tick that says when.
  ghost predicate StartedAt(states: seq<Loop>, events: seq<Event>, i: nat, a: int, time: Time)
    requires i < |states| == |events| + 1
  {
    exists j: nat :: j < i && events[j].Tick? && events[j].outside.now == time
      && a !in states[j].started && a in states[j + 1].started
  }

  lemma {:induction false} NobodyElseStarts(cfg: RampConfig, s: Loop, outside: Outside, t: Loop, n: nat)
    requires Activates(cfg, s, outside, t, n)
    ensures t.ticks == s.ticks && t.shuttingDown == s.shuttingDown && t.provisioned == s.provisioned
    decreases n
  {
    if n > 0 {
      var b :| b in s.slots && IsNext(s.slots, b) && (cfg.rampRate > 0 ==> s.tokens >= 1.0)
            && Activates(cfg, StartedOne(cfg, s, b, outside), outside, t, n - 1);
      hide Activates, IsNext;
      NobodyElseStarts(cfg, StartedOne(cfg, s, b, outside), outside, t, n - 1);
    }
  }

  // What a tick finds and what it makes of it.
  ghost predicate Decided(s: Loop, outside: Outside, t: Loop, a: int)
    requires a in s.slots && a in t.slots
  {
    var was, now := s.slots[a], t.slots[a];
    match was.state
    case Unavailable => now == was
    case Failed => now == was
    case Pending =>
      if a in t.started then
        now == was.(state := if outside.registers(a) then Activating else Failed,
                    activatedAt := if outside.registers(a) then outside.now else was.activatedAt)
      else now == was
    case Activating =>
      now == was.(state := if outside.disconnected(a) then Failed
                           else if outside.ready(a) then Active
                           else if outside.now - was.activatedAt >= 5_000_000_000 then Failed
                           else Activating)
    case Active => now == was.(state := if outside.disconnected(a) then Failed else Active)
  }

  lemma TickedDecides(cfg: RampConfig, s: Loop, outside: Outside, t: Loop, a: int)
    requires RampOk(cfg, s) && Ticked(cfg, s, outside, t) && !s.shuttingDown && 1 <= a <= cfg.targetCount
    ensures a in s.slots && a in t.slots && Decided(s, outside, t, a)
    ensures t.ticks == s.ticks + 1 && !t.shuttingDown
    ensures t.slots[a].state == Activating && s.slots[a].state != Activating ==>
              a !in s.started && a in t.started && t.slots[a].activatedAt == outside.now
  {
    hide Exhausted, Activates;
    var added := TokensAdded(cfg, s);
    var mid := Processed(added, cfg.targetCount, outside);
    var n: nat :| Activates(cfg, mid, outside, t, n);
    NobodyElseStarts(cfg, mid, outside, t, n);
    TokensAddedKeeps(cfg, s);
    ProcessedKeeps(cfg, added, outside);
    ActivatesStarts(cfg, mid, outside, t, n, a);
    assert mid.started == s.started && mid.slots[a] == ProcessedSlot(s.slots[a], a, outside);
    hide TokensOk, Ascending, GoingActive, DroppingOut;
    assert s.slots[a].state == Pending ==> a in In(s.slots, Pending) && a !in s.started;
  }

  // ------------------------------------------------------------------
  // Runs
  // ------------------------------------------------------------------

  // The ticks that were not ignored, so far.
  ghost function Ticks(events: seq<Event>): nat {
    if events == [] then 0
    else
      var front, last := events[..|events| - 1], events[|events| - 1];
      Ticks(front) + if last.Tick? && Shutdown !in front then 1 else 0
  }

  lemma {:induction false} TicksAreCounted(cfg: RampConfig, states: seq<Loop>, events: seq<Event>, i: nat)
    requires IsRun(cfg, states, events) && i < |states|
    ensures states[i].ticks == Ticks(events[..i])
    ensures states[i].shuttingDown <==> Shutdown in events[..i]
  {
    hide Step, Ticks, Initial;
    if i == 0 {
      NoTicksYet(cfg);
      assert events[..0] == [];
    } else {
      var front, e := events[..i - 1], events[i - 1];
      TicksAreCounted(cfg, states, events, i - 1);
      assert events[..i] == front + [e];
      assert Step(cfg, states[i - 1], e, states[i]);
      TicksOneMore(front, e);
      StepTicks(cfg, states[i - 1], e, states[i]);
    }
  }

  lemma NoTicksYet(cfg: RampConfig)
    ensures Initial(cfg).ticks == Ticks([]) == 0 && !Initial(cfg).shuttingDown
  {
  }

  lemma StepTicks(cfg: RampConfig, s: Loop, e: Event, t: Loop)
    requires Step(cfg, s, e, t)
    ensures t.ticks == s.ticks + if e.Tick? && !s.shuttingDown then 1 else 0
    ensures t.shuttingDown <==> s.shuttingDown || e == Shutdown
  {
    hide Ticked, Merged, GivenUp;
    if e.Tick? {
      TickedTicks(cfg, s, e.outside, t);
    }
  }

  lemma TicksOneMore(front: seq<Event>, e: Event)
    ensures Ticks(front + [e]) == Ticks(front) + if e.Tick? && Shutdown !in front then 1 else 0
  {
    assert (front + [e])[..|front + [e]| - 1] == front;
  }

  lemma TickedTicks(cfg: RampConfig, s: Loop, outside: Outside, t: Loop)
    requires Ticked(cfg, s, outside, t)
    ensures t.ticks == s.ticks + (if s.shuttingDown then 0 else 1) && t.shuttingDown == s.shuttingDown
  {
    hide Exhausted, Activates;
    if !s.shuttingDown {
      var mid := Processed(TokensAdded(cfg, s), cfg.targetCount, outside);
      var n: nat :| Activates(cfg, mid, outside, t, n);
      NobodyElseStarts(cfg, mid, outside, t, n);
    }
  }

  // An account that is activating carries the time of the tick that started it.
  lemma {:induction false} ActivatingWasStarted(cfg: RampConfig, states: seq<Loop>, events: seq<Event>, i: nat, a: int)
    requires IsRun(cfg, states, events) && i < |states|
    requires a in states[i].slots && states[i].slots[a].state == Activating
    ensures StartedAt(states, events, i, a, states[i].slots[a].activatedAt)
  {
    hide RampOk, Ticked, Decided, Merged, GivenUp;
    if i == 0 {
      InitialSlotsAre(cfg.targetCount);
    } else {
      var s, t, e := states[i - 1], states[i], events[i - 1];
      RunKeeps(cfg, states, events, i - 1);
      assert Step(cfg, s, e, t);
      StillActivating(cfg, s, e, t, a);
      if s.slots[a].state == Activating {
        ActivatingWasStarted(cfg, states, events, i - 1, a);
        var j: nat :| j < i - 1 && events[j].Tick? && events[j].outside.now == s.slots[a].activatedAt
                   && a !in states[j].started && a in states[j + 1].started;
        assert j < i && events[j].outside.now == t.slots[a].activatedAt;
      } else {
        assert a !in states[i - 1].started && a in states[i - 1 + 1].started;
      }
    }
  }

  // A step to or within activation.
  lemma StillActivating(cfg: RampConfig, s: Loop, e: Event, t: Loop, a: int)
    requires RampOk(cfg, s) && Step(cfg, s, e, t) && a in t.slots && t.slots[a].state == Activating
    ensures a in s.slots
    ensures s.slots[a].state == Activating ==> t.slots[a].activatedAt == s.slots[a].activatedAt
    ensures s.slots[a].state != Activating ==>
              e.Tick? && a !in s.started && a in t.started && t.slots[a].activatedAt == e.outside.now
  {
    hide TokensOk, StartedOk, Ticked;
    StepForward(cfg, s, e, t);
    match e
    case Tick(outside) =>
      if s.shuttingDown {
        SameWhenShut(cfg, s, outside, t);
      } else {
        TickedDecides(cfg, s, outside, t, a);
      }
    case Provision(result) =>
    case ProvisionFailed =>
    case Shutdown =>
  }

  lemma SameWhenShut(cfg: RampConfig, s: Loop, outside: Outside, t: Loop)
    requires Ticked(cfg, s, outside, t) && s.shuttingDown
    ensures t == s
  {
    hide Exhausted, Activates;
  }

  // Over every run, what a tick before any shutdown makes of an account. One
  // that is activating, since the tick that started it, fails when its client is
  // gone or has not become ready within five seconds, and becomes active when
  // it is ready; an active one fails when its client is gone; a pending one that
  // is started activates if the hub takes its client and fails if not; all
  // others stay as they are.
  lemma TickDecides(cfg: RampConfig, states: seq<Loop>, events: seq<Event>, i: nat, a: int)
    requires IsRun(cfg, states, events) && i < |events| && events[i].Tick? && Shutdown !in events[..i]
    requires 1 <= a <= cfg.targetCount
    ensures a in states[i].slots && a in states[i + 1].slots
    ensures Decided(states[i], events[i].outside, states[i + 1], a)
    ensures states[i].slots[a].state == Activating ==>
              StartedAt(states, events, i, a, states[i].slots[a].activatedAt)
  {
    hide RampOk, Ticked, Decided, StartedAt;
    RunKeeps(cfg, states, events, i);
    TicksAreCounted(cfg, states, events, i);
    assert Step(cfg, states[i], events[i], states[i + 1]);
    TickedDecides(cfg, states[i], events[i].outside, states[i + 1], a);
    if states[i].slots[a].state == Activating {
      ActivatingWasStarted(cfg, states, events, i, a);
    }
  }

  // What the one provisioning answer makes of an account: a listed one waits
  // under its user, or fails if it has none; the others stay unavailable. If
  // there is no answer every account fails.
  lemma ProvisioningDecides(cfg: RampConfig, states: seq<Loop>, events: seq<Event>, i: nat, a: int)
    requires IsRun(cfg, states, events) && i < |events| && !events[i].Tick? && !events[i].Shutdown?
    requires 1 <= a <= cfg.targetCount
    ensures a in states[i].slots && a in states[i + 1].slots
    ensures states[i].slots[a].state == Unavailable
    ensures var was, now := states[i].slots[a], states[i + 1].slots[a];
      match events[i]
      case Provision(result) =>
        if a !in result then now == was
        else if result[a].Some? then now.state == Pending && now.userID == result[a].value
        else now.state == Failed
      case _ => now.state == Failed
    ensures states[i + 1].started == states[i].started == []
  {
    hide TokensOk;
    RunKeeps(cfg, states, events, i);
    assert Step(cfg, states[i], events[i], states[i + 1]);
    NoneStarted(states[i]);
  }
}
