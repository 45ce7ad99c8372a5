// What the ramp guarantees over every run.
module RampLaws {
  import opened Common
  import opened Sequences
  import opened RampModel

  ghost predicate RampOk(cfg: RampConfig, s: Loop) {
    && (forall a :: a in s.slots <==> 1 <= a <= cfg.targetCount)
    && TokensOk(cfg, s)
    && StartedOk(s)
    && s.totalActivated == |In(s.slots, Active)| + s.disconnects
    && (!s.provisioned ==> forall a | a in s.slots :: s.slots[a].state == Unavailable)
  }

  // Every token ever added is still there or started an account.
  ghost predicate TokensOk(cfg: RampConfig, s: Loop) {
    && 0.0 <= s.tokens
    && (cfg.rampRate > 0 ==>
          s.tokens + |s.started| as real == s.ticks as real * (cfg.rampRate as real / TICKS_PER_SECOND as real))
  }

  // Accounts start in ascending order, once each, before any still pending;
  // what is or was running has been started.
  ghost predicate StartedOk(s: Loop) {
    && Ascending(s.started)
    && (forall a | a in s.started :: a in s.slots && s.slots[a].state in {Activating, Active, Failed})
    && (forall a, b | a in s.started && b in In(s.slots, Pending) :: a < b)
    && (forall a | a in s.slots && s.slots[a].state in {Activating, Active} :: a in s.started)
  }

  lemma InitialOk(cfg: RampConfig)
    ensures RampOk(cfg, Initial(cfg))
  {
    InitialSlotsAre(cfg.targetCount);
    forall a
      ensures a !in In(Initial(cfg).slots, Active)
    {
    }
  }

  lemma {:induction false} InitialSlotsAre(target: nat)
    ensures forall a :: a in InitialSlots(target) <==> 1 <= a <= target
    ensures forall a | a in InitialSlots(target) :: InitialSlots(target)[a].state == Unavailable
  {
    if target > 0 {
      InitialSlotsAre(target - 1);
    }
  }

  lemma MergedKeeps(cfg: RampConfig, s: Loop, result: map<int, Option<UserId>>)
    requires RampOk(cfg, s) && !s.provisioned
    ensures RampOk(cfg, s.(slots := Merged(s.slots, result), provisioned := true))
  {
    NoneStarted(s);
    var t := s.(slots := Merged(s.slots, result), provisioned := true);
    forall a | a in t.slots
      ensures t.slots[a].state !in {Activating, Active}
    {
      assert t.slots[a] == if a in result then ProvisionedSlot(s.slots[a], result[a]) else s.slots[a];
    }
    assert In(t.slots, Active) == {} == In(s.slots, Active);
  }

  lemma NoneStarted(s: Loop)
    requires StartedOk(s) && forall a | a in s.slots :: s.slots[a].state == Unavailable
    ensures s.started == []
  {
    forall a
      ensures a !in ToSet(s.started)
    {
    }
    OnlyEmptyListsEmpty(s.started);
  }

  lemma GivenUpKeeps(cfg: RampConfig, s: Loop)
    requires RampOk(cfg, s) && !s.provisioned
    ensures RampOk(cfg, s.(slots := GivenUp(s.slots, cfg.targetCount), provisioned := true))
  {
    NoneStarted(s);
    var t := s.(slots := GivenUp(s.slots, cfg.targetCount), provisioned := true);
    assert In(t.slots, Active) == {} == In(s.slots, Active);
  }

  lemma TokensAddedKeeps(cfg: RampConfig, s: Loop)
    requires RampOk(cfg, s)
    ensures RampOk(cfg, TokensAdded(cfg, s))
  {
    var share := cfg.rampRate as real / TICKS_PER_SECOND as real;
    assert (s.ticks + 1) as real * share == s.ticks as real * share + share;
  }

  lemma ProcessedKeeps(cfg: RampConfig, s: Loop, outside: Outside)
    requires RampOk(cfg, s)
    ensures RampOk(cfg, Processed(s, cfg.targetCount, outside))
  {
    hide GoingActive, DroppingOut, Ascending;
    ActiveCount(cfg, s, outside);
    ProcessedStarted(cfg, s, outside);
  }

  lemma ProcessedStarted(cfg: RampConfig, s: Loop, outside: Outside)
    requires RampOk(cfg, s)
    ensures StartedOk(Processed(s, cfg.targetCount, outside))
  {
    hide GoingActive, DroppingOut, Ascending;
    var t := Processed(s, cfg.targetCount, outside);
    forall a | a in s.slots
      ensures a in t.slots && t.slots[a] == ProcessedSlot(s.slots[a], a, outside)
    {
    }
    assert In(t.slots, Pending) == In(s.slots, Pending);
  }

  // The active accounts after processing: those that stayed and those that
  // became ready.
  lemma ActiveCount(cfg: RampConfig, s: Loop, outside: Outside)
    requires RampOk(cfg, s)
    ensures var t := Processed(s, cfg.targetCount, outside);
      |In(t.slots, Active)| + |DroppingOut(s.slots, cfg.targetCount, outside)|
        == |In(s.slots, Active)| + |GoingActive(s.slots, cfg.targetCount, outside)|
  {
    var now := Processed(s, cfg.targetCount, outside).slots;
    var going := GoingActive(s.slots, cfg.targetCount, outside);
    var dropping := DroppingOut(s.slots, cfg.targetCount, outside);
    var staying := set a | a in s.slots && s.slots[a].state == Active && !outside.disconnected(a);
    forall a
      ensures a in In(now, Active) <==> a in staying || a in going
      ensures a in In(s.slots, Active) <==> a in staying || a in dropping
    {
      if a in s.slots {
        assert now[a] == ProcessedSlot(s.slots[a], a, outside);
      }
    }
    DisjointSizes(In(now, Active), staying, going);
    DisjointSizes(In(s.slots, Active), staying, dropping);
  }

  lemma DisjointSizes<T(!new)>(all: set<T>, a: set<T>, b: set<T>)
    requires a !! b && forall x: T :: x in all <==> x in a || x in b
    ensures |all| == |a| + |b|
  {
    assert all == a + b;
  }

  lemma StartedOneInOrder(cfg: RampConfig, s: Loop, a: int, outside: Outside)
    requires StartedOk(s) && a in s.slots && IsNext(s.slots, a)
    ensures In(StartedOne(cfg, s, a, outside).slots, Pending) == In(s.slots, Pending) - {a}
    ensures StartedOk(StartedOne(cfg, s, a, outside))
  {
    var t := StartedOne(cfg, s, a, outside);
    AscendingAppend(s.started, a);
    hide Ascending;
    assert In(t.slots, Pending) == In(s.slots, Pending) - {a};
    forall b | b in t.started
      ensures b in t.slots && t.slots[b].state in {Activating, Active, Failed}
    {
    }
  }

  lemma StartedOneKeeps(cfg: RampConfig, s: Loop, a: int, outside: Outside)
    requires RampOk(cfg, s) && s.provisioned
    requires a in s.slots && IsNext(s.slots, a) && (cfg.rampRate > 0 ==> s.tokens >= 1.0)
    ensures RampOk(cfg, StartedOne(cfg, s, a, outside)) && StartedOne(cfg, s, a, outside).provisioned
  {
    StartedOneInOrder(cfg, s, a, outside);
    hide StartedOk;
    assert In(StartedOne(cfg, s, a, outside).slots, Active) == In(s.slots, Active);
  }

  lemma NextIsPending(s: Loop, a: int)
    requires IsNext(s.slots, a)
    ensures a in In(s.slots, Pending)
  {
  }

  lemma PendingIsProvisioned(cfg: RampConfig, s: Loop, a: int)
    requires RampOk(cfg, s) && a in In(s.slots, Pending)
    ensures s.provisioned
  {
  }

  lemma {:induction false} ActivatesKeeps(cfg: RampConfig, s: Loop, outside: Outside, t: Loop, n: nat)
    requires RampOk(cfg, s) && Activates(cfg, s, outside, t, n)
    ensures RampOk(cfg, t)
    decreases n
  {
    hide RampOk, StartedOne, IsNext, In;
    if n > 0 {
      var a :| a in s.slots && IsNext(s.slots, a) && (cfg.rampRate > 0 ==> s.tokens >= 1.0)
            && Activates(cfg, StartedOne(cfg, s, a, outside), outside, t, n - 1);
      NextIsPending(s, a);
      PendingIsProvisioned(cfg, s, a);
      StartedOneKeeps(cfg, s, a, outside);
      ActivatesKeeps(cfg, StartedOne(cfg, s, a, outside), outside, t, n - 1);
    }
  }

  lemma StepKeeps(cfg: RampConfig, s: Loop, e: Event, t: Loop)
    requires RampOk(cfg, s) && Step(cfg, s, e, t)
    ensures RampOk(cfg, t)
  {
    hide RampOk, Processed, TokensAdded;
    match e
    case Provision(result) => ShutKeeps(cfg, s); MergeStep(cfg, s, result);
    case ProvisionFailed => GiveUpStep(cfg, s);
    case Tick(outside) =>
      if !s.shuttingDown {
        var n: nat :| Activates(cfg, Processed(TokensAdded(cfg, s), cfg.targetCount, outside), outside, t, n);
        TokensAddedKeeps(cfg, s);
        ProcessedKeeps(cfg, TokensAdded(cfg, s), outside);
        ActivatesKeeps(cfg, Processed(TokensAdded(cfg, s), cfg.targetCount, outside), outside, t, n);
      }
    case Shutdown => ShutKeeps(cfg, s);
  }

  lemma MergeStep(cfg: RampConfig, s: Loop, result: map<int, Option<UserId>>)
    requires RampOk(cfg, s)
    ensures !s.provisioned ==> RampOk(cfg, s.(slots := Merged(s.slots, result), provisioned := true))
  {
    if !s.provisioned {
      MergedKeeps(cfg, s, result);
    }
  }

  lemma GiveUpStep(cfg: RampConfig, s: Loop)
    requires RampOk(cfg, s)
    ensures !s.provisioned ==> RampOk(cfg, s.(slots := GivenUp(s.slots, cfg.targetCount), provisioned := true))
  {
    if !s.provisioned {
      GivenUpKeeps(cfg, s);
    }
  }

  lemma ShutKeeps(cfg: RampConfig, s: Loop)
    requires RampOk(cfg, s)
    ensures RampOk(cfg, s.(shuttingDown := true))
  {
  }

  lemma {:induction false} RunKeeps(cfg: RampConfig, states: seq<Loop>, events: seq<Event>, i: nat)
    requires IsRun(cfg, states, events) && i < |states|
    ensures RampOk(cfg, states[i])
  {
    if i == 0 {
      InitialOk(cfg);
    } else {
      RunKeeps(cfg, states, events, i - 1);
      StepKeeps(cfg, states[i - 1], events[i - 1], states[i]);
    }
  }

  // ------------------------------------------------------------------
  // Results
  // ------------------------------------------------------------------

  // Over every run: the ramp never starts more accounts than its rate allows,
  // spends exactly what it is given, and starts accounts in ascending order,
  // each once, every one before any that is still pending; and every account
  // that was ever active either still is or was counted as disconnected.
  lemma RampGuarantee(cfg: RampConfig, states: seq<Loop>, events: seq<Event>, i: nat)
    requires IsRun(cfg, states, events) && i < |states|
    ensures var s := states[i];
      && 0.0 <= s.tokens
      && (cfg.rampRate > 0 ==>
            && s.tokens + |s.started| as real == s.ticks as real * (cfg.rampRate as real / 10.0)
            && |s.started| as real <= s.ticks as real * (cfg.rampRate as real / 10.0))
      && Ascending(s.started)
      && (forall a, b | a in s.started && b in s.slots && s.slots[b].state == Pending :: a < b)
      && s.totalActivated == |In(s.slots, Active)| + s.disconnects
  {
    RunKeeps(cfg, states, events, i);
    var s := states[i];
    forall a, b | a in s.started && b in s.slots && s.slots[b].state == Pending
      ensures a < b
    {
      assert b in In(s.slots, Pending);
    }
  }

  // Right after a tick, accounts are kept waiting only if the rate says so:
  // without a rate none waits, with one exactly the whole tokens so far have
  // been spent.
  lemma TickStartsAllItCan(cfg: RampConfig, states: seq<Loop>, events: seq<Event>, i: nat, a: int)
    requires IsRun(cfg, states, events) && i < |events| && events[i].Tick? && !states[i].shuttingDown
    requires a in states[i + 1].slots && states[i + 1].slots[a].state == Pending
    ensures var t := states[i + 1];
      && cfg.rampRate > 0
      && |t.started| == (t.ticks as real * (cfg.rampRate as real / 10.0)).Floor
  {
    var t := states[i + 1];
    RunKeeps(cfg, states, events, i + 1);
    assert Step(cfg, states[i], events[i], t);
    assert a in In(t.slots, Pending);
  }

  // An account's state only ever moves forward, and a failed one stays failed.
  function Rank(state: AccountState): nat {
    match state
    case Unavailable => 0
    case Pending => 1
    case Activating => 2
    case Active => 3
    case Failed => 4
  }

  ghost predicate Forward(s: Loop, t: Loop) {
    t.slots.Keys == s.slots.Keys && forall a | a in s.slots :: Rank(s.slots[a].state) <= Rank(t.slots[a].state)
  }

  lemma {:induction false} ActivatesForward(cfg: RampConfig, s: Loop, outside: Outside, t: Loop, n: nat)
    requires Activates(cfg, s, outside, t, n)
    ensures Forward(s, t)
    decreases n
  {
    if n > 0 {
      var a :| a in s.slots && IsNext(s.slots, a) && (cfg.rampRate > 0 ==> s.tokens >= 1.0)
            && Activates(cfg, StartedOne(cfg, s, a, outside), outside, t, n - 1);
      ActivatesForward(cfg, StartedOne(cfg, s, a, outside), outside, t, n - 1);
    }
  }

  lemma ProcessedForward(s: Loop, done: int, outside: Outside)
    ensures Forward(s, Processed(s, done, outside))
  {
    hide GoingActive, DroppingOut;
  }

  lemma TickedForward(cfg: RampConfig, s: Loop, outside: Outside, t: Loop)
    requires Ticked(cfg, s, outside, t)
    ensures Forward(s, t)
  {
    hide Processed, Activates, Exhausted;
    if !s.shuttingDown {
      var mid := Processed(TokensAdded(cfg, s), cfg.targetCount, outside);
      var n: nat :| Activates(cfg, mid, outside, t, n);
      ProcessedForward(TokensAdded(cfg, s), cfg.targetCount, outside);
      ActivatesForward(cfg, mid, outside, t, n);
    }
  }

  lemma StepForward(cfg: RampConfig, s: Loop, e: Event, t: Loop)
    requires RampOk(cfg, s) && Step(cfg, s, e, t)
    ensures Forward(s, t)
  {
    hide TokensOk, StartedOk, Ticked;
    match e
    case Tick(outside) => TickedForward(cfg, s, outside, t);
    case _ =>
  }

  lemma {:induction false} StatesMoveForward(cfg: RampConfig, states: seq<Loop>, events: seq<Event>, i: nat, j: nat)
    requires IsRun(cfg, states, events) && i <= j < |states|
    ensures Forward(states[i], states[j])
    decreases j - i
  {
    hide Step, RampOk;
    if i < j {
      RunKeeps(cfg, states, events, i);
      StepForward(cfg, states[i], events[i], states[i + 1]);
      StatesMoveForward(cfg, states, events, i + 1, j);
    }
  }
}
