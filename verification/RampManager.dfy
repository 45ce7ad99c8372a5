// The synthetic account manager as the object its loop updates in place.
module RampManager {
  import opened Common
  import opened Sequences
  import opened RampModel
  import opened RampLaws

  datatype ManagerStatus = ManagerStatus(target: nat, pending: nat, activating: nat, active: nat, failed: nat,
                                         disconnects: nat)

  // The accounts up to a number that are in one of the given states.
  ghost function UpTo(slots: map<int, Slot>, n: int, states: set<AccountState>): set<int> {
    set a | a in slots && a <= n && slots[a].state in states
  }

  // ------------------------------------------------------------------
  // Facts about the loops
  // ------------------------------------------------------------------

  lemma AllMerged(before: map<int, Slot>, result: map<int, Option<UserId>>, now: map<int, Slot>)
    requires now.Keys == before.Keys
    requires forall a | a in now :: now[a] == if a in result then ProvisionedSlot(before[a], result[a]) else before[a]
    ensures now == Merged(before, result)
  {
    var all := Merged(before, result);
    forall a
      ensures a in now <==> a in all
      ensures a in now && a in all ==> now[a] == all[a]
    {
      assert a in now.Keys <==> a in before.Keys;
    }
  }

  lemma GivenUpOneMore(slots: map<int, Slot>, a: int)
    requires a in slots
    ensures GivenUp(slots, a - 1)[a] == slots[a]
    ensures GivenUp(slots, a)
         == if IsUnavailable(slots[a])
            then GivenUp(slots, a - 1)[a := slots[a].(state := Failed)] else GivenUp(slots, a - 1)
  {
    var was, now := GivenUp(slots, a - 1), GivenUp(slots, a);
    var next := if IsUnavailable(slots[a]) then was[a := slots[a].(state := Failed)] else was;
    forall b
      ensures b in now <==> b in next
      ensures b in now && b in next ==> now[b] == next[b]
    {
    }
  }

  lemma NothingProcessed(cfg: RampConfig, s: Loop, outside: Outside)
    requires forall a :: a in s.slots <==> 1 <= a <= cfg.targetCount
    ensures Processed(s, 0, outside) == s
  {
    forall a
      ensures a !in GoingActive(s.slots, 0, outside) && a !in DroppingOut(s.slots, 0, outside)
    {
    }
    assert ProcessedSlots(s.slots, 0, outside) == s.slots;
  }

  lemma ProcessedOneMore(s: Loop, a: int, outside: Outside)
    requires a in s.slots
    ensures var t, u := Processed(s, a - 1, outside), Processed(s, a, outside);
      && a in t.slots && t.slots[a] == s.slots[a]
      && u.slots == t.slots[a := ProcessedSlot(s.slots[a], a, outside)]
      && u.totalActivated == t.totalActivated
           + (if s.slots[a].state == Activating && !outside.disconnected(a) && outside.ready(a) then 1 else 0)
      && u.disconnects == t.disconnects + (if s.slots[a].state == Active && outside.disconnected(a) then 1 else 0)
      && u == t.(slots := u.slots, totalActivated := u.totalActivated, disconnects := u.disconnects)
      && (s.slots[a].state !in {Activating, Active} ==> u == t)
  {
    SlotsOneMore(s.slots, a, outside);
    GoingOneMore(s.slots, a, outside);
    DroppingOneMore(s.slots, a, outside);
    var t := ProcessedSlots(s.slots, a - 1, outside);
    assert t[a := t[a]] == t;
  }

  lemma SlotsOneMore(slots: map<int, Slot>, a: int, outside: Outside)
    requires a in slots
    ensures ProcessedSlots(slots, a, outside)
         == ProcessedSlots(slots, a - 1, outside)[a := ProcessedSlot(slots[a], a, outside)]
  {
    var now := ProcessedSlots(slots, a, outside);
    var next := ProcessedSlots(slots, a - 1, outside)[a := ProcessedSlot(slots[a], a, outside)];
    forall b
      ensures b in now <==> b in next
      ensures b in now && b in next ==> now[b] == next[b]
    {
    }
  }

  lemma GoingOneMore(slots: map<int, Slot>, a: int, outside: Outside)
    requires a in slots
    ensures |GoingActive(slots, a, outside)| == |GoingActive(slots, a - 1, outside)|
              + if slots[a].state == Activating && !outside.disconnected(a) && outside.ready(a) then 1 else 0
  {
    var was, now := GoingActive(slots, a - 1, outside), GoingActive(slots, a, outside);
    if slots[a].state == Activating && !outside.disconnected(a) && outside.ready(a) {
      assert now == was + {a};
    } else {
      assert now == was;
    }
  }

  lemma DroppingOneMore(slots: map<int, Slot>, a: int, outside: Outside)
    requires a in slots
    ensures |DroppingOut(slots, a, outside)| == |DroppingOut(slots, a - 1, outside)|
              + if slots[a].state == Active && outside.disconnected(a) then 1 else 0
  {
    var was, now := DroppingOut(slots, a - 1, outside), DroppingOut(slots, a, outside);
    if slots[a].state == Active && outside.disconnected(a) {
      assert now == was + {a};
    } else {
      assert now == was;
    }
  }

  lemma NoneActivated(cfg: RampConfig, s: Loop, outside: Outside)
    ensures Activates(cfg, s, outside, s, 0)
  {
  }

  lemma {:induction false} OneMoreActivated(cfg: RampConfig, s: Loop, outside: Outside, t: Loop, n: nat, a: int)
    requires Activates(cfg, s, outside, t, n)
    requires a in t.slots && IsNext(t.slots, a) && (cfg.rampRate > 0 ==> t.tokens >= 1.0)
    ensures Activates(cfg, s, outside, StartedOne(cfg, t, a, outside), n + 1)
    decreases n
  {
    if n == 0 {
      NoneActivated(cfg, StartedOne(cfg, t, a, outside), outside);
    } else {
      var b :| b in s.slots && IsNext(s.slots, b) && (cfg.rampRate > 0 ==> s.tokens >= 1.0)
            && Activates(cfg, StartedOne(cfg, s, b, outside), outside, t, n - 1);
      OneMoreActivated(cfg, StartedOne(cfg, s, b, outside), outside, t, n - 1, a);
    }
  }

  lemma OneLessPending(cfg: RampConfig, s: Loop, a: int, outside: Outside)
    requires a in s.slots && s.slots[a].state == Pending
    ensures |In(StartedOne(cfg, s, a, outside).slots, Pending)| < |In(s.slots, Pending)|
  {
    assert In(s.slots, Pending) == In(StartedOne(cfg, s, a, outside).slots, Pending) + {a};
  }

  lemma CountedNone(slots: map<int, Slot>, target: nat)
    requires forall a :: a in slots <==> 1 <= a <= target
    ensures forall states: set<AccountState> :: UpTo(slots, 0, states) == {}
  {
    forall states: set<AccountState>
      ensures UpTo(slots, 0, states) == {}
    {
      forall a
        ensures a !in UpTo(slots, 0, states)
      {
      }
    }
  }

  lemma CountedOneMore(slots: map<int, Slot>, a: int, states: set<AccountState>)
    requires a in slots
    ensures |UpTo(slots, a, states)| == |UpTo(slots, a - 1, states)| + if slots[a].state in states then 1 else 0
  {
    if slots[a].state in states {
      assert UpTo(slots, a, states) == UpTo(slots, a - 1, states) + {a};
    } else {
      assert UpTo(slots, a, states) == UpTo(slots, a - 1, states);
    }
  }

  lemma CountedAll(slots: map<int, Slot>, target: nat)
    requires forall a :: a in slots <==> 1 <= a <= target
    ensures |UpTo(slots, target, {Pending, Unavailable})| == |In(slots, Pending)| + |In(slots, Unavailable)|
    ensures UpTo(slots, target, {Activating}) == In(slots, Activating)
    ensures UpTo(slots, target, {Active}) == In(slots, Active)
    ensures UpTo(slots, target, {Failed}) == In(slots, Failed)
  {
    assert UpTo(slots, target, {Pending, Unavailable}) == In(slots, Pending) + In(slots, Unavailable);
  }

  class ManagerLoop {
    const cfg: RampConfig
    var slots: map<int, Slot>
    var shuttingDown: bool
    var rampTokens: real
    var disconnectCount: nat
    var totalActivated: nat
    ghost var provisioned: bool
    ghost var ticks: nat
    ghost var started: seq<int>

    ghost function State(): Loop
      reads this
    {
      Loop(slots, rampTokens, shuttingDown, totalActivated, disconnectCount, provisioned, ticks, started)
    }

    ghost predicate Valid()
      reads this
    {
      forall a :: a in slots <==> 1 <= a <= cfg.targetCount
    }

    constructor (cfg: RampConfig)
      ensures this.cfg == cfg && Valid() && State() == Initial(cfg)
    {
      this.cfg := cfg;
      slots := InitialSlots(cfg.targetCount);
      shuttingDown, rampTokens, disconnectCount, totalActivated := false, 0.0, 0, 0;
      provisioned, ticks, started := false, 0, [];
      new;
      InitialSlotsAre(cfg.targetCount);
    }

    // What the database or the provisioner knows of the accounts.
    method MergeProvisionResult(result: map<int, Option<UserId>>)
      requires Valid() && result.Keys <= slots.Keys && !provisioned
      modifies this`slots, this`provisioned
      ensures Valid() && Step(cfg, old(State()), Provision(result), State())
    {
      ghost var before := slots;
      var rest := result.Keys;
      while rest != {}
        invariant rest <= result.Keys && slots.Keys == before.Keys
        invariant forall a | a in slots ::
          slots[a] == if a in result && a !in rest then ProvisionedSlot(before[a], result[a]) else before[a]
      {
        var account := AnyOf(rest);
        rest := rest - {account};
        match result[account]
        case None => slots := slots[account := slots[account].(state := Failed)];
        case Some(id) => slots := slots[account := slots[account].(state := Pending, userID := id)];
      }
      AllMerged(before, result, slots);
      provisioned := true;
    }

    method FailUnavailable()
      requires Valid() && !provisioned
      modifies this`slots, this`provisioned
      ensures Valid() && Step(cfg, old(State()), ProvisionFailed, State())
    {
      ghost var before := slots;
      assert slots == GivenUp(before, 0);
      for account := 1 to cfg.targetCount + 1
        invariant slots == GivenUp(before, account - 1)
      {
        GivenUpOneMore(before, account);
        if IsUnavailable(slots[account]) {
          slots := slots[account := slots[account].(state := Failed)];
        }
      }
      provisioned := true;
    }

    method OnTick(outside: Outside)
      requires Valid()
      modifies this
      ensures Valid() && Step(cfg, old(State()), Tick(outside), State())
    {
      hide Processed, Activates, Exhausted;
      if shuttingDown {
        return;
      }
      AddRampTokens();
      ProcessActivatingAndActive(outside);
      ghost var processed := State();
      ghost var n := TryActivateNext(outside);
      assert Activates(cfg, processed, outside, State(), n);
    }

    method AddRampTokens()
      modifies this`rampTokens, this`ticks
      ensures State() == TokensAdded(cfg, old(State()))
    {
      ticks := ticks + 1;
      if cfg.rampRate <= 0 {
        return;
      }
      rampTokens := rampTokens + cfg.rampRate as real / TICKS_PER_SECOND as real;
    }

    method ProcessActivatingAndActive(outside: Outside)
      requires Valid()
      modifies this`slots, this`totalActivated, this`disconnectCount
      ensures Valid()
      ensures State() == Processed(old(State()), cfg.targetCount, outside)
    {
      hide GoingActive, DroppingOut;
      ghost var before := State();
      NothingProcessed(cfg, before, outside);
      for account := 1 to cfg.targetCount + 1
        invariant Valid() && State() == Processed(before, account - 1, outside)
      {
        ProcessedOneMore(before, account, outside);
        match slots[account].state
        case Activating => ProcessActivating(account, outside);
        case Active => ProcessActive(account, outside);
        case _ =>
      }
    }

    method ProcessActivating(account: int, outside: Outside)
      requires account in slots && slots[account].state == Activating
      modifies this`slots, this`totalActivated
      ensures slots == old(slots)[account := ProcessedSlot(old(slots)[account], account, outside)]
      ensures totalActivated
           == old(totalActivated) + if !outside.disconnected(account) && outside.ready(account) then 1 else 0
    {
      if outside.disconnected(account) {
        FailSlot(account);
        return;
      }
      if outside.ready(account) {
        totalActivated := totalActivated + 1;
        slots := slots[account := slots[account].(state := Active)];
        return;
      }
      if outside.now - slots[account].activatedAt >= READINESS_TIMEOUT {
        FailSlot(account);
        return;
      }
      assert slots[account := slots[account]] == slots;
    }

    method ProcessActive(account: int, outside: Outside)
      requires account in slots && slots[account].state == Active
      modifies this`slots, this`disconnectCount
      ensures slots == old(slots)[account := ProcessedSlot(old(slots)[account], account, outside)]
      ensures disconnectCount == old(disconnectCount) + if outside.disconnected(account) then 1 else 0
    {
      if outside.disconnected(account) {
        disconnectCount := disconnectCount + 1;
        FailSlot(account);
        return;
      }
      assert slots[account := slots[account]] == slots;
    }

    method FailSlot(account: int)
      requires account in slots
      modifies this`slots
      ensures slots == old(slots)[account := old(slots)[account].(state := Failed)]
    {
      slots := slots[account := slots[account].(state := Failed)];
    }

    // Start accounts as long as there are accounts and tokens: it ends, since
    // every started account is one pending account less.
    method TryActivateNext(outside: Outside) returns (ghost n: nat)
      requires Valid()
      modifies this`slots, this`rampTokens, this`started
      ensures Valid() && Activates(cfg, old(State()), outside, State(), n) && Exhausted(cfg, State())
      ensures State() == old(State()).(slots := slots, tokens := rampTokens, started := started)
    {
      hide Activates, Ascending;
      ghost var before := State();
      n := 0;
      NoneActivated(cfg, before, outside);
      while true
        invariant Valid() && Activates(cfg, before, outside, State(), n)
        invariant State() == before.(slots := slots, tokens := rampTokens, started := started)
        decreases |In(slots, Pending)|
      {
        var account := NextPendingAccount();
        if account == 0 {
          return;
        }
        if cfg.rampRate > 0 && rampTokens < 1.0 {
          return;
        }
        ghost var s := State();
        StartActivation(account, outside);
        OneMoreActivated(cfg, before, outside, s, n, account);
        OneLessPending(cfg, s, account, outside);
        n := n + 1;
      }
    }

    method NextPendingAccount() returns (account: int)
      requires Valid()
      ensures account == 0 ==> In(slots, Pending) == {}
      ensures account != 0 ==> account in slots && IsNext(slots, account)
    {
      for a := 1 to cfg.targetCount + 1
        invariant forall b | 1 <= b < a :: b in slots ==> slots[b].state != Pending
      {
        if slots[a].state == Pending {
          return a;
        }
      }
      forall b
        ensures b !in In(slots, Pending)
      {
      }
      return 0;
    }

    method StartActivation(account: int, outside: Outside)
      requires account in slots
      modifies this`slots, this`rampTokens, this`started
      ensures State() == StartedOne(cfg, old(State()), account, outside)
    {
      started := started + [account];
      if cfg.rampRate > 0 {
        rampTokens := rampTokens - 1.0;
      }
      if !outside.registers(account) {
        slots := slots[account := slots[account].(state := Failed)];
        return;
      }
      slots := slots[account := slots[account].(state := Activating, activatedAt := outside.now)];
    }

    // How many accounts are in each state: every account is counted once.
    method PublishStatus() returns (status: ManagerStatus)
      requires Valid()
      ensures status.target == cfg.targetCount && status.disconnects == disconnectCount
      ensures status.pending == |In(slots, Pending)| + |In(slots, Unavailable)|
      ensures status.activating == |In(slots, Activating)| && status.active == |In(slots, Active)|
      ensures status.failed == |In(slots, Failed)|
      ensures status.pending + status.activating + status.active + status.failed == cfg.targetCount
    {
      var pending, activating, active, failed := 0, 0, 0, 0;
      CountedNone(slots, cfg.targetCount);
      for account := 1 to cfg.targetCount + 1
        invariant pending == |UpTo(slots, account - 1, {Pending, Unavailable})|
        invariant activating == |UpTo(slots, account - 1, {Activating})|
        invariant active == |UpTo(slots, account - 1, {Active})|
        invariant failed == |UpTo(slots, account - 1, {Failed})|
        invariant pending + activating + active + failed == account - 1
      {
        CountedOneMore(slots, account, {Pending, Unavailable});
        CountedOneMore(slots, account, {Activating});
        CountedOneMore(slots, account, {Active});
        CountedOneMore(slots, account, {Failed});
        match slots[account].state
        case Pending => pending := pending + 1;
        case Unavailable => pending := pending + 1;
        case Activating => activating := activating + 1;
        case Active => active := active + 1;
        case Failed => failed := failed + 1;
      }
      CountedAll(slots, cfg.targetCount);
      status := ManagerStatus(cfg.targetCount, pending, activating, active, failed, disconnectCount);
    }
  }
}
