// What the score writer stores, exactly: nothing but what it was given, and
// after a drain the highest of it.
module ScoreRuns {
  import opened Common
  import opened Sequences
  import opened ScorePersistence

  // ------------------------------------------------------------------
  // What the writer was given
  // ------------------------------------------------------------------

  // The scores handed over by Submit and SubmitSync, told from the events alone.
  ghost predicate Handed(events: seq<Event>, x: Update) {
    exists e :: e in events && (e.Submit? || e.SyncBegin?) && e.update == x
  }

  // What a step adds to the channel, if it is not full, and takes from it.

  ghost function Offers(s: State, e: Event): seq<Update> {
    if e.Submit? && |s.submitCh| < 64 then [e.update] else []
  }

  ghost function Takes(s: State, e: Event): seq<Update> {
    if e.TakeSubmit? && (s.worker.Select? || s.worker.Emptying?) && s.submitCh != [] then [s.submitCh[0]] else []
  }

  // The scores a step puts in the writer's charge: one it takes from the
  // channel, or one that a SubmitSync comes with.
  ghost function Charges(s: State, e: Event): seq<Update> {
    if e.SyncBegin? && e.id !in s.callers then [e.update] else Takes(s, e)
  }

  ghost function Offered(db: map<UserId, int>, events: seq<Event>): seq<Update> {
    if events == [] then []
    else Offered(db, events[..|events| - 1]) + Offers(Run(db, events[..|events| - 1]), events[|events| - 1])
  }

  ghost function Taken(db: map<UserId, int>, events: seq<Event>): seq<Update> {
    if events == [] then []
    else Taken(db, events[..|events| - 1]) + Takes(Run(db, events[..|events| - 1]), events[|events| - 1])
  }

  ghost function Charged(db: map<UserId, int>, events: seq<Event>): seq<Update> {
    if events == [] then []
    else Charged(db, events[..|events| - 1]) + Charges(Run(db, events[..|events| - 1]), events[|events| - 1])
  }

  // The channel is first in, first out, and loses only what finds it full.
  lemma {:induction false} ChannelKeepsOrder(db: map<UserId, int>, events: seq<Event>)
    ensures Offered(db, events) == Taken(db, events) + Run(db, events).submitCh
    ensures |Run(db, events).submitCh| <= 64
  {
    if events != [] {
      hide Step, Offers, Takes;
      var front, e := events[..|events| - 1], events[|events| - 1];
      ChannelKeepsOrder(db, front);
      StepOnChannel(Run(db, front), e);
      var s := Run(db, front);
      Regroup(Offered(db, front), Taken(db, front), s.submitCh, Offers(s, e), Takes(s, e), Step(s, e).submitCh);
    }
  }

  lemma Regroup<T>(whole: seq<T>, front: seq<T>, queue: seq<T>, more: seq<T>, first: seq<T>, rest: seq<T>)
    requires whole == front + queue && queue + more == first + rest
    ensures whole + more == front + first + rest
  {
    assert whole + more == front + (queue + more);
    assert front + first + rest == front + (first + rest);
  }

  lemma StepOnChannel(s: State, e: Event)
    requires |s.submitCh| <= 64
    ensures s.submitCh + Offers(s, e) == Takes(s, e) + Step(s, e).submitCh
    ensures |Step(s, e).submitCh| <= 64
  {
  }

  lemma {:induction false} ChargedWasHanded(db: map<UserId, int>, events: seq<Event>, x: Update)
    requires x in Charged(db, events) || x in Offered(db, events) || x in Taken(db, events)
    ensures Handed(events, x)
  {
    var front, e := events[..|events| - 1], events[|events| - 1];
    var s := Run(db, front);
    assert events == front + [e];
    ChannelKeepsOrder(db, front);
    assert x in Takes(s, e) ==> x in Taken(db, front) + s.submitCh;
    if x in Charged(db, front) || x in Offered(db, front) || x in Taken(db, front) {
      ChargedWasHanded(db, front, x);
    } else {
      assert e in events;
    }
  }

  // ------------------------------------------------------------------
  // Nothing else is stored
  // ------------------------------------------------------------------

  // Scores of a map that are among those given.
  ghost predicate AllGiven(scores: map<UserId, int>, given: seq<Update>) {
    forall u | u in scores :: Update(u, scores[u]) in given
  }

  ghost predicate CallerGiven(c: Caller, given: seq<Update>) {
    && Update(c.user, c.asked) in given
    && (c.Sending? ==> Update(c.user, c.score) in given)
  }

  ghost predicate WorkerGiven(w: Worker, given: seq<Update>) {
    match w
    case Flushing(todo, _, _) => AllGiven(todo, given)
    case Saved(u, score, todo, _, _) => Update(u, score) in given && AllGiven(todo, given)
    case _ => true
  }

  ghost predicate StoredGiven(db: map<UserId, int>, given: seq<Update>, now: map<UserId, int>) {
    && now.Keys == db.Keys
    && forall u | u in db && u in now :: now[u] == db[u] || Update(u, now[u]) in given
  }

  // Every score anywhere was given for its user, or was stored from the start;
  // accepted is the highest given for each.
  ghost predicate OnlyGiven(db: map<UserId, int>, given: seq<Update>, s: State) {
    && StoredGiven(db, given, s.db)
    && AllGiven(s.pending, given)
    && (forall id | id in s.callers :: CallerGiven(s.callers[id], given))
    && WorkerGiven(s.worker, given)
    && AllGiven(s.accepted, given)
    && (forall x | x in given :: x.user in s.accepted && x.score <= s.accepted[x.user])
  }

  lemma BeginOnlyGiven(db: map<UserId, int>, given: seq<Update>, s: State, id: CallerId, x: Update)
    requires OnlyGiven(db, given, s) && id !in s.callers
    ensures OnlyGiven(db, given + [x], Begin(s, id, x.user, x.score))
  {
    hide StoredGiven, WorkerGiven;
    WorkerGivenMore(s.worker, given, x);
    StoredGivenMore(db, given, s.db, x);
  }

  lemma CoalesceOnlyGiven(db: map<UserId, int>, given: seq<Update>, s: State, x: Update)
    requires OnlyGiven(db, given, s)
    ensures OnlyGiven(db, given + [x], Coalesce(s, x))
  {
    hide StoredGiven, WorkerGiven;
    WorkerGivenMore(s.worker, given, x);
    StoredGivenMore(db, given, s.db, x);
  }

  lemma WorkerGivenMore(w: Worker, given: seq<Update>, x: Update)
    requires WorkerGiven(w, given)
    ensures WorkerGiven(w, given + [x])
  {
  }

  lemma StoredGivenMore(db: map<UserId, int>, given: seq<Update>, now: map<UserId, int>, x: Update)
    requires StoredGiven(db, given, now)
    ensures StoredGiven(db, given + [x], now)
  {
  }

  lemma SavedIsGiven(db: map<UserId, int>, given: seq<Update>, now: map<UserId, int>, x: Update)
    requires StoredGiven(db, given, now) && x in given
    ensures StoredGiven(db, given, SaveScore(now, x.user, x.score))
  {
  }

  lemma FlushOnlyGiven(db: map<UserId, int>, given: seq<Update>, s: State, u: UserId, ok: bool)
    requires OnlyGiven(db, given, s)
    ensures OnlyGiven(db, given, Flush(s, u, ok))
  {
    hide StoredGiven, SaveScore;
    if s.worker.Flushing? && u in s.worker.todo {
      SavedIsGiven(db, given, s.db, Update(u, s.worker.todo[u]));
    }
  }

  lemma ServeOnlyGiven(db: map<UserId, int>, given: seq<Update>, s: State, written: bool)
    requires OnlyGiven(db, given, s)
    ensures OnlyGiven(db, given, Serve(s, written))
  {
    hide StoredGiven, SaveScore;
    if s.worker.Syncing? && s.worker.caller in s.callers && s.callers[s.worker.caller].Sending? {
      var c := s.callers[s.worker.caller];
      assert CallerGiven(c, given);
      SavedIsGiven(db, given, s.db, Update(c.user, c.score));
    }
  }

  lemma TurnOnlyGiven(db: map<UserId, int>, given: seq<Update>, s: State, e: Event)
    requires OnlyGiven(db, given, s)
    ensures OnlyGiven(db, given, s.(worker := Turn(s, e)))
  {
    hide StoredGiven;
  }

  lemma ReleaseOnlyGiven(db: map<UserId, int>, given: seq<Update>, s: State)
    requires OnlyGiven(db, given, s)
    ensures OnlyGiven(db, given, Release(s))
  {
    hide StoredGiven;
  }

  lemma ReturnOnlyGiven(db: map<UserId, int>, given: seq<Update>, s: State, id: CallerId)
    requires OnlyGiven(db, given, s)
    ensures OnlyGiven(db, given, s.(callers := s.callers - {id}))
  {
    hide StoredGiven, WorkerGiven, AllGiven;
  }

  // Neither the channel nor the stop flag matters.
  lemma OtherFieldsOnlyGiven(db: map<UserId, int>, given: seq<Update>, s: State, channel: seq<Update>, stopped: bool)
    requires OnlyGiven(db, given, s)
    ensures OnlyGiven(db, given, s.(submitCh := channel, stopped := stopped))
    ensures OnlyGiven(db, given, s.(worker := Emptying, submitCh := channel))
  {
    hide StoredGiven, AllGiven, CallerGiven;
  }

  lemma StepOnlyGiven(db: map<UserId, int>, given: seq<Update>, s: State, e: Event)
    requires OnlyGiven(db, given, s)
    ensures OnlyGiven(db, given + Charges(s, e), Step(s, e))
  {
    hide OnlyGiven, Turn, Flush, Release, Serve, Begin, Coalesce;
    assert given + [] == given;
    match e
    case Submit(x) => OtherFieldsOnlyGiven(db, given, s, s.submitCh + [x], s.stopped);
    case Stop => OtherFieldsOnlyGiven(db, given, s, s.submitCh, true);
    case SyncBegin(id, x) =>
      if id !in s.callers {
        BeginOnlyGiven(db, given, s, id, x);
      } else {
        BeginTwice(s, id, x);
      }
    case SyncReturn(id) => ReturnOnlyGiven(db, given, s, id);
    case TakeSubmit =>
      if Takes(s, e) != [] {
        OtherFieldsOnlyGiven(db, given, s, s.submitCh[1..], s.stopped);
        CoalesceOnlyGiven(db, given, s.(worker := Emptying, submitCh := s.submitCh[1..]), s.submitCh[0]);
      }
    case FlushSave(u, ok) => FlushOnlyGiven(db, given, s, u, ok);
    case FlushRelease => ReleaseOnlyGiven(db, given, s);
    case SyncSave(ok) => ServeOnlyGiven(db, given, s, true);
    case TakeStop =>
      ServeOnlyGiven(db, given, s, false);
      TurnOnlyGiven(db, given, s, e);
    case _ => TurnOnlyGiven(db, given, s, e);
  }

  lemma BeginTwice(s: State, id: CallerId, x: Update)
    requires id in s.callers
    ensures Begin(s, id, x.user, x.score) == s
  {
  }

  lemma {:induction false} RunOnlyGiven(db: map<UserId, int>, events: seq<Event>)
    ensures OnlyGiven(db, Charged(db, events), Run(db, events))
  {
    if events != [] {
      hide OnlyGiven, Step, Charges;
      var front, e := events[..|events| - 1], events[|events| - 1];
      RunOnlyGiven(db, front);
      StepOnlyGiven(db, Charged(db, front), Run(db, front), e);
    }
  }

  // ------------------------------------------------------------------
  // Results
  // ------------------------------------------------------------------

  // Over every interleaving a stored score is the one the database began with
  // or one that was handed over for that very user, and so are the scores
  // pending, being flushed, or on their way in a SubmitSync.
  lemma StoredWasHanded(db: map<UserId, int>, events: seq<Event>, u: UserId)
    ensures var s := Run(db, events);
      && (u in s.db <==> u in db)
      && (u in db ==> s.db[u] == db[u] || Handed(events, Update(u, s.db[u])))
      && (u in s.pending ==> Handed(events, Update(u, s.pending[u])))
      && (s.worker.Flushing? || s.worker.Saved? ==>
            u in s.worker.todo ==> Handed(events, Update(u, s.worker.todo[u])))
      && (s.worker.Saved? ==> Handed(events, Update(s.worker.user, s.worker.score)))
      && (forall id | id in s.callers && s.callers[id].Sending? && s.callers[id].user == u ::
            Handed(events, Update(u, s.callers[id].score)))
  {
    hide Run, Charged, Handed;
    RunOnlyGiven(db, events);
    forall x | x in Charged(db, events)
      ensures Handed(events, x)
    {
      ChargedWasHanded(db, events, x);
    }
  }

  // So a score never ends above the higher of the first one and the highest
  // that was handed over.
  lemma NeverAbove(db: map<UserId, int>, events: seq<Event>, u: UserId, top: int)
    requires u in db && db[u] <= top
    requires forall x | Handed(events, x) && x.user == u :: x.score <= top
    ensures u in Run(db, events).db && Run(db, events).db[u] <= top
  {
    hide Run, Handed;
    StoredWasHanded(db, events, u);
  }

  // The accepted score of a user is the highest that the writer took from the
  // channel or that came with a SubmitSync.
  lemma AcceptedIsHighest(db: map<UserId, int>, events: seq<Event>, u: UserId)
    ensures var s := Run(db, events);
      && (u in s.accepted ==> Update(u, s.accepted[u]) in Charged(db, events))
      && (forall x | x in Charged(db, events) && x.user == u :: u in s.accepted && x.score <= s.accepted[u])
  {
    hide Run, Charged;
    RunOnlyGiven(db, events);
  }

  // When a drain is acknowledged other than by Stop, with no SubmitSync of the
  // user under way or cut short, its stored score is exactly the higher of the
  // first one and the highest the writer took charge of.
  lemma DrainIsExact(db: map<UserId, int>, events: seq<Event>, e: Event, u: UserId)
    requires Acknowledges(Run(db, events), e) && u in db
    requires var t := Step(Run(db, events), e);
      u !in t.abandoned && forall id | id in t.callers && t.callers[id].Sending? :: t.callers[id].user != u
    ensures var t := Step(Run(db, events), e);
      && u in t.db
      && t.db[u] == if u in t.accepted then Max(db[u], t.accepted[u]) else db[u]
  {
    hide Run, Charged, Step, Acknowledges;
    var s := Run(db, events);
    DrainDelivers(db, events, e, u);
    RunOnlyGiven(db, events);
    StepOnlyGiven(db, Charged(db, events), s, e);
    StepIsMonotone(s, e);
    RunIsMonotone(db, events, 0);
    StartsWith(db, events);
  }

  lemma StartsWith(db: map<UserId, int>, events: seq<Event>)
    ensures Run(db, events[..0]) == Start(db)
  {
  }

  // ------------------------------------------------------------------
  // Progress
  // ------------------------------------------------------------------

  function Steps(s: State, events: seq<Event>): State {
    if events == [] then s else Step(Steps(s, events[..|events| - 1]), events[|events| - 1])
  }

  lemma {:induction false} StepsAppend(s: State, front: seq<Event>, back: seq<Event>)
    ensures Steps(s, front + back) == Steps(Steps(s, front), back)
  {
    if back == [] {
      assert front + back == front;
    } else {
      var most := back[..|back| - 1];
      assert (front + back)[..|front + back| - 1] == front + most;
      StepsAppend(s, front, most);
    }
  }

  // Each listed score is saved and then released.
  function Saves(order: seq<UserId>): seq<Event> {
    if order == [] then []
    else Saves(order[..|order| - 1]) + [FlushSave(order[|order| - 1], true), FlushRelease]
  }

  // While nobody interferes and no write fails, a flush saves exactly the
  // scores that are pending, never lowering any, and leaves nothing pending; a
  // drain is then acknowledged, any other flush waits for what comes next.
  lemma FlushSavesAll(s: State, order: seq<UserId>)
    requires s.worker.Top? || s.worker.DrainCheck?
    requires s.pending != map[] && Lists(order, s.pending.Keys)
    ensures var t := Steps(s, [CheckPending] + Saves(order) + [FlushEnd]);
      && t == s.(db := t.db, pending := map[], worker := if s.worker.Top? then Select else Top)
      && t.db.Keys == s.db.Keys
      && forall u | u in s.db :: t.db[u] == if u in s.pending then Max(s.db[u], s.pending[u]) else s.db[u]
  {
    var draining := s.worker.DrainCheck?;
    var first := s.(worker := Flushing(s.pending, false, draining));
    OneStep(s, CheckPending);
    assert Steps(s, [CheckPending]) == first;
    SavesSave(first, draining, order);
    StepsAppend(s, [CheckPending], Saves(order));
    var saved := Steps(s, [CheckPending] + Saves(order));
    assert s.pending - ToSet(order) == map[];
    StepsAppend(s, [CheckPending] + Saves(order), [FlushEnd]);
    OneStep(saved, FlushEnd);
  }

  lemma OneStep(s: State, e: Event)
    ensures Steps(s, [e]) == Step(s, e)
  {
    hide Step;
    assert [e][..0] == [];
  }

  // The flush once those listed have been saved.
  lemma {:induction false} SavesSave(s: State, draining: bool, order: seq<UserId>)
    requires NoDuplicates(order) && ToSet(order) <= s.pending.Keys
    requires s.worker == Flushing(s.pending, false, draining)
    ensures var t := Steps(s, Saves(order));
      && t == s.(db := t.db, pending := s.pending - ToSet(order),
                 worker := Flushing(s.pending - ToSet(order), false, draining))
      && t.db.Keys == s.db.Keys
      && forall u | u in s.db :: t.db[u] == if u in ToSet(order) then Max(s.db[u], s.pending[u]) else s.db[u]
  {
    if order == [] {
      assert s.pending - {} == s.pending;
    } else {
      hide Step, NoDuplicates;
      var front, u := order[..|order| - 1], order[|order| - 1];
      LastOfList(order);
      SavesSave(s, draining, front);
      var mid := Steps(s, Saves(front));
      StepsAppend(s, Saves(front), [FlushSave(u, true), FlushRelease]);
      StepsAppend(mid, [FlushSave(u, true)], [FlushRelease]);
      assert [FlushSave(u, true)] + [FlushRelease] == [FlushSave(u, true), FlushRelease];
      OneStep(mid, FlushSave(u, true));
      OneStep(Step(mid, FlushSave(u, true)), FlushRelease);
      assert s.pending - ToSet(front) - {u} == s.pending - ToSet(order);
      SavedAndReleased(mid, s.pending - ToSet(front), draining, u);
    }
  }

  lemma LastOfList(order: seq<UserId>)
    requires NoDuplicates(order) && order != []
    ensures var front, u := order[..|order| - 1], order[|order| - 1];
      NoDuplicates(front) && u !in ToSet(front) && ToSet(order) == ToSet(front) + {u}
  {
    var front, u := order[..|order| - 1], order[|order| - 1];
    assert order == front + [u];
  }

  lemma SavedAndReleased(s: State, todo: map<UserId, int>, draining: bool, u: UserId)
    requires s.worker == Flushing(todo, false, draining) && s.pending == todo && u in todo
    ensures Step(Step(s, FlushSave(u, true)), FlushRelease)
         == s.(db := SaveScore(s.db, u, todo[u]), pending := todo - {u},
               worker := Flushing(todo - {u}, false, draining))
  {
  }
}
