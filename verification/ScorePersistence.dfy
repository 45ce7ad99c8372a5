// The asynchronous score writer as interleaved atomic steps: callers of Submit
// and SubmitSync, the single worker goroutine between its locks, channel
// operations and database calls, and a database that may fail at every call.
module ScorePersistence {
  import opened Common

  type CallerId = int

  const SUBMIT_CAPACITY := 64

  datatype Update = Update(user: UserId, score: int)

  // A goroutine inside SubmitSync. It is sending from the moment it has merged
  // and deleted the pending score until the worker closes its channel.
  datatype Caller =
    | Sending(user: UserId, asked: int, score: int)
    | Served(user: UserId, asked: int)

  // Where the worker is between two atomic steps. draining tells a flush made
  // by drainAll from one made by the run loop.
  datatype Worker =
    | Top
    | Select
    | Emptying
    | Flushing(todo: map<UserId, int>, failed: bool, draining: bool)
    | Saved(user: UserId, score: int, todo: map<UserId, int>, failed: bool, draining: bool)
    | Syncing(caller: CallerId)
    | DrainCheck
    | DrainWait
    | Halted

  // accepted and abandoned are history: the highest score the persister has
  // taken charge of for each user, and the users of a SubmitSync that Stop cut
  // short.
  datatype State = State(
    db: map<UserId, int>,
    pending: map<UserId, int>,
    submitCh: seq<Update>,
    callers: map<CallerId, Caller>,
    worker: Worker,
    stopped: bool,
    accepted: map<UserId, int>,
    abandoned: set<UserId>)

  datatype Event =
    | Submit(update: Update)
    | SyncBegin(id: CallerId, update: Update)
    | SyncReturn(id: CallerId)
    | Stop
    | CheckPending
    | TakeSubmit
    | ChannelEmpty
    | TakeSync(id: CallerId)
    | TakeDrain
    | TakeStop
    | Timer
    | FlushSave(user: UserId, ok: bool)
    | FlushRelease
    | FlushEnd
    | SyncSave(ok: bool)

  function Start(db: map<UserId, int>): State {
    State(db, map[], [], map[], Top, false, map[], {})
  }

  function Max(a: int, b: int): int {
    if a < b then b else a
  }

  // The highest of the score already recorded for a user, if any, and a new one.
  function Raise(m: map<UserId, int>, u: UserId, x: int): map<UserId, int> {
    m[u := if u in m then Max(m[u], x) else x]
  }

  // The UPDATE statement: never lowers a score, and touches only known users.
  function SaveScore(db: map<UserId, int>, u: UserId, x: int): map<UserId, int> {
    if u in db then db[u := Max(db[u], x)] else db
  }

  function Coalesce(s: State, update: Update): State {
    s.(pending := if update.user !in s.pending || update.score > s.pending[update.user]
                  then s.pending[update.user := update.score] else s.pending,
       accepted := Raise(s.accepted, update.user, update.score))
  }

  // SubmitSync up to its send: merge with the pending score and delete that.
  function Begin(s: State, id: CallerId, u: UserId, asked: int): State {
    if id in s.callers then s
    else
      var score := if u in s.pending && s.pending[u] > asked then s.pending[u] else asked;
      s.(pending := s.pending - {u},
         callers := s.callers[id := Sending(u, asked, score)],
         accepted := Raise(s.accepted, u, asked))
  }

  // The worker's moves between channel operations.
  function Turn(s: State, e: Event): Worker {
    match (e, s.worker)
    case (CheckPending, Top) => if s.pending != map[] then Flushing(s.pending, false, false) else Select
    case (CheckPending, DrainCheck) => if s.pending != map[] then Flushing(s.pending, false, true) else Top
    case (ChannelEmpty, Emptying) => if s.submitCh == [] then Top else Emptying
    case (TakeSync(id), Select) => if id in s.callers && s.callers[id].Sending? then Syncing(id) else Select
    case (TakeDrain, Select) => DrainCheck
    case (TakeStop, Select) => if s.stopped then Halted else Select
    case (TakeStop, DrainWait) => if s.stopped then Top else DrainWait
    case (Timer, Select) => Top
    case (Timer, DrainWait) => DrainCheck
    case (FlushEnd, Flushing(todo, failed, draining)) =>
      if todo != map[] then s.worker
      else if !draining then Select
      else if failed then DrainWait
      else Top
    case _ => s.worker
  }

  // One score of a flush, saved or failed.
  function Flush(s: State, u: UserId, ok: bool): State {
    match s.worker
    case Flushing(todo, failed, draining) =>
      if u !in todo then s
      else if ok then
        s.(db := SaveScore(s.db, u, todo[u]), worker := Saved(u, todo[u], todo - {u}, failed, draining))
      else
        s.(worker := Flushing(todo - {u}, true, draining))
    case _ => s
  }

  // Forget the pending score just saved, unless a newer one has replaced it.
  function Release(s: State): State {
    match s.worker
    case Saved(u, score, todo, failed, draining) =>
      s.(pending := if u in s.pending && s.pending[u] == score then s.pending - {u} else s.pending,
         worker := Flushing(todo, failed, draining))
    case _ => s
  }

  // persistSync's write succeeded, or Stop made it give up.
  function Serve(s: State, written: bool): State {
    if s.worker.Syncing? && s.worker.caller in s.callers && s.callers[s.worker.caller].Sending? then
      var c := s.callers[s.worker.caller];
      s.(db := if written then SaveScore(s.db, c.user, c.score) else s.db,
         abandoned := if written then s.abandoned else s.abandoned + {c.user},
         callers := s.callers[s.worker.caller := Served(c.user, c.asked)],
         worker := Top)
    else s
  }

  // One atomic step; an event that is not enabled leaves the state as it is.
  function Step(s: State, e: Event): State {
    match e
    case Submit(update) =>
      if |s.submitCh| < SUBMIT_CAPACITY then s.(submitCh := s.submitCh + [update]) else s
    case SyncBegin(id, update) => Begin(s, id, update.user, update.score)
    case SyncReturn(id) =>
      if id in s.callers && s.callers[id].Served? then s.(callers := s.callers - {id}) else s
    case Stop => s.(stopped := true)
    case TakeSubmit =>
      if (s.worker.Select? || s.worker.Emptying?) && s.submitCh != [] then
        Coalesce(s.(worker := Emptying, submitCh := s.submitCh[1..]), s.submitCh[0])
      else s
    case FlushSave(u, ok) => Flush(s, u, ok)
    case FlushRelease => Release(s)
    case SyncSave(ok) => if ok then Serve(s, true) else s
    case TakeStop => if s.worker.Syncing? && s.stopped then Serve(s, false) else s.(worker := Turn(s, e))
    case _ => s.(worker := Turn(s, e))
  }

  // Any interleaving of any events, with any choice of failures.
  function Run(db: map<UserId, int>, events: seq<Event>): State {
    if events == [] then Start(db)
    else Step(Run(db, events[..|events| - 1]), events[|events| - 1])
  }

  // ------------------------------------------------------------------
  // The invariant
  // ------------------------------------------------------------------

  ghost predicate Holds(s: State, id: CallerId, u: UserId, x: int) {
    id in s.callers && s.callers[id].Sending? && s.callers[id].user == u && s.callers[id].score >= x
  }

  // A score is safe while the database, the pending map or a SubmitSync still
  // on its way has one at least as high.
  ghost predicate Safe(s: State, u: UserId, x: int) {
    || (u in s.db && s.db[u] >= x)
    || (u in s.pending && s.pending[u] >= x)
    || (exists id :: Holds(s, id, u, x))
  }

  ghost predicate CallerOk(s: State, c: Caller) {
    if c.Sending? then c.score >= c.asked
    else c.user in s.db && c.user !in s.abandoned ==> s.db[c.user] >= c.asked
  }

  // What a flush still owes: every pending score is in its snapshot, just
  // saved, or has failed.
  ghost predicate FlushOk(s: State) {
    match s.worker
    case Flushing(todo, failed, _) =>
      failed || forall u | u in s.pending :: u in todo && todo[u] == s.pending[u]
    case Saved(user, score, todo, failed, _) =>
      && (user in s.db ==> s.db[user] >= score)
      && (failed || forall u | u in s.pending ::
            (u in todo && todo[u] == s.pending[u]) || (u == user && s.pending[u] == score))
    case _ => true
  }

  ghost predicate Invariant(s: State) {
    && (forall u | u in s.accepted && u in s.db && u !in s.abandoned :: Safe(s, u, s.accepted[u]))
    && (forall id | id in s.callers :: CallerOk(s, s.callers[id]))
    && (s.worker.Syncing? ==> s.worker.caller in s.callers && s.callers[s.worker.caller].Sending?)
    && FlushOk(s)
    && (s.abandoned != {} ==> s.stopped)
  }

  // ------------------------------------------------------------------
  // Every step keeps it
  // ------------------------------------------------------------------

  // A step that moves no caller and lowers nothing keeps what is safe safe.
  lemma SafeCarries(s: State, t: State, u: UserId, x: int)
    requires Safe(s, u, x)
    requires u in s.db ==> u in t.db && t.db[u] >= s.db[u]
    requires forall id | Holds(s, id, u, x) :: Holds(t, id, u, x)
    requires u in s.pending && s.pending[u] >= x ==> Safe(t, u, x)
    ensures Safe(t, u, x)
  {
    if id :| Holds(s, id, u, x) {
      assert Holds(t, id, u, x);
    }
  }

  lemma CoalesceKeeps(s: State, update: Update)
    requires Invariant(s) && !s.worker.Flushing? && !s.worker.Saved?
    ensures Invariant(Coalesce(s, update))
  {
    var t := Coalesce(s, update);
    forall u | u in t.accepted && u in t.db && u !in t.abandoned
      ensures Safe(t, u, t.accepted[u])
    {
      if u in s.accepted {
        assert forall id | Holds(s, id, u, s.accepted[u]) :: Holds(t, id, u, s.accepted[u]);
        SafeCarries(s, t, u, s.accepted[u]);
      }
    }
    assert forall id | id in t.callers :: CallerOk(s, s.callers[id]);
  }

  lemma SyncBeginKeeps(s: State, id: CallerId, u: UserId, asked: int)
    requires Invariant(s) && id !in s.callers
    ensures Invariant(Begin(s, id, u, asked))
  {
    var t := Begin(s, id, u, asked);
    forall v | v in t.accepted && v in t.db && v !in t.abandoned
      ensures Safe(t, v, t.accepted[v])
    {
      if v == u {
        assert Holds(t, id, u, asked);
      }
      if v in s.accepted {
        assert forall k | Holds(s, k, v, s.accepted[v]) :: Holds(t, k, v, s.accepted[v]);
        if v == u && u in s.pending && s.pending[u] >= s.accepted[u] {
          assert Holds(t, id, u, s.accepted[u]);
        }
        SafeCarries(s, t, v, s.accepted[v]);
      }
    }
    assert forall k | k in s.callers :: CallerOk(s, s.callers[k]);
  }

  lemma SyncSaveKeeps(s: State)
    requires Invariant(s) && s.worker.Syncing?
    ensures Invariant(Serve(s, true))
  {
    var t := Serve(s, true);
    var id := s.worker.caller;
    var c := s.callers[id];
    assert CallerOk(s, c);
    forall v | v in t.accepted && v in t.db && v !in t.abandoned
      ensures Safe(t, v, t.accepted[v])
    {
      var x := s.accepted[v];
      forall k | Holds(s, k, v, x)
        ensures Safe(t, v, x)
      {
        assert k == id || Holds(t, k, v, x);
      }
      assert Safe(s, v, x);
    }
    forall k | k in t.callers
      ensures CallerOk(t, t.callers[k])
    {
      assert CallerOk(s, s.callers[k]);
    }
  }

  lemma AbandonKeeps(s: State)
    requires Invariant(s) && s.worker.Syncing? && s.stopped
    ensures Invariant(Serve(s, false))
  {
    var t := Serve(s, false);
    var id := s.worker.caller;
    forall v | v in t.accepted && v in t.db && v !in t.abandoned
      ensures Safe(t, v, t.accepted[v])
    {
      var x := s.accepted[v];
      assert forall k | Holds(s, k, v, x) :: k != id && Holds(t, k, v, x);
      SafeCarries(s, t, v, x);
    }
    forall k | k in t.callers
      ensures CallerOk(t, t.callers[k])
    {
      assert CallerOk(s, s.callers[k]);
    }
  }

  // The steps that only move the worker or write the database.
  lemma SameHoldersKeep(s: State, t: State)
    requires Invariant(s) && FlushOk(t)
    requires t.accepted == s.accepted && t.abandoned == s.abandoned && (s.stopped ==> t.stopped)
    requires t.db.Keys == s.db.Keys && forall u | u in s.db :: t.db[u] >= s.db[u]
    requires forall id | id in s.callers && s.callers[id].Sending? :: id in t.callers && t.callers[id] == s.callers[id]
    requires forall id | id in t.callers :: id in s.callers && t.callers[id] == s.callers[id]
    requires t.worker.Syncing? ==> t.worker.caller in t.callers && t.callers[t.worker.caller].Sending?
    requires forall u | u in s.pending && u in s.db ::
               (u in t.pending && t.pending[u] == s.pending[u]) || t.db[u] >= s.pending[u]
    ensures Invariant(t)
  {
    forall u | u in t.accepted && u in t.db && u !in t.abandoned
      ensures Safe(t, u, t.accepted[u])
    {
      assert forall id | Holds(s, id, u, s.accepted[u]) :: Holds(t, id, u, s.accepted[u]);
      SafeCarries(s, t, u, s.accepted[u]);
    }
    forall id | id in t.callers
      ensures CallerOk(t, t.callers[id])
    {
      assert CallerOk(s, s.callers[id]);
    }
  }

  lemma TurnKeeps(s: State, e: Event)
    requires Invariant(s)
    ensures Invariant(s.(worker := Turn(s, e)))
  {
    SameHoldersKeep(s, s.(worker := Turn(s, e)));
  }

  lemma FlushKeeps(s: State, u: UserId, ok: bool)
    requires Invariant(s)
    ensures Invariant(Flush(s, u, ok))
  {
    SameHoldersKeep(s, Flush(s, u, ok));
  }

  lemma ReleaseKeeps(s: State)
    requires Invariant(s)
    ensures Invariant(Release(s))
  {
    SameHoldersKeep(s, Release(s));
  }

  lemma TakeSubmitKeeps(s: State)
    requires Invariant(s) && (s.worker.Select? || s.worker.Emptying?) && s.submitCh != []
    ensures Invariant(Step(s, TakeSubmit))
  {
    var taken := s.(worker := Emptying, submitCh := s.submitCh[1..]);
    SameHoldersKeep(s, taken);
    CoalesceKeeps(taken, s.submitCh[0]);
  }

  lemma StepKeeps(s: State, e: Event)
    requires Invariant(s)
    ensures Invariant(Step(s, e))
  {
    hide Invariant, Turn, Flush, Release, Serve, Begin, Coalesce;
    match e
    case SyncBegin(id, update) => BeginKeeps(s, id, update.user, update.score);
    case TakeSubmit =>
      if (s.worker.Select? || s.worker.Emptying?) && s.submitCh != [] {
        TakeSubmitKeeps(s);
      }
    case FlushSave(u, ok) => FlushKeeps(s, u, ok);
    case FlushRelease => ReleaseKeeps(s);
    case SyncSave(ok) => ServeKeeps(s, true);
    case TakeStop =>
      ServeKeeps(s, false);
      TurnKeeps(s, e);
    case Submit(_) => PlainKeeps(s, Step(s, e));
    case SyncReturn(_) => PlainKeeps(s, Step(s, e));
    case Stop => PlainKeeps(s, Step(s, e));
    case _ => TurnKeeps(s, e);
  }

  lemma BeginKeeps(s: State, id: CallerId, u: UserId, asked: int)
    requires Invariant(s)
    ensures Invariant(Begin(s, id, u, asked))
  {
    if id !in s.callers {
      SyncBeginKeeps(s, id, u, asked);
    }
  }

  lemma ServeKeeps(s: State, written: bool)
    requires Invariant(s)
    ensures written || s.stopped ==> Invariant(Serve(s, written))
  {
    if s.worker.Syncing? && written {
      SyncSaveKeeps(s);
    } else if s.worker.Syncing? && s.stopped {
      AbandonKeeps(s);
    }
  }

  lemma PlainKeeps(s: State, t: State)
    requires Invariant(s)
    requires t.db == s.db && t.pending == s.pending && t.worker == s.worker
    requires t.accepted == s.accepted && t.abandoned == s.abandoned && (s.stopped ==> t.stopped)
    requires forall id | id in s.callers && s.callers[id].Sending? :: id in t.callers && t.callers[id] == s.callers[id]
    requires forall id | id in t.callers :: id in s.callers && t.callers[id] == s.callers[id]
    ensures Invariant(t)
  {
    SameHoldersKeep(s, t);
  }

  lemma {:induction false} RunKeeps(db: map<UserId, int>, events: seq<Event>)
    ensures Invariant(Run(db, events))
  {
    if events != [] {
      RunKeeps(db, events[..|events| - 1]);
      StepKeeps(Run(db, events[..|events| - 1]), events[|events| - 1]);
    }
  }

  // ------------------------------------------------------------------
  // Results
  // ------------------------------------------------------------------

  // Over every interleaving with every pattern of database failures, a score
  // once accepted for a user that exists is never lost: only a SubmitSync that
  // Stop cuts short can give one up.
  lemma NoAcceptedScoreIsLost(db: map<UserId, int>, events: seq<Event>, u: UserId)
    requires var s := Run(db, events); u in s.accepted && u in s.db && u !in s.abandoned
    ensures var s := Run(db, events); Safe(s, u, s.accepted[u])
  {
    RunKeeps(db, events);
  }

  lemma NothingAbandonedBeforeStop(db: map<UserId, int>, events: seq<Event>)
    ensures !Run(db, events).stopped ==> Run(db, events).abandoned == {}
  {
    RunKeeps(db, events);
  }

  // No step lowers a stored score or a user's accepted score, and no step adds
  // or drops a user.
  lemma StepIsMonotone(s: State, e: Event)
    ensures var t := Step(s, e);
      && t.db.Keys == s.db.Keys
      && (forall u | u in s.db :: t.db[u] >= s.db[u])
      && (forall u | u in s.accepted :: u in t.accepted && t.accepted[u] >= s.accepted[u])
  {
    hide Step;
    StoredIsMonotone(s, e);
    AcceptedIsMonotone(s, e);
  }

  lemma StoredIsMonotone(s: State, e: Event)
    ensures var t := Step(s, e);
      t.db.Keys == s.db.Keys && forall u | u in s.db :: t.db[u] >= s.db[u]
  {
  }

  lemma AcceptedIsMonotone(s: State, e: Event)
    ensures var t := Step(s, e);
      forall u | u in s.accepted :: u in t.accepted && t.accepted[u] >= s.accepted[u]
  {
  }

  lemma {:induction false} RunIsMonotone(db: map<UserId, int>, events: seq<Event>, i: nat)
    requires i <= |events|
    ensures var s, t := Run(db, events[..i]), Run(db, events);
      && t.db.Keys == s.db.Keys
      && (forall u | u in s.db :: t.db[u] >= s.db[u])
      && (forall u | u in s.accepted :: u in t.accepted && t.accepted[u] >= s.accepted[u])
    decreases |events| - i
  {
    if i < |events| {
      assert events[..i + 1][..i] == events[..i];
      StepIsMonotone(Run(db, events[..i]), events[i]);
      RunIsMonotone(db, events, i + 1);
    } else {
      assert events[..i] == events;
    }
  }

  // When SubmitSync(u, asked) is about to return, the score is in the database.
  lemma SubmitSyncIsDurable(db: map<UserId, int>, events: seq<Event>, id: CallerId)
    requires var s := Run(db, events); id in s.callers && s.callers[id].Served?
    ensures var s := Run(db, events);
      var c := s.callers[id];
      c.user in s.db && c.user !in s.abandoned ==> s.db[c.user] >= c.asked
  {
    RunKeeps(db, events);
    assert CallerOk(Run(db, events), Run(db, events).callers[id]);
  }

  ghost predicate InDrain(w: Worker) {
    w.DrainCheck? || w.DrainWait? || ((w.Flushing? || w.Saved?) && w.draining)
  }

  // drainAll answers, other than because of Stop, only when nothing is
  // pending; then every accepted score is stored or on its way in a SubmitSync.
  ghost predicate Acknowledges(s: State, e: Event) {
    InDrain(s.worker) && !InDrain(Step(s, e).worker) && !e.TakeStop?
  }

  lemma DrainDelivers(db: map<UserId, int>, events: seq<Event>, e: Event, u: UserId)
    requires Acknowledges(Run(db, events), e)
    ensures var t := Step(Run(db, events), e);
      && t.pending == map[]
      && (u in t.accepted && u in t.db && u !in t.abandoned ==>
            t.db[u] >= t.accepted[u] || exists id :: Holds(t, id, u, t.accepted[u]))
  {
    var s := Run(db, events);
    RunKeeps(db, events);
    StepKeeps(s, e);
    var t := Step(s, e);
    if e.FlushEnd? {
      assert forall v :: v !in s.pending;
    }
    if u in t.accepted && u in t.db && u !in t.abandoned {
      assert Safe(t, u, t.accepted[u]);
    }
  }
}
