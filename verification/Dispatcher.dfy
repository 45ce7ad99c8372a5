// The replication dispatcher as interleaved atomic steps: one submitter (the
// hub), a worker goroutine per bounded queue, and shared counters that every
// party changes one addition at a time.
module Dispatcher {

  type Recipient = int

  // A submitted job, known by its place in the order of Submit calls.
  datatype Job = Job(number: nat, recipient: Recipient)

  datatype Worker =
    | Waiting
    | Encoding(job: Job)
    | Sending(job: Job)
    | Failing(job: Job)
    | Finishing(job: Job)
    | Exited

  datatype Submitter =
    | Free
    | Counted(job: Job)
    | Charged(job: Job)
    | Dropping(job: Job)

  datatype Counters = Counters(
    submitted: int,
    dropped: int,
    encoded: int,
    skippedEmpty: int,
    encodeErrors: int,
    sendFailures: int,
    inFlight: int)

  // log is the recipient of every submitted job in order; sent is the jobs
  // whose client's Send was called, in the order of those calls.
  datatype State = State(
    queues: seq<seq<Job>>,
    workers: seq<Worker>,
    submitter: Submitter,
    counters: Counters,
    stopped: bool,
    log: seq<Recipient>,
    sent: seq<Job>)

  datatype Outcome = EncodeError | EmptyUpdate | Encoded

  datatype Event =
    | SubmitStart(recipient: Recipient)
    | SubmitCharge
    | SubmitSelect
    | SubmitUndo
    | Take(w: nat)
    | Encode(w: nat, outcome: Outcome)
    | Send(w: nat, ok: bool)
    | CountFailure(w: nat)
    | Finish(w: nat)
    | Stop
    | Exit(w: nat)

  // The remainder of truncating division.
  function Remainder(a: int, n: int): int
    requires 0 < n
  {
    if a >= 0 then a % n else -((-a) % n)
  }

  // The queue that serves a recipient.
  function Partition(recipient: Recipient, n: nat): (w: nat)
    requires 0 < n
    ensures w < n
  {
    var idx := Remainder(recipient, n);
    if idx < 0 then -idx else idx
  }

  function Start(workerCount: nat): State {
    State(seq(workerCount, _ => []), seq(workerCount, _ => Waiting), Free, Counters(0, 0, 0, 0, 0, 0, 0), false, [], [])
  }

  // One atomic step; an event that is not enabled leaves the state as it is.
  function Step(s: State, e: Event, queueSize: nat): (t: State)
    requires 0 < |s.queues| == |s.workers|
    ensures |t.queues| == |t.workers| == |s.queues|
  {
    match e
    case SubmitStart(r) =>
      if s.submitter.Free? && !s.stopped then
        s.(submitter := Counted(Job(|s.log|, r)),
           log := s.log + [r],
           counters := s.counters.(submitted := s.counters.submitted + 1))
      else s
    case SubmitCharge =>
      if s.submitter.Counted? then
        s.(submitter := Charged(s.submitter.job),
           counters := s.counters.(inFlight := s.counters.inFlight + 1))
      else s
    case SubmitSelect =>
      if s.submitter.Charged? then
        var w := Partition(s.submitter.job.recipient, |s.queues|);
        if |s.queues[w]| < queueSize then
          s.(submitter := Free, queues := s.queues[w := s.queues[w] + [s.submitter.job]])
        else
          s.(submitter := Dropping(s.submitter.job),
             counters := s.counters.(dropped := s.counters.dropped + 1))
      else s
    case SubmitUndo =>
      if s.submitter.Dropping? then
        s.(submitter := Free, counters := s.counters.(inFlight := s.counters.inFlight - 1))
      else s
    case Take(w) =>
      if w < |s.workers| && s.workers[w].Waiting? && s.queues[w] != [] then
        s.(workers := s.workers[w := Encoding(s.queues[w][0])], queues := s.queues[w := s.queues[w][1..]])
      else s
    case Encode(w, outcome) =>
      if w < |s.workers| && s.workers[w].Encoding? then
        var job, c := s.workers[w].job, s.counters;
        match outcome
        case EncodeError =>
          s.(workers := s.workers[w := Finishing(job)], counters := c.(encodeErrors := c.encodeErrors + 1))
        case EmptyUpdate =>
          s.(workers := s.workers[w := Finishing(job)], counters := c.(skippedEmpty := c.skippedEmpty + 1))
        case Encoded =>
          s.(workers := s.workers[w := Sending(job)], counters := c.(encoded := c.encoded + 1))
      else s
    case Send(w, ok) =>
      if w < |s.workers| && s.workers[w].Sending? then
        var job := s.workers[w].job;
        s.(workers := s.workers[w := if ok then Finishing(job) else Failing(job)], sent := s.sent + [job])
      else s
    case CountFailure(w) =>
      if w < |s.workers| && s.workers[w].Failing? then
        s.(workers := s.workers[w := Finishing(s.workers[w].job)],
           counters := s.counters.(sendFailures := s.counters.sendFailures + 1))
      else s
    case Finish(w) =>
      if w < |s.workers| && s.workers[w].Finishing? then
        s.(workers := s.workers[w := Waiting], counters := s.counters.(inFlight := s.counters.inFlight - 1))
      else s
    case Stop =>
      // The hub never calls Stop while it is inside Submit.
      if s.submitter.Free? then s.(stopped := true) else s
    case Exit(w) =>
      if s.stopped && w < |s.workers| && s.workers[w].Waiting? && s.queues[w] == [] then
        s.(workers := s.workers[w := Exited])
      else s
  }

  // Any interleaving of any events.
  function Run(workerCount: nat, queueSize: nat, events: seq<Event>): (s: State)
    requires 0 < workerCount
    ensures |s.queues| == |s.workers| == workerCount
  {
    if events == [] then Start(workerCount)
    else Step(Run(workerCount, queueSize, events[..|events| - 1]), events[|events| - 1], queueSize)
  }

  // ------------------------------------------------------------------
  // Counting
  // ------------------------------------------------------------------

  function Queued(queues: seq<seq<Job>>): nat {
    if queues == [] then 0 else |queues[0]| + Queued(queues[1..])
  }

  lemma {:induction false} QueuedUpdate(queues: seq<seq<Job>>, w: nat, q: seq<Job>)
    requires w < |queues|
    ensures Queued(queues[w := q]) == Queued(queues) - |queues[w]| + |q|
  {
    if w == 0 {
      assert queues[w := q][1..] == queues[1..];
    } else {
      assert queues[w := q][1..] == queues[1..][w - 1 := q];
      QueuedUpdate(queues[1..], w - 1, q);
    }
  }

  lemma {:induction false} QueuedZero(queues: seq<seq<Job>>, w: nat)
    requires Queued(queues) == 0 && w < |queues|
    ensures queues[w] == []
  {
    if w > 0 {
      QueuedZero(queues[1..], w - 1);
    }
  }

  function Count(workers: seq<Worker>, p: Worker -> bool): nat {
    if workers == [] then 0 else (if p(workers[0]) then 1 else 0) + Count(workers[1..], p)
  }

  lemma {:induction false} CountUpdate(workers: seq<Worker>, w: nat, to: Worker, p: Worker -> bool)
    requires w < |workers|
    ensures Count(workers[w := to], p)
         == Count(workers, p) - (if p(workers[w]) then 1 else 0) + (if p(to) then 1 else 0)
  {
    if w == 0 {
      assert workers[w := to][1..] == workers[1..];
    } else {
      assert workers[w := to][1..] == workers[1..][w - 1 := to];
      CountUpdate(workers[1..], w - 1, to, p);
    }
  }

  lemma {:induction false} CountZero(workers: seq<Worker>, w: nat, p: Worker -> bool)
    requires Count(workers, p) == 0 && w < |workers|
    ensures !p(workers[w])
  {
    if w > 0 {
      CountZero(workers[1..], w - 1, p);
    }
  }

  lemma {:induction false} CountNone(workers: seq<Worker>, p: Worker -> bool)
    requires forall w | 0 <= w < |workers| :: !p(workers[w])
    ensures Count(workers, p) == 0
  {
    if workers != [] {
      CountNone(workers[1..], p);
    }
  }

  lemma {:induction false} QueuedNone(queues: seq<seq<Job>>)
    requires forall w | 0 <= w < |queues| :: queues[w] == []
    ensures Queued(queues) == 0
  {
    if queues != [] {
      QueuedNone(queues[1..]);
    }
  }

  predicate MidEncode(w: Worker) { w.Encoding? }

  predicate MidSend(w: Worker) { w.Sending? }

  predicate Busy(w: Worker) { !w.Waiting? && !w.Exited? }

  // Where every submitted job has gone.
  ghost predicate Accounts(s: State) {
    var c := s.counters;
    && c.submitted == |s.log|
    && c.submitted == c.dropped + c.encoded + c.skippedEmpty + c.encodeErrors
         + Queued(s.queues) + Count(s.workers, MidEncode)
         + (if s.submitter.Counted? || s.submitter.Charged? then 1 else 0)
    && c.inFlight == Queued(s.queues) + Count(s.workers, Busy)
         + (if s.submitter.Charged? || s.submitter.Dropping? then 1 else 0)
    && c.encoded == |s.sent| + Count(s.workers, MidSend)
  }

  lemma WorkerMoves(s: State, w: nat, to: Worker)
    requires w < |s.workers|
    ensures var t := s.workers[w := to];
      && Count(t, MidEncode) == Count(s.workers, MidEncode)
                              - (if s.workers[w].Encoding? then 1 else 0) + (if to.Encoding? then 1 else 0)
      && Count(t, MidSend) == Count(s.workers, MidSend)
                            - (if s.workers[w].Sending? then 1 else 0) + (if to.Sending? then 1 else 0)
      && Count(t, Busy) == Count(s.workers, Busy) - (if Busy(s.workers[w]) then 1 else 0) + (if Busy(to) then 1 else 0)
  {
    CountUpdate(s.workers, w, to, MidEncode);
    CountUpdate(s.workers, w, to, MidSend);
    CountUpdate(s.workers, w, to, Busy);
  }

  lemma StepKeepsAccounts(s: State, e: Event, queueSize: nat)
    requires 0 < |s.queues| == |s.workers| && Accounts(s)
    ensures Accounts(Step(s, e, queueSize))
  {
    hide Count, Queued, Busy;
    if e.Take? || e.Exit? {
      TakeKeepsAccounts(s, e, queueSize);
    } else if e.Encode? || e.Send? || e.CountFailure? || e.Finish? {
      WorkKeepsAccounts(s, e, queueSize);
    } else {
      SubmitKeepsAccounts(s, e, queueSize);
    }
  }

  lemma TakeKeepsAccounts(s: State, e: Event, queueSize: nat)
    requires 0 < |s.queues| == |s.workers| && Accounts(s) && (e.Take? || e.Exit?)
    ensures Accounts(Step(s, e, queueSize))
  {
    hide Count, Queued;
    var t := Step(s, e, queueSize);
    if e.w < |s.workers| && s.workers[e.w].Waiting? {
      if s.queues[e.w] != [] {
        QueuedUpdate(s.queues, e.w, s.queues[e.w][1..]);
      }
      WorkerMoves(s, e.w, t.workers[e.w]);
    }
  }

  lemma WorkKeepsAccounts(s: State, e: Event, queueSize: nat)
    requires 0 < |s.queues| == |s.workers| && Accounts(s)
    requires e.Encode? || e.Send? || e.CountFailure? || e.Finish?
    ensures Accounts(Step(s, e, queueSize))
  {
    hide Count, Queued;
    var t := Step(s, e, queueSize);
    if e.w < |s.workers| {
      WorkerMoves(s, e.w, t.workers[e.w]);
    }
  }

  lemma SubmitKeepsAccounts(s: State, e: Event, queueSize: nat)
    requires 0 < |s.queues| == |s.workers| && Accounts(s)
    requires e.SubmitStart? || e.SubmitCharge? || e.SubmitSelect? || e.SubmitUndo? || e.Stop?
    ensures Accounts(Step(s, e, queueSize))
  {
    hide Count, Queued, Partition;
    if e.SubmitSelect? && s.submitter.Charged? {
      var w := Partition(s.submitter.job.recipient, |s.queues|);
      QueuedUpdate(s.queues, w, s.queues[w] + [s.submitter.job]);
    }
  }

  // ------------------------------------------------------------------
  // Order
  // ------------------------------------------------------------------

  // The jobs a worker has still to send: the one in hand and its queue.
  function Ahead(s: State, w: nat): seq<Job>
    requires w < |s.queues| == |s.workers|
  {
    (if s.workers[w].Encoding? || s.workers[w].Sending? then [s.workers[w].job] else []) + s.queues[w]
  }

  ghost predicate InOrder(jobs: seq<Job>) {
    forall i, j | 0 <= i < j < |jobs| :: jobs[i].number < jobs[j].number
  }

  lemma InOrderTail(jobs: seq<Job>)
    requires InOrder(jobs) && jobs != []
    ensures InOrder(jobs[1..])
    ensures forall k | k in jobs[1..] :: jobs[0].number < k.number
  {
  }

  lemma InOrderAppend(jobs: seq<Job>, job: Job)
    requires InOrder(jobs) && forall k | k in jobs :: k.number < job.number
    ensures InOrder(jobs + [job])
  {
    assert forall i | 0 <= i < |jobs| :: jobs[i] in jobs;
  }

  // A job as it was submitted, in the hands of the right worker.
  ghost predicate Genuine(s: State, job: Job, w: nat)
    requires 0 < |s.queues|
  {
    job.number < |s.log| && s.log[job.number] == job.recipient && Partition(job.recipient, |s.queues|) == w
  }

  ghost predicate Ordered(s: State)
    requires 0 < |s.queues| == |s.workers|
  {
    && (forall w: nat | w < |s.queues| :: InOrder(Ahead(s, w)))
    && (forall w: nat, job | w < |s.queues| && job in Ahead(s, w) :: Genuine(s, job, w))
    && (forall job | job in s.sent :: Genuine(s, job, Partition(job.recipient, |s.queues|)))
    && (forall i, j | 0 <= i < j < |s.sent| && SameQueue(s, s.sent[i], s.sent[j]) ::
          s.sent[i].number < s.sent[j].number)
    && (forall job, w: nat, next | job in s.sent && w < |s.queues| && Partition(job.recipient, |s.queues|) == w
          && next in Ahead(s, w) :: job.number < next.number)
    && (s.submitter.Free? || SubmitterOk(s, s.submitter.job))
  }

  predicate SameQueue(s: State, a: Job, b: Job)
    requires 0 < |s.queues|
  {
    Partition(a.recipient, |s.queues|) == Partition(b.recipient, |s.queues|)
  }

  // The job being submitted is the newest, and nobody else has it yet.
  ghost predicate SubmitterOk(s: State, job: Job)
    requires 0 < |s.queues| == |s.workers|
  {
    && job.number == |s.log| - 1 && s.log[job.number] == job.recipient
    && (forall w: nat, other | w < |s.queues| && other in Ahead(s, w) :: other.number < job.number)
    && (forall other | other in s.sent :: other.number < job.number)
  }

  // A step that leaves the log, the sent list, the submitter's job and every
  // worker's outstanding jobs alone, or only drops the first of them.
  lemma FewerAheadKeeps(s: State, t: State)
    requires 0 < |s.queues| == |s.workers| && |t.queues| == |t.workers| == |s.queues| && Ordered(s)
    requires t.log == s.log && t.sent == s.sent
    requires t.submitter.Free? || (!s.submitter.Free? && t.submitter.job == s.submitter.job)
    requires forall w: nat | w < |s.queues| ::
               Ahead(t, w) == Ahead(s, w) || (Ahead(s, w) != [] && Ahead(t, w) == Ahead(s, w)[1..])
    ensures Ordered(t)
  {
    forall w: nat | w < |t.queues|
      ensures InOrder(Ahead(t, w))
      ensures forall job | job in Ahead(t, w) :: job in Ahead(s, w)
    {
      assert InOrder(Ahead(s, w));
    }
    forall w: nat, job | w < |t.queues| && job in Ahead(t, w)
      ensures Genuine(t, job, w)
    {
      assert Genuine(s, job, w);
    }
    SentCarries(s, t);
  }

  lemma SubmitStartKeepsOrder(s: State, r: Recipient, queueSize: nat)
    requires 0 < |s.queues| == |s.workers| && Ordered(s) && s.submitter.Free? && !s.stopped
    ensures Ordered(Step(s, SubmitStart(r), queueSize))
  {
    var t := Step(s, SubmitStart(r), queueSize);
    assert forall w: nat | w < |s.queues| :: Ahead(t, w) == Ahead(s, w);
    forall w: nat, job | w < |t.queues| && job in Ahead(t, w)
      ensures Genuine(t, job, w)
    {
      assert Genuine(s, job, w);
    }
    SentCarries(s, t);
  }

  lemma EnqueueKeepsOrder(s: State, t: State)
    requires 0 < |s.queues| == |s.workers| && Ordered(s) && s.submitter.Charged?
    requires var w := Partition(s.submitter.job.recipient, |s.queues|);
      t == s.(submitter := Free, queues := s.queues[w := s.queues[w] + [s.submitter.job]])
    ensures Ordered(t)
  {
    hide Partition;
    var mine, job := Partition(s.submitter.job.recipient, |s.queues|), s.submitter.job;
    assert SubmitterOk(s, job);
    AheadAfterEnqueue(s, t);
    hide Ahead;
    forall w: nat | w < |s.queues|
      ensures InOrder(Ahead(t, w))
    {
      assert InOrder(Ahead(s, w));
      if w == mine {
        InOrderAppend(Ahead(s, w), job);
      }
    }
    forall w: nat, k | w < |t.queues| && k in Ahead(t, w)
      ensures Genuine(t, k, w)
    {
      assert k == job || Genuine(s, k, w);
    }
    SentCarries(s, t);
  }

  lemma AheadAfterEnqueue(s: State, t: State)
    requires 0 < |s.queues| == |s.workers| && s.submitter.Charged?
    requires var w := Partition(s.submitter.job.recipient, |s.queues|);
      t == s.(submitter := Free, queues := s.queues[w := s.queues[w] + [s.submitter.job]])
    ensures forall w: nat | w < |s.queues| ::
      Ahead(t, w) == if w == Partition(s.submitter.job.recipient, |s.queues|)
                     then Ahead(s, w) + [s.submitter.job] else Ahead(s, w)
  {
  }

  // What is already sent stays genuine and ordered.
  lemma SentCarries(s: State, t: State)
    requires 0 < |s.queues| == |s.workers| && |t.queues| == |t.workers| == |s.queues| && Ordered(s)
    requires t.sent == s.sent && s.log <= t.log
    ensures forall job | job in t.sent :: Genuine(t, job, Partition(job.recipient, |t.queues|))
    ensures forall i, j | 0 <= i < j < |t.sent| && SameQueue(t, t.sent[i], t.sent[j]) ::
      t.sent[i].number < t.sent[j].number
  {
    forall job | job in t.sent
      ensures Genuine(t, job, Partition(job.recipient, |t.queues|))
    {
      assert Genuine(s, job, Partition(job.recipient, |s.queues|));
    }
    forall i, j | 0 <= i < j < |t.sent| && SameQueue(t, t.sent[i], t.sent[j])
      ensures t.sent[i].number < t.sent[j].number
    {
      assert SameQueue(s, s.sent[i], s.sent[j]);
    }
  }

  lemma SendKeepsOrder(s: State, w: nat, ok: bool, queueSize: nat)
    requires 0 < |s.queues| == |s.workers| && Ordered(s) && w < |s.workers| && s.workers[w].Sending?
    ensures Ordered(Step(s, Send(w, ok), queueSize))
  {
    AheadAfterSend(s, w, ok, queueSize);
    hide Ahead, Step, Partition;
    SentOneMore(s, Step(s, Send(w, ok), queueSize), w, s.workers[w].job);
  }

  // The first outstanding job of worker w has been sent.
  ghost predicate SentFirst(s: State, t: State, w: nat, job: Job)
    requires 0 < |s.queues| == |s.workers| && |t.queues| == |t.workers| == |s.queues| && w < |s.queues|
  {
    && t.sent == s.sent + [job] && t.log == s.log && t.submitter == s.submitter
    && Ahead(s, w) != [] && Ahead(s, w)[0] == job && Ahead(t, w) == Ahead(s, w)[1..]
    && forall v: nat | v < |s.queues| && v != w :: Ahead(t, v) == Ahead(s, v)
  }

  lemma SentOneMore(s: State, t: State, w: nat, job: Job)
    requires 0 < |s.queues| == |s.workers| && |t.queues| == |t.workers| == |s.queues| && w < |s.queues|
    requires Ordered(s) && SentFirst(s, t, w, job)
    ensures Ordered(t)
  {
    hide Ahead, Partition, InOrder, Genuine;
    AheadOneFewer(s, t, w, job);
    SentOneMoreInOrder(s, t, w, job);
    SubmitterAfterSend(s, t, w, job);
  }

  lemma AheadOneFewer(s: State, t: State, w: nat, job: Job)
    requires 0 < |s.queues| == |s.workers| && |t.queues| == |t.workers| == |s.queues| && w < |s.queues|
    requires Ordered(s) && SentFirst(s, t, w, job)
    ensures forall v: nat | v < |t.queues| :: InOrder(Ahead(t, v))
    ensures forall v: nat, k | v < |t.queues| && k in Ahead(t, v) :: Genuine(t, k, v)
  {
    hide Ahead, Partition;
    assert InOrder(Ahead(s, w));
    InOrderTail(Ahead(s, w));
    forall v: nat | v < |t.queues|
      ensures InOrder(Ahead(t, v)) && forall k | k in Ahead(t, v) :: Genuine(t, k, v)
    {
      assert InOrder(Ahead(s, v));
      assert forall k | k in Ahead(t, v) :: k in Ahead(s, v) && Genuine(s, k, v);
    }
  }

  lemma SubmitterAfterSend(s: State, t: State, w: nat, job: Job)
    requires 0 < |s.queues| == |s.workers| && |t.queues| == |t.workers| == |s.queues| && w < |s.queues|
    requires Ordered(s) && SentFirst(s, t, w, job)
    ensures t.submitter.Free? || SubmitterOk(t, t.submitter.job)
  {
    hide Ahead, Partition, InOrder, Genuine;
    assert job in Ahead(s, w);
    assert forall v: nat, k | v < |t.queues| && k in Ahead(t, v) :: k in Ahead(s, v);
  }

  lemma SentOneMoreInOrder(s: State, t: State, w: nat, job: Job)
    requires 0 < |s.queues| == |s.workers| && |t.queues| == |t.workers| == |s.queues| && w < |s.queues|
    requires Ordered(s) && SentFirst(s, t, w, job)
    ensures forall k | k in t.sent :: Genuine(t, k, Partition(k.recipient, |t.queues|))
    ensures forall i, j | 0 <= i < j < |t.sent| && SameQueue(t, t.sent[i], t.sent[j]) ::
      t.sent[i].number < t.sent[j].number
    ensures forall k, v: nat, next | k in t.sent && v < |t.queues| && Partition(k.recipient, |t.queues|) == v
      && next in Ahead(t, v) :: k.number < next.number
  {
    hide Ahead, Partition;
    InOrderTail(Ahead(s, w));
    assert job in Ahead(s, w) && Genuine(s, job, w);
    forall k | k in t.sent
      ensures Genuine(t, k, Partition(k.recipient, |t.queues|))
    {
      assert k == job || Genuine(s, k, Partition(k.recipient, |s.queues|));
    }
    forall i, j | 0 <= i < j < |t.sent| && SameQueue(t, t.sent[i], t.sent[j])
      ensures t.sent[i].number < t.sent[j].number
    {
      assert t.sent[i] == s.sent[i] && s.sent[i] in s.sent;
      if j < |s.sent| {
        assert SameQueue(s, s.sent[i], s.sent[j]);
      }
    }
    forall k, v: nat, next
      | k in t.sent && v < |t.queues| && Partition(k.recipient, |t.queues|) == v && next in Ahead(t, v)
      ensures k.number < next.number
    {
      assert next in Ahead(s, v);
    }
  }

  lemma AheadAfterSend(s: State, w: nat, ok: bool, queueSize: nat)
    requires 0 < |s.queues| == |s.workers| && w < |s.workers| && s.workers[w].Sending?
    ensures var t := Step(s, Send(w, ok), queueSize);
      |t.queues| == |t.workers| == |s.queues| && SentFirst(s, t, w, s.workers[w].job)
  {
  }

  lemma StepKeepsOrder(s: State, e: Event, queueSize: nat)
    requires 0 < |s.queues| == |s.workers| && Ordered(s)
    ensures Ordered(Step(s, e, queueSize))
  {
    var t := Step(s, e, queueSize);
    if t != s {
      match e
      case SubmitStart(r) => SubmitStartKeepsOrder(s, r, queueSize);
      case SubmitSelect =>
        if t.submitter.Free? {
          EnqueueKeepsOrder(s, t);
        } else {
          FewerAheadKeeps(s, t);
        }
      case Send(w, ok) => SendKeepsOrder(s, w, ok, queueSize);
      case _ =>
        AheadAfter(s, e, queueSize);
        FewerAheadKeeps(s, t);
    }
  }

  // Taking a job moves it from the queue to the hand; a job that turns out
  // empty or unencodable leaves.
  lemma AheadAfter(s: State, e: Event, queueSize: nat)
    requires 0 < |s.queues| == |s.workers|
    requires !e.SubmitStart? && !e.SubmitSelect? && !e.Send?
    ensures var t := Step(s, e, queueSize);
      && t.log == s.log && t.sent == s.sent && |t.queues| == |t.workers| == |s.queues|
      && (t.submitter.Free? || (!s.submitter.Free? && t.submitter.job == s.submitter.job))
      && forall w: nat | w < |s.queues| ::
           Ahead(t, w) == Ahead(s, w) || (Ahead(s, w) != [] && Ahead(t, w) == Ahead(s, w)[1..])
  {
    var t := Step(s, e, queueSize);
    forall w: nat | w < |s.queues|
      ensures Ahead(t, w) == Ahead(s, w) || (Ahead(s, w) != [] && Ahead(t, w) == Ahead(s, w)[1..])
    {
      if e.Encode? && e.w == w && Ahead(t, w) != Ahead(s, w) {
        assert Ahead(t, w) == Ahead(s, w)[1..];
      }
    }
  }

  // ------------------------------------------------------------------
  // Results
  // ------------------------------------------------------------------

  lemma {:induction false} RunKeeps(workerCount: nat, queueSize: nat, events: seq<Event>)
    requires 0 < workerCount
    ensures var s := Run(workerCount, queueSize, events);
      && Accounts(s) && Ordered(s)
      && (forall w | 0 <= w < workerCount :: |s.queues[w]| <= queueSize)
      && (forall w | 0 <= w < workerCount && s.workers[w].Exited? :: s.stopped && s.queues[w] == [])
      && (s.stopped ==> s.submitter.Free?)
  {
    if events == [] {
      CountNone(Start(workerCount).workers, MidEncode);
      CountNone(Start(workerCount).workers, MidSend);
      CountNone(Start(workerCount).workers, Busy);
      QueuedNone(Start(workerCount).queues);
    } else {
      var front, e := events[..|events| - 1], events[|events| - 1];
      RunKeeps(workerCount, queueSize, front);
      StepKeepsAccounts(Run(workerCount, queueSize, front), e, queueSize);
      StepKeepsOrder(Run(workerCount, queueSize, front), e, queueSize);
      StepKeepsQueues(Run(workerCount, queueSize, front), e, queueSize);
    }
  }

  lemma StepKeepsQueues(s: State, e: Event, queueSize: nat)
    requires 0 < |s.queues| == |s.workers|
    requires forall w | 0 <= w < |s.queues| :: |s.queues[w]| <= queueSize
    requires forall w | 0 <= w < |s.queues| && s.workers[w].Exited? :: s.stopped && s.queues[w] == []
    requires s.stopped ==> s.submitter.Free?
    ensures var t := Step(s, e, queueSize);
      && (forall w | 0 <= w < |t.queues| :: |t.queues[w]| <= queueSize)
      && (forall w | 0 <= w < |t.queues| && t.workers[w].Exited? :: t.stopped && t.queues[w] == [])
      && (t.stopped ==> t.submitter.Free?)
  {
  }

  // In every interleaving the jobs sent to one recipient are sent in the order
  // they were submitted, none twice, and each is one that was submitted to it.
  lemma DeliveriesKeepOrder(workerCount: nat, queueSize: nat, events: seq<Event>, i: nat, j: nat)
    requires 0 < workerCount
    requires i < j < |Run(workerCount, queueSize, events).sent|
    ensures var s := Run(workerCount, queueSize, events);
      && s.sent[i].number < |s.log| && s.log[s.sent[i].number] == s.sent[i].recipient
      && s.sent[j].number < |s.log| && s.log[s.sent[j].number] == s.sent[j].recipient
      && (s.sent[i].recipient == s.sent[j].recipient ==> s.sent[i].number < s.sent[j].number)
  {
    RunKeeps(workerCount, queueSize, events);
    var s := Run(workerCount, queueSize, events);
    assert s.sent[i] in s.sent && s.sent[j] in s.sent;
    assert Genuine(s, s.sent[i], Partition(s.sent[i].recipient, |s.queues|));
    assert Genuine(s, s.sent[j], Partition(s.sent[j].recipient, |s.queues|));
    if s.sent[i].recipient == s.sent[j].recipient {
      assert SameQueue(s, s.sent[i], s.sent[j]);
    }
  }

  // Between Submit calls every submitted job has been dropped, encoded, skipped
  // or failed to encode, or is queued or being encoded; each encoded one has
  // been sent or is about to be.
  lemma JobsAreConserved(workerCount: nat, queueSize: nat, events: seq<Event>)
    requires 0 < workerCount
    ensures var s := Run(workerCount, queueSize, events);
      var c := s.counters;
      && c.submitted == |s.log|
      && c.encoded == |s.sent| + Count(s.workers, MidSend)
      && (s.submitter.Free? ==>
            c.submitted == c.dropped + c.encoded + c.skippedEmpty + c.encodeErrors
              + Queued(s.queues) + Count(s.workers, MidEncode))
  {
    RunKeeps(workerCount, queueSize, events);
  }

  // In every interleaving inFlight is never negative, and it is zero exactly
  // when every queue is empty, every worker idle, and no Submit is between its
  // addition to the counter and either its queue or its subtraction.
  lemma IdleIffNothingInFlight(workerCount: nat, queueSize: nat, events: seq<Event>)
    requires 0 < workerCount
    ensures var s := Run(workerCount, queueSize, events);
      && s.counters.inFlight >= 0
      && (s.counters.inFlight == 0 <==>
            && !s.submitter.Charged? && !s.submitter.Dropping?
            && forall w: nat | w < workerCount :: s.queues[w] == [] && !Busy(s.workers[w]))
  {
    RunKeeps(workerCount, queueSize, events);
    var s := Run(workerCount, queueSize, events);
    if s.counters.inFlight == 0 {
      forall w: nat | w < workerCount
        ensures s.queues[w] == [] && !Busy(s.workers[w])
      {
        QueuedZero(s.queues, w);
        CountZero(s.workers, w, Busy);
      }
    }
    if forall w: nat | w < workerCount :: s.queues[w] == [] && !Busy(s.workers[w]) {
      QueuedNone(s.queues);
      CountNone(s.workers, Busy);
    }
  }

  // Once Stop has seen every worker exit, every job is accounted for and every
  // encoded one has been sent.
  lemma StopDrains(workerCount: nat, queueSize: nat, events: seq<Event>)
    requires 0 < workerCount
    requires forall w: nat | w < workerCount :: Run(workerCount, queueSize, events).workers[w].Exited?
    ensures var s := Run(workerCount, queueSize, events);
      var c := s.counters;
      && c.submitted == c.dropped + c.encoded + c.skippedEmpty + c.encodeErrors
      && c.encoded == |s.sent| && c.inFlight == 0
  {
    RunKeeps(workerCount, queueSize, events);
    var s := Run(workerCount, queueSize, events);
    assert s.workers[0].Exited?;
    QueuedNone(s.queues);
    CountNone(s.workers, MidEncode);
    CountNone(s.workers, MidSend);
    CountNone(s.workers, Busy);
  }

  // The jobs submitted to a worker's queue, and those taken from it, so far.

  ghost predicate Enqueues(s: State, e: Event, queueSize: nat, w: nat)
    requires 0 < |s.queues| == |s.workers|
  {
    && e.SubmitSelect? && s.submitter.Charged?
    && Partition(s.submitter.job.recipient, |s.queues|) == w && |s.queues[w]| < queueSize
  }

  ghost predicate Takes(s: State, e: Event, w: nat)
    requires |s.queues| == |s.workers|
  {
    e == Take(w) && w < |s.workers| && s.workers[w].Waiting? && s.queues[w] != []
  }

  ghost function Enqueued(workerCount: nat, queueSize: nat, events: seq<Event>, w: nat): nat
    requires 0 < workerCount
  {
    if events == [] then 0
    else
      var front, last := events[..|events| - 1], events[|events| - 1];
      Enqueued(workerCount, queueSize, front, w)
        + if Enqueues(Run(workerCount, queueSize, front), last, queueSize, w) then 1 else 0
  }

  ghost function Taken(workerCount: nat, queueSize: nat, events: seq<Event>, w: nat): nat
    requires 0 < workerCount
  {
    if events == [] then 0
    else
      var front, last := events[..|events| - 1], events[|events| - 1];
      Taken(workerCount, queueSize, front, w) + if Takes(Run(workerCount, queueSize, front), last, w) then 1 else 0
  }

  lemma StepOnQueue(s: State, e: Event, queueSize: nat, w: nat)
    requires 0 < |s.queues| == |s.workers| && w < |s.queues|
    ensures var t := Step(s, e, queueSize);
      && |t.queues| == |s.queues|
      && |t.queues[w]| == |s.queues[w]| + (if Enqueues(s, e, queueSize, w) then 1 else 0)
                                        - (if Takes(s, e, w) then 1 else 0)
  {
  }

  // A queue holds what was submitted to its worker and not yet taken, and is
  // never over its size.
  lemma {:induction false} QueueHoldsTheRest(workerCount: nat, queueSize: nat, events: seq<Event>, w: nat)
    requires w < workerCount
    ensures var s := Run(workerCount, queueSize, events);
      && |s.queues[w]| == Enqueued(workerCount, queueSize, events, w) - Taken(workerCount, queueSize, events, w)
      && |s.queues[w]| <= queueSize
  {
    if events != [] {
      hide Step, Enqueues, Takes;
      var front, last := events[..|events| - 1], events[|events| - 1];
      QueueHoldsTheRest(workerCount, queueSize, front, w);
      StepOnQueue(Run(workerCount, queueSize, front), last, queueSize, w);
      if Enqueues(Run(workerCount, queueSize, front), last, queueSize, w) {
        EnqueuesBelowSize(Run(workerCount, queueSize, front), last, queueSize, w);
      }
    }
  }

  lemma EnqueuesBelowSize(s: State, e: Event, queueSize: nat, w: nat)
    requires 0 < |s.queues| == |s.workers| && w < |s.queues| && Enqueues(s, e, queueSize, w)
    ensures |s.queues[w]| < queueSize
  {
  }

  // Over every run a job is dropped exactly when it arrives at its worker's
  // queue while queueSize jobs submitted to that worker have not been taken.
  lemma DropsOnlyWhenFull(workerCount: nat, queueSize: nat, events: seq<Event>, e: Event)
    requires 0 < workerCount
    ensures var s := Run(workerCount, queueSize, events);
      Run(workerCount, queueSize, events + [e]).counters.dropped > s.counters.dropped <==>
        && e.SubmitSelect? && s.submitter.Charged?
        && var w := Partition(s.submitter.job.recipient, workerCount);
           Enqueued(workerCount, queueSize, events, w) - Taken(workerCount, queueSize, events, w) == queueSize
  {
    hide Enqueued, Taken, Run;
    RunExtends(workerCount, queueSize, events, e);
    var s := Run(workerCount, queueSize, events);
    if e.SubmitSelect? && s.submitter.Charged? {
      QueueHoldsTheRest(workerCount, queueSize, events, Partition(s.submitter.job.recipient, workerCount));
    }
  }

  lemma RunExtends(workerCount: nat, queueSize: nat, events: seq<Event>, e: Event)
    requires 0 < workerCount
    ensures Run(workerCount, queueSize, events + [e]) == Step(Run(workerCount, queueSize, events), e, queueSize)
  {
    assert (events + [e])[..|events + [e]| - 1] == events;
  }
}
