// Which jobs the dispatcher sends, and what its counters count, told from the
// events of a run.
module DispatcherRuns {
  import opened Dispatcher

  // ------------------------------------------------------------------
  // What the events of a run did
  // ------------------------------------------------------------------

  // Job in the worker's hand when it encodes, with its outcome.
  ghost function Encodes(s: State, e: Event, outcome: Outcome): seq<Job> {
    if e.Encode? && e.outcome == outcome && e.w < |s.workers| && s.workers[e.w].Encoding? then [s.workers[e.w].job]
    else []
  }

  ghost function Sends(s: State, e: Event): seq<Job> {
    if e.Send? && e.w < |s.workers| && s.workers[e.w].Sending? then [s.workers[e.w].job] else []
  }

  ghost function Drops(s: State, e: Event, queueSize: nat): seq<Job>
    requires 0 < |s.queues|
  {
    if e.SubmitSelect? && s.submitter.Charged?
       && |s.queues[Partition(s.submitter.job.recipient, |s.queues|)]| >= queueSize then [s.submitter.job]
    else []
  }

  ghost function Submits(s: State, e: Event): seq<Recipient> {
    if e.SubmitStart? && s.submitter.Free? && !s.stopped then [e.recipient] else []
  }

  ghost function Fails(s: State, e: Event): nat {
    if Sends(s, e) != [] && !e.ok then 1 else 0
  }

  // The same for a whole run, in order.

  ghost function Encodings(workerCount: nat, queueSize: nat, events: seq<Event>, outcome: Outcome): seq<Job>
    requires 0 < workerCount
  {
    if events == [] then []
    else
      var front, last := events[..|events| - 1], events[|events| - 1];
      Encodings(workerCount, queueSize, front, outcome) + Encodes(Run(workerCount, queueSize, front), last, outcome)
  }

  ghost function Sendings(workerCount: nat, queueSize: nat, events: seq<Event>): seq<Job>
    requires 0 < workerCount
  {
    if events == [] then []
    else
      var front, last := events[..|events| - 1], events[|events| - 1];
      Sendings(workerCount, queueSize, front) + Sends(Run(workerCount, queueSize, front), last)
  }

  ghost function Drop(workerCount: nat, queueSize: nat, events: seq<Event>): seq<Job>
    requires 0 < workerCount
  {
    if events == [] then []
    else
      var front, last := events[..|events| - 1], events[|events| - 1];
      Drop(workerCount, queueSize, front) + Drops(Run(workerCount, queueSize, front), last, queueSize)
  }

  ghost function Submissions(workerCount: nat, queueSize: nat, events: seq<Event>): seq<Recipient>
    requires 0 < workerCount
  {
    if events == [] then []
    else
      var front, last := events[..|events| - 1], events[|events| - 1];
      Submissions(workerCount, queueSize, front) + Submits(Run(workerCount, queueSize, front), last)
  }

  ghost function Failures(workerCount: nat, queueSize: nat, events: seq<Event>): nat
    requires 0 < workerCount
  {
    if events == [] then 0
    else
      var front, last := events[..|events| - 1], events[|events| - 1];
      Failures(workerCount, queueSize, front) + Fails(Run(workerCount, queueSize, front), last)
  }

  predicate MidCount(w: Worker) { w.Failing? }

  // ------------------------------------------------------------------
  // One step
  // ------------------------------------------------------------------

  lemma StepCounts(s: State, e: Event, queueSize: nat)
    requires 0 < |s.queues| == |s.workers|
    ensures var t := Step(s, e, queueSize);
      && t.log == s.log + Submits(s, e)
      && t.sent == s.sent + Sends(s, e)
      && t.counters.submitted == s.counters.submitted + |Submits(s, e)|
      && t.counters.dropped == s.counters.dropped + |Drops(s, e, queueSize)|
      && t.counters.encoded == s.counters.encoded + |Encodes(s, e, Encoded)|
      && t.counters.skippedEmpty == s.counters.skippedEmpty + |Encodes(s, e, EmptyUpdate)|
      && t.counters.encodeErrors == s.counters.encodeErrors + |Encodes(s, e, EncodeError)|
  {
  }

  lemma StepCountsFailures(s: State, e: Event, queueSize: nat)
    requires 0 < |s.queues| == |s.workers|
    ensures var t := Step(s, e, queueSize);
      t.counters.sendFailures + Count(t.workers, MidCount)
        == s.counters.sendFailures + Count(s.workers, MidCount) + Fails(s, e)
  {
    hide Count, Partition;
    var t := Step(s, e, queueSize);
    if e.Take? || e.Encode? || e.Send? || e.CountFailure? || e.Finish? || e.Exit? {
      if e.w < |s.workers| {
        CountUpdate(s.workers, e.w, t.workers[e.w], MidCount);
        assert t.workers == s.workers[e.w := t.workers[e.w]];
      }
    }
  }

  // Each counter is the number of events that did what it counts; a failed Send
  // is counted or about to be. The log is who was submitted to, and what was
  // sent is what the Sends had in hand.
  lemma {:induction false} CountersAreExact(workerCount: nat, queueSize: nat, events: seq<Event>)
    requires 0 < workerCount
    ensures var s := Run(workerCount, queueSize, events);
      var c := s.counters;
      && s.log == Submissions(workerCount, queueSize, events)
      && s.sent == Sendings(workerCount, queueSize, events)
      && c.submitted == |Submissions(workerCount, queueSize, events)|
      && c.dropped == |Drop(workerCount, queueSize, events)|
      && c.encoded == |Encodings(workerCount, queueSize, events, Encoded)|
      && c.skippedEmpty == |Encodings(workerCount, queueSize, events, EmptyUpdate)|
      && c.encodeErrors == |Encodings(workerCount, queueSize, events, EncodeError)|
      && c.sendFailures + Count(s.workers, MidCount) == Failures(workerCount, queueSize, events)
  {
    if events == [] {
      CountNone(Start(workerCount).workers, MidCount);
    } else {
      hide Step, Encodes, Sends, Submits, Drops, Fails, Count;
      var front, e := events[..|events| - 1], events[|events| - 1];
      CountersAreExact(workerCount, queueSize, front);
      StepCounts(Run(workerCount, queueSize, front), e, queueSize);
      StepCountsFailures(Run(workerCount, queueSize, front), e, queueSize);
    }
  }

  // ------------------------------------------------------------------
  // Exactly the encoded jobs are sent
  // ------------------------------------------------------------------

  // A recipient's jobs.
  function For(jobs: seq<Job>, r: Recipient): seq<Job> {
    if jobs == [] then []
    else For(jobs[..|jobs| - 1], r) + if jobs[|jobs| - 1].recipient == r then [jobs[|jobs| - 1]] else []
  }

  lemma ForAppend(jobs: seq<Job>, job: Job, r: Recipient)
    ensures For(jobs + [job], r) == For(jobs, r) + if job.recipient == r then [job] else []
  {
    assert (jobs + [job])[..|jobs + [job]| - 1] == jobs;
  }

  lemma {:induction false} ForIn(jobs: seq<Job>, r: Recipient, job: Job)
    ensures job in For(jobs, r) <==> job in jobs && job.recipient == r
  {
    if jobs != [] {
      assert jobs == jobs[..|jobs| - 1] + [jobs[|jobs| - 1]];
      ForIn(jobs[..|jobs| - 1], r, job);
    }
  }

  // The recipient's job that its worker has encoded and not yet sent.
  function InHand(s: State, r: Recipient): seq<Job>
    requires 0 < |s.queues| == |s.workers|
  {
    var worker := s.workers[Partition(r, |s.queues|)];
    if worker.Sending? && worker.job.recipient == r then [worker.job] else []
  }

  // A worker is about to send exactly after encoding, and until it has sent.
  lemma StepOnWorker(s: State, e: Event, queueSize: nat, w: nat)
    requires 0 < |s.queues| == |s.workers| && w < |s.workers|
    ensures var was, now := s.workers[w], Step(s, e, queueSize).workers[w];
      if e.Encode? && e.w == w && Encodes(s, e, Encoded) != [] then now == Sending(was.job)
      else if e.Send? && e.w == w && Sends(s, e) != [] then !now.Sending?
      else if was.Sending? then now == was
      else !now.Sending?
  {
  }

  lemma StepInHand(s: State, e: Event, queueSize: nat, r: Recipient)
    requires 0 < |s.queues| == |s.workers| && Ordered(s)
    ensures var t := Step(s, e, queueSize);
      For(Sends(s, e), r) + InHand(t, r) == InHand(s, r) + For(Encodes(s, e, Encoded), r)
  {
    hide Ordered, Partition, Step;
    StepOnWorker(s, e, queueSize, Partition(r, |s.queues|));
    if Sends(s, e) != [] || Encodes(s, e, Encoded) != [] {
      InRightHands(s, e.w);
      ForOne(s.workers[e.w].job, r);
    }
  }

  lemma ForOne(job: Job, r: Recipient)
    ensures For([job], r) == if job.recipient == r then [job] else []
  {
    ForAppend([], job, r);
    assert [] + [job] == [job];
  }

  lemma InRightHands(s: State, w: nat)
    requires 0 < |s.queues| == |s.workers| && Ordered(s) && w < |s.workers|
    requires s.workers[w].Encoding? || s.workers[w].Sending?
    ensures Partition(s.workers[w].job.recipient, |s.queues|) == w
  {
    hide Partition, InOrder;
    assert s.workers[w].job in Ahead(s, w);
    assert Genuine(s, s.workers[w].job, w);
  }

  // In every interleaving what has been sent to a recipient, and what its worker
  // is about to send it, are exactly its jobs that were encoded, in the order
  // they were; and that is the order they were submitted in.
  lemma {:induction false} EncodedAreSent(workerCount: nat, queueSize: nat, events: seq<Event>, r: Recipient)
    requires 0 < workerCount
    ensures var s := Run(workerCount, queueSize, events);
      For(s.sent, r) + InHand(s, r) == For(Encodings(workerCount, queueSize, events, Encoded), r)
  {
    if events != [] {
      hide Step, Encodes, Sends, InHand, For, Ordered;
      var front, e := events[..|events| - 1], events[|events| - 1];
      var s := Run(workerCount, queueSize, front);
      EncodedAreSent(workerCount, queueSize, front, r);
      RunKeeps(workerCount, queueSize, front);
      StepInHand(s, e, queueSize, r);
      StepCounts(s, e, queueSize);
      ForConcat(s.sent, Sends(s, e), r);
      ForConcat(Encodings(workerCount, queueSize, front, Encoded), Encodes(s, e, Encoded), r);
      Regroup(For(s.sent, r), For(Sends(s, e), r), InHand(Step(s, e, queueSize), r), InHand(s, r),
              For(Encodes(s, e, Encoded), r));
    } else {
      NothingInHand(workerCount, r);
    }
  }

  lemma NothingInHand(workerCount: nat, r: Recipient)
    requires 0 < workerCount
    ensures InHand(Start(workerCount), r) == []
  {
  }

  lemma {:induction false} ForConcat(front: seq<Job>, back: seq<Job>, r: Recipient)
    ensures For(front + back, r) == For(front, r) + For(back, r)
  {
    if back == [] {
      assert front + back == front;
    } else {
      var most, last := back[..|back| - 1], back[|back| - 1];
      assert front + back == front + most + [last];
      ForConcat(front, most, r);
      ForAppend(front + most, last, r);
    }
  }

  lemma Regroup<T>(sent: seq<T>, more: seq<T>, hand: seq<T>, before: seq<T>, encoded: seq<T>)
    requires more + hand == before + encoded
    ensures sent + more + hand == sent + before + encoded
  {
    assert sent + more + hand == sent + (more + hand);
    assert sent + before + encoded == sent + (before + encoded);
  }

  lemma {:induction false} ForInOrder(jobs: seq<Job>, r: Recipient)
    requires forall i, j | 0 <= i < j < |jobs| && jobs[i].recipient == jobs[j].recipient ::
               jobs[i].number < jobs[j].number
    ensures InOrder(For(jobs, r))
  {
    if jobs != [] {
      var front, last := jobs[..|jobs| - 1], jobs[|jobs| - 1];
      ForInOrder(front, r);
      if last.recipient == r {
        forall k | k in For(front, r)
          ensures k.number < last.number
        {
          ForIn(front, r, k);
          var i :| 0 <= i < |front| && front[i] == k;
          assert jobs[i] == k;
        }
        InOrderAppend(For(front, r), last);
      }
    }
  }

  // ------------------------------------------------------------------
  // Results
  // ------------------------------------------------------------------

  // In every interleaving a recipient's deliveries, with the one its worker is
  // about to make, are exactly its jobs whose encoding gave an update, each
  // once, in the order they were submitted.
  lemma DeliveriesAreTheEncoded(workerCount: nat, queueSize: nat, events: seq<Event>, r: Recipient)
    requires 0 < workerCount
    ensures var s := Run(workerCount, queueSize, events);
      var encoded := For(Encodings(workerCount, queueSize, events, Encoded), r);
      && For(s.sent, r) + InHand(s, r) == encoded
      && InOrder(encoded)
      && forall job | job in encoded :: job.number < |s.log| && s.log[job.number] == job.recipient
  {
    hide Run, Encodings, Ordered, InHand;
    EncodedAreSent(workerCount, queueSize, events, r);
    RunKeeps(workerCount, queueSize, events);
    SentInOrder(Run(workerCount, queueSize, events), r);
  }

  lemma SentInOrder(s: State, r: Recipient)
    requires 0 < |s.queues| == |s.workers| && Ordered(s)
    ensures InOrder(For(s.sent, r) + InHand(s, r))
    ensures forall job | job in For(s.sent, r) + InHand(s, r) ::
              job.number < |s.log| && s.log[job.number] == job.recipient
  {
    hide InOrder, For, Partition;
    var w := Partition(r, |s.queues|);
    forall i, j | 0 <= i < j < |s.sent| && s.sent[i].recipient == s.sent[j].recipient
      ensures s.sent[i].number < s.sent[j].number
    {
      assert SameQueue(s, s.sent[i], s.sent[j]);
    }
    ForInOrder(s.sent, r);
    forall job | job in For(s.sent, r)
      ensures job.number < |s.log| && s.log[job.number] == job.recipient
      ensures forall next | next in Ahead(s, w) :: job.number < next.number
    {
      ForIn(s.sent, r, job);
      assert Genuine(s, job, Partition(job.recipient, |s.queues|));
    }
    if InHand(s, r) != [] {
      assert s.workers[w].job in Ahead(s, w);
      assert Genuine(s, s.workers[w].job, w);
      InOrderAppend(For(s.sent, r), s.workers[w].job);
    } else {
      assert For(s.sent, r) + InHand(s, r) == For(s.sent, r);
    }
  }

  // A job is sent or about to be if and only if its own encoding gave an update.
  lemma SentIffEncoded(workerCount: nat, queueSize: nat, events: seq<Event>, job: Job)
    requires 0 < workerCount
    ensures var s := Run(workerCount, queueSize, events);
      job in Encodings(workerCount, queueSize, events, Encoded) <==>
        job in s.sent || exists w: nat :: w < |s.workers| && s.workers[w] == Sending(job)
  {
    hide Run, Encodings, Ordered, Partition;
    var s, r := Run(workerCount, queueSize, events), job.recipient;
    var encoded := Encodings(workerCount, queueSize, events, Encoded);
    EncodedAreSent(workerCount, queueSize, events, r);
    RunKeeps(workerCount, queueSize, events);
    ForIn(encoded, r, job);
    ForIn(s.sent, r, job);
    assert job in For(s.sent, r) + InHand(s, r) <==> job in For(encoded, r);
    forall w: nat | w < |s.workers| && s.workers[w] == Sending(job)
      ensures w == Partition(r, |s.queues|)
    {
      InRightHands(s, w);
    }
    if job in InHand(s, r) {
      assert s.workers[Partition(r, |s.queues|)] == Sending(job);
    }
  }

  // Where a submitted job is: dropped, encoded with one outcome or another, in
  // the queue or the encoding hand of its worker, or still being submitted.
  ghost predicate IsSomewhere(workerCount: nat, queueSize: nat, events: seq<Event>, job: Job)
    requires 0 < workerCount
  {
    var s := Run(workerCount, queueSize, events);
    var w := Partition(job.recipient, workerCount);
    || job in Drop(workerCount, queueSize, events)
    || (exists outcome :: job in Encodings(workerCount, queueSize, events, outcome))
    || job in s.queues[w] || s.workers[w] == Encoding(job)
    || ((s.submitter.Counted? || s.submitter.Charged?) && s.submitter.job == job)
  }

  // Every job that was ever submitted is somewhere.
  lemma {:induction false} NoJobIsLost(workerCount: nat, queueSize: nat, events: seq<Event>, n: nat)
    requires 0 < workerCount && n < |Run(workerCount, queueSize, events).log|
    ensures IsSomewhere(workerCount, queueSize, events, Job(n, Run(workerCount, queueSize, events).log[n]))
  {
    if events != [] {
      var front, e := events[..|events| - 1], events[|events| - 1];
      var s, t := Run(workerCount, queueSize, front), Run(workerCount, queueSize, events);
      RunKeeps(workerCount, queueSize, front);
      StepCounts(s, e, queueSize);
      if n < |s.log| {
        NoJobIsLost(workerCount, queueSize, front, n);
        StaysSomewhere(workerCount, queueSize, events, Job(n, s.log[n]));
      } else {
        JustSubmitted(s, e, queueSize);
      }
    }
  }

  lemma JustSubmitted(s: State, e: Event, queueSize: nat)
    requires 0 < |s.queues| == |s.workers| && Submits(s, e) != []
    ensures var t := Step(s, e, queueSize);
      |t.log| == |s.log| + 1 && t.submitter == Counted(Job(|s.log|, t.log[|s.log|]))
  {
  }

  lemma StaysSomewhere(workerCount: nat, queueSize: nat, events: seq<Event>, job: Job)
    requires 0 < workerCount && events != []
    requires IsSomewhere(workerCount, queueSize, events[..|events| - 1], job)
    ensures IsSomewhere(workerCount, queueSize, events, job)
  {
    var front, e := events[..|events| - 1], events[|events| - 1];
    var s, w := Run(workerCount, queueSize, front), Partition(job.recipient, workerCount);
    hide Run, Partition, Encodings;
    if outcome :| job in Encodings(workerCount, queueSize, front, outcome) {
      EncodingsGrow(workerCount, queueSize, events, outcome);
      assert job in Encodings(workerCount, queueSize, events, outcome);
    } else if s.workers[w] == Encoding(job) && e.Encode? && e.w == w {
      EncodingsGrow(workerCount, queueSize, events, e.outcome);
      assert job in Encodings(workerCount, queueSize, events, e.outcome);
    } else if !(job in Drop(workerCount, queueSize, front)) {
      StepOnJob(s, e, queueSize, job);
      RunGrows(workerCount, queueSize, events);
    }
  }

  lemma EncodingsGrow(workerCount: nat, queueSize: nat, events: seq<Event>, outcome: Outcome)
    requires 0 < workerCount && events != []
    ensures var front, e := events[..|events| - 1], events[|events| - 1];
      Encodings(workerCount, queueSize, events, outcome)
        == Encodings(workerCount, queueSize, front, outcome) + Encodes(Run(workerCount, queueSize, front), e, outcome)
  {
  }

  lemma RunGrows(workerCount: nat, queueSize: nat, events: seq<Event>)
    requires 0 < workerCount && events != []
    ensures Run(workerCount, queueSize, events)
         == Step(Run(workerCount, queueSize, events[..|events| - 1]), events[|events| - 1], queueSize)
  {
    hide Step;
  }

  // A job that is queued, in hand or being submitted moves on or stays.
  lemma StepOnJob(s: State, e: Event, queueSize: nat, job: Job)
    requires 0 < |s.queues| == |s.workers|
    requires var w := Partition(job.recipient, |s.queues|);
      || job in s.queues[w] || (s.workers[w] == Encoding(job) && !(e.Encode? && e.w == w))
      || ((s.submitter.Counted? || s.submitter.Charged?) && s.submitter.job == job)
    ensures var w, t := Partition(job.recipient, |s.queues|), Step(s, e, queueSize);
      || job in t.queues[w] || t.workers[w] == Encoding(job)
      || ((t.submitter.Counted? || t.submitter.Charged?) && t.submitter.job == job)
      || job in Drops(s, e, queueSize)
  {
    hide Partition;
    var w, t := Partition(job.recipient, |s.queues|), Step(s, e, queueSize);
    if job in s.queues[w] && e == Take(w) && t != s {
      assert s.queues[w] == [s.queues[w][0]] + s.queues[w][1..];
    }
  }

  // ------------------------------------------------------------------
  // Progress
  // ------------------------------------------------------------------

  function Steps(s: State, events: seq<Event>, queueSize: nat): (t: State)
    requires 0 < |s.queues| == |s.workers|
    ensures |t.queues| == |t.workers| == |s.queues|
    decreases |events|
  {
    if events == [] then s else Steps(Step(s, events[0], queueSize), events[1..], queueSize)
  }

  lemma OneStepMore(s: State, e: Event, events: seq<Event>, queueSize: nat)
    requires 0 < |s.queues| == |s.workers|
    ensures Steps(s, [e] + events, queueSize) == Steps(Step(s, e, queueSize), events, queueSize)
  {
    assert ([e] + events)[1..] == events;
  }

  lemma LastStep(s: State, e: Event, queueSize: nat)
    requires 0 < |s.queues| == |s.workers|
    ensures Steps(s, [e], queueSize) == Step(s, e, queueSize)
  {
    hide Step;
    OneStepMore(s, e, [], queueSize);
    assert [e] + [] == [e];
  }

  // What a worker does with one job, depending on the encoding and the Send.
  function Serving(w: nat, outcome: Outcome, ok: bool): seq<Event> {
    [Take(w)] + ([Encode(w, outcome)] + if outcome == Encoded then Delivering(w, ok) else [Finish(w)])
  }

  function Delivering(w: nat, ok: bool): seq<Event> {
    [Send(w, ok)] + if ok then [Finish(w)] else [CountFailure(w)] + [Finish(w)]
  }

  // A worker that gets to its next job is done with it afterwards: the job is
  // sent if it was encoded, the counters say how it went, and nothing else has
  // changed.
  lemma OneJobServed(s: State, w: nat, outcome: Outcome, ok: bool, queueSize: nat)
    requires 0 < |s.queues| == |s.workers| && w < |s.workers| && s.workers[w].Waiting? && s.queues[w] != []
    ensures var c := s.counters;
      Steps(s, Serving(w, outcome, ok), queueSize)
        == s.(queues := s.queues[w := s.queues[w][1..]],
              sent := if outcome == Encoded then s.sent + [s.queues[w][0]] else s.sent,
              counters := c.(encoded := c.encoded + if outcome == Encoded then 1 else 0,
                             skippedEmpty := c.skippedEmpty + if outcome == EmptyUpdate then 1 else 0,
                             encodeErrors := c.encodeErrors + if outcome == EncodeError then 1 else 0,
                             sendFailures := c.sendFailures + if outcome == Encoded && !ok then 1 else 0,
                             inFlight := c.inFlight - 1))
  {
    hide Steps, Delivering, Partition;
    var job, rest := s.queues[w][0], if outcome == Encoded then Delivering(w, ok) else [Finish(w)];
    var taken := s.(workers := s.workers[w := Encoding(job)], queues := s.queues[w := s.queues[w][1..]]);
    assert Step(s, Take(w), queueSize) == taken;
    var encoded := Step(taken, Encode(w, outcome), queueSize);
    assert s.workers[w := Encoding(job)][w := Waiting] == s.workers;
    OneStepMore(s, Take(w), [Encode(w, outcome)] + rest, queueSize);
    OneStepMore(taken, Encode(w, outcome), rest, queueSize);
    if outcome == Encoded {
      assert encoded.workers == s.workers[w := Sending(job)];
      OneJobDelivered(encoded, w, job, ok, queueSize);
      assert encoded.workers[w := Waiting] == s.workers;
    } else {
      assert encoded.workers == s.workers[w := Finishing(job)];
      LastStep(encoded, Finish(w), queueSize);
      assert encoded.workers[w := Waiting] == s.workers;
    }
  }

  lemma OneJobDelivered(s: State, w: nat, job: Job, ok: bool, queueSize: nat)
    requires 0 < |s.queues| == |s.workers| && w < |s.workers| && s.workers[w] == Sending(job)
    ensures var c := s.counters;
      Steps(s, Delivering(w, ok), queueSize)
        == s.(workers := s.workers[w := Waiting], sent := s.sent + [job],
              counters := c.(sendFailures := c.sendFailures + if ok then 0 else 1, inFlight := c.inFlight - 1))
  {
    hide Steps, Partition;
    var sent := Step(s, Send(w, ok), queueSize);
    if ok {
      OneStepMore(s, Send(w, ok), [Finish(w)], queueSize);
      LastStep(sent, Finish(w), queueSize);
      assert s.workers[w := Finishing(job)][w := Waiting] == s.workers[w := Waiting];
    } else {
      OneStepMore(s, Send(w, ok), [CountFailure(w)] + [Finish(w)], queueSize);
      OneStepMore(sent, CountFailure(w), [Finish(w)], queueSize);
      LastStep(Step(sent, CountFailure(w), queueSize), Finish(w), queueSize);
      assert s.workers[w := Failing(job)][w := Finishing(job)][w := Waiting] == s.workers[w := Waiting];
    }
  }

  // A Submit that nobody interferes with queues the job, or drops it and says so.
  lemma OneSubmit(s: State, r: Recipient, queueSize: nat)
    requires 0 < |s.queues| == |s.workers| && s.submitter.Free? && !s.stopped
    ensures var w, job, c := Partition(r, |s.queues|), Job(|s.log|, r), s.counters;
      Steps(s, [SubmitStart(r)] + ([SubmitCharge] + ([SubmitSelect] + [SubmitUndo])), queueSize)
        == if |s.queues[w]| < queueSize then
             s.(log := s.log + [r], queues := s.queues[w := s.queues[w] + [job]],
                counters := c.(submitted := c.submitted + 1, inFlight := c.inFlight + 1))
           else
             s.(log := s.log + [r], counters := c.(submitted := c.submitted + 1, dropped := c.dropped + 1))
  {
    hide Steps, Partition;
    var s1 := Step(s, SubmitStart(r), queueSize);
    var s2 := Step(s1, SubmitCharge, queueSize);
    var s3 := Step(s2, SubmitSelect, queueSize);
    OneStepMore(s, SubmitStart(r), [SubmitCharge] + ([SubmitSelect] + [SubmitUndo]), queueSize);
    OneStepMore(s1, SubmitCharge, [SubmitSelect] + [SubmitUndo], queueSize);
    OneStepMore(s2, SubmitSelect, [SubmitUndo], queueSize);
    LastStep(s3, SubmitUndo, queueSize);
  }
}
