// The position writer as the object that applies batches, with rows or chunks
// that may fail to be written.
module PositionWorker {
  import opened Common
  import opened Sequences
  import opened PositionPersistence
  import opened PositionRuns

  const MAX_CHUNK := 500

  // The offset of the chunk that row k is written with.
  function ChunkOffset(k: nat): (offset: nat)
    ensures offset <= k < offset + 500 && offset % 500 == 0
  {
    k / MAX_CHUNK * MAX_CHUNK
  }

  // The accepted updates once each, in some order.
  ghost predicate ListsAccepted(accepted: map<UserId, Update>, updates: seq<Update>) {
    && (forall x | x in updates :: x.user in accepted && accepted[x.user] == x)
    && (forall u | u in accepted :: accepted[u].user == u && accepted[u] in updates)
    && (forall i, j | 0 <= i < j < |updates| :: updates[i].user != updates[j].user)
  }

  // The rows from i to end are exactly those of the chunk at offset i.
  lemma ChunkOffsets(i: nat, end: nat)
    requires i % MAX_CHUNK == 0 && i <= end <= i + MAX_CHUNK
    ensures forall k | i <= k < end :: ChunkOffset(k) == i
  {
  }

  lemma SavedByChunk(updates: seq<Update>, accepted: map<UserId, Update>, i: nat, end: nat,
                     before: set<UserId>, saved: set<UserId>, chunkFails: nat -> bool)
    requires ListsAccepted(accepted, updates) && i < |updates| && i < end <= |updates|
    requires end == if i + MAX_CHUNK < |updates| then i + MAX_CHUNK else |updates|
    requires forall k | i <= k < end :: ChunkOffset(k) == i
    requires forall k | 0 <= k < |updates| ::
               updates[k].user in before <==> k < i && !chunkFails(ChunkOffset(k))
    requires saved == if chunkFails(i) then before else before + (set k | i <= k < end :: updates[k].user)
    ensures forall k | 0 <= k < |updates| ::
              updates[k].user in saved <==> k < i + MAX_CHUNK && !chunkFails(ChunkOffset(k))
  {
    assert forall j, k | 0 <= j < |updates| && 0 <= k < |updates| && updates[j].user == updates[k].user :: j == k;
  }

  lemma BestAreTheirOwn(lastSeq: map<UserId, nat>, batch: seq<Update>, best: map<UserId, Update>)
    requires Accepts(lastSeq, batch, best)
    ensures forall u | u in best :: best[u].user == u
  {
  }

  lemma ListedRows(accepted: map<UserId, Update>, updates: seq<Update>)
    requires ListsAccepted(accepted, updates)
    ensures forall k | 0 <= k < |updates| :: updates[k].user in accepted
  {
  }

  lemma OneMoreRound(stored: map<UserId, LatLng>, rounds: seq<Round>, r: Round)
    requires Possible(stored, rounds)
    requires Accepts(After(stored, rounds).lastSeq, r.batch, r.accepted) && r.saved <= r.accepted.Keys
    ensures Possible(stored, rounds + [r])
    ensures After(stored, rounds + [r]) == Written(After(stored, rounds), r.accepted, r.saved)
  {
    hide Accepts, Written;
    assert (rounds + [r])[..|rounds|] == rounds;
  }

  // The values of a map, in any order.
  method Values(best: map<UserId, Update>) returns (updates: seq<Update>)
    requires forall u | u in best :: best[u].user == u
    ensures ListsAccepted(best, updates)
  {
    updates := [];
    var rest := best.Keys;
    while rest != {}
      invariant rest <= best.Keys
      invariant forall x | x in updates :: x.user in best && x.user !in rest && best[x.user] == x
      invariant forall u | u in best && u !in rest :: best[u] in updates
      invariant forall i, j | 0 <= i < j < |updates| :: updates[i].user != updates[j].user
    {
      var u := AnyOf(rest);
      updates := updates + [best[u]];
      rest := rest - {u};
    }
  }

  class PersistenceWorker {
    const bulk: bool
    var lastSeq: map<UserId, nat>
    var stored: map<UserId, LatLng>
    // What the database held at first, and the batches applied since.
    ghost const initial: map<UserId, LatLng>
    ghost var rounds: seq<Round>

    constructor (bulk: bool, stored: map<UserId, LatLng>)
      ensures this.bulk == bulk && initial == stored
      ensures Lived() && rounds == []
    {
      this.bulk := bulk;
      this.lastSeq := map[];
      this.stored := stored;
      this.initial := stored;
      this.rounds := [];
    }

    ghost function State(): Store
      reads this
    {
      Store(lastSeq, stored)
    }

    // The worker is where a run of the batches it has applied leads.
    ghost predicate Lived()
      reads this
    {
      Possible(initial, rounds) && State() == After(initial, rounds)
    }

    // One batch. rowFails and chunkFails say which writes the database
    // refuses; a chunk is known by its offset in the order the rows come in.
    method Apply(batch: seq<Update>, rowFails: UserId -> bool, chunkFails: nat -> bool)
      returns (ghost accepted: map<UserId, Update>, ghost saved: set<UserId>, ghost order: seq<Update>)
      requires Lived()
      modifies this
      ensures Lived() && rounds == old(rounds) + [Round(batch, accepted, saved)]
      ensures Accepts(old(lastSeq), batch, accepted) && ListsAccepted(accepted, order) && saved <= accepted.Keys
      ensures State() == Written(old(State()), accepted, saved)
      ensures forall k | 0 <= k < |order| ::
                order[k].user in saved <==> if bulk then !chunkFails(ChunkOffset(k)) else !rowFails(order[k].user)
    {
      hide Accepts, ListsAccepted, Written, ChunkOffset;
      var best := FilterAndCollapse(batch);
      accepted := best;
      BestAreTheirOwn(lastSeq, batch, best);
      var updates := Values(best);
      order := updates;
      if |updates| == 0 {
        saved := {};
        NoneWritten(State(), best);
      } else if bulk {
        saved := ApplyBulk(best, updates, chunkFails);
      } else {
        saved := ApplyPerRow(best, updates, rowFails);
        ListedRows(best, updates);
      }
      OneMoreRound(initial, rounds, Round(batch, accepted, saved));
      rounds := rounds + [Round(batch, accepted, saved)];
    }

    method FilterAndCollapse(batch: seq<Update>) returns (best: map<UserId, Update>)
      ensures Accepts(lastSeq, batch, best)
    {
      best := map[];
      for i := 0 to |batch|
        invariant Accepts(lastSeq, batch[..i], best)
      {
        var u := batch[i];
        ghost var before := best;
        if u.number > Last(lastSeq, u.user) {
          if u.user !in best || u.number > best[u.user].number {
            best := best[u.user := u];
          }
        }
        AcceptsOneMore(lastSeq, batch, i, before, best);
      }
      assert batch[..|batch|] == batch;
    }

    // Row by row: a row that fails is skipped and its number not remembered.
    method ApplyPerRow(ghost accepted: map<UserId, Update>, updates: seq<Update>, rowFails: UserId -> bool)
      returns (ghost saved: set<UserId>)
      requires ListsAccepted(accepted, updates)
      modifies this`lastSeq, this`stored
      ensures saved <= accepted.Keys && State() == Written(old(State()), accepted, saved)
      ensures forall u | u in accepted :: u in saved <==> !rowFails(u)
    {
      saved := {};
      NoneWritten(State(), accepted);
      for i := 0 to |updates|
        invariant saved == set x | x in updates[..i] && !rowFails(x.user) :: x.user
        invariant saved <= accepted.Keys && State() == Written(old(State()), accepted, saved)
      {
        var u := updates[i];
        assert updates[..i + 1] == updates[..i] + [u];
        if rowFails(u.user) {
          continue;
        }
        WrittenOneMore(old(State()), accepted, saved, u.user);
        stored := stored[u.user := PlaceOf(u)];
        lastSeq := lastSeq[u.user := u.number];
        saved := saved + {u.user};
      }
      assert updates[..|updates|] == updates;
    }

    // In chunks: a chunk that fails writes none of its rows and does not stop
    // the ones after it.
    method ApplyBulk(ghost accepted: map<UserId, Update>, updates: seq<Update>, chunkFails: nat -> bool)
      returns (ghost saved: set<UserId>)
      requires ListsAccepted(accepted, updates)
      modifies this`lastSeq, this`stored
      ensures saved <= accepted.Keys && State() == Written(old(State()), accepted, saved)
      ensures forall k | 0 <= k < |updates| ::
                updates[k].user in saved <==> !chunkFails(ChunkOffset(k))
    {
      hide ChunkOffset, Written;
      saved := {};
      NoneWritten(State(), accepted);
      var i := 0;
      while i < |updates|
        invariant i % MAX_CHUNK == 0
        invariant saved <= accepted.Keys && State() == Written(old(State()), accepted, saved)
        invariant forall k | 0 <= k < |updates| ::
                    updates[k].user in saved <==> k < i && !chunkFails(ChunkOffset(k))
        decreases |updates| - i
      {
        var end := if i + MAX_CHUNK < |updates| then i + MAX_CHUNK else |updates|;
        ghost var before := saved;
        ChunkOffsets(i, end);
        if !chunkFails(i) {
          saved := SaveChunk(accepted, updates, i, end, saved);
        }
        SavedByChunk(updates, accepted, i, end, before, saved, chunkFails);
        i := i + MAX_CHUNK;
      }
    }

    // One transaction over the rows from i to end, and the numbers it settles.
    method SaveChunk(ghost accepted: map<UserId, Update>, updates: seq<Update>, i: nat, end: nat,
                     ghost before: set<UserId>)
      returns (ghost saved: set<UserId>)
      requires ListsAccepted(accepted, updates) && i <= end <= |updates| && end - i <= MAX_CHUNK
      requires before <= accepted.Keys
      modifies this`lastSeq, this`stored
      ensures saved == before + (set k | i <= k < end :: updates[k].user) && saved <= accepted.Keys
      ensures forall s: Store | old(State()) == Written(s, accepted, before) ::
                State() == Written(s, accepted, saved)
    {
      saved := before;
      for k := i to end
        invariant saved == before + (set j | i <= j < k :: updates[j].user) && saved <= accepted.Keys
        invariant forall s: Store | old(State()) == Written(s, accepted, before) ::
          State() == Written(s, accepted, saved)
      {
        var u := updates[k];
        forall s: Store | old(State()) == Written(s, accepted, before)
          ensures State() == Written(s, accepted, saved)
          ensures Written(s, accepted, saved + {u.user})
               == Store(lastSeq[u.user := u.number], stored[u.user := PlaceOf(u)])
        {
          WrittenOneMore(s, accepted, saved, u.user);
        }
        stored := stored[u.user := PlaceOf(u)];
        lastSeq := lastSeq[u.user := u.number];
        saved := saved + {u.user};
      }
    }
  }
}
