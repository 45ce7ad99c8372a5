// The authoritative world: players, their input and who has moved.
module World {
  import opened Common
  import opened Sequences
  import opened Messages

  datatype InputState = InputState(sequence: nat, up: bool, down: bool, left: bool, right: bool) {
    // Opposite keys cancel.
    predicate Idle() {
      up == down && left == right
    }
  }

  const NO_INPUT := InputState(0, false, false, false, false)

  datatype Walker = Walker(at: LatLng, username: string, appearance: Appearance, input: InputState, lastSequence: nat)

  function PlayerStateOf(p: PlayerId, w: Walker): PlayerState {
    PlayerState(p, w.username, w.at.lat, w.at.lng, w.appearance)
  }

  datatype WorldState = WorldState(
    players: map<PlayerId, Walker>,
    tick: nat,
    moved: set<PlayerId>,
    removed: set<PlayerId>)

  // The states of those of the given players that are there.
  ghost function StatesOf(w: WorldState, ids: set<PlayerId>): set<PlayerState> {
    set p | p in ids && p in w.players :: PlayerStateOf(p, w.players[p])
  }

  const EMPTY_WORLD := WorldState(map[], 0, {}, {})

  function WithPlayer(w: WorldState, p: PlayerId, at: LatLng, username: string, appearance: Appearance): WorldState {
    if p in w.players then w
    else w.(players := w.players[p := Walker(at, username, appearance, NO_INPUT, 0)], removed := w.removed - {p})
  }

  function WithoutPlayer(w: WorldState, p: PlayerId): WorldState {
    if p in w.players then w.(players := w.players - {p}, moved := w.moved - {p}, removed := w.removed + {p})
    else w
  }

  function WithInputReset(w: WorldState, p: PlayerId): WorldState {
    if p in w.players then w.(players := w.players[p := w.players[p].(input := NO_INPUT, lastSequence := 0)]) else w
  }

  predicate Accepts(w: WorldState, p: PlayerId, input: InputState) {
    p in w.players && input.sequence > w.players[p].lastSequence
  }

  function WithInput(w: WorldState, p: PlayerId, input: InputState): WorldState {
    if Accepts(w, p, input) then
      w.(players := w.players[p := w.players[p].(input := input, lastSequence := input.sequence)])
    else w
  }

  predicate ChangesLook(w: WorldState, p: PlayerId, appearance: Appearance) {
    p in w.players && w.players[p].appearance != appearance
  }

  function WithAppearance(w: WorldState, p: PlayerId, appearance: Appearance): WorldState {
    if ChangesLook(w, p, appearance) then w.(players := w.players[p := w.players[p].(appearance := appearance)]) else w
  }

  // Whose input says to move.
  function Movers(w: WorldState): set<PlayerId> {
    set p | p in w.players && !w.players[p].input.Idle()
  }

  // The players with those of the movers that have been dealt with moved to
  // where the step takes them.
  function MovedTo(players: map<PlayerId, Walker>, done: set<PlayerId>,
                   places: PlayerId -> LatLng): map<PlayerId, Walker> {
    map p | p in players :: if p in done && !players[p].input.Idle() then players[p].(at := places(p)) else players[p]
  }

  function Stepped(w: WorldState, places: PlayerId -> LatLng): WorldState {
    WorldState(MovedTo(w.players, w.players.Keys, places), w.tick + 1, w.moved + Movers(w), w.removed)
  }

  lemma OneMoved(players: map<PlayerId, Walker>, done: set<PlayerId>, places: PlayerId -> LatLng, p: PlayerId)
    requires p in players && p !in done
    ensures MovedTo(players, done, places)[p] == players[p]
    ensures MovedTo(players, done + {p}, places)
         == if players[p].input.Idle() then MovedTo(players, done, places)
            else MovedTo(players, done, places)[p := players[p].(at := places(p))]
  {
    var was, now := MovedTo(players, done, places), MovedTo(players, done + {p}, places);
    var next := if players[p].input.Idle() then was else was[p := players[p].(at := places(p))];
    forall q
      ensures q in now <==> q in next
      ensures q in now && q in next ==> now[q] == next[q]
    {
    }
  }

  class World {
    var players: map<PlayerId, Walker>
    var tick: nat
    var movedPlayerIDs: set<PlayerId>
    var removedPlayerIDs: set<PlayerId>

    constructor ()
      ensures State() == EMPTY_WORLD
    {
      players, tick, movedPlayerIDs, removedPlayerIDs := map[], 0, {}, {};
    }

    ghost function State(): WorldState
      reads this
    {
      WorldState(players, tick, movedPlayerIDs, removedPlayerIDs)
    }

    method AddPlayerWithState(p: PlayerId, username: string, at: LatLng, appearance: Appearance) returns (added: bool)
      modifies this
      ensures added <==> p !in old(players)
      ensures State() == WithPlayer(old(State()), p, at, username, appearance)
    {
      if p in players {
        return false;
      }
      players := players[p := Walker(at, username, appearance, NO_INPUT, 0)];
      removedPlayerIDs := removedPlayerIDs - {p};
      return true;
    }

    method RemovePlayer(p: PlayerId) returns (removed: bool)
      modifies this
      ensures removed <==> p in old(players)
      ensures State() == WithoutPlayer(old(State()), p)
    {
      if p !in players {
        return false;
      }
      players := players - {p};
      movedPlayerIDs := movedPlayerIDs - {p};
      removedPlayerIDs := removedPlayerIDs + {p};
      return true;
    }

    method ResetInput(p: PlayerId)
      modifies this
      ensures State() == WithInputReset(old(State()), p)
    {
      if p !in players {
        return;
      }
      players := players[p := players[p].(input := NO_INPUT)];
      players := players[p := players[p].(lastSequence := 0)];
      assert players == old(players)[p := old(players)[p].(input := NO_INPUT, lastSequence := 0)];
    }

    method ApplyInput(p: PlayerId, input: InputState) returns (accepted: bool)
      modifies this
      ensures accepted <==> Accepts(old(State()), p, input)
      ensures State() == WithInput(old(State()), p, input)
    {
      if p !in players || input.sequence <= players[p].lastSequence {
        return false;
      }
      players := players[p := players[p].(input := input)];
      players := players[p := players[p].(lastSequence := input.sequence)];
      assert players == old(players)[p := old(players)[p].(input := input, lastSequence := input.sequence)];
      return true;
    }

    method UpdatePlayerAppearance(p: PlayerId, appearance: Appearance) returns (changed: bool, ok: bool)
      modifies this
      ensures ok <==> p in old(players)
      ensures changed <==> ChangesLook(old(State()), p, appearance)
      ensures State() == WithAppearance(old(State()), p, appearance)
    {
      if p !in players {
        return false, false;
      }
      if players[p].appearance == appearance {
        return false, true;
      }
      players := players[p := players[p].(appearance := appearance)];
      return true, true;
    }

    // The states of those players that are there.
    method PlayerStates(ids: seq<PlayerId>) returns (states: seq<PlayerState>)
      requires NoDuplicates(ids)
      ensures Lists(states, StatesOf(State(), ToSet(ids)))
    {
      states := [];
      for i := 0 to |ids|
        invariant Lists(states, StatesOf(State(), ToSet(ids[..i])))
      {
        assert ids[..i + 1] == ids[..i] + [ids[i]];
        assert ToSet(ids[..i + 1]) == ToSet(ids[..i]) + {ids[i]};
        ghost var was := StatesOf(State(), ToSet(ids[..i]));
        if ids[i] in players {
          var state := PlayerStateOf(ids[i], players[ids[i]]);
          ListsAppend(states, was, state);
          assert StatesOf(State(), ToSet(ids[..i + 1])) == was + {state};
          states := states + [state];
        } else {
          assert StatesOf(State(), ToSet(ids[..i + 1])) == was;
        }
      }
      assert ids[..|ids|] == ids;
    }

    // One tick; places says where each mover's input takes it.
    method Step(places: PlayerId -> LatLng) returns (moved: seq<PlayerId>)
      modifies this
      ensures State() == Stepped(old(State()), places)
      ensures Ascending(moved) && Lists(moved, Movers(old(State())))
    {
      ghost var before := State();
      tick := tick + 1;
      var movers: set<PlayerId> := {};
      var rest := players.Keys;
      ghost var done: set<PlayerId> := {};
      assert players == MovedTo(before.players, done, places);
      while rest != {}
        invariant done !! rest && done + rest == before.players.Keys
        invariant players == MovedTo(before.players, done, places)
        invariant movers == Movers(before) * done
        invariant movedPlayerIDs == before.moved + movers
        invariant tick == before.tick + 1 && removedPlayerIDs == before.removed
      {
        var p := AnyOf(rest);
        rest := rest - {p};
        OneMoved(before.players, done, places, p);
        done := done + {p};
        if players[p].input.Idle() {
          continue;
        }
        players := players[p := players[p].(at := places(p))];
        movedPlayerIDs := movedPlayerIDs + {p};
        movers := movers + {p};
      }
      assert done == before.players.Keys;
      assert movers == Movers(before);
      moved := SetKeys(movers);
    }

    method TakeMovedPlayerIDs() returns (ids: seq<PlayerId>)
      modifies this
      ensures Ascending(ids) && Lists(ids, old(movedPlayerIDs))
      ensures State() == old(State()).(moved := {})
    {
      ids := SetKeys(movedPlayerIDs);
      movedPlayerIDs := {};
    }

    method TakeRemovedPlayerIDs() returns (ids: seq<PlayerId>)
      modifies this
      ensures Ascending(ids) && Lists(ids, old(removedPlayerIDs))
      ensures State() == old(State()).(removed := {})
    {
      ids := SetKeys(removedPlayerIDs);
      removedPlayerIDs := {};
    }
  }
}
