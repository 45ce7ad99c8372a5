# The map-walker server, modelled and proved

map-walker is a real-time map on which players walk, see each other and collect
gems. This project models the parts of its server where state has to stay
consistent, and proves what they promise.

- **Area of interest** (`Geometry`, `SetMaps`, `Grid`, `AoiModel`, `AoiInvariant`,
  `AoiCount`, `AoiIndex`, `AoiTightness`). The index of who sees whom: a grid, a
  symmetric relation with a 500 m enter and a 600 m leave radius, and scans that
  are skipped for small moves. The skipping makes the index deliberately stale;
  with E the enter radius, L the leave radius and R the distance a player may move
  before it must scan again, the staleness has the bound E - 3R, proved over every
  run and shown to be tight.
- **World and hub** (`World`, `Movement`, `HubModel`, `HubInvariant`, `HubLaws`,
  `HubInputs`, `HubJoins`, `HubCollects`, `HubViews`, `HubViewsTight`, `HubShown`,
  `HubScreenLaws`, `HubOutbox`, `HubUpdates`, `HubScreens`, `HubBooks`, `HubScores`,
  `HubPositions`, `Hub`). The actor that owns connections, world, index
  and collectibles, as a step machine and as the object itself. Each handler of
  the object is proved to take exactly one step of the machine (`Lived` ties the
  object to a run), so the laws about runs hold of it.
- **Replication** (`ReplicationBuilder`, `Messages`, `MessageLaws`, `Dispatcher`,
  `DispatcherRuns`).
  The builder scatters what happened over the players concerned and is proved
  equal to a per-player gather. The normaliser makes the lists of an update
  independent, so that a browser may handle them in any order. The dispatcher
  is a set of bounded queues whose interleavings keep each player's order.
- **Collectibles** (`CollectibleModel`, `CollectibleLaws`, `CollectibleField`). A
  second grid, a respawn queue, and conservation per region.
- **Persistence** (`PositionPersistence`, `PositionRuns`, `PositionWorker`,
  `ScorePersistence`, `ScoreRuns`). Two writers facing reordered, coalesced and failing writes:
  one never regresses, the other never loses an accepted score nor makes one up. `HubPositions`
  and `HubScores` join them to what the hub submits.
- **Synthetic accounts** (`RampModel`, `RampLaws`, `RampFates`, `RampManager`). The token
  bucket that ramps up simulated players.

`Common` and `Sequences` hold shared names and facts. Verify everything with
`dafny verify dfyconfig.toml`.

## How to read it

The index, the field, the world, the hub and the other objects the server
updates in place are classes; their methods are proved against specification
functions on values (`State()` gives an object's value), and the laws are
lemmas about those functions and about runs of them. Go maps iterate in an
arbitrary order: loops over them take any element still left, and an event
that depends on such an order carries it. Times, random draws, saved records,
failures of sends and writes, and where a step of the world takes a player are
parameters, so every theorem holds for all of them. Coordinates are exact
reals, distances are compared squared, and the longitude scale at the origin is
a positive constant of the configuration.

Configurations are assumed as the server has them: 0 < R, 3R < E, E no more than
a cell, E + R no more than L (`internal/game/aoi.go:8-11`), 600 m no more than a
cell for the hub, which asks its field for 600 m, and what
`internal/game/collectible_config.go:60-112` checks of regions.

Where the code and its comments differ the code is followed: collecting reaches
20 m, although a comment speaks of 10 (`internal/realtime/hub.go:753-759`); and a
player between 500 m and 600 m of a collectible keeps it on its screen while the
hub no longer holds it to be seen (`internal/realtime/hub.go:847-867`).

What a browser shows (`shown` in `HubState`) is what it would display after
every update it was sent. An update that the dispatcher drops breaks that; the
dispatcher's own laws say when it drops.

## Model

| member | source | states |
|---|---|---|
| `Geometry.TriangleWithin` | internal/game/aoi.go:414-418 | Squared distances obey the triangle inequality: two legs within r and s keep the ends within r + s. |
| `Geometry.TriangleBeyond` | internal/game/aoi.go:414-418 | Its reverse: moving one end of a segment longer than r + t by at most r leaves it longer than t. |
| `Geometry.BothEndsMoved` | internal/game/aoi.go:321-350 | Both ends of a pair moved by less than r: a gap beyond t + 2r stays beyond t. |
| `Grid.NearbyIsAdjacent` | internal/game/aoi.go:273-296 | Two points no further apart than a cell width lie in the same or in adjacent cells. |
| `Grid.NineCellMembers` | internal/game/aoi.go:127-141 | The sweep of the nine cells around a cell lists every member of those cells exactly once and nobody else. |
| `Grid.AddedHouses` | internal/game/aoi.go:388-393 | Adding to a bucket keeps every member in exactly the bucket of its own cell. |
| `Grid.RemovedHouses` | internal/game/aoi.go:395-404 | Removing from a bucket does too, and leaves no empty bucket. |
| `AoiInvariant.PlacedKeepsGrid` | internal/game/aoi.go:244-271 | Re-indexing a player keeps each player in exactly one bucket, the floor of its local position, with no empty bucket left. |
| `AoiInvariant.ScannedRestores` | internal/game/aoi.go:219-224 | A full enter scan and a leave check re-establish the whole invariant for the scanned player, whatever its marker was. |
| `AoiInvariant.SkippedKeeps` | internal/game/aoi.go:172-217 | A skipped enter scan keeps the invariant although visibility is then not the brute-force relation. |
| `AoiInvariant.InsertedKeeps` | internal/game/aoi.go:157-163 | Insert keeps the invariant, and does nothing for a player already indexed. |
| `AoiInvariant.MovedKeeps` | internal/game/aoi.go:172-217 | MoveDetailed keeps the invariant, whether it scans or skips. |
| `AoiInvariant.RecalculatedKeeps` | internal/game/aoi.go:219-224 | RecalculateRelationships keeps the invariant. |
| `AoiInvariant.RemovedKeeps` | internal/game/aoi.go:226-242 | Remove keeps the invariant. |
| `AoiInvariant.ApplyKeeps` | internal/game/aoi.go:157-242 | Every public operation keeps the invariant: symmetric irreflexive visibility over indexed players, one bucket each, markers closer than R and in the current cell, visible pairs within L, markers of other pairs beyond E - R. |
| `AoiInvariant.RunKeeps` | internal/game/aoi.go:157-242 | The invariant holds after any sequence of operations on an empty index. |
| `AoiInvariant.UnseenPairIsFar` | internal/game/aoi.go:321-350 | In a state satisfying the invariant two distinct players that do not see each other are more than E - 3R apart. |
| `AoiInvariant.StalenessBound` | internal/game/aoi.go:172-217 | After any run: seeing is mutual, a visible pair is within L, and a pair that is not visible has markers beyond E - R and positions beyond E - 3R (350 m by default), despite the skipped scans. |
| `AoiInvariant.DefaultBound` | internal/game/aoi.go:8-11 | With the server's configuration visible pairs are within 600 m and any two players within 350 m see each other. |
| `AoiTightness.BoundIsTight` | internal/game/aoi.go:321-338 | The bound cannot be improved: for every configuration and every 0 < delta < R five operations reach an unseen pair exactly E - 3R + 4 delta apart. |
| `AoiInvariant.MovedIsExact` | internal/game/aoi.go:172-217 | A move scans if and only if the floor cell of the new position is not that of the marker or the new position is R or more from the marker; then the marker moves there and the mover sees exactly those within E or formerly visible and within L, otherwise the marker stays and it sees exactly the latter; no other player and no pair without the mover changes. |
| `AoiInvariant.InsertedIsExact` | internal/game/aoi.go:157-163 | A player new to the index stands, is marked and sees from where it is put, exactly those within E; nobody else changes. |
| `AoiInvariant.RemovedIsExact` | internal/game/aoi.go:226-242 | A removed player is gone, seen by nobody and seeing nobody; every other player and pair is as before. |
| `AoiIndex.MoveIsCounted` | internal/game/aoi.go:176-209 | Every counter after a move: a leave check per former neighbour, and, if the move scans, an enter check per other player in the nine cells around the new position. |
| `AoiInvariant.RecalculatedLosesNothing` | internal/game/aoi.go:219-224 | A recalculation drops nobody, gains exactly the players within E, and moves the marker to where the player stands; nothing else changes. |
| `AoiInvariant.InsertThenRemove` | internal/game/aoi.go:157-163 | Removing a player just inserted gives back the very index there was. |
| `AoiInvariant.UnindexedSeesNobody` | internal/game/aoi.go:113-125 | A player that is not indexed has no neighbours. |
| `AoiCount.Handshake` | internal/game/aoi.go:149-155 | The sizes of all visible sets sum to twice the number of unordered visible pairs. |
| `AoiCount.MovedPairs` | internal/game/aoi.go:172-217 | A move changes that number by the entered less the left. |
| `AoiCount.RemovedPairs` | internal/game/aoi.go:226-242 | A removal lowers it by the left. |
| `AoiIndex.NineCellsSuffice` | internal/game/aoi.go:273-296 | Nobody within the enter radius stands outside the nine cells that are scanned. |
| `AoiIndex.ScanEnds` | internal/game/aoi.go:273-296 | Having looked at the nine cells gives the same relation and the same newcomers as looking at everybody. |
| `AoiIndex.AOIIndex.VisibleNeighbors` | internal/game/aoi.go:113-125 | Each neighbour once, nobody else. |
| `AoiIndex.AOIIndex.QueryPlayerIDsNearPoint` | internal/game/aoi.go:127-141 | Each player of the nine cells around the point once, so everybody within a cell width of it. |
| `AoiIndex.AOIIndex.VisibleRelationshipPairs` | internal/game/aoi.go:149-155 | Half the sum of set sizes is exactly the number of unordered visible pairs. |
| `AoiIndex.AOIIndex.constructor` | internal/game/aoi.go:83-90 | An empty index that satisfies the invariant. |
| `AoiIndex.AOIIndex.TakeStats` | internal/game/aoi.go:143-147 | The counters as they were, and counting from zero again. |
| `AoiIndex.AOIIndex.SetPosition` | internal/game/aoi.go:244-271 | The player indexed at the position, in the bucket of its cell and in no other. |
| `AoiIndex.AOIIndex.MarkEnterScan` | internal/game/aoi.go:333-338 | The marker at the present position and cell. |
| `AoiIndex.AOIIndex.LeaveAndEnter` | internal/game/aoi.go:176-209 | A leave check, then a scan when one is due, with exact lists and counters. |
| `AoiIndex.AOIIndex.Insert` | internal/game/aoi.go:157-163 | The new state, with the entered list exactly the gained neighbours and nobody left; every counter has its exact new value. |
| `AoiIndex.AOIIndex.Move` | internal/game/aoi.go:165-170 | The new state and the exact, duplicate-free entered and left lists. |
| `AoiIndex.AOIIndex.MoveDetailed` | internal/game/aoi.go:172-217 | Entered, left and stable list, without duplicates, exactly the gained, lost and kept neighbours; the pair count changes by |entered| - |left|; every counter has its exact new value. |
| `AoiIndex.AOIIndex.RecalculateRelationships` | internal/game/aoi.go:219-224 | The new state; nobody is lost; every counter has its exact new value. |
| `AoiIndex.AOIIndex.Remove` | internal/game/aoi.go:226-242 | The new state; left is the ascending list of the former neighbours and the pair count falls by its length. |
| `AoiIndex.AOIIndex.EnterScanNineCells` | internal/game/aoi.go:273-296 | The scan leaves exactly the relation a look at everybody leaves, lists exactly the newcomers, and counts one distance check per candidate. |
| `AoiIndex.AOIIndex.LeaveCheckExistingNeighbors` | internal/game/aoi.go:298-319 | Exactly the neighbours beyond the leave radius go. |
| `AoiIndex.AOIIndex.AddRelationship` | internal/game/aoi.go:357-364 | Both sides gain each other, and it says whether they had not. |
| `AoiIndex.AOIIndex.RemoveRelationship` | internal/game/aoi.go:366-379 | Both sides lose each other, no empty set stays behind, and it says whether they had. |
| `CollectibleModel.TrialIsInside` | internal/game/collectible.go:189-200 | A random point lies inside the circle it is drawn for. |
| `CollectibleModel.EveryPointIsDrawn` | internal/game/collectible.go:189-200 | Every point of the circle can be drawn. |
| `CollectibleModel.EveryDelayIsPicked` | internal/game/collectible.go:126-134 | Every delay of a region's range can come up, the shortest and the longest too. |
| `CollectibleModel.PlaceIsTrial` | internal/game/collectible.go:177-187 | A placement is the first of eleven draws that is not crowded, or else the eleventh; it is crowded exactly when all eleven are. |
| `CollectibleModel.SpawnedKeeps` | internal/game/collectible.go:165-175 | A spawn keeps the field invariant and uses an id never used before. |
| `CollectibleModel.CollectedKeeps` | internal/game/collectible.go:115-136 | Collecting keeps the field invariant. |
| `CollectibleModel.AdvancedKeeps` | internal/game/collectible.go:138-163 | Advancing respawns keeps it. |
| `CollectibleModel.RunKeeps` | internal/game/collectible.go:57-163 | In every reachable field the grid holds exactly the live items in the cells of their positions, ids are below the next id, and every item lies in the circle of a configured region. |
| `CollectibleLaws.RegionsAreConserved` | internal/game/collectible.go:57-163 | Live items plus pending respawns of each region equal its target count after any sequence of collections and advances. |
| `CollectibleLaws.AdvanceIsExact` | internal/game/collectible.go:138-163 | Exactly the due entries leave the queue, the rest keep their order, one item per due entry appears, last entry first, and no item already there changes. |
| `CollectibleLaws.RespawnIsScheduled` | internal/game/collectible.go:115-136 | A collected item queues one respawn of its region, due between the shortest and the longest delay, and takes nothing else away; an advance before the shortest delay leaves it queued, one after the longest replaces the item by a new one of the region. |
| `CollectibleLaws.DueIsReplaced` | internal/game/collectible.go:138-163 | An advance replaces each due entry by a new item of its region and keeps each entry that is not due. |
| `CollectibleLaws.NeverComesBack` | internal/game/collectible.go:165-175 | An id once gone never returns and an item never changes, over any run. |
| `CollectibleLaws.AwardedOnce` | internal/game/collectible.go:115-136 | Two successful collections in a run are of different items. |
| `CollectibleLaws.OnePointPerCollectible` | internal/game/collectible.go:110-136 | The successful collections of a run number the next id less one less the items left. |
| `CollectibleLaws.SpawnKeepsApart` | internal/game/collectible.go:165-187 | A new item lies in its region, at the first draw that has no other item within half a metre, and has one exactly when all eleven draws had. |
| `CollectibleLaws.GridIsExact` | internal/game/collectible.go:79-90 | For a radius up to a cell the grid finds exactly what brute force finds. |
| `CollectibleLaws.GridIsExactUpToOneCell` | internal/game/collectible.go:247-261 | It does so for all items and points if and only if the radius is at most a cell; beyond, an item just over one cell away is missed. |
| `CollectibleField.CollectibleGrid.Insert` | internal/game/collectible.go:235-239 | The id in the bucket of its position's cell. |
| `CollectibleField.CollectibleGrid.Remove` | internal/game/collectible.go:241-245 | The id out of that bucket, which goes if it is left empty. |
| `CollectibleField.CollectibleGrid.CandidateIDs` | internal/game/collectible.go:247-261 | The ids of the nine cells around the point, once each. |
| `CollectibleField.CollectibleField.SpawnInRegion` | internal/game/collectible.go:165-175 | The next id, at the placement found, in the map and in the grid. |
| `CollectibleField.CollectibleField.PlaceInRegion` | internal/game/collectible.go:177-187 | The first of ten draws that is not crowded, or else the eleventh. |
| `CollectibleField.CollectibleField.Lookup` | internal/game/collectible.go:70-76 | The item of that id, if it is there. |
| `CollectibleField.CollectibleField.constructor` | internal/game/collectible.go:38-54 | An empty field that satisfies the invariant, with ids from one. |
| `CollectibleField.CollectibleField.Populate` | internal/game/collectible.go:57-67 | The field holds one new item per region and unit of target count, returned in the order they were made. |
| `CollectibleField.CollectibleField.CollectiblesWithinRadius` | internal/game/collectible.go:79-90 | Each live item within the radius exactly once and nothing else, up to a cell; beyond, those of the nine cells. |
| `CollectibleField.CollectibleField.Remove` | internal/game/collectible.go:115-136 | Says whether the item was there; the new state, including the respawn scheduled. |
| `CollectibleField.CollectibleField.AdvanceReplacements` | internal/game/collectible.go:138-163 | The deletions from back to front leave exactly the queue a filter would and spawn in that order; returned are exactly the new items. |
| `CollectibleField.CollectibleField.RegionByID` | internal/game/collectible.go:100-107 | The first region of that id, if any. |
| `CollectibleField.CollectibleField.HasNearbyCollectible` | internal/game/collectible.go:202-212 | Some live item is within half a metre, by the grid as by brute force. |
| `CollectibleField.DueStep` | internal/game/collectible.go:154-163 | Deleting a due entry, with later ones gone, leaves the front untouched and the rest filtered. |
| `World.World.AddPlayerWithState` | internal/game/world.go:96-112 | The player enters once, where and as told, with no input, and is no longer removed. |
| `World.World.RemovePlayer` | internal/game/world.go:119-128 | The player is gone, no longer moved, and removed. |
| `World.World.ResetInput` | internal/game/world.go:130-137 | Keys and sequence number start anew; nothing else changes. |
| `World.World.UpdatePlayerAppearance` | internal/game/world.go:217-227 | Says whether the player is there and whether the look differs, and changes just that. |
| `World.World.TakeRemovedPlayerIDs` | internal/game/world.go:235-239 | The removed players once each, ascending, and the set emptied. |
| `Sequences.SetKeys` | internal/game/world.go:274-281 | The members of a set once each, ascending, whatever order the map is walked in. |
| `World.World.ApplyInput` | internal/game/world.go:139-148 | An input is taken exactly when its sequence number is above the last one taken. |
| `World.World.Step` | internal/game/world.go:150-173 | Exactly the players whose keys do not cancel are put, each once, where the step takes them, and are recorded and listed in ascending order. |
| `Movement.WalksItsDistance` | internal/game/world.go:155-167 | Whatever keys are pressed, a player that walks covers exactly the distance of a step, towards the sides whose keys are pressed without their opposites, and equally far along both axes if two are. |
| `Movement.StepWalks` | internal/game/world.go:150-173 | A step takes every player whose keys do not cancel that distance its own way, and changes nothing else of anybody. |
| `World.World.PlayerStates` | internal/game/world.go:187-189 | The states of the players that are there, once each. |
| `World.World.TakeMovedPlayerIDs` | internal/game/world.go:229-233 | The moved players once each, ascending, and the set emptied. |
| `HubInvariant.GoneKeeps` | internal/realtime/hub.go:520-549 | Removing a client keeps the hub invariant. |
| `HubInvariant.JoinedKeeps` | internal/realtime/hub.go:425-439 | A player joining keeps it. |
| `HubInvariant.RegisteredKeeps` | internal/realtime/hub.go:415-439 | Registering keeps it: a new player, a replaced connection, and one whose opening messages fail. |
| `HubInvariant.SimulatedKeeps` | internal/realtime/hub.go:308-313 | A simulation step keeps it: whoever moves is marked moved and dirty. |
| `HubInvariant.MovedAllKeeps` | internal/realtime/hub.go:970-999 | Moving players in the index makes it agree with the world on them and keeps its own invariant. |
| `HubInvariant.BroadcastedKeeps` | internal/realtime/hub.go:910-967 | A broadcast keeps the hub invariant. |
| `HubInvariant.PersistedKeeps` | internal/realtime/hub.go:551-572 | A persistence step keeps it, in whatever order the dirty players come. |
| `HubInvariant.AfterCollectKeeps` | internal/realtime/hub.go:719-794 | A collect request keeps it. |
| `HubInvariant.StepKeeps` | internal/realtime/hub.go:293-354 | Every step of the loop keeps it. |
| `HubInvariant.RunKeeps` | internal/realtime/hub.go:293-354 | It holds after every run of the loop. |
| `HubLaws.PlayersStayInStep` | internal/realtime/hub.go:415-439 | Connected, world and indexed players are the same at every step boundary; everything kept per connection belongs to one of them; nobody connected is listed to anybody as gone. |
| `HubLaws.WorldDistances` | internal/realtime/hub.go:970-999 | At every step boundary two connected players whose moves have been broadcast see each other only within L, and fail to only beyond E - 3R, in world positions. |
| `HubLaws.BroadcastCatchesUp` | internal/realtime/hub.go:910-967 | Right after a broadcast that holds of every two connected players. |
| `HubLaws.LeavingIsAnnounced` | internal/realtime/hub.go:536-541 | A player that leaves is listed as gone to exactly the connected players that saw it, once. |
| `HubLaws.MoveIsAnnounced` | internal/realtime/hub.go:977-995 | A move lists the mover as gone to exactly the connected players that lose sight of it, and has it announced if one gains sight of it. |
| `HubLaws.JoiningIsAnnounced` | internal/realtime/hub.go:425-434 | A joining player stands where it was saved or spawns, in world and index alike, sees exactly those within the enter radius, is in nobody's list of gone players, and waits to be announced if anybody is connected. |
| `HubJoins.JoiningIsAsSaved` | internal/realtime/hub.go:479-503 | Over every run a player that registers and is not connected enters where it was saved or at the spawn point, under its saved name or its connection's, with its saved look or the default, its saved score if there are collectibles, standing still, synthetic if it ever was said to be; all within 500 m of it is in view, nothing old waits for it, and it is taken from all lists of gone players, which stay the same otherwise. |
| `HubJoins.ReplacingTakesOver` | internal/realtime/hub.go:415-423 | Over every run a connection that takes a connected player's place finds it as it stands, but for keys and input numbers, which start anew; nothing old waits for it. |
| `HubJoins.RegisteringTwiceShowsAnew` | internal/realtime/hub.go:419-439 | Over every run a connection that registers once more only has its view shown anew and whatever waited for it dropped. |
| `HubInputs.OnlyHigherInputCounts` | internal/realtime/hub.go:303-307 | Over every run an input changes anything if and only if it is from the current connection and numbered above zero and above every input received from that connection. |
| `HubInputs.HighestInputMoves` | internal/game/world.go:139-148 | Over every run the keys a player moves by are those of the highest-numbered input received from its present connection, the first of them; none if there was none. |
| `HubLaws.NoMoveIsForgotten` | internal/realtime/hub.go:551-594 | In a session the submitted numbers are 1, 2, 3 and so on; a connected player that is not dirty stands where the last submission, or else its join, says. |
| `HubBooks.DirtyHaveWalked` | internal/realtime/hub.go:308-313 | Over every run a position waits to be saved exactly when its player is connected and has walked since it joined and since the last handing over. |
| `HubBooks.PersistingIsExact` | internal/realtime/hub.go:551-572 | Over every run a persistence step hands over the positions of exactly the players whose positions wait, each once, and none waits afterwards. |
| `HubPositions.SessionIsStored` | internal/storage/persistence.go:102-159 | When the writer has applied one session's submissions in any order and grouping without failures, the stored position of a player that is not dirty is where it stands. |
| `HubScores.ScoreIsEarned` | internal/realtime/hub.go:768-773 | Over every run a connected player's score is what it joined with plus one for each of its awards since, each of which carried the score it made. |
| `HubScores.LeavingWritesScore` | internal/realtime/hub.go:529-534 | A player that leaves has that very score written for good. |
| `HubScores.NoPointIsLost` | internal/realtime/hub.go:529-534 | Once the writer has answered that write, a player that comes back with the stored score, after any further writes and failures, has at least every point it had. |
| `HubScores.PointsAreExact` | internal/storage/score.go:5-14 | And if nothing but the session's own scores, or scores no higher than what it joined with, was stored or handed over for it, the player comes back with exactly what it had. |
| `HubBooks.WrittenIffLeaving` | internal/realtime/hub.go:529-534 | Over every run a step writes a score for good exactly when a connection goes: that of its player, if it has one and there is a writer. |
| `HubBooks.SwitchedOffDoesNothing` | internal/realtime/hub.go:551-594 | Without a position writer no position is handed over, without a score writer no score is written for good, without collectibles there are no awards and the field is never touched. |
| `HubBooks.TickCountsSimulations` | internal/game/world.go:150-151 | The tick that updates carry is the number of simulation steps of the run. |
| `HubLaws.LeavingIsSubmitted` | internal/realtime/hub.go:520-549 | A player that leaves has its position submitted last, under the next number of its session. |
| `HubLaws.StoppingSettlesAll` | internal/realtime/hub.go:334-349 | After Stop the last submission of every connected player is where it stands. |
| `HubLaws.FieldRefines` | internal/realtime/hub.go:804-820 | Over every run the hub drives its field through a run of the field's own operations. |
| `HubLaws.RegionsAreConserved` | internal/realtime/hub.go:719-794 | So every region keeps its target count over every run of the hub. |
| `HubLaws.OnePointPerCollectible` | internal/realtime/hub.go:719-794 | Over every run the points awarded are the items ever made that are gone, no item is awarded twice whatever connections race for it, and a player's awards are at least the cooldown apart, also across reconnections. |
| `HubLaws.AwardIsEarned` | internal/realtime/hub.go:719-794 | An award goes only to the current connection of a real player that is held to see the item and stands within 20 m of it; one point is added and the item goes. |
| `HubCollects.GrantedIffRightful` | internal/realtime/hub.go:718-794 | Over every run a request is granted if and only if collecting is on, it is from the current connection of a player that never joined as synthetic, the last request that counted is at least 300 ms back, and the item is live, held to be seen and within 20 m; then the item goes and its finder has one point more, otherwise neither changes. |
| `HubCollects.CooldownCounts` | internal/realtime/hub.go:730-736 | The cooldown counts from the last request of the current connection of a player that is not synthetic and had waited 300 ms, told from the events. |
| `HubCollects.SyntheticJoined` | internal/realtime/hub.go:495-498 | A player counts as synthetic exactly if it was said to be when it once joined. |
| `HubScreenLaws.CollectingIsTold` | internal/realtime/hub.go:783-793 | When a request is granted the item leaves the view of, and waits to be told to, exactly the connected players in the nine cells around it. |
| `HubViews.NobodySeesTheGone` | internal/realtime/hub.go:783-793 | If no connection is replaced while the index lags its player by more than a cell less the view, everything a player is held to see is live and near it: an item won by one player leaves every other view in the same step. |
| `HubViewsTight.LagBoundIsTight` | internal/realtime/hub.go:415-423 | That lag bound cannot be improved: for every configuration and every 0 < delta up to a cell, a run whose only replacement meets a lag of exactly a cell less the view plus delta ends with a player held to see a collected item. |
| `HubViews.RecalculatedViews` | internal/realtime/hub.go:823-876 | Each moved connected player is held to see exactly what is within 500 m of it; the others' views are untouched. |
| `HubShown.CollectableIsShown` | internal/realtime/hub.go:740-751 | Over every run, whatever a player could be given is on the screen of a browser that was sent everything. |
| `HubShown.RunShown` | internal/realtime/hub.go:629-667 | Over every run what a player is held to see is among what its browser shows; collected items still to be told about are gone for good. |
| `HubShown.BroadcastShows` | internal/realtime/hub.go:823-876 | After a broadcast a player's browser shows all it is held to see, with entered, left, spawned and collected items told in one update. |
| `HubScreenLaws.ScreenAfterBroadcast` | internal/realtime/hub.go:804-876 | Over every run a broadcast adds to a player's screen the new items around it and, if it moved, what is within 500 m and was not held to be seen; takes off what was collected and, if it moved, what was held to be seen and is not within 600 m; and leaves the rest; the view follows likewise. |
| `HubUpdates.UpdateKeepsScreensRight` | web/app.js:462-512 | A browser that shows the collectibles the hub thinks it shows does so again after the broadcast's update, for any normal form of its job and any order of its lists; who gets no job shows them already. |
| `HubScreens.UpdateShowsTheTruth` | web/app.js:462-512 | After the update every gem that was shown and still is, is as it was, and every other is where the field has it; every marker the job places, names or dresses, the player's own included, is right about that; all else is right or as before. |
| `Hub.JobsAreTrue` | internal/realtime/hub.go:910-967 | Whatever a job says holds when it is made: the recipient's own place, places, names and looks of players, and region and place of every item entered or spawned. |
| `HubUpdates.AnnouncedAreSeen` | internal/realtime/replication_builder.go:66-75 | A job announces exactly the players waiting to be announced that its recipient sees; seeing each other alone is not enough. |
| `HubUpdates.MoversAreTold` | internal/realtime/replication_builder.go:43-64 | A job carries the place of exactly the movers its recipient saw before and after their move, and the recipient's own exactly if it moved. |
| `HubUpdates.LooksAreTold` | internal/realtime/replication_builder.go:86-104 | A job carries the new looks of exactly the recipient itself and those it sees. |
| `HubOutbox.ChangedLooksWait` | internal/realtime/hub.go:505-518 | Over every run a look waits to be told exactly when it changed since its player registered and since the last broadcast, and it is the look the player has. |
| `HubOutbox.NewcomersWait` | internal/realtime/hub.go:425-434 | Over every run exactly those wait to be announced that are connected and joined, while anybody was, since the last broadcast. |
| `HubOutbox.BroadcastSettles` | internal/realtime/hub.go:910-967 | Over every run nothing waits any more once a broadcast has told it, and the players, scores and positions to be saved are as before. |
| `Hub.Hub.constructor` | internal/realtime/hub.go:216-290 | An empty hub over a populated field. |
| `Hub.Hub.Join` | internal/realtime/hub.go:425-434 | A new player enters world and index, is announced if anybody is connected, and is in nobody's list of gone players. |
| `Hub.Hub.ClearPendingReplicationFor` | internal/realtime/hub.go:449-457 | Nothing waits for the player any more and it is held to see nothing; other players' lists stay. |
| `Hub.Hub.AnnounceLeft` | internal/realtime/hub.go:536-541 | The player is appended to the list of each connected former neighbour, and to no other. |
| `Hub.Hub.ApplyInput` | internal/realtime/hub.go:303-307 | Input counts only from the current connection. |
| `Hub.Hub.ApplyAppearanceUpdate` | internal/realtime/hub.go:505-518 | A look that differs is taken and waits to be told. |
| `Hub.Hub.Simulate` | internal/realtime/hub.go:308-312 | The world steps and exactly the movers become dirty. |
| `Hub.Hub.MoveOne` | internal/realtime/hub.go:977-995 | One move in the index, its exact delta, whom it makes known and whom it takes from view. |
| `Hub.Hub.Win` | internal/realtime/hub.go:763-793 | Item, score and award; the winner is sent the item and its new score; every connected player around the item loses it from view and is to be told. |
| `Hub.Hub.TellItem` | internal/realtime/hub.go:808-818 | The item is told to each connected player given, and seen by those that see anything; what is listed of items stays true. |
| `Hub.Hub.RecalcOne` | internal/realtime/hub.go:826-875 | One player's view becomes what is within 500 m, with entered and left lists extended; what is listed of an item is what the field has of it. |
| `Hub.Hub.EnteredStates` | internal/realtime/hub.go:1013-1025 | The present state of each player to be announced that is still there, once. |
| `Hub.Hub.Take` | internal/realtime/hub.go:919-950 | The builder is given exactly what waited, and nothing waits afterwards. |
| `Hub.Hub.OnUnregister` | internal/realtime/hub.go:301-302 | One more step of the modelled run. |
| `Hub.Hub.OnDisconnectUser` | internal/realtime/hub.go:320-323 | One more step of the modelled run. |
| `Hub.Hub.OnInput` | internal/realtime/hub.go:303-307 | One more step of the modelled run. |
| `Hub.Hub.OnAppearance` | internal/realtime/hub.go:328-329 | One more step of the modelled run. |
| `Hub.Hub.OnSimulationTick` | internal/realtime/hub.go:308-313 | One more step of the modelled run. |
| `Hub.Hub.OnPersistenceTick` | internal/realtime/hub.go:316-317 | One more step of the modelled run, in the order the dirty players came. |
| `Hub.Hub.RegisterClient` | internal/realtime/hub.go:415-439 | The new state, for new, known and replaced connections. |
| `Hub.Hub.RemoveClient` | internal/realtime/hub.go:520-549 | The new state, position and score submitted for good; a stale connection changes nothing. |
| `Hub.Hub.ClearPendingLeftForPlayer` | internal/realtime/hub.go:459-473 | The player is in nobody's list of gone players, no list is left empty, and other entries keep their order. |
| `Hub.Hub.SyncScore` | internal/realtime/hub.go:529-534 | The score, if the player has one and there is a score writer, is written for good; nothing else changes. |
| `Hub.Hub.AddPlayer` | internal/realtime/hub.go:479-503 | Saved position, name, look, score and identity are used where there are any, the defaults elsewhere. |
| `Hub.Hub.SubmitFinalPosition` | internal/realtime/hub.go:574-594 | The position goes to the writer under the next number. |
| `Hub.Hub.PersistDirtyPositions` | internal/realtime/hub.go:551-572 | Each dirty player is submitted once and nobody stays dirty. |
| `Hub.Hub.SendInitialization` | internal/realtime/hub.go:596-667 | The client is sent itself, its score, the players it sees, the regions and the collectibles within 500 m, and these become its view and what its browser shows; a failed send removes it. |
| `Hub.Hub.ApplyMovementAOIDeltas` | internal/realtime/hub.go:970-999 | The index, the players to announce and the lists of gone players after all moves; each delta is exactly what its move changed. |
| `Hub.Hub.AdvanceCollectibleReplacements` | internal/realtime/hub.go:804-820 | Each new item is told to, and joins the view of, exactly the connected players in the nine cells around it. |
| `Hub.Hub.RecalcCollectibleVisibility` | internal/realtime/hub.go:822-876 | Views and lists of the moved players, the 500 and 600 m radii as in the code; what is listed of items stays true. |
| `Hub.Hub.ProcessCollect` | internal/realtime/hub.go:718-794 | The new state, for every way a request can be refused and for the one way it succeeds; the result with the new score is sent exactly then. |
| `Hub.Hub.BroadcastReplication` | internal/realtime/hub.go:910-967 | The new state, and jobs that gather exactly what each recipient is to be told, with every item as the field has it. |
| `Hub.Hub.Stop` | internal/realtime/hub.go:334-349 | Every connected player's final position is submitted once. |
| `Hub.Hub.OnBroadcastTick` | internal/realtime/hub.go:314-315 | One more step of a run of the modelled hub, so that everything proved of runs holds of the object; every job says only what is true then. |
| `Hub.Hub.OnCollect` | internal/realtime/hub.go:330-331 | Likewise for a collect request. |
| `Hub.Hub.OnRegister` | internal/realtime/hub.go:299-300 | Likewise for a registration. |
| `ReplicationBuilder.Build` | internal/realtime/replication_builder.go:39-168 | Exactly one job for each connected player concerned, holding exactly: its own position if it moved, positions of movers that keep seeing it, newcomers that see it, its own left and collectible lists, and the looks of itself and of those that see it, each once. |
| `ReplicationBuilder.TellMoves` | internal/realtime/replication_builder.go:43-64 | What the movement loop leaves for every player. |
| `ReplicationBuilder.Append` | internal/realtime/replication_builder.go:294-301 | The piece is appended for that recipient, made if it is not there; nobody else's entry changes. |
| `ReplicationBuilder.TellNewcomers` | internal/realtime/replication_builder.go:66-75 | What the loop over newcomers leaves for every player. |
| `ReplicationBuilder.TellCollectibles` | internal/realtime/replication_builder.go:106-140 | What the four loops over collectible lists leave for every player. |
| `ReplicationBuilder.FanOut` | internal/realtime/replication_builder.go:57-63 | A piece reaches exactly the connected ones among the targets and changes nobody else's entry. |
| `ReplicationBuilder.DeliverLists` | internal/realtime/replication_builder.go:77-84 | Each list reaches exactly the recipient it is kept for, if connected. |
| `ReplicationBuilder.TellAppearances` | internal/realtime/replication_builder.go:86-104 | Each new look reaches its player and those that see it, once each. |
| `ReplicationBuilder.Jobs` | internal/realtime/replication_builder.go:142-158 | One job per accumulated connected recipient, no recipient twice. |
| `Messages.NormalizeReplicationChanges` | internal/realtime/messages.go:232-299 | The result is a normal form: left beats entered beats moved, collected and left beat spawned beats entered, lists sorted by id, one appearance per player, the last. |
| `Messages.NormalizeAppearanceUpdates` | internal/realtime/messages.go:415-428 | One update per player that is neither gone nor new, its last, ascending. |
| `Messages.Filtered` | internal/realtime/messages.go:373-404 | The items whose id is not among those to drop, in their order. |
| `Messages.FilterSelf` | internal/realtime/messages.go:260-267 | The ids without the recipient, still ascending. |
| `Messages.SortSlice` | internal/realtime/messages.go:243-256 | Some ordering by id of the very same entries. |
| `Messages.FilterCollectibleIDs` | internal/realtime/messages.go:365-371 | The ids without those given. |
| `Messages.NormalIsConsistent` | internal/realtime/messages.go:232-299 | In a normal form no player or collectible is in two lists that contradict each other, and the recipient is in none but the appearances. |
| `Messages.NormalIds` | internal/realtime/messages.go:232-299 | Exactly which ids each list of a normal form carries, in terms of the lists before. |
| `MessageLaws.KindsAreIndependent` | web/app.js:462-512 | Any edit of one list of a normal form commutes with any edit of another. |
| `MessageLaws.OrderOfListsIsIrrelevant` | web/app.js:462-512 | A browser ends the same whatever order it handles the lists of a normal form in. |
| `MessageLaws.UpdateMeans` | web/app.js:462-512 | Afterwards it shows (shown + entered) - left, and (gems + entered + spawned) - (left + collected), in terms of the changes before normalisation. |
| `MessageLaws.NormalLooksMeanTheSame` | internal/realtime/messages.go:415-428 | The looks of a normal form do to a marker what all the updates would have done one after the other. |
| `MessageLaws.NormalFormsAgree` | internal/realtime/messages.go:232-299 | All normal forms of the same changes agree up to the order of entries with the same id. |
| `MessageLaws.NormalIsFixed` | internal/realtime/messages.go:232-299 | A normal form is its own normal form. |
| `MessageLaws.NormaliseTwice` | internal/realtime/messages.go:232-299 | Normalising twice is normalising once, up to that order. |
| `MessageLaws.EmptyIffAboutSelf` | internal/realtime/messages.go:220-230 | Nothing is left to send if and only if there was no own position, no collectible change, and all else was about the recipient itself or of an appearance countermanded by a departure. |
| `Dispatcher.Partition` | internal/realtime/replication_dispatcher.go:144-147 | A recipient, also of negative id, always goes to the same existing worker. |
| `Dispatcher.DeliveriesKeepOrder` | internal/realtime/replication_dispatcher.go:109-156 | In every interleaving a recipient's deliveries come in the order its jobs were submitted, each of them submitted to it. |
| `Dispatcher.JobsAreConserved` | internal/realtime/replication_dispatcher.go:109-156 | Between Submit calls every submitted job is dropped, encoded, skipped as empty, failed to encode, queued, or being encoded. |
| `DispatcherRuns.CountersAreExact` | internal/realtime/replication_dispatcher.go:109-156 | In every interleaving each counter is the number of events that did what it counts, a failed Send being counted or about to be; what was sent is what the Sends had in hand. |
| `DispatcherRuns.DeliveriesAreTheEncoded` | internal/realtime/replication_dispatcher.go:109-136 | In every interleaving a recipient's deliveries, with the one about to be made, are exactly its jobs whose encoding gave an update, each once, in the order they were submitted. |
| `DispatcherRuns.SentIffEncoded` | internal/realtime/replication_dispatcher.go:111-127 | A job is sent or about to be if and only if its own encoding gave an update. |
| `DispatcherRuns.NoJobIsLost` | internal/realtime/replication_dispatcher.go:109-156 | Every job ever submitted is dropped, encoded with one outcome or another, queued, being encoded or still being submitted. |
| `DispatcherRuns.OneJobServed` | internal/realtime/replication_dispatcher.go:109-135 | A worker that gets to its next job is done with it afterwards: sent if it was encoded, counted as it went, and nothing else changed. |
| `DispatcherRuns.OneSubmit` | internal/realtime/replication_dispatcher.go:138-156 | A Submit without interference queues the job, or drops it and counts that. |
| `Dispatcher.IdleIffNothingInFlight` | internal/realtime/replication_dispatcher.go:170-174 | In every interleaving the in-flight counter is never negative, and zero exactly when every queue is empty, every worker idle and no Submit has counted a job it has neither queued nor uncounted. |
| `Dispatcher.StopDrains` | internal/realtime/replication_dispatcher.go:159-168 | Once stopped and all workers have left, nothing is queued and everything is accounted for. |
| `Dispatcher.QueueHoldsTheRest` | internal/realtime/replication_dispatcher.go:109-156 | Over every interleaving a worker's queue is as long as the jobs it was given less those it took, and never longer than the queue size. |
| `Dispatcher.DropsOnlyWhenFull` | internal/realtime/replication_dispatcher.go:148-156 | Over every interleaving a job is dropped if and only if it is tried when the jobs its own worker was given exceed those it took by exactly the queue size. |
| `Dispatcher.RunKeeps` | internal/realtime/replication_dispatcher.go:109-156 | The order and accounting invariants hold over every interleaving. |
| `ScorePersistence.NoAcceptedScoreIsLost` | internal/storage/score_persistence.go:120-152 | Over every interleaving with any database failures, a score once accepted for a user the database knows is matched by the database, the pending scores or a SubmitSync under way, unless Stop cut a SubmitSync of that user short. |
| `ScorePersistence.NothingAbandonedBeforeStop` | internal/storage/score_persistence.go:154-171 | Before Stop nothing is ever given up. |
| `ScorePersistence.StepIsMonotone` | internal/storage/score.go:5-14 | No step lowers a stored score or the highest accepted one, nor adds or drops a user. |
| `ScorePersistence.RunIsMonotone` | internal/storage/score.go:5-14 | Nor does any run. |
| `ScorePersistence.SubmitSyncIsDurable` | internal/storage/score_persistence.go:58-70 | When SubmitSync(u, s) is answered the database has at least s for u, if it knows u and Stop did not cut the call short. |
| `ScoreRuns.StoredWasHanded` | internal/storage/score_persistence.go:50-70 | Over every interleaving a stored score is the one the database began with or one handed over for that very user, and so are the scores pending, being flushed or on their way. |
| `ScoreRuns.NeverAbove` | internal/storage/score.go:5-14 | So a stored score is never above the higher of the first one and the highest handed over. |
| `ScoreRuns.ChannelKeepsOrder` | internal/storage/score_persistence.go:47-56 | The channel of 64 is first in, first out, and loses only what finds it full. |
| `ScoreRuns.AcceptedIsHighest` | internal/storage/score_persistence.go:120-127 | The accepted score of a user is the highest taken from the channel or come with a SubmitSync. |
| `ScoreRuns.DrainIsExact` | internal/storage/score_persistence.go:173-195 | When a drain is acknowledged other than by Stop, with no SubmitSync of the user under way or cut short, its stored score is exactly the higher of the first one and the accepted one. |
| `ScoreRuns.FlushSavesAll` | internal/storage/score_persistence.go:129-152 | A flush without interference or failures saves exactly the pending scores and leaves nothing pending. |
| `ScorePersistence.DrainDelivers` | internal/storage/score_persistence.go:173-195 | When a drain is acknowledged other than by Stop nothing is pending, and every accepted score is stored or with a SubmitSync. |
| `ScorePersistence.RunKeeps` | internal/storage/score_persistence.go:85-195 | The invariant behind these, over every interleaving. |
| `PositionWorker.PersistenceWorker.FilterAndCollapse` | internal/storage/persistence.go:116-131 | Exactly the first of the highest-numbered updates of each user, if above its last number. |
| `PositionWorker.PersistenceWorker.ApplyPerRow` | internal/storage/persistence.go:134-143 | Exactly the rows that do not fail are stored and numbered. |
| `PositionWorker.PersistenceWorker.ApplyBulk` | internal/storage/persistence.go:146-159 | Exactly the rows of the 500-row chunks that do not fail are stored and numbered. |
| `PositionWorker.PersistenceWorker.SaveChunk` | internal/storage/persistence.go:154-156 | The rows of one stored chunk are numbered, the others are not. |
| `PositionWorker.PersistenceWorker.Apply` | internal/storage/persistence.go:102-114 | What is stored and numbered changes by exactly the accepted updates whose own row or 500-row chunk did not fail; a round of the modelled run. |
| `PositionWorker.PersistenceWorker.constructor` | internal/storage/persistence.go:21-35 | Nothing numbered yet, over whatever is stored. |
| `PositionRuns.NeverRegresses` | internal/storage/persistence.go:102-159 | Over any batches in any order with any failures a user's number never falls, and what is stored is the update of that number. |
| `PositionRuns.ReachesHighest` | internal/storage/persistence.go:102-159 | Without failures every user's number ends at least as high as that of each of its updates. |
| `PositionRuns.Converges` | internal/storage/persistence.go:37-45 | Without failures any two orders and groupings of the same updates, by row or by chunk, end in the same store. |
| `PositionRuns.WrittenIffNewer` | internal/storage/persistence.go:116-131 | An update alone in its batch is written if and only if its number is above the last one, so a session that counts from one again is ignored until it passes the former one. |
| `PositionRuns.NewSessionIsIgnored` | internal/storage/persistence.go:116-131 | A concrete pair of sessions in which the newer position is lost. |
| `RampLaws.RampGuarantee` | internal/synthetic/manager.go:315-372 | Over every run tokens never go negative, tokens plus accounts started are exactly rate times ticks over ten, accounts start in ascending order, once, before any still pending, and every account that was ever active is active or counted as disconnected. |
| `RampLaws.TickStartsAllItCan` | internal/synthetic/manager.go:333-347 | Right after a tick an account still waits only if there is a rate, and then exactly the whole tokens so far have been spent. |
| `RampLaws.StatesMoveForward` | internal/synthetic/manager.go:386-423 | Account states only move forward, and failed is final, over any run. |
| `RampFates.TickDecides` | internal/synthetic/manager.go:358-423 | Over every run what a tick makes of each account: one activating since the tick that started it fails when its client is gone or not ready within five seconds and is active when ready, an active one fails when its client is gone, a pending one that is started activates if the hub takes its client and fails if not. |
| `RampFates.ProvisioningDecides` | internal/synthetic/manager.go:285-313 | A provisioned account waits under its user, one that could not be fails, the others stay; without an answer all fail. |
| `RampFates.TicksAreCounted` | internal/synthetic/manager.go:315-319 | Ticks count until a shutdown, and not after it. |
| `RampLaws.StepKeeps` | internal/synthetic/manager.go:315-324 | Every message and tick keeps the ramp invariant. |
| `RampManager.ManagerLoop.OnTick` | internal/synthetic/manager.go:315-324 | A tick is a step of the modelled loop. |
| `RampManager.ManagerLoop.TryActivateNext` | internal/synthetic/manager.go:333-347 | It ends, having started the lowest pending accounts one by one until there are no more accounts or no more tokens. |
| `RampManager.ManagerLoop.constructor` | internal/synthetic/manager.go:172-185 | All accounts of the target, none available yet. |
| `RampManager.ManagerLoop.AddRampTokens` | internal/synthetic/manager.go:326-331 | A tick's share of the rate is added, if there is a rate. |
| `RampManager.ManagerLoop.StartActivation` | internal/synthetic/manager.go:333-372 | One token and one pending account less; the account activates, or fails if the hub will not have it. |
| `RampManager.ManagerLoop.ProcessActivating` | internal/synthetic/manager.go:386-399 | Gone, ready, timed out or waiting on: the new slot and whether it was counted as activated. |
| `RampManager.ManagerLoop.ProcessActive` | internal/synthetic/manager.go:401-423 | A client that is gone fails the account and is counted; otherwise nothing changes. |
| `RampManager.ManagerLoop.NextPendingAccount` | internal/synthetic/manager.go:349-356 | The lowest pending account, or zero exactly when there is none. |
| `RampManager.ManagerLoop.ProcessActivatingAndActive` | internal/synthetic/manager.go:374-412 | Each account is processed once; the counters grow by exactly those that became active and those that dropped out. |
| `RampManager.ManagerLoop.MergeProvisionResult` | internal/synthetic/manager.go:285-302 | The listed accounts become pending or failed, the others stay. |
| `RampManager.ManagerLoop.FailUnavailable` | internal/synthetic/manager.go:304-313 | Exactly the accounts without an identity fail. |
| `RampManager.ManagerLoop.PublishStatus` | internal/synthetic/manager.go:486-507 | The four counts are the sizes of the four groups and add up to the target. |

## Left out

- Floating-point rounding: coordinates are exact reals, so a distance equal to a radius is decided exactly.
- `World.World.Step`: takes where a mover ends up as a parameter, so that the laws of the hub hold wherever it does; `Movement` states the distance and direction for the places the server computes, with the square root of two and the cosine as parameters and away from the poles, where the server divides by zero.
- `HubViews.NobodySeesTheGone`: only of runs in which no connection is replaced while the index lags its player by more than a cell less the view; it is not so in the server otherwise, and `HubViewsTight.LagBoundIsTight` shows that no larger lag will do.
- `Hub.Hub.Win`: the return after an encoding error (`internal/realtime/hub.go:776-780`) is left out, since a message of two numbers can always be encoded.
- `Hub.Hub.ProcessCollect`: likewise.
- `Hub.Hub.SendInitialization`: whether all four messages are sent is one parameter, so what a client that fails midway has received by then is not stated; the tick they carry is left out.
- `Hub.Hub.OnDisconnectUser`: leaves out the drain of the writers that follows the step (`internal/realtime/hub.go:324-326`).
- `Hub.Hub.Stop`: leaves out the drains and the closing of connections and of the dispatcher (`internal/realtime/hub.go:334-349`).
- `RampManager.ManagerLoop.ProcessActive`: leaves out the input that an account's behaviour sends to the hub and the count of such inputs (`internal/synthetic/manager.go:407-411`); to the hub it is an input like any other.
- The random generators: a draw is any point of the unit disc, a delay any value of its range.
- Identity of the index's player records (`internal/game/aoi.go:63-72`): the class keeps them as values in a map field, so aliasing between records is not expressed.
- `ReplicationDispatcher` and `ScorePersister` as objects: their methods interleave, so they are step machines on values in which each lock, channel or counter operation is one step; what goes on inside one step is not divided further.
- Encoding, sockets, HTTP, sessions, SQL text, logging, timers, backoff delays, the encoded-bytes counter and the callback on a failed Send: calls out of the model; encoding and writing either succeed or fail.
- The drains of the two writers after steps (`internal/realtime/hub.go:324-352`): the hub model records what is submitted, and the writers are modelled on their own; `HubPositions` and `HubScores` join the two.
- The leaderboard, the statistics of the hub and of the builder, and the account provisioning: independent sums and sorts.
- `BuildConcrete` (`internal/realtime/replication_builder.go:172-291`): a benchmark copy of `Build`.
- Loading and overlap checks of region files: what they guarantee is assumed as `Setup.Sound`.
- Connections of the position writer: its channel and its worker's waiting are not modelled, only the batches it applies, in any order.
- A browser's markers being the player's present neighbours: not so in the server, since a mover is announced to those that come to see it but is not told of those that stand still; `HubUpdates.AnnouncedAreSeen` says exactly who is announced.
- Freshness of saved positions across sessions: not so in the server; `PositionRuns.WrittenIffNewer` gives the exact condition and `PositionRuns.NewSessionIsIgnored` an instance.
- A drain delivering everything submitted, and the dispatcher's Stop always returning: not so in the server (`internal/storage/score_persistence.go:50-55`, `internal/realtime/hub.go:334-335`), and not stated; scores count as accepted once they are coalesced or handed to SubmitSync.
- Monotone message totals of synthetic clients: not so in the server (`internal/synthetic/manager.go:414-423`); those totals are not part of the model.
