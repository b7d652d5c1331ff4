# Verification of the game engine and its store

This project models the server-authoritative game engine of the repository and
the in-process Redis it keeps its state in, and proves what they promise over
every input, every run and every interleaving.

To check it, with Dafny 4.11: `dafny verify dfyconfig.toml`

| files | what they model |
|---|---|
| `Davinci*.dfy` | Da Vinci Code: tiles, dealing, the four-phase turn machine, points, views, and the stored state under concurrent calls and late deadlines |
| `RoomLock*.dfy`, `RedisLock.dfy` | the SET NX PX room lock around read-mutate-write, as interleaved steps, the order of its effects, the life of one call, and its commands on the store |
| `Redis*.dfy` | the keyspace with lazy expiry, key cap, script admission and snapshots, against a map of live keys |
| `Yacht*.dfy`, `StoreFaults.dfy` | Yacht: round state, deadlines, offline turns, the turn clock over a store that may throw, dice scoring, score, finish and room scripts, and their coupling with crashes |
| `ScoreScript.dfy`, `ScoreOutcomes.dfy` | the score script command by command on the mutable store, against the typed confirmation; what scoring, finishing and a whole turn answer and leave |
| `DeadlineScheduler.dfy` | the generation-guarded deadline scheduler, as interleaved steps |
| `PingPong*.dfy` | ping pong: the ball's line, the swing window, serves and points |
| `Duel*.dfy` | the sunset duel: draws, fouls, verdicts |

Code that computes is written as functions; code that changes state in place is
written as methods (of a class where the source has one) proved against those
functions, and the results below are lemmas about the functions. The files named
`*Outcomes.dfy` and `DavinciGames.dfy` state the rules of each game, command and
call once more, as relations between the state before and the state after, with
their numbers written out and none of the transition functions named, and prove
that every transition follows them.

Where the code does not do what its comments say, the code is modelled, an input
is given at which it fails, and the exact condition is proved:

- `pingPongCourtMath.ts` calls `ballAt` a mere restatement of the ball. With a
  swing judged before the ball's launch (the 120 ms rollback allows it) it is
  not: the ball moves ahead (`PingPongCourt.BallAtComposesIff`,
  `PingPongRules.UnreturnedKeepsLineIff`, `MissedSwingMovesBall`).
- The store comments rely on the lock against lost updates. A schedule is free of
  them exactly when each write finds the state it read (`RoomLock.ScheduleIsSerialIff`).
  Critical sections that fit the lease are enough (`TimelyRunIsUpToDate`); a
  section that outlives it is not, and `remove` and state expiry take no lock
  (`OverrunLosesUpdate`, `RemovedStateReturns`). For the order in which the lock
  was taken a fencing token is needed besides
  (`RoomLockOrder.SerialByAcquisitionIff`, `LateCallIsOutOfOrder`).
- `CONFIRM_SCORE` writes the room's scores hash without declaring it; it
  completes if and only if that hash is already there
  (`RedisScore.ConfirmScoreCompletesIff`, `ConfirmScoreCanBreak`,
  `ScoreScript.ConfirmScore`). In a room whose players have joined it always is
  (`ScoreScript.JoinedRoomCompletes`).
- `roundTimeoutResolver.ts:82-83` promises that no storage failure stops a
  round. A deadline has given up its timer when it runs, and only its scoring is
  inside a `try`: if any other store call of its own throws, or its scoring
  throws after the commit, the turn has no timer. At the key cap the very first
  call does (`YachtClock.FullStoreLosesClock`, `ClockIsLost`). For every event,
  the throws that lose the clock are named exactly (`ClockLostIff`,
  `ClockRunsIff`). Then the room waits for the player to move, for somebody to
  resume it, or for a restart (`LostClockWaits`).
- Containers without members do not exist, says `memoryRedis.ts`; `hset` with no
  field on an absent key makes one (`RedisLaws.NoEmptyKeptIff`,
  `FieldlessHSetLeavesEmptyHash`), and a restart then drops it
  (`RedisSnapshot.RoundTripExact`, `EmptyHashIsDropped`).

## Model

| member | source | states |
|---|---|---|
| DavinciState.FindInsertIndex | backend/src/game/davinci/davinciTiles.ts:29-39 | the loop returns the recursive insertion slot, for hands with jokers anywhere |
| DavinciState.InsertIndexSplits | backend/src/game/davinci/davinciTiles.ts:13-39 | everything numbered left of the slot comes before the face, everything right of it after |
| DavinciState.InsertKeepsOrder | backend/src/game/davinci/davinciTiles.ts:29-45 | inserting a numbered tile at its slot keeps a hand strictly ascending, jokers aside |
| DavinciState.InsertIndexIsLeftmost | backend/src/game/davinci/davinciTiles.ts:29-39 | no slot further left keeps the hand in order |
| DavinciState.InsertJokerKeepsOrder | backend/src/game/davinci/davinciTiles.ts:41-45 | a joker may be placed anywhere |
| DavinciRules.FillHands | backend/src/game/davinci/davinciSetup.ts:41-98 | the dealing loop gives each seat its sorted slice of the shuffled tiles, no seat another's |
| DavinciRules.FindNextSurvivor | backend/src/game/davinci/davinciTurnFlow.ts:15-48 | the seat loop finds what the recursive search finds |
| DavinciRules.AdvanceTurn | backend/src/game/davinci/davinciTurnFlow.ts:15-48 | advancing in steps gives the state the transition function gives |
| DavinciSteps.AdvancePassesTurn | backend/src/game/davinci/davinciTurnFlow.ts:15-48 | unless the game ends, the turn goes to another player, the nearest survivor in seat order |
| DavinciSteps.AdvanceSound | backend/src/game/davinci/davinciTurnFlow.ts:15-48 | from a settled table, passing the turn keeps the invariant, every tile, and the number still undealt |
| DavinciSteps.AdvanceProgress | backend/src/game/davinci/davinciTurnFlow.ts:15-48 | so a turn whose first half opened or placed a tile lowers the measure when it is passed on |
| DavinciTransitions.ConcludeSound | backend/src/game/davinci/davinciTurnFlow.ts:59-84 | ending a turn, with the drawn tile shown or not, joker or not, keeps the invariant, lowers the measure and keeps every tile |
| DavinciTransitions.PlaceSound | backend/src/game/davinci/davinciTurnFlow.ts:87-101 | placing a joker keeps the invariant, lowers the measure and keeps every tile |
| DavinciTransitions.GuessSound | backend/src/game/davinci/davinciRules.ts:94-144 | a guess is ignored, or keeps the invariant with one more version and a lower measure |
| DavinciTransitions.DecideSound | backend/src/game/davinci/davinciRules.ts:157-178 | the same for a decision |
| DavinciTransitions.PlaceInputSound | backend/src/game/davinci/davinciRules.ts:187-200 | the same for placing |
| DavinciTransitions.ExpireSound | backend/src/game/davinci/davinciRules.ts:202-213 | an expired deadline always makes progress until the game is over |
| DavinciTransitions.ForfeitSound | backend/src/game/davinci/davinciRules.ts:222-255 | a forfeit is ignored, or makes progress; the one tile that can leave the table is the drawn tile of a turn player who quits |
| DavinciRuns.StepSound | backend/src/game/davinci/davinciRules.ts:94-255 | every input by anyone is ignored (same state) or raises the version by exactly one, keeps the invariant and strictly lowers 2·unrevealed + 2·undealt + phase rank |
| DavinciRuns.RunSound | backend/src/game/davinci/davinciRules.ts:94-255 | over any run version plus measure never rises and tiles are conserved |
| DavinciRuns.ReplayIgnored | backend/src/game/davinci/davinciRules.ts:94-200 | an accepted input, or one numbered no higher by the same player, never takes effect again, however the game goes on |
| DavinciRuns.StaysFinished | backend/src/game/davinci/davinciRules.ts:94-255 | FINISHED is final |
| DavinciDeal.InitialSound | backend/src/game/davinci/davinciSetup.ts:41-98 | every accepted deal satisfies the invariant with all 26 tiles on the table |
| DavinciDeal.VersionBounded | backend/src/game/davinci/davinciRules.ts:94-255 | from any deal and player count, after any inputs, the version is between 1 and 88, so every game ends |
| DavinciDeal.ReachableSound | backend/src/game/davinci/davinciTurnFlow.ts:15-109 | in every reachable state: eliminated iff no hidden tile; the turn is a survivor's; FINISHED iff one survivor, the winner; hands in order; drawn tile hidden or a joker being placed; tiles partition the deck but for those lost by forfeiting turn players |
| DavinciDeal.IdleTableFinishes | backend/src/game/davinci/davinciRules.ts:202-213 | 89 deadlines end any untouched game |
| DavinciDeal.ScoresAtMostTiles | backend/src/game/davinci/davinciSetup.ts:30-31 | the scores of a table never add up to more than 26 |
| DavinciView.BuildView | backend/src/game/davinci/davinciState.ts:153-176 | the loop over the hands builds the view |
| DavinciView.ViewTellsNothingHidden | backend/src/game/davinci/davinciState.ts:133-176 | while play goes on two states give the same view if and only if they agree but for deck contents and hidden numbers not the viewer's |
| DavinciView.PlayerSeesMoreIff | backend/src/game/davinci/davinciState.ts:122-176 | a player is sent more than a screen nobody plays at if and only if the game is on and a tile of their own is closed; at the end all are sent the same, every number and the revealed marks as they are |
| DavinciView.ViewShows | backend/src/game/davinci/davinciState.ts:131-176 | field by field and tile by tile: a number is shown exactly if the tile is open, the viewer's own or the game over |
| DavinciEffects.StepKeepsOrOpens | backend/src/game/davinci/davinciRules.ts:94-255 | no input takes a tile from a hand or changes its face, and a hidden one is opened only by its number called right, as the leftmost of an owner failing with the deck gone, or by its owner's forfeit |
| DavinciEffects.RunKeepsTiles | backend/src/game/davinci/davinciRules.ts:94-255 | over any run a tile in a hand stays there with its face and is never covered again |
| DavinciEffects.RightCallIsCredited | backend/src/game/davinci/davinciRules.ts:104-143 | a right call opens that tile, counts one hit, and the caller keeps turn, drawn tile and deck |
| DavinciOutcomes.AdvanceOutcome | backend/src/game/davinci/davinciTurnFlow.ts:15-48 | passing the turn, without the transition function's words: out is who has nothing hidden; one left ends the game; else the next seat still in draws the top of the deck with 30 s to guess; nothing else changes |
| DavinciOutcomes.ConcludeOutcome | backend/src/game/davinci/davinciTurnFlow.ts:59-84 | ending a turn: a drawn number goes to its place, face up exactly after a failure; a drawn joker is held the same way for 15 s; with nothing drawn a failure opens the leftmost hidden tile and no other |
| DavinciOutcomes.GuessFollows | backend/src/game/davinci/davinciRules.ts:94-144 | which guesses count, if and only if; the right one opens that tile, credits the caller and leaves the turn open, the wrong one ends a failed turn |
| DavinciOutcomes.DecideFollows | backend/src/game/davinci/davinciRules.ts:157-178 | going on changes nothing but phase, deadline, version and input number; stopping ends a turn that did not fail |
| DavinciOutcomes.PlaceFollows | backend/src/game/davinci/davinciRules.ts:187-200 | the held joker stands at the asked index as it was held, and the turn is passed; any other index changes nothing |
| DavinciOutcomes.ExpireFollows | backend/src/game/davinci/davinciRules.ts:202-213 | too late to guess is a failed turn, too late to decide is stopping, and a joker nobody placed goes to the right end |
| DavinciOutcomes.ForfeitFollows | backend/src/game/davinci/davinciRules.ts:222-255 | who leaves has every tile opened where it stands; the turn stays, is passed or the game ends |
| DavinciOutcomes.StepFollowsRules | backend/src/game/davinci/davinciRules.ts:94-255 | from every state of the invariant each input does what these rules say and nothing else |
| DavinciGames.DealFollowsRules | backend/src/game/davinci/davinciSetup.ts:54-98 | the deal: four players get three tiles, fewer four, the first numbered ones as shuffled, seat by seat, ascending and hidden; the rest in shuffled order, the first of it drawn |
| DavinciGames.SetupRefused | backend/src/game/davinci/davinciSetup.ts:46-58 | which setups are accepted, if and only if, and which error the others get |
| DavinciGames.GameFollowsRules | backend/src/game/davinci/davinciRules.ts:94-255 | from any deal, after any inputs, the next input does what the rules say |
| DavinciGames.ScoreIsEarned | backend/src/game/davinci/davinciSetup.ts:30-31 | over any game a player's score is the number of their right calls in it plus their tiles still hidden |
| DavinciStore.SerialIsRun | backend/src/game/davinci/davinciStateStore.ts:65-80 | the store's mutations one by one, version check included, are a run of the rules on the accepted inputs |
| DavinciStore.AcceptedCounted | backend/src/game/davinci/davinciStateStore.ts:74-75 | the stored version counts the accepted inputs |
| DavinciStore.StoredStateIsReachable | backend/src/game/davinci/davinciGameService.ts:139-243 | under any interleaving of inputs and version-stamped deadlines whose critical sections fit their leases, the stored state is reachable by the accepted inputs alone, with one version for each |
| DavinciStore.MutateTells | backend/src/game/davinci/davinciGameService.ts:136-240 | a call changes the stored state exactly if the rules take its input, and a deadline exactly if it finds the version it was set for |
| DavinciStore.LateDeadlineIsVoid | backend/src/game/davinci/davinciGameService.ts:229-240 | however late or often deadlines fire: once the state a deadline was set for has changed, no deadline for that version or an earlier one changes anything |
| RoomLock.StepKeepsLeases | backend/src/game/yacht/redisYachtRoomLock.ts:33-49 | every step keeps: a call inside its lease owns the lock |
| RoomLock.AtMostOneHolder | backend/src/game/yacht/redisYachtRoomLock.ts:33-49 | in every run, whatever the timing, two calls inside their leases are the same call |
| RoomLock.LockSurvivesOthers | backend/src/infra/memoryRedis.ts:86-93 | over any steps, until it runs out a lock outlives everything but its own owner's release, whether the owner reads, writes or is about to release |
| RoomLock.StepStaysInOrder | backend/src/game/yacht/redisYachtDiceStateStore.ts:200-214 | effects happen in the order the lock was taken |
| RoomLock.TimelyRunIsSerial | backend/src/game/yacht/redisYachtDiceStateStore.ts:200-214 | if reads and writes fall inside leases and nothing is removed under a reader, any interleaving equals the mutations one by one in acquisition order, for every mutation |
| RoomLock.ScheduleIsSerialIff | backend/src/game/yacht/redisYachtDiceStateStore.ts:200-214 | the exact condition: a schedule is serial at every moment for every mutation if and only if, for every mutation, each write finds the state it read |
| RoomLock.TimelyRunIsUpToDate | backend/src/game/yacht/redisYachtDiceStateStore.ts:16-17 | reads and writes inside leases, with nothing removed under a reader, meet that condition |
| RoomLock.CommitIsRightIff | backend/src/game/yacht/redisYachtDiceStateStore.ts:205-213 | a write is right for every mutation if and only if what it overwrites is what was read |
| RoomLockOrder.OrderedIffFenced | backend/src/game/yacht/redisYachtRoomLock.ts:33-49 | over any schedule and for each mutation: calls take effect in the order they took the lock if and only if no effect finds one ahead that took the lock later |
| RoomLockOrder.SerialByAcquisitionIff | backend/src/game/yacht/redisYachtDiceStateStore.ts:200-214 | the exact condition for serial in acquisition order, for every mutation: each write finds the state it read and each effect is so fenced |
| RoomLockOrder.LateCallIsOutOfOrder | backend/src/game/yacht/redisYachtDiceStateStore.ts:16-17 | the two are two: a call that reads after its lease loses no update and still comes out of order |
| RoomLock.OverrunLosesUpdate | backend/src/game/yacht/redisYachtDiceStateStore.ts:16-17 | a write after the five second lease can lose an update |
| RoomLock.RemovedStateReturns | backend/src/game/yacht/redisYachtDiceStateStore.ts:181-184 | state removed, which takes no lock, between a read and its write comes back |
| RoomLockOutcomes.WaiterStep | backend/src/game/yacht/redisYachtRoomLock.ts:38-41 | a call in line takes the lock when it finds none running, tries again if refused in time, gives up at its deadline, and leaves the line in no other way |
| RoomLockOutcomes.BusyIff | backend/src/game/yacht/redisYachtRoomLock.ts:36-41 | over every run a call ends as busy if and only if it was refused and found its whole waiting time since its start gone |
| RoomLockOutcomes.HolderStep | backend/src/game/yacht/redisYachtDiceStateStore.ts:205-213 | inside, a call reads what is stored and writes what its mutation makes of what it read |
| RoomLockOutcomes.CloserStep | backend/src/game/yacht/redisYachtRoomLock.ts:43-48 | a delivered release takes away the call's own running lock and no other; a failed one none |
| RoomLockOutcomes.OutsideStep | backend/src/game/yacht/redisYachtDiceStateStore.ts:73-83 | a call starts with its whole waiting time; a first state is written only where there is none; removal takes the state away |
| RedisLock.AcquireIsTryLock | backend/src/game/yacht/redisYachtRoomLock.ts:38 | SET NX PX answers OK exactly when the protocol takes the lock and a key still fits, with the same lease; at the key cap it refuses a lock the protocol would give and changes nothing |
| RedisLock.ReleaseIsUnlockIfOwner | backend/src/infra/memoryRedis.ts:86-93 | GET then DEL on a match is the protocol's release, expired locks included |
| RedisKeyspace.Keyspace.Lookup | backend/src/infra/redisKeyspace.ts:47-55 | a lookup answers from the live keys and changes none of them |
| RedisKeyspace.Keyspace.Sweep | backend/src/infra/redisSnapshot.ts:46-56 | a sweep changes nothing that is live and leaves nothing else; it counts what it reclaimed |
| RedisKeyspace.Keyspace.Create | backend/src/infra/redisKeyspace.ts:91-106 | a new key is refused exactly when the live keys are at the cap, or in a script when undeclared |
| RedisKeyspace.Keyspace.HashForWrite | backend/src/infra/redisKeyspace.ts:79-85 | the hash to write, created if there is room |
| RedisKeyspace.Keyspace.WriteBack | backend/src/infra/redisKeyspace.ts:20-27 | an emptied container takes its key with it |
| RedisStrings.ParseSetOptions | backend/src/infra/redisStrings.ts:27-46 | the option loop reads EX, PX, NX, XX left to right, later ones winning |
| RedisStrings.Set | backend/src/infra/redisStrings.ts:12-25 | SET as the model has it |
| RedisStrings.GetDel | backend/src/infra/redisStrings.ts:48-52 | GETDEL as the model has it; what that is, `RedisOutcomes.PlainFollows` says |
| RedisHashes.WritePairs | backend/src/infra/redisHashes.ts:13-21 | the count is of fields that were new |
| RedisHashes.DeleteNames | backend/src/infra/redisHashes.ts:46-53 | the count is of fields that were there, repeats once |
| RedisHashes.HSet | backend/src/infra/redisHashes.ts:8-36 | HSET as the model has it |
| RedisHashes.HDel | backend/src/infra/redisHashes.ts:46-53 | HDEL as the model has it |
| RedisHashes.HIncrBy | backend/src/infra/redisHashes.ts:67-76 | HINCRBY as the model has it |
| RedisZsets.ZAdd | backend/src/infra/redisZsets.ts:7-33 | ZADD as the model has it |
| RedisZsets.ZRem | backend/src/infra/redisZsets.ts:58-65 | ZREM as the model has it |
| RedisZsets.ZRemRangeByScore | backend/src/infra/redisZsets.ts:67-86 | the removed members are those within both bounds |
| RedisZsets.SortedMembers | backend/src/infra/redisZsets.ts:50-56 | members by score, then by name, each once |
| RedisZsets.ZRange | backend/src/infra/redisZsets.ts:36-48 | the asked slice of that order, negative and out-of-range indices clamped |
| RedisKeyCommands.Del | backend/src/infra/redisKeyCommands.ts:9-18 | the keys are gone; the count is of live ones, repeats once |
| RedisKeyCommands.PExpire | backend/src/infra/redisKeyCommands.ts:21-31 | PEXPIRE as the model has it |
| RedisCore.Execute | backend/src/infra/redisKeyspace.ts:29-147 | every command's reply and resulting live keys are the model's |
| RedisCore.Admit | backend/src/infra/redisKeyspace.ts:115-121 | a script is admitted exactly when its missing declared keys fit the cap over live keys |
| RedisCore.RunAdmitted | backend/src/infra/redisKeyspace.ts:108-127 | a refused script writes nothing; an admitted one runs as the model's commands up to the first that throws |
| RedisCore.RunTrace | backend/src/infra/redisKeyspace.ts:47-127 | over any sequence of commands, scripts, sweeps and time the mutable store answers as a map whose expired keys do not exist, and never holds more keys than the cap |
| RedisLaws.RankOrderUnique | backend/src/infra/redisZsets.ts:50-56 | there is one rank order |
| RedisLaws.LiveKeysDecide | backend/src/infra/redisKeyspace.ts:91-106 | reply, room decision and new live keys depend on the old live keys alone |
| RedisLaws.OtherKeysKept | backend/src/infra/redisKeyspace.ts:29-31 | a command changes only keys it names |
| RedisLaws.SetReadsBack | backend/src/infra/redisStrings.ts:12-25 | what SET stored reads back until its new expiry, exactly; the old expiry is gone |
| RedisLaws.HSetReadsBack | backend/src/infra/redisHashes.ts:8-21 | a field reads as the last value written to it, and the key keeps its expiry |
| RedisLaws.PExpireEndsKey | backend/src/infra/redisKeyCommands.ts:21-31 | a key given a lifetime ends at that moment and not before; at once if it is not positive |
| RedisLaws.NoEmptyKeptIff | backend/src/infra/redisHashes.ts:8-21 | from a store without empty containers a command leaves one if and only if it is HSET with no field on an absent key with room |
| RedisLaws.FieldlessHSetLeavesEmptyHash | backend/src/infra/redisHashes.ts:13-36 | and it happens: an empty record on an empty store leaves an empty hash |
| RedisLaws.TraceKeepsNoEmpty | backend/src/infra/redisHashes.ts:8-53 | over any trace of commands, scripts, sweeps and time whose HSETs give fields, no hash or sorted set is ever left empty |
| RedisLaws.ScriptCommandHasRoom | backend/src/infra/redisKeyspace.ts:91-100 | in a script no command meets the cap; it throws on an undeclared key only when it would create it |
| RedisLaws.DeclaredScriptRunsThrough | backend/src/infra/redisKeyspace.ts:108-127 | a script whose keys are declared, or there and never removed, is stopped by neither cap nor declaration |
| RedisLaws.ScriptStaysUnderCap | backend/src/infra/redisKeyspace.ts:115-127 | an admitted script never leaves more keys than the cap |
| RedisLaws.LeavingScriptAlwaysRuns | backend/src/infra/redisKeyspace.ts:108-127 | a script that declares nothing is admitted at any fullness, meets no cap and leaves no new key |
| RedisLaws.CommandStaysUnderCap | backend/src/infra/redisKeyspace.ts:101-105 | nor does a single command |
| RedisOutcomes.PlanMeans | backend/src/infra/redisStrings.ts:27-46 | the last EX (seconds) or PX (milliseconds) sets the expiry and the last NX or XX the condition; the first wrong option is the error |
| RedisOutcomes.SetFollows | backend/src/infra/redisStrings.ts:12-25 | SET: when nothing is stored and why, and what is stored otherwise; other keys stay |
| RedisOutcomes.HSetFollows | backend/src/infra/redisHashes.ts:8-36 | HSET: errors, the fields afterwards with the last value given for each, the count of new ones, the expiry kept |
| RedisOutcomes.HDelFollows | backend/src/infra/redisHashes.ts:46-53 | HDEL: the named fields are gone and counted, the others stay, and the key goes exactly with its last field |
| RedisOutcomes.HIncrByFollows | backend/src/infra/redisHashes.ts:67-76 | HINCRBY: the field, from zero if absent, grows by the increment, which is the reply; other fields and the expiry stay |
| RedisOutcomes.ZAddFollows | backend/src/infra/redisZsets.ts:7-33 | ZADD: errors, the scores afterwards, the count of new members, the expiry kept |
| RedisOutcomes.ZRemFollows | backend/src/infra/redisZsets.ts:58-65 | ZREM: the named members are gone and counted, and the key goes exactly with its last member |
| RedisOutcomes.ZRemRangeFollows | backend/src/infra/redisZsets.ts:67-86 | ZREMRANGEBYSCORE: exactly the members not below the one bound and not above the other are gone |
| RedisOutcomes.ZRangeFollows | backend/src/infra/redisZsets.ts:36-48 | ZRANGE: exactly the members of the rank order from the first place to the last, places below zero counted from the end |
| RedisOutcomes.WholeRange | backend/src/infra/redisZsets.ts:36-56 | ZRANGE 0 -1 is the whole rank order |
| RedisOutcomes.CountInPlaces | backend/src/infra/redisKeyCommands.ts:5-7 | EXISTS counts a key as often as it is named |
| RedisOutcomes.DelFollows | backend/src/infra/redisKeyCommands.ts:9-18 | DEL: the named keys are gone, each counted once if it was there, the others stay |
| RedisOutcomes.PlainFollows | backend/src/infra/redisStrings.ts:48-52 | GETDEL answers the string there was and leaves no key, or fails and leaves everything; and GET, HGET, HGETALL, PEXPIRE and PTTL by their rules |
| RedisOutcomes.ExecFollowsRules | backend/src/infra/redisKeyspace.ts:29-147 | every command answers and leaves what these rules say |
| RedisOutcomes.TakenOnce | backend/src/infra/redisStrings.ts:48-52 | over any trace of commands, scripts, sweeps and time: between two GETDELs of one key that both answer a value, the second value was SET again |
| RedisScore.ConfirmScoreCompletesIff | backend/src/game/score/scripts.ts:63-104 | CONFIRM_SCORE, which does not declare the room's scores, completes if and only if that hash exists; otherwise its third write throws and the first two stay |
| RedisScore.RoomIsSetUp | backend/src/game/score/scripts.ts:7-15 | three HSETs on an empty store make a game being played whose room has no scores hash |
| RedisScore.ConfirmScoreCanBreak | backend/src/game/score/scripts.ts:45-104 | and it happens: on that store CONFIRM_SCORE is admitted, passes every guard, writes sheet and submission, and then throws |
| RedisSnapshot.SnapshotOf | backend/src/infra/redisSnapshot.ts:6-17 | one line for each live key and no other |
| RedisSnapshot.Restore | backend/src/infra/redisSnapshot.ts:23-43 | all kept lines or none: a malformed line, too many lines or a store in use leave it as it was |
| RedisSnapshot.RoundTrip | backend/src/infra/redisSnapshot.ts:6-43 | a snapshot restored later gives the live keys of then, but for empty containers, and fits |
| RedisSnapshot.RoundTripExact | backend/src/infra/redisSnapshot.ts:28-30 | it gives exactly those if and only if none of them is an empty container |
| RedisSnapshot.Reload | backend/src/infra/redisSnapshot.ts:6-43 | a restart as a whole: the snapshot of one store is accepted by an empty one at least as large and shows what the old store would show then, exactly if and only if no live container is empty |
| RedisSnapshot.EmptyHashIsDropped | backend/src/infra/redisSnapshot.ts:28-30 | the empty hash that HSET can leave is gone after a restart |
| YachtRound.TurnIsPlayedOnce | backend/src/game/round/roundState.ts:257-283 | a turn is played once: after a submission, whatever follows, the same player's submissions, rolls and holds for that round are refused, as over, of another round, of no participant or out of turn, in that order |
| YachtRound.ExpiredTurnIsOver | backend/src/game/round/roundState.ts:213-221 | the same for a turn that expired |
| YachtRound.MergeRolledDice | backend/src/game/round/roundDice.ts:5-17 | the loop keeps held places |
| YachtRound.RecordRollKeepsHeld | backend/src/game/round/roundState.ts:118-144 | a roll counts up by one to at most three, and each die is the held one or the server's |
| YachtRound.AutoRollWorks | backend/src/game/round/roundState.ts:172-186 | the server can roll exactly while the game goes on and rolls are left; turn and player stay |
| YachtRound.AdvanceTurnSound | backend/src/game/round/roundTransitions.ts:14-69 | a turn over leaves exactly one fewer; a round completes exactly with its last player; the game finishes exactly in the last round |
| YachtRound.SubmitSound | backend/src/game/round/roundState.ts:189-210 | ALREADY_SUBMITTED is unreachable; a submission succeeds exactly for the active player with the server's dice and takes one turn |
| YachtRound.ExpireSound | backend/src/game/round/roundState.ts:213-221 | so does an expiry |
| YachtRound.WithoutParticipantInv | backend/src/game/round/roundState.ts:231-251 | removal is refused exactly for the active player of a running game, removes just that player, and keeps whose turn it is |
| YachtRound.WithoutParticipantOrder | backend/src/game/round/roundState.ts:241-250 | the others keep their seats in order |
| YachtRound.WithoutParticipantTurns | backend/src/game/round/roundState.ts:231-251 | it lowers the turns left by the rounds to come, and one more if the player was still to play |
| YachtOutcomes.StartFollows | backend/src/game/round/roundState.ts:69-85 | a round starts with the first of the given players in their order, or with the stated error |
| YachtOutcomes.RollFollows | backend/src/game/round/roundState.ts:118-144 | a player's roll: who may, the errors in their order, and the dice die by die |
| YachtOutcomes.HoldFollows | backend/src/game/round/roundState.ts:153-163 | a hold replaces the one before as a whole, and touches neither dice nor roll count |
| YachtOutcomes.AutoRollFollows | backend/src/game/round/roundState.ts:172-186 | the server's roll keeps every die the player holds and the hold itself; before the first roll it holds nothing |
| YachtOutcomes.SubmitFollows | backend/src/game/round/roundState.ts:189-210 | only the dice on the table can be scored; the next seat, round or the end follows |
| YachtOutcomes.ExpireFollows | backend/src/game/round/roundState.ts:213-221 | the same without a submission |
| YachtOutcomes.HeldDiceStay | backend/src/game/round/roundState.ts:147-186 | after an accepted hold, whatever others try, whoever leaves and however often the server rolls, it is the same turn with the same hold and every held die as it lay |
| YachtOutcomes.DeadlineFollows | backend/src/game/round/roundTimeoutResolver.ts:109-200 | a deadline rolls while rolls are left, else the dice on the table are submitted in the picked category, or nothing is, and the turn passes |
| YachtTimeout.OutOfRollsHasDice | backend/src/game/round/roundTimeoutResolver.ts:143-147 | the branch for missing dice is unreachable |
| YachtTimeout.ConfirmedIsSubmitted | backend/src/game/round/roundTimeoutResolver.ts:160-167 | a deadline that got its score confirmed commits that very submission |
| YachtTimeout.FailureAfterCommitKeepsTurn | backend/src/game/round/roundTimeoutResolver.ts:160-175 | a failure after the commit passes no second turn: the submission stands and the deadline reports a stale turn |
| YachtTimeout.ResolveSound | backend/src/game/round/roundTimeoutResolver.ts:109-200 | with a store that does not throw, whatever the scoring does, a throw after the commit included: a deadline changes nothing exactly when its turn is over, and otherwise rolls once or passes one turn, which lowers 4·turns − rolls |
| YachtTimeout.FiresFinish | backend/src/game/round/roundTimeoutResolver.ts:109-200 | deadlines, as long as they come, end the game, however scoring fails |
| YachtTimeout.GameFitsDeadlines | backend/src/game/round/roundTimeoutResolver.ts:109-200 | at most 48 of them for each player |
| YachtInterleaved.InterleavedPassesOnce | backend/src/game/round/roundTimeoutResolver.ts:109-200 | with any moves of others before each of its calls, a deadline leaves what those moves leave with at most one of its own among them, for its own turn, and unless it rolled that turn is over |
| YachtInterleaved.Interleaved | backend/src/game/round/roundTimeoutResolver.ts:109-200 | the same calls with moves of others before each; without any it is the resolution function |
| YachtTimeout.RoundStore.AutoRollAtomically | backend/src/game/yacht/redisYachtDiceStateStore.ts:117-133 | nothing for a stale turn or one out of rolls, else the roll is stored; a call that throws has stored it or nothing |
| YachtTimeout.RoundStore.ExpireAtomically | backend/src/game/yacht/redisYachtDiceStateStore.ts:135-145 | only the expected turn is passed; a call that throws has passed it or nothing |
| YachtTimeout.RoundStore.SubmitAtomically | backend/src/game/yacht/redisYachtDiceStateStore.ts:85-96 | the state changes only for a valid submission with its score confirmed, and then stays changed though the call fails later |
| YachtTimeout.RoundStore.RemoveParticipantAtomically | backend/src/game/yacht/redisYachtDiceStateStore.ts:147-155 | removal stored or refused |
| YachtTimeout.RoundStore.ResolveDeadline | backend/src/game/round/roundTimeoutResolver.ts:109-200 | the store calls in sequence come to the resolution function: failures of the scoring are caught, a throw of any other call ends the deadline with what was done until then |
| YachtTurns.RemoveActiveSound | backend/src/game/round/roundPlayerRemoval.ts:64-74 | removing the active player never meets its refusal, and turns fall |
| YachtTurns.TurnTimer.Begin | backend/src/game/round/roundTimerService.ts:141-178 | starting a turn in place is the chain's start, wherever a store call throws |
| YachtTurns.TurnTimer.HandleOffline | backend/src/game/round/roundOfflineTurns.ts:59-81 | counting a miss, then skip or removal, wherever a store call throws |
| YachtTurns.TurnTimer.AdvanceTo | backend/src/game/round/roundTimerService.ts:222-261 | cancel, forget the deadline, end of round, end of game, cap or next turn, wherever a store call throws |
| YachtTurns.TurnTimer.Remove | backend/src/game/round/roundPlayerRemoval.ts:36-77 | clear misses, leave, read, then abandon, expire and remove, or just remove, wherever a store call throws |
| YachtTurns.StartBounded | backend/src/game/round/roundTimerService.ts:141-178 | a chain handles no more turns than its players have misses left, each is a turn gone but perhaps one cut short by a throw, and it ends with a timer on a player who is there, for good, or by a throw |
| YachtTurns.EveryoneOfflineEnds | backend/src/game/round/roundOfflineTurns.ts:59-81 | with everyone offline, no misses yet and a store that does not throw, at most 2n turns are handled and the chain ends over, capped or abandoned |
| YachtTurnOutcomes.FirstMissPasses | backend/src/game/round/roundOfflineTurns.ts:59-81 | the first turn a player misses is passed to the next seat and they stay in the game |
| YachtTurnOutcomes.SecondMissRemoves | backend/src/game/round/roundOfflineTurns.ts:59-81 | the second removes them and nobody else |
| YachtClock.FireTimer | backend/src/game/round/roundTimerService.ts:281-300 | in place: the slot is given up, a roll starts the turn again, an advance goes on, a stale turn or a throw ends it |
| YachtClock.ClockLostIff | backend/src/game/round/roundTimeoutResolver.ts:109-200 | for every event, presence and position of a throw: a clock that runs, or has no reason to, still does, if and only if this is not one of the throws that lose it: any store call of a deadline outside its scoring, a scoring after its commit, a restart or return that sets no timer, or in any other event one after the turn was passed or the timer given up; no event adds patience and each deadline spends some |
| YachtClock.ClockRunsIff | backend/src/game/round/roundTimerService.ts:281-300 | over every run: the clock runs or has no reason to at every moment, if and only if no event of the run is such a throw |
| YachtClock.FiresSpendPatience | backend/src/game/round/roundTimeoutResolver.ts:70-84 | over any run without such a throw, whoever plays, leaves or returns and whoever is connected when, deadlines and patience left add up to at most the patience at the start |
| YachtClock.ClockRunsTheGame | backend/src/game/round/roundTimeoutResolver.ts:70-84 | from any start, without such a throw: until the end, or while nobody is there, the running turn has its timer, and 48 deadlines a player come to that |
| YachtClock.FullStoreLosesClock | backend/src/game/yacht/redisYachtRoomLock.ts:31-49 | at the key cap every running clock is lost with its next deadline, rolls left or not, and nothing else changes: the lock it takes first needs a key |
| YachtClock.ClockIsLost | backend/src/game/round/deadlineScheduler.ts:139-159 | it happens with everyone present and no die rolled: the first deadline meets a store that has filled up |
| YachtClock.LostClockWaits | backend/src/game/yacht/yachtLifecycle.ts:99-123 | then nothing sets a timer but the player to move rolling, submitting or leaving, a resume or a restart |
| YachtTurnOutcomes.RestartGoesOn | backend/src/game/yacht/yachtLifecycle.ts:106-127 | wherever a run that kept its clock has come to, a restart with the store up goes on with the same turn, dice and timer, and forgets nothing but missed turns |
| YachtTurnOutcomes.RestartIff | backend/src/game/yacht/yachtLifecycle.ts:115-127 | if one of the four reads a restart needs throws, the room is closed or left without a timer; else the turn goes on |
| YachtTurnOutcomes.EventFollows | backend/src/game/round/roundTimerService.ts:141-300 | with a store that does not throw, event by event: play is recorded and the turn of whoever is there gets its timer and stored deadline; a hold, a return, a departure, an empty room touch nothing besides |
| YachtDice.FindRun | backend/src/game/score/scoreCategory.ts:124-132 | the run counter finds exactly whether consecutive faces lie on the table |
| YachtDice.IsSatisfiedBy | backend/src/game/score/scoreCategory.ts:106-158 | the tests on counts decide the categories: four of a kind, three and two, runs, all alike |
| YachtDice.CalculateScore | backend/src/game/score/yachtScoreCalculator.ts:27-53 | zero if missed, an error for bad dice, else the category's worth |
| YachtDice.ScoreAtMost | backend/src/game/score/yachtScoreCalculator.ts:27-53 | each category's best score |
| YachtDice.MaxScoreReached | backend/src/game/score/yachtScoreCalculator.ts:27-53 | which some roll reaches |
| YachtDice.CardPays | backend/src/game/score/yachtScoreCalculator.ts:27-53 | what every line of the card pays, in numbers, for the dice as a bag of faces: 15 for 1234, 2345 or 3456, 30 for 12345 or 23456, 50 for five alike |
| YachtScore.ScoreRoom.ConfirmScore | backend/src/game/score/scripts.ts:68-104 | the script's guards, totals and writes are the confirmation function |
| YachtScore.ScoreRoom.FinishIfComplete | backend/src/game/completion/scripts.ts:36-54 | the loop over the roster ends the game exactly when every sheet is full or it is forced |
| YachtScore.ConfirmOk | backend/src/game/score/scripts.ts:68-104 | confirming keeps every sheet's sums, bonus, room total and count of rounds right |
| YachtScore.RetryChangesNothing | backend/src/game/score/scripts.ts:57-58 | whatever calls came between, a request for a confirmed round changes nothing: the same one is a retry, another a conflict, and after the end both are refused as not playing |
| YachtScore.SheetIsRight | backend/src/game/score/scripts.ts:63-104 | after any calls: subtotal of the upper cells, bonus 35 from 63, total of cells and bonus shown in the room, cells equal rounds, and at most 323 |
| YachtScore.RoundsAreScoredAsSigned | backend/src/game/score/scripts.ts:83-95 | after any calls each scored round has its cell, holding the score of the dice in the signature it was confirmed with |
| YachtScore.EndsOnce | backend/src/game/completion/scripts.ts:32-55 | whatever calls race, at most one is told that it ended the game |
| YachtScore.SuccessesAreRounds | backend/src/game/score/scripts.ts:83-104 | whatever calls race, as many rounds are scored as calls were told of a success |
| YachtMaximum.MaximumIsReached | backend/src/game/score/scripts.ts:68-104 | 323 is reached: from any clean sheet in play some twelve confirmations bring it |
| YachtScore.FinalAfterFinish | backend/src/game/completion/scripts.ts:32-55 | after the end nothing changes |
| ScoreOutcomes.ConfirmTells | backend/src/game/score/scripts.ts:45-105 | each code is answered if and only if what it says is so, and a success writes one cell, one signed round and the totals that follow, nothing else |
| ScoreOutcomes.FinishTells | backend/src/game/completion/scripts.ts:32-55 | the game in play ends if and only if it is forced or every sheet of a roster that is not empty is full |
| ScoreOutcomes.OneEnder | backend/src/game/completion/scripts.ts:32-55 | of all calls that race exactly one is told that it ended the game, if and only if it is over afterwards |
| ScoreOutcomes.RosterTells | backend/src/room/scripts/lifecycle.ts:45-102 | who is in the room after each room script |
| ScoreOutcomes.RoomTells | backend/src/room/scripts/gameFlow.ts:13-100 | which game or phase the room is at after each room script |
| ScoreOutcomes.TotalsTell | backend/src/room/scripts/gameFlow.ts:82-100 | the points it shows: nought for who joins and for everyone back in the lobby |
| YachtGame.StepKeepsGame | backend/src/game/score/scoreRoundSubmissionService.ts:74-85 | every step, crashes and room scripts included, keeps committed turns signed and scored as themselves, scores within rounds begun and totals those of the sheets |
| YachtGame.CommittedIsConfirmed | backend/src/game/score/scoreRoundSubmissionService.ts:74-85 | after any run every committed submission was confirmed under its own signature and its category's cell holds what its own dice are worth; no score is for a round to come |
| YachtGame.UnforcedFinishIsComplete | backend/src/game/completion/scripts.ts:36-54 | after any run the unforced check passes only in round 12 with rounds 1 to 12 of every roster player scored |
| YachtGame.ChecksAgree | backend/src/game/round/roundTransitions.ts:39-69 | in games without skips or removals, crashes allowed, the full-sheet check agrees with the round cap whenever a turn completes a round |
| YachtGame.RosterOnlyShrinks | backend/src/room/scripts/lifecycle.ts:45-68 | over any run, room scripts included: a game once off stays off, and while it is on nobody joins |
| YachtGame.LeaverIsFrozen | backend/src/room/scripts/lifecycle.ts:79-103 | over any run: who has left, or whose game the room has dropped, keeps sheet and scored rounds as they are, joining a later game included |
| YachtGame.RosterIsRanked | backend/src/room/scripts/gameFlow.ts:82-100 | after any run, while the game is on: the roster is part of those who started, each ranked by the total of their own sheet, which is its cells and bonus and at most 323 |
| ScoreOutcomes.TurnIsPlayed | backend/src/game/score/scoreRoundSubmissionService.ts:74-85 | a turn confirmed and committed counts: its line holds what the card pays for the dice, and the turn is passed |
| ScoreOutcomes.CrashIsRepaired | backend/src/game/score/scripts.ts:57-58 | a process that stops between the two loses nothing: the same submission again leads to the same game |
| ScoreOutcomes.MovesAreTheRounds | backend/src/game/round/roundState.ts:118-251 | the other moves of a game are the round's own and touch no sheet |
| ScoreScript.ConfirmGuard | backend/src/game/score/scripts.ts:45-62 | the guard ladder, field by field on the store, is the typed guard and changes nothing |
| ScoreScript.ConfirmScore | backend/src/game/score/scripts.ts:64-105 | the script on the store answers and leaves what the typed confirmation does, unless the scores hash is missing when it comes to write it; then it throws with sheet and submission stored |
| ScoreScript.ConfirmAtomically | backend/src/infra/redisKeyspace.ts:115-127 | with admission around it: a store too full for the two declared keys refuses first and changes nothing |
| ScoreScript.JoinedRoomCompletes | backend/src/room/scripts/lifecycle.ts:55-56 | after any run of a game whose players joined, wherever a score can be confirmed that hash is there |
| DeadlineScheduler.StepInv | backend/src/game/round/deadlineScheduler.ts:84-161 | every step keeps handles, generations and slots consistent |
| DeadlineScheduler.RunsAtMostOnce | backend/src/game/round/deadlineScheduler.ts:139-161 | over any interleaving each action runs at most once, and never after its handle was cancelled |
| DeadlineScheduler.RunsOnlyIfCurrent | backend/src/game/round/deadlineScheduler.ts:145-152 | in every run an action has run if and only if there was a moment, and then just one, at which its task was fired while its generation held the slot |
| DeadlineScheduler.StaleForever | backend/src/game/round/deadlineScheduler.ts:95-117 | a generation that lost its slot never runs again |
| DeadlineScheduler.CancelledNeverRuns | backend/src/game/round/deadlineScheduler.ts:126-137 | nothing scheduled before cancelRoom or stop runs after it |
| DeadlineScheduler.RescheduleRetires | backend/src/game/round/deadlineScheduler.ts:105-107 | nor before a new schedule for the room |
| DeadlineScheduler.InlineActionRuns | backend/src/game/round/deadlineScheduler.ts:98-117 | an overdue action fired inside schedule runs, and its slot stays free |
| DeadlineScheduler.NoTimerLeaks | backend/src/game/round/deadlineScheduler.ts:107-136 | a task that loses its slot unrun is cancelled, unless its schedule call had not returned |
| DeadlineScheduler.SlotKeptIff | backend/src/game/round/deadlineScheduler.ts:84-153 | each call leaves a task its slot if and only if it does not end that task's claim and does not fire it; cancelling another round or room does not |
| DeadlineScheduler.RunsIffFiredInTime | backend/src/game/round/deadlineScheduler.ts:84-161 | told from the calls alone: a scheduled action runs if and only if it is fired before its room is scheduled again or cancelled, its round cancelled or the scheduler stopped |
| DeadlineScheduler.CancelledRoundNeverRuns | backend/src/game/round/deadlineScheduler.ts:119-124 | a task of a cancelled round has run in the end if and only if it had run before the cancel |
| DeadlineScheduler.RetiredTimerIsDropped | backend/src/game/round/deadlineScheduler.ts:105-136 | once its schedule call has returned, the call that ends a waiting task's claim drops its timer |
| DeadlineScheduler.InMemoryScheduler.Begin | backend/src/game/round/deadlineScheduler.ts:90-107 | the slot is taken and the previous handle dropped before the executor is called |
| DeadlineScheduler.InMemoryScheduler.End | backend/src/game/round/deadlineScheduler.ts:115-116 | the handle is kept only if the slot is still its own |
| DeadlineScheduler.InMemoryScheduler.CancelRound | backend/src/game/round/deadlineScheduler.ts:119-124 | the slot and its timer go exactly if they are that round's, and nothing else does |
| DeadlineScheduler.InMemoryScheduler.CancelAll | backend/src/game/round/deadlineScheduler.ts:126-131 | the room's slot is cancelled |
| DeadlineScheduler.InMemoryScheduler.StopAll | backend/src/game/round/deadlineScheduler.ts:134-137 | every handle is dropped |
| DeadlineScheduler.InMemoryScheduler.RunIfCurrent | backend/src/game/round/deadlineScheduler.ts:139-153 | the slot is given up exactly when the action runs |
| PingPongCourt.BallAtComposesIff | backend/src/game/pingpong/pingPongCourtMath.ts:71-74 | moving a ball twice is moving it once if and only if the first time is not before its launch |
| PingPongCourt.WindowBands | backend/src/game/pingpong/pingPongCourtMath.ts:86-103 | the seven bands of the swing window, the same from both ends |
| PingPongCourt.DeadlineMeetsTarget | backend/src/game/pingpong/pingPongCourtMath.ts:48-74 | at its deadline a ball is within half a millisecond of flight of its target |
| PingPongRules.ReturnArrives | backend/src/game/pingpong/pingPongRules.ts:240-266 | so every returned ball arrives, at the far racket, the net or off the table, when its deadline says |
| PingPongRules.SwingMirrored | backend/src/game/pingpong/pingPongRules.ts:187-268 | a swing on the mirrored court is the mirror of the swing |
| PingPongRules.ServeMirrored | backend/src/game/pingpong/pingPongScoring.ts:59-83 | so is a serve |
| PingPongRules.ReturnDeadlineAhead | backend/src/game/pingpong/pingPongRules.ts:92-93 | however far a swing is rolled back, an accepted return's deadline is at least 362 ms after its arrival |
| PingPongRules.UnreturnedKeepsLineIff | backend/src/game/pingpong/pingPongRules.ts:221-238 | a swing that misses leaves the ball's line as it was if and only if it is judged no earlier than the launch |
| PingPongRules.MissedSwingMovesBall | backend/src/game/pingpong/pingPongRules.ts:92-93 | and it happens: after the first serve of a match, made when the countdown ends, a missing swing that arrives 50 ms later with a stamp 70 ms before the serve puts the ball ahead of its line |
| PingPongRules.StepKeepsMatch | backend/src/game/pingpong/pingPongScoring.ts:119-142 | every step keeps scores open while play goes on and final when it ends |
| PingPongRules.ShareBalanced | backend/src/game/pingpong/pingPongScoring.ts:44-53 | the serves of any number of points are split with a lead of 0, 1 or 2 |
| PingPongRules.EveryMatchIsFair | backend/src/game/pingpong/pingPongScoring.ts:44-142 | over every match: no unfinished winning score, finals are 11 to at most 9 or k+2 to k, and serves differ by at most two |
| PingPongOutcomes.ExpireFollows | backend/src/game/pingpong/pingPongScoring.ts:85-95 | a ball hit out or into the net costs who hit it, any other who did not return it; the point ends the match or starts the countdown |
| PingPongOutcomes.MissCostsDefender | backend/src/game/pingpong/pingPongScoring.ts:85-95 | seat by seat: without a fault the seat the ball came to stays and the other scores, with one the seat it flew to scores |
| PingPongOutcomes.ExpireMirrored | backend/src/game/pingpong/pingPongScoring.ts:89-95 | a deadline on the mirrored court is the mirror of the deadline, but for who receives next, which goes by the seats |
| PingPongOutcomes.ServeFollows | backend/src/game/pingpong/pingPongScoring.ts:59-83 | a serve crosses the table towards the receiver and is missed 1100 ms later |
| PingPongOutcomes.ReadyFollows | backend/src/game/pingpong/pingPongRules.ts:137-157 | who has swung once may be ready, and with both the countdown starts |
| PingPongOutcomes.SwingFollows | backend/src/game/pingpong/pingPongRules.ts:158-268 | a swing counts once; only the defender meets the ball, and the band decides its speed, smash or fault |
| PingPongOutcomes.MatchFollowsRules | backend/src/game/pingpong/pingPongRules.ts:137-268 | over every match each input does what these rules say |
| PingPongOutcomes.InitialFollows | backend/src/game/pingpong/pingPongRules.ts:99-130 | a match of two starts without points and with the first player to receive |
| Duel.FillMisses | backend/src/game/duel/duelRules.ts:156-163 | the loop records a miss for whoever did not draw |
| Duel.ResolveSound | backend/src/game/duel/duelRound.ts:76-98 | a judged round keeps the books of health and fouls |
| Duel.StepSound | backend/src/game/duel/duelRules.ts:89-186 | every step keeps: reactions empty before the signal, at most one clean one after it, nobody out before the end |
| Duel.MatchIsAccounted | backend/src/game/duel/duelRound.ts:76-182 | over every match: wounds are shots, fouls are warnings and self shots, and at most seven rounds are not ties |
| Duel.WinnerStands | backend/src/game/duel/duelRules.ts:182-186 | who is not out at the end has a bullet left |
| Duel.ShotHitsSlower | backend/src/game/duel/duelRound.ts:154-182 | without a foul the one hit is whoever drew slower or not cleanly, and is out exactly on the last bullet |
| Duel.ReactionIsCapped | backend/src/game/duel/duelRules.ts:133-139 | a draw is a foul exactly before the signal or if claimed so, and otherwise at most the claim and the time the server saw |
| Duel.FoulOrderShowsIff | backend/src/game/duel/duelRound.ts:184-188 | the order of looking for fouls shows if and only if both sides fouled at once |
| Duel.StepSwapped | backend/src/game/duel/duelRules.ts:118-179 | at every reachable state a step with the sides named the other way round is the same step |
| DuelOutcomes.ReactionIs | backend/src/game/duel/duelRules.ts:133-139 | a clean draw counts as claimed, rounded down, if the server saw that much time pass, and as the time it saw otherwise |
| DuelOutcomes.OnlyTime | backend/src/game/duel/duelRules.ts:133-139 | there is no other such time |
| DuelOutcomes.FoulFollows | backend/src/game/duel/duelRound.ts:116-142 | the first false start of a match is a warning, the second costs a bullet and the match |
| DuelOutcomes.ShotFollows | backend/src/game/duel/duelRound.ts:154-182 | the smaller time shoots, one bullet, the last of which ends the match; equal times tie |
| DuelOutcomes.DrawFollows | backend/src/game/duel/duelRules.ts:118-153 | a draw counts once: as a foul, as the first time with 700 ms left for the other, or as the second that decides |
| DuelOutcomes.ExpireFollows | backend/src/game/duel/duelRules.ts:156-163 | who has not drawn in time is hit, unless nobody has |
| DuelOutcomes.MatchFollowsRules | backend/src/game/duel/duelRules.ts:89-186 | over every match each input does what these rules say |
| DuelOutcomes.InitialFollows | backend/src/game/duel/duelRules.ts:60-86 | a match of two starts with three bullets and no warning each |
| Duel.SidesAreEqual | backend/src/game/duel/duelRules.ts:118-186 | over every match it never matters who is named first |

## Left out

- Ids, keys, fields and members are abstract or ordered names and store values are a number or other text: string conversion, JSON, glob patterns, blank-id checks and the safe-integer bound of `integer` are not modelled.
- Numbers are unbounded integers and reals; IEEE rounding, infinities and NaN (except as a score bound or score argument) are not modelled, nor are the fractional indices and numbers a JavaScript caller could send.
- Insertion order of JavaScript maps is modelled for yacht submissions only; snapshot lines and hash replies come in any order.
- Entries are replaced in the map where the source mutates the container they hold, so aliasing of a container is not captured.
- The clock is fixed during one command or script; `expire`, `ttl`, `keys`, `scan`, `hlen`, `hexists`, `hkeys` and `flushall` would only add easy members.
- A script is any finite sequence of commands: what it computes from replies is not modelled, except for the scoring, finish and room scripts, which are modelled on typed sheets (`YachtScore`, `YachtRoom`), the scoring script also on the store (`ScoreScript`).
- RoomLock.TimelyRunIsSerial: asks for reads and writes inside leases and no removal under a reader, which a deployment can see to; the exact condition is that of `RoomLock.ScheduleIsSerialIff`.
- DavinciStore.StoredStateIsReachable: the same condition, and a room whose state is not removed meanwhile.
- YachtTurns.StartBounded: presence and the finish check are fixed answers for the length of one chain, as the source's chain is one sequence of calls; other calls in between are not interleaved. One call in a chain may throw.
- YachtTimeout.ResolveSound: the deadline's steps run as one and the store does not throw; throws are in `YachtTimeout.ResolveWith` and `YachtClock`, other calls in between in `YachtInterleaved`.
- YachtGame.CommittedIsConfirmed: the score keys going away, by expiry or with a room that is closed, is not modelled; the sheets are those of one game, and other games of the room keep other sheets.
- YachtClock.ClockLostIff: an event's store calls run with nothing in between, and at most one of those outside the scoring throws; broadcasts do not throw, as the service's swallows failed sends. Rooms without a clock and a process that stops in the middle of an event are not modelled.
- ScoreScript.ConfirmScore: text is written by any faithful coding, and numbers as numbers.
- Yacht rounds from a corrupted snapshot are not modelled: every state starts from `start`.
- PingPongRules.EveryMatchIsFair: `hostReport` (which trusts an outside state) and `forfeit` (which sets the winner to 11 whatever the score) are left out, so is Duel's `forfeit`.
- Of the room scripts only roster, phase, game and totals are modelled; hosts, nicknames, capacity counts, lifetimes, the check for a game code, closing and rolling back a start are not, nor are quick match, bots, rankings, chat, sockets, HTTP, SQLite, metrics and the frontend.
- Random choices (shuffles, dice, waits, target positions, picked categories, tokens) are parameters; tokens are distinct.
- Broadcasts and the scheduling calls of the game services are not modelled, and of a stored deadline only the round it is for is.
- JavaScript's `sort` is modelled by its result on a total order, through insertion of one tile at a time or selection of the least member.
