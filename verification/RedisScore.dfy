/** The three writes of CONFIRM_SCORE, which declares the score sheet and the submissions but not the room's scores. */
module RedisScore {
  import opened Wrappers
  import opened Sets
  import opened RedisModel
  import opened RedisCore
  import opened RedisKeyspace

  function Writes(board: Name, submissions: Name, scores: Name, sheet: seq<(Name, Value)>, row: (Name, Value), total: (Name, Value))
    : seq<Command>
  {
    [HSet(board, Flat(sheet, false)), HSet(submissions, Flat([row], false)), HSet(scores, Flat([total], false))]
  }

  lemma HSetSucceeds(r: Room, view: View, key: Name, pairs: seq<(Name, Value)>, o: Outcome)
    requires Exec(r, view, HSet(key, Flat(pairs, false)), o) && pairs != [] && HashAt(view, key).Success?
    ensures Refusal(r, view, key).None? ==>
              o.reply.Success? && o.view == view[key := Hash(WriteAll(HashAt(view, key).value, pairs), ExpiryAt(view, key))]
    ensures Refusal(r, view, key).Some? ==> o == Fail(view, Refusal(r, view, key).value)
  {
  }

  /**
   * Admitted, the script completes exactly when the room's scores hash is
   * already there; otherwise its third write throws and the first two stay.
   */
  lemma ConfirmScoreCompletesIff(
      r: Room, view: View, board: Name, submissions: Name, scores: Name,
      sheet: seq<(Name, Value)>, row: (Name, Value), total: (Name, Value),
      replies: seq<Result<Reply, Error>>, views: seq<View>)
    requires r.creates == Some({board, submissions}) && sheet != []
    requires board != submissions && board != scores && submissions != scores
    requires HashAt(view, board).Success? && HashAt(view, submissions).Success? && HashAt(view, scores).Success?
    requires var writes := Writes(board, submissions, scores, sheet, row, total);
             Replies(r, writes, replies, views) && RanThrough(writes, replies) && views[0] == view
    ensures |replies| == 3 && replies[0].Success? && replies[1].Success?
    ensures replies[2].Success? <==> scores in view
    ensures scores !in view ==> replies[2] == Failure(Undeclared(scores))
    ensures var written := view[board := Hash(WriteAll(HashAt(view, board).value, sheet), ExpiryAt(view, board))]
                               [submissions := Hash(WriteAll(HashAt(view, submissions).value, [row]), ExpiryAt(view, submissions))];
            views[2] == written && (scores !in view ==> views[3] == written)
  {
    hide Exec, WriteAll;
    var writes := Writes(board, submissions, scores, sheet, row, total);
    assert |replies| > 0;
    HSetSucceeds(r, views[0], board, sheet, Outcome(replies[0], views[1]));
    assert |replies| > 1;
    HSetSucceeds(r, views[1], submissions, [row], Outcome(replies[1], views[2]));
    assert |replies| > 2;
    HSetSucceeds(r, views[2], scores, [total], Outcome(replies[2], views[3]));
  }

  // ---------------------------------------------------------------------------
  // A room without a scores hash, as the store can receive it.

  const GAME := Name(0)
  const ROOM := Name(1)
  const PLAYERS := Name(2)
  const BOARD := Name(3)
  const SUBMISSIONS := Name(4)
  const SCORES := Name(5)
  const ROOM_CODE := Name(6)
  const GAME_ID := Name(7)
  const PHASE := Name(8)
  const PLAYING := Name(9)
  const PLAYER := Name(10)
  const FIRST_ROUND := Name(11)
  const CHOICE := Name(12)
  const UPPER_SUBTOTAL := Name(13)
  const UPPER_BONUS := Name(14)
  const TOTAL := Name(15)
  const SIGNATURE := Name(16)
  const MAX_KEYS := 100_000

  /** A game being played by one player, and no scores. */
  const PLAYED_ROOM: View := map[
    GAME := Hash(map[ROOM_CODE := Text(ROOM_CODE)], None),
    ROOM := Hash(map[GAME_ID := Text(GAME_ID), PHASE := Text(PLAYING)], None),
    PLAYERS := Hash(map[PLAYER := Text(PLAYER)], None)
  ]

  const SETUP: seq<Command> := [
    HSet(GAME, Record([(ROOM_CODE, Text(ROOM_CODE))])),
    HSet(ROOM, Record([(GAME_ID, Text(GAME_ID)), (PHASE, Text(PLAYING))])),
    HSet(PLAYERS, Record([(PLAYER, Text(PLAYER))]))
  ]

  /** The guards and totals CONFIRM_SCORE reads before it writes; a test for a field is a read of it. */
  const READS: seq<Command> := [
    HGet(GAME, ROOM_CODE), Exists([ROOM]), HGet(ROOM, GAME_ID), HGet(ROOM, PHASE), HGet(PLAYERS, PLAYER),
    HGet(SUBMISSIONS, FIRST_ROUND), HGet(BOARD, CHOICE), HGet(BOARD, UPPER_SUBTOTAL), HGet(BOARD, UPPER_BONUS),
    HGet(BOARD, TOTAL)
  ]

  const READ_REPLIES: seq<Result<Reply, Error>> := [
    Success(Bulk(Text(ROOM_CODE))), Success(Int(1)), Success(Bulk(Text(GAME_ID))), Success(Bulk(Text(PLAYING))),
    Success(Bulk(Text(PLAYER))), Success(Nil), Success(Nil), Success(Nil), Success(Nil), Success(Nil)
  ]

  /** A choice of 17 in the first round. */
  const SHEET: seq<(Name, Value)> := [(CHOICE, Num(17)), (UPPER_SUBTOTAL, Num(0)), (UPPER_BONUS, Num(0)), (TOTAL, Num(17))]

  const WRITES: seq<Command> := Writes(BOARD, SUBMISSIONS, SCORES, SHEET, (FIRST_ROUND, Text(SIGNATURE)), (PLAYER, Num(17)))

  const SCRIPT_ROOM := Room(0, MAX_KEYS, Some({BOARD, SUBMISSIONS}))

  function AfterGame(): View {
    map[GAME := Hash(map[ROOM_CODE := Text(ROOM_CODE)], None)]
  }

  function AfterRoom(): View {
    AfterGame()[ROOM := Hash(map[GAME_ID := Text(GAME_ID), PHASE := Text(PLAYING)], None)]
  }

  lemma GameIsSetUp()
    ensures Exec(Room(0, MAX_KEYS, None), map[], SETUP[0], Answer(AfterGame(), Int(1)))
  {
    var none: map<Name, Value> := map[];
    OnePair(none, ROOM_CODE, Text(ROOM_CODE));
    hide WriteAll;
  }

  lemma RoomHashIsSetUp()
    ensures Exec(Room(0, MAX_KEYS, None), AfterGame(), SETUP[1], Answer(AfterRoom(), Int(2)))
  {
    var none: map<Name, Value> := map[];
    TwoPairs(none, GAME_ID, Text(GAME_ID), PHASE, Text(PLAYING));
    hide WriteAll;
  }

  lemma RosterIsSetUp()
    ensures Exec(Room(0, MAX_KEYS, None), AfterRoom(), SETUP[2], Answer(PLAYED_ROOM, Int(1)))
  {
    var none: map<Name, Value> := map[];
    OnePair(none, PLAYER, Text(PLAYER));
    hide WriteAll;
  }

  /** Three HSETs on an empty store make such a room. */
  lemma RoomIsSetUp()
    ensures Replies(Room(0, MAX_KEYS, None), SETUP, [Success(Int(1)), Success(Int(2)), Success(Int(1))],
                    [map[], AfterGame(), AfterRoom(), PLAYED_ROOM])
  {
    hide Exec, AfterGame, AfterRoom;
    GameIsSetUp();
    RoomHashIsSetUp();
    RosterIsSetUp();
  }

  lemma RoomIsThere()
    ensures Exec(SCRIPT_ROOM, PLAYED_ROOM, Exists([ROOM]), Answer(PLAYED_ROOM, Int(1)))
  {
    assert [ROOM][..0] == [];
    assert CountIn(PLAYED_ROOM, []) == 0;
    assert CountIn(PLAYED_ROOM, [ROOM]) == 1;
  }

  lemma MappingReads(i: nat)
    requires i < 5 && i != 1
    ensures Exec(SCRIPT_ROOM, PLAYED_ROOM, READS[i], Outcome(READ_REPLIES[i], PLAYED_ROOM))
  {
    hide CountIn, ExecSet, ExecGet, ExecGetDel, ExecHSet, ExecHDel, ExecHIncrBy, ExecZAdd, ExecZRem, ExecZRemRangeByScore,
         RangeReply, ExecPExpire, Ttl, Named;
  }

  lemma SheetReads(i: nat)
    requires 5 <= i < |READS|
    ensures Exec(SCRIPT_ROOM, PLAYED_ROOM, READS[i], Outcome(READ_REPLIES[i], PLAYED_ROOM))
  {
    hide CountIn, ExecSet, ExecGet, ExecGetDel, ExecHSet, ExecHDel, ExecHIncrBy, ExecZAdd, ExecZRem, ExecZRemRangeByScore,
         RangeReply, ExecPExpire, Ttl, Named;
  }

  lemma GuardsPass(i: nat)
    requires i < |READS|
    ensures Exec(SCRIPT_ROOM, PLAYED_ROOM, READS[i], Outcome(READ_REPLIES[i], PLAYED_ROOM))
  {
    hide Exec;
    if i == 1 { RoomIsThere(); } else if i < 5 { MappingReads(i); } else { SheetReads(i); }
  }

  function ScoredBoard(): View {
    PLAYED_ROOM[BOARD := Hash(WriteAll(map[], SHEET), None)]
  }

  function HalfScored(): View {
    ScoredBoard()[SUBMISSIONS := Hash(map[FIRST_ROUND := Text(SIGNATURE)], None)]
  }

  lemma SheetIsWritten()
    ensures Exec(SCRIPT_ROOM, PLAYED_ROOM, WRITES[0], Answer(ScoredBoard(), Int(|WriteAll(map[], SHEET)|)))
  {
    hide WriteAll;
  }

  lemma RowIsWritten()
    ensures Exec(SCRIPT_ROOM, ScoredBoard(), WRITES[1], Answer(HalfScored(), Int(1)))
  {
    var none: map<Name, Value> := map[];
    OnePair(none, FIRST_ROUND, Text(SIGNATURE));
    hide WriteAll;
  }

  lemma TotalIsRefused()
    ensures Exec(SCRIPT_ROOM, HalfScored(), WRITES[2], Fail(HalfScored(), Undeclared(SCORES)))
  {
    hide WriteAll;
  }

  lemma HalfScoredKeys()
    ensures BOARD in HalfScored() && SUBMISSIONS in HalfScored() && SCORES !in HalfScored()
    ensures |WRITES| == 3
  {
  }

  lemma TwoMoreFit(max: nat, view: View, a: Name, b: Name)
    requires |view| + 2 <= max
    ensures Admits(max, view, {a, b})
  {
    SizeMonotone({a, b} - view.Keys, {a, b});
  }

  lemma ThreeKeys(a: Name, b: Name, c: Name, x: Entry, y: Entry, z: Entry)
    ensures |map[a := x, b := y, c := z]| <= 3
  {
    var m := map[a := x, b := y, c := z];
    assert m.Keys == {a, b, c};
    assert |m| == |m.Keys|;
  }

  lemma ScriptIsAdmitted()
    ensures Admits(MAX_KEYS, PLAYED_ROOM, {BOARD, SUBMISSIONS})
  {
    hide Admits;
    ThreeKeys(GAME, ROOM, PLAYERS, PLAYED_ROOM[GAME], PLAYED_ROOM[ROOM], PLAYED_ROOM[PLAYERS]);
    TwoMoreFit(MAX_KEYS, PLAYED_ROOM, BOARD, SUBMISSIONS);
  }

  /**
   * It happens: on a store with room to spare, a game being played whose room
   * has no scores hash passes every guard of CONFIRM_SCORE, gets its sheet and
   * submission written, and then the script throws.
   */
  lemma ConfirmScoreCanBreak() returns (replies: seq<Result<Reply, Error>>, views: seq<View>)
    ensures Admits(MAX_KEYS, PLAYED_ROOM, {BOARD, SUBMISSIONS})
    ensures Replies(SCRIPT_ROOM, READS + WRITES, replies, views) && RanThrough(READS + WRITES, replies)
    ensures views[0] == PLAYED_ROOM && |replies| == |READS| + 3
    ensures replies[|READS| + 2] == Failure(Undeclared(SCORES))
    ensures BOARD in views[|replies|] && SUBMISSIONS in views[|replies|] && SCORES !in views[|replies|]
  {
    hide Exec, Admits, ScoredBoard, HalfScored, Writes;
    ScriptIsAdmitted();
    HalfScoredKeys();
    SheetIsWritten();
    RowIsWritten();
    TotalIsRefused();
    var sheet := |WriteAll(map[], SHEET)|;
    replies := READ_REPLIES + [Success(Int(sheet)), Success(Int(1)), Failure(Undeclared(SCORES))];
    views := seq(|READS| + 1, _ => PLAYED_ROOM) + [ScoredBoard(), HalfScored(), HalfScored()];
    var commands := READS + WRITES;
    forall i | 0 <= i < |replies|
      ensures Exec(SCRIPT_ROOM, views[i], commands[i], Outcome(replies[i], views[i + 1]))
    {
      if i < |READS| {
        GuardsPass(i);
        assert commands[i] == READS[i] && replies[i] == READ_REPLIES[i];
      } else {
        assert commands[i] == WRITES[i - |READS|];
        assert i == |READS| || i == |READS| + 1 || i == |READS| + 2;
      }
    }
  }
}
