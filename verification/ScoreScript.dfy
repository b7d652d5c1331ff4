/**
 * CONFIRM_SCORE on the mutable store: command by command it does to the six
 * hashes what the typed confirmation does to the score sheets.
 */
module ScoreScript {
  import opened Wrappers
  import opened RedisModel
  import opened RedisKeyspace
  import H = RedisHashes
  import K = RedisKeyCommands
  import C = RedisCore
  import Y = YachtRound
  import S = YachtScore
  import R = YachtRoom
  import G = YachtGame

  /** The script's six keys, in its order. */
  datatype Keys = Keys(game: Name, room: Name, players: Name, board: Name, submissions: Name, scores: Name) {
    ghost predicate Distinct() {
      && game != room && game != players && game != board && game != submissions && game != scores
      && room != players && room != board && room != submissions && room != scores
      && players != board && players != submissions && players != scores
      && board != submissions && board != scores && submissions != scores
    }
  }

  /** How identifiers, categories and signatures are written as text, and the field names the script spells out. */
  datatype Codes = Codes(
    room: S.RoomCode -> Name,
    game: S.GameId -> Name,
    player: Y.PlayerId -> Name,
    round: int -> Name,
    category: Y.Category -> Name,
    signature: S.Signature -> Name,
    phase: S.Phase -> Name,
    roomCode: Name,
    gameId: Name,
    phaseField: Name,
    subtotal: Name,
    bonus: Name,
    total: Name
  )

  /** Different things are written differently. */
  ghost predicate Faithful(e: Codes) {
    && (forall a, b :: e.room(a) == e.room(b) ==> a == b)
    && (forall a, b :: e.game(a) == e.game(b) ==> a == b)
    && (forall a, b :: e.player(a) == e.player(b) ==> a == b)
    && (forall a, b :: e.round(a) == e.round(b) ==> a == b)
    && (forall a, b :: e.category(a) == e.category(b) ==> a == b)
    && (forall a, b :: e.signature(a) == e.signature(b) ==> a == b)
    && (forall a, b :: e.phase(a) == e.phase(b) ==> a == b)
    && e.gameId != e.phaseField
    && e.subtotal != e.bonus && e.subtotal != e.total && e.bonus != e.total
    && (forall c :: e.category(c) != e.subtotal && e.category(c) != e.bonus && e.category(c) != e.total)
  }

  // ---------------------------------------------------------------------------
  // What the store says.

  function FieldsAt(v: View, key: Name): map<Name, Value> {
    if HashAt(v, key).Success? then HashAt(v, key).value else map[]
  }

  function At(fields: map<Name, Value>, f: Name): Option<Value> {
    if f in fields then Some(fields[f]) else None
  }

  predicate GameShows(e: Codes, fields: map<Name, Value>, mapped: Option<S.RoomCode>) {
    At(fields, e.roomCode) == if mapped.Some? then Some(Text(e.room(mapped.value))) else None
  }

  predicate RoomShows(e: Codes, there: bool, fields: map<Name, Value>, room: Option<S.RoomHash>) {
    && (there <==> room.Some?)
    && (room.Some? ==>
          && At(fields, e.gameId) == (if room.value.gameId.Some? then Some(Text(e.game(room.value.gameId.value))) else None)
          && At(fields, e.phaseField) == Some(Text(e.phase(room.value.phase))))
  }

  ghost predicate RosterShows(e: Codes, fields: map<Name, Value>, players: set<Y.PlayerId>) {
    forall p :: p in players <==> At(fields, e.player(p)).Some?
  }

  ghost predicate BoardShows(e: Codes, fields: map<Name, Value>, board: Option<S.Board>) {
    var b := if board.Some? then board.value else S.EMPTY_BOARD;
    && (forall c :: At(fields, e.category(c)) == if c in b.cells then Some(Num(b.cells[c])) else None)
    && At(fields, e.subtotal) == (if board.Some? then Some(Num(b.subtotal)) else None)
    && At(fields, e.bonus) == (if board.Some? then Some(Num(b.bonus)) else None)
    && At(fields, e.total) == (if board.Some? then Some(Num(b.total)) else None)
  }

  ghost predicate RowsShow(e: Codes, fields: map<Name, Value>, rows: map<S.Slot, S.Signature>, p: Y.PlayerId) {
    forall n :: At(fields, e.round(n))
                == if S.Slot(p, n) in rows then Some(Text(e.signature(rows[S.Slot(p, n)]))) else None
  }

  ghost predicate TotalsShow(e: Codes, fields: map<Name, Value>, totals: map<Y.PlayerId, int>) {
    forall p :: At(fields, e.player(p)) == if p in totals then Some(Num(totals[p])) else None
  }

  function SheetOf(s: S.Scores, p: Y.PlayerId): Option<S.Board> {
    if p in s.boards then Some(s.boards[p]) else None
  }

  predicate AllHashes(ks: Keys, v: View) {
    && HashAt(v, ks.game).Success? && HashAt(v, ks.room).Success? && HashAt(v, ks.players).Success?
    && HashAt(v, ks.board).Success? && HashAt(v, ks.submissions).Success? && HashAt(v, ks.scores).Success?
  }

  /** The six keys hold the game's and its room's part of the scores, as far as one player's confirmation sees it. */
  ghost predicate Shows(ks: Keys, e: Codes, v: View, s: S.Scores, p: Y.PlayerId) {
    && AllHashes(ks, v)
    && GameShows(e, FieldsAt(v, ks.game), s.mappedRoom)
    && RoomShows(e, ks.room in v, FieldsAt(v, ks.room), s.room)
    && RosterShows(e, FieldsAt(v, ks.players), s.players)
    && BoardShows(e, FieldsAt(v, ks.board), SheetOf(s, p))
    && RowsShow(e, FieldsAt(v, ks.submissions), s.submissions, p)
    && TotalsShow(e, FieldsAt(v, ks.scores), s.totals)
  }

  // ---------------------------------------------------------------------------
  // The script.

  method Field(store: Keyspace, key: Name, f: Name) returns (value: Option<Value>)
    requires store.Valid() && HashAt(store.View(), key).Success?
    modifies store`data
    ensures store.Valid() && store.View() == old(store.View())
    ensures value == At(FieldsAt(old(store.View()), key), f)
  {
    hide Live;
    var reply := H.HGet(store, key, f);
    value := if reply.value.Bulk? then Some(reply.value.value) else None;
  }

  method IsThere(store: Keyspace, key: Name) returns (there: bool)
    requires store.Valid()
    modifies store`data
    ensures store.Valid() && store.View() == old(store.View())
    ensures there == (key in old(store.View()))
  {
    var n := K.Exists(store, [key]);
    assert [key][..0] == [];
    assert CountIn(store.View(), []) == 0;
    there := n > 0;
  }

  /** The guard ladder: the first field that is not as it must be gives the code. */
  method ConfirmGuard(store: Keyspace, ks: Keys, e: Codes, q: S.Request, ghost s: S.Scores) returns (refused: Option<S.Code>)
    requires store.Valid() && Faithful(e) && Shows(ks, e, store.View(), s, q.playerId)
    modifies store`data
    ensures store.Valid() && store.View() == old(store.View())
    ensures refused == S.Guard(s, q)
  {
    hide Live, HashAt, FieldsAt, At, RowsShow, BoardShows, RosterShows, TotalsShow;
    var mapped := Field(store, ks.game, e.roomCode);
    if mapped.None? { return Some(S.GameMissing1); }
    if mapped.value != Text(e.room(q.roomCode)) { return Some(S.GameRoomChanged2); }
    var there := IsThere(store, ks.room);
    if !there { return Some(S.RoomMissing7); }
    var game := Field(store, ks.room, e.gameId);
    if game != Some(Text(e.game(q.gameId))) { return Some(S.RoomGameChanged8); }
    var phase := Field(store, ks.room, e.phaseField);
    if phase != Some(Text(e.phase(S.Playing))) { return Some(S.GameNotPlaying9); }
    var seat := Field(store, ks.players, e.player(q.playerId));
    RosterFact(e, FieldsAt(store.View(), ks.players), s.players, q.playerId);
    if seat.None? { return Some(S.PlayerMissing3); }
    var previous := Field(store, ks.submissions, e.round(q.roundNumber));
    RowFact(e, FieldsAt(store.View(), ks.submissions), s.submissions, q.playerId, q.roundNumber);
    if previous.Some? {
      return Some(if previous.value == Text(e.signature(q.signature)) then S.IdempotentRetry5 else S.RoundConflict4);
    }
    var cell := Field(store, ks.board, e.category(q.category));
    CellFact(e, FieldsAt(store.View(), ks.board), SheetOf(s, q.playerId), q.category);
    if cell.Some? { return Some(S.CategoryConflict6); }
    return None;
  }

  lemma RosterFact(e: Codes, fields: map<Name, Value>, players: set<Y.PlayerId>, p: Y.PlayerId)
    requires RosterShows(e, fields, players)
    ensures p in players <==> At(fields, e.player(p)).Some?
  {
  }

  lemma RowFact(e: Codes, fields: map<Name, Value>, rows: map<S.Slot, S.Signature>, p: Y.PlayerId, n: int)
    requires RowsShow(e, fields, rows, p)
    ensures At(fields, e.round(n)) == if S.Slot(p, n) in rows then Some(Text(e.signature(rows[S.Slot(p, n)]))) else None
  {
  }

  lemma CellFact(e: Codes, fields: map<Name, Value>, board: Option<S.Board>, c: Y.Category)
    requires BoardShows(e, fields, board)
    ensures At(fields, e.category(c)).Some? <==> board.Some? && c in board.value.cells
  {
  }

  // ---------------------------------------------------------------------------
  // The writes.

  /** Only the one key changed, and it holds these fields. */
  predicate OnlyHash(v: View, v': View, key: Name, fields: map<Name, Value>) {
    key in v' && v' == v[key := v'[key]] && v'[key].Hash? && v'[key].fields == fields
  }

  lemma OtherKeys(v: View, v': View, key: Name, fields: map<Name, Value>, k: Name)
    requires OnlyHash(v, v', key, fields)
    ensures k == key ==> HashAt(v', k).Success? && FieldsAt(v', k) == fields && k in v'
    ensures k != key ==> HashAt(v', k) == HashAt(v, k) && FieldsAt(v', k) == FieldsAt(v, k) && (k in v' <==> k in v)
  {
  }

  method WriteHash(store: Keyspace, key: Name, pairs: seq<(Name, Value)>) returns (refused: Option<Error>)
    requires store.Valid() && pairs != [] && HashAt(store.View(), key).Success?
    modifies store`data
    ensures store.Valid()
    ensures refused == Refusal(store.Limits(), old(store.View()), key)
    ensures refused.None? ==> OnlyHash(old(store.View()), store.View(), key, WriteAll(FieldsAt(old(store.View()), key), pairs))
    ensures refused.Some? ==> store.View() == old(store.View())
  {
    hide Live, WriteAll;
    var reply := H.HSet(store, key, Flat(pairs, false));
    refused := if reply.Failure? then Some(reply.error) else None;
  }

  /** A lifetime for a hash that is there; its fields stay. */
  method Age(store: Keyspace, key: Name, ttl: int)
    requires store.Valid() && ttl > 0 && key in store.View() && store.View()[key].Hash?
    modifies store`data
    ensures store.Valid() && OnlyHash(old(store.View()), store.View(), key, FieldsAt(old(store.View()), key))
  {
    hide Live;
    var _ := K.PExpire(store, key, Num(ttl));
  }

  lemma FourPairs(m: map<Name, Value>, a: (Name, Value), b: (Name, Value), c: (Name, Value), d: (Name, Value))
    ensures WriteAll(m, [a, b, c, d]) == m[a.0 := a.1][b.0 := b.1][c.0 := c.1][d.0 := d.1]
  {
    assert [a, b, c, d][..3] == [a, b, c] && [a, b, c][..2] == [a, b];
    TwoPairs(m, a.0, a.1, b.0, b.1);
    assert [a, b] == [(a.0, a.1), (b.0, b.1)];
  }

  /** The four fields of the sheet, in the script's order. */
  function SheetPairs(e: Codes, q: S.Request, subtotal: int, bonus: int, total: int): (pairs: seq<(Name, Value)>)
    ensures |pairs| == 4
  {
    [(e.category(q.category), Num(q.score)), (e.subtotal, Num(subtotal)), (e.bonus, Num(bonus)), (e.total, Num(total))]
  }

  lemma SheetWritten(e: Codes, fields: map<Name, Value>, board: Option<S.Board>, q: S.Request)
    requires Faithful(e) && BoardShows(e, fields, board)
    ensures var b := S.Fill(if board.Some? then board.value else S.EMPTY_BOARD, q);
            BoardShows(e, WriteAll(fields, SheetPairs(e, q, b.subtotal, b.bonus, b.total)), Some(b))
  {
    var b := S.Fill(if board.Some? then board.value else S.EMPTY_BOARD, q);
    var pairs := SheetPairs(e, q, b.subtotal, b.bonus, b.total);
    FourPairs(fields, pairs[0], pairs[1], pairs[2], pairs[3]);
    assert pairs == [pairs[0], pairs[1], pairs[2], pairs[3]];
    hide WriteAll;
  }

  lemma RowWritten(e: Codes, fields: map<Name, Value>, rows: map<S.Slot, S.Signature>, p: Y.PlayerId, n: int, mark: S.Signature)
    requires Faithful(e) && RowsShow(e, fields, rows, p)
    ensures RowsShow(e, WriteAll(fields, [(e.round(n), Text(e.signature(mark)))]), rows[S.Slot(p, n) := mark], p)
  {
    OnePair(fields, e.round(n), Text(e.signature(mark)));
    hide WriteAll;
  }

  lemma TotalWritten(e: Codes, fields: map<Name, Value>, totals: map<Y.PlayerId, int>, p: Y.PlayerId, total: int)
    requires Faithful(e) && TotalsShow(e, fields, totals)
    ensures TotalsShow(e, WriteAll(fields, [(e.player(p), Num(total))]), totals[p := total])
  {
    OnePair(fields, e.player(p), Num(total));
    hide WriteAll;
  }

  function Number(value: Option<Value>): int {
    if value.Some? && value.value.Num? then value.value.n else 0
  }

  /** The totals on the sheet, zero where there is none yet. */
  method ReadSheet(store: Keyspace, ks: Keys, e: Codes, ghost board: Option<S.Board>)
    returns (subtotal: int, bonus: int, total: int)
    requires store.Valid() && HashAt(store.View(), ks.board).Success?
    requires BoardShows(e, FieldsAt(store.View(), ks.board), board)
    modifies store`data
    ensures store.Valid() && store.View() == old(store.View())
    ensures var b := if board.Some? then board.value else S.EMPTY_BOARD;
            subtotal == b.subtotal && bonus == b.bonus && total == b.total
  {
    hide Live, HashAt, FieldsAt;
    var s := Field(store, ks.board, e.subtotal);
    var b := Field(store, ks.board, e.bonus);
    var t := Field(store, ks.board, e.total);
    subtotal, bonus, total := Number(s), Number(b), Number(t);
  }

  /** The other five keys say what they said. */
  lemma OthersShow(ks: Keys, v: View, v': View, key: Name, fields: map<Name, Value>)
    requires ks.Distinct() && AllHashes(ks, v) && OnlyHash(v, v', key, fields)
    ensures AllHashes(ks, v')
    ensures forall k :: k in {ks.game, ks.room, ks.players, ks.board, ks.submissions, ks.scores} - {key} ==>
              FieldsAt(v', k) == FieldsAt(v, k) && (k in v' <==> k in v)
    ensures FieldsAt(v', key) == fields && key in v'
  {
    forall k
      ensures k == key ==> HashAt(v', k).Success? && FieldsAt(v', k) == fields && k in v'
      ensures k != key ==> HashAt(v', k) == HashAt(v, k) && FieldsAt(v', k) == FieldsAt(v, k) && (k in v' <==> k in v)
    {
      OtherKeys(v, v', key, fields, k);
    }
    hide HashAt, FieldsAt, OnlyHash;
  }

  lemma SheetStored(ks: Keys, e: Codes, v: View, v': View, s: S.Scores, q: S.Request)
    requires ks.Distinct() && Faithful(e) && Shows(ks, e, v, s, q.playerId)
    requires var b := S.Fill(S.BoardOf(s, q.playerId), q);
             OnlyHash(v, v', ks.board, WriteAll(FieldsAt(v, ks.board), SheetPairs(e, q, b.subtotal, b.bonus, b.total)))
    ensures Shows(ks, e, v', s.(boards := s.boards[q.playerId := S.Fill(S.BoardOf(s, q.playerId), q)]), q.playerId)
  {
    hide WriteAll, FieldsAt, OnlyHash, SheetPairs, S.Fill, Faithful, AllHashes, GameShows, RoomShows, RosterShows, BoardShows, RowsShow, TotalsShow;
    var b := S.Fill(S.BoardOf(s, q.playerId), q);
    OthersShow(ks, v, v', ks.board, WriteAll(FieldsAt(v, ks.board), SheetPairs(e, q, b.subtotal, b.bonus, b.total)));
    SheetWritten(e, FieldsAt(v, ks.board), SheetOf(s, q.playerId), q);
  }

  lemma RowStored(ks: Keys, e: Codes, v: View, v': View, s: S.Scores, q: S.Request)
    requires ks.Distinct() && Faithful(e) && Shows(ks, e, v, s, q.playerId)
    requires OnlyHash(v, v', ks.submissions,
                      WriteAll(FieldsAt(v, ks.submissions), [(e.round(q.roundNumber), Text(e.signature(q.signature)))]))
    ensures Shows(ks, e, v', s.(submissions := s.submissions[S.SlotOf(q) := q.signature]), q.playerId)
  {
    hide WriteAll, FieldsAt, OnlyHash, Faithful, AllHashes, GameShows, RoomShows, RosterShows, BoardShows, RowsShow, TotalsShow;
    OthersShow(ks, v, v', ks.submissions,
               WriteAll(FieldsAt(v, ks.submissions), [(e.round(q.roundNumber), Text(e.signature(q.signature)))]));
    RowWritten(e, FieldsAt(v, ks.submissions), s.submissions, q.playerId, q.roundNumber, q.signature);
  }

  lemma TotalStored(ks: Keys, e: Codes, v: View, v': View, s: S.Scores, p: Y.PlayerId, total: int)
    requires ks.Distinct() && Faithful(e) && Shows(ks, e, v, s, p)
    requires OnlyHash(v, v', ks.scores, WriteAll(FieldsAt(v, ks.scores), [(e.player(p), Num(total))]))
    ensures Shows(ks, e, v', s.(totals := s.totals[p := total]), p)
  {
    hide WriteAll, FieldsAt, OnlyHash, Faithful, AllHashes, GameShows, RoomShows, RosterShows, BoardShows, RowsShow, TotalsShow;
    OthersShow(ks, v, v', ks.scores, WriteAll(FieldsAt(v, ks.scores), [(e.player(p), Num(total))]));
    TotalWritten(e, FieldsAt(v, ks.scores), s.totals, p, total);
  }

  lemma AgeShowsSame(ks: Keys, e: Codes, v: View, v': View, s: S.Scores, p: Y.PlayerId, key: Name)
    requires ks.Distinct() && Shows(ks, e, v, s, p) && (key == ks.board || key == ks.submissions)
    requires key in v && OnlyHash(v, v', key, FieldsAt(v, key))
    ensures Shows(ks, e, v', s, p)
  {
    hide FieldsAt, OnlyHash, AllHashes, GameShows, RoomShows, RosterShows, BoardShows, RowsShow, TotalsShow;
    OthersShow(ks, v, v', key, FieldsAt(v, key));
  }

  /** Sheet and submissions get what is left of the game's lifetime. */
  method AlignTtl(store: Keyspace, ks: Keys, e: Codes, ghost s: S.Scores, p: Y.PlayerId)
    requires store.Valid() && ks.Distinct() && Shows(ks, e, store.View(), s, p)
    requires ks.board in store.View() && ks.submissions in store.View()
    modifies store`data
    ensures store.Valid() && Shows(ks, e, store.View(), s, p)
  {
    hide Live, FieldsAt, GameShows, RoomShows, RosterShows, BoardShows, RowsShow, TotalsShow;
    var ttl := K.PTtl(store, ks.game);
    if ttl > 0 {
      ghost var v := store.View();
      Age(store, ks.board, ttl);
      AgeShowsSame(ks, e, v, store.View(), s, p, ks.board);
      ghost var v' := store.View();
      Age(store, ks.submissions, ttl);
      AgeShowsSame(ks, e, v', store.View(), s, p, ks.submissions);
    }
  }

  /** The script's sums are those of the filled sheet. */
  method NextSheet(store: Keyspace, ks: Keys, e: Codes, q: S.Request, ghost board: Option<S.Board>)
    returns (subtotal: int, bonus: int, total: int)
    requires store.Valid() && HashAt(store.View(), ks.board).Success?
    requires BoardShows(e, FieldsAt(store.View(), ks.board), board)
    modifies store`data
    ensures store.Valid() && store.View() == old(store.View())
    ensures var b := S.Fill(if board.Some? then board.value else S.EMPTY_BOARD, q);
            subtotal == b.subtotal && bonus == b.bonus && total == b.total
  {
    hide Live, HashAt, FieldsAt, BoardShows;
    var before;
    subtotal, before, total := ReadSheet(store, ks, e, board);
    if q.isUpper { subtotal := subtotal + q.score; }
    bonus := if subtotal >= S.UPPER_BONUS_THRESHOLD then S.UPPER_BONUS_SCORE else 0;
    total := total + q.score + bonus - before;
  }

  /** Sheet and submission, as the script writes them: declared, so never refused. */
  method WriteSheet(store: Keyspace, ks: Keys, e: Codes, q: S.Request, ghost s: S.Scores) returns (total: int)
    requires store.Valid() && ks.Distinct() && Faithful(e) && Shows(ks, e, store.View(), s, q.playerId)
    requires store.scriptCreates == Some({ks.board, ks.submissions})
    modifies store`data
    ensures store.Valid() && total == S.Fill(S.BoardOf(s, q.playerId), q).total
    ensures ks.board in store.View() && ks.submissions in store.View()
    ensures ks.scores in store.View() <==> ks.scores in old(store.View())
    ensures Shows(ks, e, store.View(),
                  s.(boards := s.boards[q.playerId := S.Fill(S.BoardOf(s, q.playerId), q)],
                     submissions := s.submissions[S.SlotOf(q) := q.signature]), q.playerId)
  {
    hide Live, Faithful, WriteAll, FieldsAt, GameShows, RoomShows, RosterShows, BoardShows, RowsShow, TotalsShow, SheetPairs,
         OnlyHash, S.Fill;
    var subtotal, nextBonus;
    subtotal, nextBonus, total := NextSheet(store, ks, e, q, SheetOf(s, q.playerId));
    ghost var b := S.Fill(S.BoardOf(s, q.playerId), q);
    ghost var v := store.View();
    var refused := WriteHash(store, ks.board, SheetPairs(e, q, subtotal, nextBonus, total));
    SheetStored(ks, e, v, store.View(), s, q);
    ghost var v', s' := store.View(), s.(boards := s.boards[q.playerId := b]);
    ghost var row := [(e.round(q.roundNumber), Text(e.signature(q.signature)))];
    refused := WriteHash(store, ks.submissions, [(e.round(q.roundNumber), Text(e.signature(q.signature)))]);
    RowStored(ks, e, v', store.View(), s', q);
    BothThere(ks, v, v', store.View(), WriteAll(FieldsAt(v, ks.board), SheetPairs(e, q, subtotal, nextBonus, total)),
              WriteAll(FieldsAt(v', ks.submissions), row));
  }

  lemma BothThere(ks: Keys, v: View, v': View, v'': View, sheet: map<Name, Value>, rows: map<Name, Value>)
    requires ks.Distinct() && OnlyHash(v, v', ks.board, sheet) && OnlyHash(v', v'', ks.submissions, rows)
    ensures ks.board in v'' && ks.submissions in v'' && (ks.scores in v'' <==> ks.scores in v)
  {
  }

  /**
   * CONFIRM_SCORE, admitted: it answers and stores what the typed confirmation
   * does, unless it comes to write the room's scores and they are not there; then
   * it throws, with the sheet and the submission stored.
   */
  method ConfirmScore(store: Keyspace, ks: Keys, e: Codes, q: S.Request, ghost s: S.Scores) returns (code: Result<S.Code, Error>)
    requires store.Valid() && ks.Distinct() && Faithful(e) && Shows(ks, e, store.View(), s, q.playerId)
    requires store.scriptCreates == Some({ks.board, ks.submissions})
    modifies store`data
    ensures store.Valid()
    ensures code.Failure? <==> S.Guard(s, q).None? && ks.scores !in old(store.View())
    ensures code.Success? ==>
              code.value == S.Confirm(s, q).0 && Shows(ks, e, store.View(), S.Confirm(s, q).1, q.playerId)
    ensures code.Failure? ==>
              code.error == Undeclared(ks.scores)
              && Shows(ks, e, store.View(), S.Confirm(s, q).1.(totals := s.totals), q.playerId)
    ensures S.Guard(s, q).Some? ==> store.View() == old(store.View())
  {
    hide Live, Faithful, WriteAll, FieldsAt, GameShows, RoomShows, RosterShows, BoardShows, RowsShow, TotalsShow, S.Fill, S.Guard;
    var refused := ConfirmGuard(store, ks, e, q, s);
    if refused.Some? { return Success(refused.value); }
    var total := WriteSheet(store, ks, e, q, s);
    ghost var v := store.View();
    ghost var half := s.(boards := s.boards[q.playerId := S.Fill(S.BoardOf(s, q.playerId), q)],
                         submissions := s.submissions[S.SlotOf(q) := q.signature]);
    var missing := WriteHash(store, ks.scores, [(e.player(q.playerId), Num(total))]);
    if missing.Some? { return Failure(missing.value); }
    TotalStored(ks, e, v, store.View(), half, q.playerId, total);
    assert half.(totals := half.totals[q.playerId := total]) == S.Confirm(s, q).1;
    AlignTtl(store, ks, e, S.Confirm(s, q).1, q.playerId);
    return Success(S.Success0);
  }

  /** With admission around it: a store without room for the two declared keys refuses before anything is written. */
  method ConfirmAtomically(store: Keyspace, ks: Keys, e: Codes, q: S.Request, ghost s: S.Scores) returns (code: Result<S.Code, Error>)
    requires store.Valid() && store.scriptCreates.None?
    requires ks.Distinct() && Faithful(e) && Shows(ks, e, store.View(), s, q.playerId)
    modifies store
    ensures store.Valid() && store.scriptCreates.None?
    ensures var before := old(store.View());
            if !C.Admits(store.maxKeys, before, {ks.board, ks.submissions}) then
              code == Failure(OutOfMemory) && store.View() == before
            else if S.Guard(s, q).None? && ks.scores !in before then
              code == Failure(Undeclared(ks.scores))
              && Shows(ks, e, store.View(), S.Confirm(s, q).1.(totals := s.totals), q.playerId)
            else
              code == Success(S.Confirm(s, q).0) && Shows(ks, e, store.View(), S.Confirm(s, q).1, q.playerId)
  {
    hide Live, Faithful, AllHashes, GameShows, RoomShows, RosterShows, BoardShows, RowsShow, TotalsShow, S.Confirm, S.Guard, C.Admits;
    var admitted := C.Admit(store, [ks.board, ks.submissions]);
    assert Named([ks.board, ks.submissions]) == {ks.board, ks.submissions};
    if !admitted { return Failure(OutOfMemory); }
    code := ConfirmScore(store, ks, e, q, s);
    store.scriptCreates := None;
  }

  // ---------------------------------------------------------------------------
  // Rooms filled by joining.

  lemma TotalIsThere(ks: Keys, e: Codes, v: View, s: S.Scores, p: Y.PlayerId)
    requires Shows(ks, e, v, s, p) && p in s.totals
    ensures ks.scores in v
  {
    hide GameShows, RoomShows, RosterShows, BoardShows, RowsShow;
    assert At(FieldsAt(v, ks.scores), e.player(p)).Some?;
  }

  lemma GuardNeedsRoom(s: S.Scores, q: S.Request)
    requires S.Guard(s, q).None?
    ensures R.On(s, q.gameId) && q.playerId in s.players
  {
  }

  /**
   * After any run of a game whose players joined the room: wherever a score can
   * be confirmed the room's scores are there, so the script does not throw.
   */
  lemma JoinedRoomCompletes(
      players: seq<Y.PlayerId>, roomCode: S.RoomCode, gameId: S.GameId, moves: seq<G.Move>,
      ks: Keys, e: Codes, v: View, q: S.Request)
    requires G.NewGame(players, roomCode, gameId).Success? && q.gameId == gameId
    requires Shows(ks, e, v, G.Run(G.NewGame(players, roomCode, gameId).value, moves).scores, q.playerId)
    requires S.Guard(G.Run(G.NewGame(players, roomCode, gameId).value, moves).scores, q).None?
    ensures ks.scores in v
  {
    hide G.NewGame, G.Run, Shows, S.Guard, R.On;
    var s := G.Run(G.NewGame(players, roomCode, gameId).value, moves).scores;
    GuardNeedsRoom(s, q);
    G.RosterIsRanked(players, roomCode, gameId, moves, q.playerId);
    TotalIsThere(ks, e, v, s, q.playerId);
  }
}
