/**
 * Snapshots: the live keys written out as lines with absolute expiry, and read
 * back into an empty store, all of them or none.
 */
module RedisSnapshot {
  import opened Wrappers
  import opened Sets
  import opened RedisModel
  import opened RedisKeyspace

  datatype Body =
    | StringBody(value: Value)
    | HashBody(fields: seq<(Name, Value)>)
    | ZsetBody(scores: seq<(Name, real)>)

  /** One line of a snapshot file; Garbage is a line of the wrong shape. */
  datatype Line = Line(key: Name, body: Body, expiry: Option<int>) | Garbage

  function Decode(body: Body, expiry: Option<int>): Entry {
    match body
    case StringBody(v) => Str(v, expiry)
    case HashBody(pairs) => Hash(WriteAll(map[], pairs), expiry)
    case ZsetBody(pairs) => Zset(WriteAll(map[], pairs), expiry)
  }

  predicate Hollow(body: Body) {
    (body.HashBody? && body.fields == []) || (body.ZsetBody? && body.scores == [])
  }

  predicate Kept(l: Line, now: int) {
    l.Line? && (l.expiry.None? || l.expiry.value > now) && !Hollow(l.body)
  }

  predicate WellFormed(lines: seq<Line>) {
    forall i :: 0 <= i < |lines| ==> lines[i].Line?
  }

  function KeptLines(lines: seq<Line>, now: int): (kept: seq<Line>)
    ensures WellFormed(kept)
  {
    if lines == [] then []
    else
      var rest := KeptLines(lines[..|lines| - 1], now);
      if Kept(lines[|lines| - 1], now) then rest + [lines[|lines| - 1]] else rest
  }

  /** The lines read one after the other. */
  function Loaded(lines: seq<Line>): View
    requires WellFormed(lines)
  {
    if lines == [] then map[]
    else
      var l := lines[|lines| - 1];
      Loaded(lines[..|lines| - 1])[l.key := Decode(l.body, l.expiry)]
  }

  /** The line holds the entry of a live key. */
  ghost predicate Matches(l: Line, view: View) {
    && l.Line? && l.key in view
    && Decode(l.body, l.expiry) == view[l.key]
    && (Hollow(l.body) <==> Empty(view[l.key]))
  }

  ghost predicate DistinctKeys(lines: seq<Line>)
    requires WellFormed(lines)
  {
    forall i, j :: 0 <= i < j < |lines| ==> lines[i].key != lines[j].key
  }

  /** A line for every live key and no other, each holding the key's entry. */
  ghost predicate Depicts(lines: seq<Line>, view: View) {
    && WellFormed(lines)
    && (forall i :: 0 <= i < |lines| ==> Matches(lines[i], view))
    && DistinctKeys(lines)
    && |lines| == |view|
  }

  // ---------------------------------------------------------------------------

  method Unzip<V>(m: map<Name, V>) returns (pairs: seq<(Name, V)>)
    ensures WriteAll(map[], pairs) == m
    ensures pairs == [] <==> m == map[]
  {
    pairs := [];
    ghost var written := map[];
    var todo := m.Keys;
    while todo != {}
      invariant todo <= m.Keys
      invariant written == WriteAll(map[], pairs)
      invariant written.Keys == m.Keys - todo
      invariant forall k :: k in written ==> written[k] == m[k]
      invariant pairs == [] <==> todo == m.Keys
      decreases |todo|
    {
      var k := AnyOf(todo);
      WriteNext(map[], pairs, k, m[k]);
      pairs, written := pairs + [(k, m[k])], written[k := m[k]];
      todo := todo - {k};
    }
    assert written == m;
  }

  lemma WriteNext<V>(m: map<Name, V>, pairs: seq<(Name, V)>, k: Name, v: V)
    ensures WriteAll(m, pairs + [(k, v)]) == WriteAll(m, pairs)[k := v]
  {
    assert (pairs + [(k, v)])[..|pairs|] == pairs;
  }

  method Encode(e: Entry) returns (body: Body)
    ensures Decode(body, e.expiresAt) == e
    ensures Hollow(body) <==> Empty(e)
  {
    match e
    case Str(v, _) => body := StringBody(v);
    case Hash(fields, _) =>
      var pairs := Unzip(fields);
      body := HashBody(pairs);
    case Zset(scores, _) =>
      var pairs := Unzip(scores);
      body := ZsetBody(pairs);
  }

  method SnapshotOf(store: Keyspace) returns (lines: seq<Line>)
    ensures Depicts(lines, store.View())
  {
    hide Covers, Matches, Alive;
    lines := [];
    CoversNothing(store.View());
    var todo := store.data.Keys;
    ghost var view := store.View();
    ghost var seen: set<Name> := {};
    while todo != {}
      invariant todo <= store.data.Keys
      invariant seen == view.Keys - todo && Covers(lines, view, seen)
      decreases |todo|
    {
      var key := AnyOf(todo);
      if Alive(store.data[key], store.clock) {
        var line := LineFor(store, key);
        CoversNext(lines, view, seen, line);
        lines := lines + [line];
        seen := seen + {key};
      }
      todo := todo - {key};
    }
    assert seen == view.Keys;
    CoversAll(lines, view);
  }

  /** One line for each of the keys seen so far. */
  ghost predicate Covers(lines: seq<Line>, view: View, seen: set<Name>) {
    && |seen| == |lines|
    && WellFormed(lines) && DistinctKeys(lines)
    && forall i :: 0 <= i < |lines| ==> lines[i].key in seen && Matches(lines[i], view)
  }

  lemma CoversNothing(view: View)
    ensures Covers([], view, {})
  {
  }

  lemma CoversNext(lines: seq<Line>, view: View, seen: set<Name>, line: Line)
    requires Covers(lines, view, seen) && Matches(line, view) && line.Line? && line.key !in seen
    ensures Covers(lines + [line], view, seen + {line.key})
  {
    hide Decode, Hollow, Empty;
  }

  lemma CoversAll(lines: seq<Line>, view: View)
    requires Covers(lines, view, view.Keys)
    ensures Depicts(lines, view)
  {
    hide Matches;
    assert |view| == |view.Keys|;
  }

  method LineFor(store: Keyspace, key: Name) returns (line: Line)
    requires key in store.data && Alive(store.data[key], store.clock)
    ensures line.Line? && line.key == key && Matches(line, store.View())
  {
    hide Decode, Hollow, Empty;
    var entry := store.data[key];
    var body := Encode(entry);
    line := Line(key, body, entry.expiresAt);
  }

  /** Checks every line before writing any. */
  method Restore(store: Keyspace, lines: seq<Line>) returns (restored: Result<nat, Error>)
    requires store.Valid() && store.scriptCreates.None?
    modifies store`data
    ensures store.Valid()
    ensures restored ==
            if old(store.data) != map[] then Failure(NotEmpty)
            else if !WellFormed(lines) then Failure(Malformed)
            else if |KeptLines(lines, store.clock)| > store.maxKeys then Failure(OutOfMemory)
            else Success(|KeptLines(lines, store.clock)|)
    ensures restored.Failure? ==> store.data == old(store.data)
    ensures restored.Success? ==> store.View() == Loaded(KeptLines(lines, store.clock))
  {
    if store.data != map[] { return Failure(NotEmpty); }
    if !WellFormed(lines) { return Failure(Malformed); }
    var kept := SelectLines(lines, store.clock);
    if |kept| > store.maxKeys { return Failure(OutOfMemory); }
    LoadLines(store, kept);
    return Success(|kept|);
  }

  method SelectLines(lines: seq<Line>, now: int) returns (kept: seq<Line>)
    ensures kept == KeptLines(lines, now)
    ensures forall i :: 0 <= i < |kept| ==> Kept(kept[i], now)
  {
    kept := [];
    for i := 0 to |lines|
      invariant kept == KeptLines(lines[..i], now)
      invariant forall j :: 0 <= j < |kept| ==> Kept(kept[j], now)
    {
      assert lines[..i + 1][..i] == lines[..i];
      if Kept(lines[i], now) { kept := kept + [lines[i]]; }
    }
    assert lines[..|lines|] == lines;
  }

  method LoadLines(store: Keyspace, lines: seq<Line>)
    requires store.Valid() && store.scriptCreates.None? && store.data == map[]
    requires |lines| <= store.maxKeys
    requires WellFormed(lines) && forall i :: 0 <= i < |lines| ==> Kept(lines[i], store.clock)
    modifies store`data
    ensures store.Valid() && store.View() == Loaded(lines)
  {
    hide Decode, Live;
    LiveOfNone(store.clock);
    for i := 0 to |lines|
      invariant store.Valid() && |store.View()| <= i
      invariant store.View() == Loaded(lines[..i])
    {
      var l := lines[i];
      assert lines[..i + 1][..i] == lines[..i];
      LoadLine(store, l);
    }
    assert lines[..|lines|] == lines;
  }

  method LoadLine(store: Keyspace, l: Line)
    requires store.Valid() && store.scriptCreates.None? && |store.View()| < store.maxKeys
    requires Kept(l, store.clock)
    modifies store`data
    ensures store.Valid() && store.View() == old(store.View())[l.key := Decode(l.body, l.expiry)]
    ensures |store.View()| <= |old(store.View())| + 1
  {
    hide Decode, Live;
    SizeAfterInsert(store.View(), l.key, Decode(l.body, l.expiry));
    DecodeKeepsExpiry(l.body, l.expiry);
    var refusal := store.Create(l.key, Decode(l.body, l.expiry));
  }

  lemma LiveOfNone(now: int)
    ensures Live(map[], now) == map[]
  {
  }

  lemma DecodeKeepsExpiry(body: Body, expiry: Option<int>)
    ensures Decode(body, expiry).expiresAt == expiry
  {
  }

  // ---------------------------------------------------------------------------
  // Round trip.

  function WithoutEmpty(view: View): View {
    map k | k in view && !Empty(view[k]) :: view[k]
  }

  lemma KeptSnoc(lines: seq<Line>, l: Line, now: int)
    ensures KeptLines(lines + [l], now) == if Kept(l, now) then KeptLines(lines, now) + [l] else KeptLines(lines, now)
  {
    assert (lines + [l])[..|lines|] == lines;
  }

  lemma LoadedSnoc(lines: seq<Line>, l: Line)
    requires WellFormed(lines) && l.Line?
    ensures Loaded(lines + [l]) == Loaded(lines)[l.key := Decode(l.body, l.expiry)]
  {
    assert (lines + [l])[..|lines|] == lines;
  }

  /** The lines but the last, and what the last adds. */
  lemma LoadedWithLast(lines: seq<Line>, now: int)
    requires WellFormed(lines) && lines != []
    ensures var rest := lines[..|lines| - 1]; var last := lines[|lines| - 1];
            && |KeptLines(lines, now)| <= |KeptLines(rest, now)| + 1
            && Loaded(KeptLines(lines, now))
               == if Kept(last, now) then Loaded(KeptLines(rest, now))[last.key := Decode(last.body, last.expiry)]
                  else Loaded(KeptLines(rest, now))
  {
    var rest, last := lines[..|lines| - 1], lines[|lines| - 1];
    assert lines == rest + [last];
    KeptSnoc(rest, last, now);
    LoadedSnoc(KeptLines(rest, now), last);
    hide Loaded, Decode, Kept;
  }

  /** A key is loaded only from a kept line of its own. */
  lemma {:induction false} LoadedOnlyKept(lines: seq<Line>, now: int, k: Name)
    requires WellFormed(lines) && k in Loaded(KeptLines(lines, now))
    ensures exists i :: 0 <= i < |lines| && lines[i].key == k && Kept(lines[i], now)
  {
    hide Decode, Kept, KeptLines, Loaded;
    if lines == [] {
      NothingLoaded(now);
    } else {
      var rest, last := lines[..|lines| - 1], lines[|lines| - 1];
      LoadedWithLast(lines, now);
      if Kept(last, now) && k == last.key {
        assert lines[|lines| - 1].key == k;
      } else {
        LoadedOnlyKept(rest, now, k);
        var i :| 0 <= i < |rest| && rest[i].key == k && Kept(rest[i], now);
        assert lines[i] == rest[i];
      }
    }
  }

  lemma NothingLoaded(now: int)
    ensures Loaded(KeptLines([], now)) == map[]
  {
  }

  /** What distinct lines load: the kept ones, each under its own key. */
  lemma {:induction false} LoadedByKey(lines: seq<Line>, now: int)
    requires WellFormed(lines) && DistinctKeys(lines)
    ensures |KeptLines(lines, now)| <= |lines|
    ensures forall i :: 0 <= i < |lines| && Kept(lines[i], now) ==>
              lines[i].key in Loaded(KeptLines(lines, now)) &&
              Loaded(KeptLines(lines, now))[lines[i].key] == Decode(lines[i].body, lines[i].expiry)
  {
    hide Decode, Kept, Loaded;
    if lines != [] {
      var rest := lines[..|lines| - 1];
      LoadedByKey(rest, now);
      LoadedWithLast(lines, now);
      hide KeptLines;
      forall i | 0 <= i < |lines| && Kept(lines[i], now)
        ensures lines[i].key in Loaded(KeptLines(lines, now))
        ensures Loaded(KeptLines(lines, now))[lines[i].key] == Decode(lines[i].body, lines[i].expiry)
      {
        if i < |rest| { assert rest[i] == lines[i] && lines[i].key != lines[|lines| - 1].key; }
      }
    }
  }

  /** A list of as many different keys as the set has leaves none out. */
  lemma AllNamed(keys: seq<Name>, all: set<Name>, k: Name)
    requires forall i :: 0 <= i < |keys| ==> keys[i] in all
    requires forall i, j :: 0 <= i < j < |keys| ==> keys[i] != keys[j]
    requires |keys| == |all| && k in all
    ensures k in keys
  {
    if k !in keys {
      DistinctFit(keys, all - {k});
    }
  }

  lemma {:induction false} DistinctFit(keys: seq<Name>, all: set<Name>)
    requires forall i :: 0 <= i < |keys| ==> keys[i] in all
    requires forall i, j :: 0 <= i < j < |keys| ==> keys[i] != keys[j]
    ensures |keys| <= |all|
  {
    if keys != [] {
      DistinctFit(keys[1..], all - {keys[0]});
    }
  }

  lemma LineOf(lines: seq<Line>, view: View, k: Name) returns (i: nat)
    requires Depicts(lines, view) && k in view
    ensures i < |lines| && lines[i].key == k
  {
    hide Decode, Empty;
    var keys := seq(|lines|, (n: nat) requires n < |lines| && lines[n].Line? => lines[n].key);
    assert |view| == |view.Keys|;
    AllNamed(keys, view.Keys, k);
    i :| 0 <= i < |keys| && keys[i] == k;
  }

  /**
   * A snapshot taken at one time and restored later into an empty store of the
   * same capacity fits, and gives exactly what the old store would show then,
   * except for containers without members.
   */
  lemma RoundTrip(lines: seq<Line>, view: View, later: int)
    requires Depicts(lines, view)
    ensures WellFormed(lines)
    ensures |KeptLines(lines, later)| <= |view|
    ensures Loaded(KeptLines(lines, later)) == WithoutEmpty(Live(view, later))
  {
    LoadedByKey(lines, later);
    var loaded := Loaded(KeptLines(lines, later));
    var expected := WithoutEmpty(Live(view, later));
    forall k | k in expected
      ensures k in loaded && loaded[k] == expected[k]
    {
      var i := LineOf(lines, view, k);
      DecodeKeepsExpiry(lines[i].body, lines[i].expiry);
    }
    forall k | k in loaded
      ensures k in expected
    {
      LoadedOnlyKept(lines, later, k);
      var i :| 0 <= i < |lines| && lines[i].key == k && Kept(lines[i], later);
      DecodeKeepsExpiry(lines[i].body, lines[i].expiry);
    }
  }

  /** Nothing is lost exactly when no live container is empty. */
  lemma RoundTripExact(lines: seq<Line>, view: View, later: int)
    requires Depicts(lines, view)
    ensures Loaded(KeptLines(lines, later)) == Live(view, later)
            <==> forall k :: k in Live(view, later) ==> !Empty(view[k])
  {
    RoundTrip(lines, view, later);
    var live := Live(view, later);
    if forall k :: k in live ==> !Empty(view[k]) {
      assert WithoutEmpty(live) == live;
    } else {
      var k :| k in live && Empty(view[k]);
      assert k !in WithoutEmpty(live);
    }
  }

  /**
   * A restart: the snapshot of one store, loaded by an empty one at least as
   * large at its own time, is accepted and shows what the old store would show
   * then, but for containers without members.
   */
  method Reload(source: Keyspace, target: Keyspace) returns (restored: Result<nat, Error>)
    requires source.Valid() && target.Valid() && source != target
    requires target.data == map[] && target.scriptCreates.None? && source.maxKeys <= target.maxKeys
    modifies target`data
    ensures target.Valid() && restored.Success?
    ensures target.View() == WithoutEmpty(Live(source.View(), target.clock))
    ensures (forall k :: k in Live(source.View(), target.clock) ==> !Empty(source.View()[k]))
            <==> target.View() == Live(source.View(), target.clock)
  {
    var lines := SnapshotOf(source);
    hide Loaded, KeptLines, Depicts, WithoutEmpty;
    RoundTrip(lines, source.View(), target.clock);
    RoundTripExact(lines, source.View(), target.clock);
    LiveSmaller(source.data, source.clock);
    restored := Restore(target, lines);
  }

  /** The one write that leaves an empty container is undone by a restart. */
  lemma EmptyHashIsDropped(lines: seq<Line>, key: Name, later: int)
    requires Depicts(lines, map[key := Hash(map[], None)])
    ensures Loaded(KeptLines(lines, later)) == map[] != Live(map[key := Hash(map[], None)], later)
  {
    var view: View := map[key := Hash(map[], None)];
    RoundTrip(lines, view, later);
    assert key in Live(view, later) && Empty(view[key]);
    assert WithoutEmpty(Live(view, later)) == map[];
  }
}
