/**
 * The keyspace: a mutable map with lazy expiry, a key cap and script admission.
 *
 * `data` may hold expired entries; `View` is what is live. Each method states
 * its whole effect on `View` by the model alone, so lazy deletion cannot be seen.
 */
module RedisKeyspace {
  import opened Wrappers
  import opened Sets
  import opened RedisModel

  class Keyspace {
    var data: map<Name, Entry>
    var clock: int
    var scriptCreates: Option<set<Name>>
    const maxKeys: nat
    ghost var budget: set<Name>    // the keys a running script can leave behind

    constructor (now: int, maxKeys: nat)
      ensures Valid() && data == map[] && clock == now && this.maxKeys == maxKeys && scriptCreates.None?
    {
      data, clock, scriptCreates, budget := map[], now, None, {};
      this.maxKeys := maxKeys;
    }

    ghost predicate Valid()
      reads this
    {
      && |data| <= maxKeys
      && (scriptCreates.Some? ==>
            data.Keys <= budget && |budget| <= maxKeys && scriptCreates.value <= budget)
    }

    function View(): View
      reads this
    {
      Live(data, clock)
    }

    function Limits(): Room
      reads this
    {
      Room(clock, maxKeys, scriptCreates)
    }

    /** Deletes the key if it has expired. */
    method Lookup(key: Name) returns (entry: Option<Entry>)
      requires Valid()
      modifies `data
      ensures Valid() && View() == old(View()) && data.Keys <= old(data.Keys)
      ensures entry == if key in View() then Some(View()[key]) else None
      ensures key in data <==> key in View()
    {
      if key !in data { return None; }
      if !Alive(data[key], clock) {
        Discard(key);
        return None;
      }
      return Some(data[key]);
    }

    method Discard(key: Name)
      requires Valid()
      modifies `data
      ensures Valid() && View() == old(View()) - {key} && data == old(data) - {key}
    {
      data := data - {key};
      SizeMonotone(data.Keys, old(data).Keys);
      assert |data| == |data.Keys| && |old(data)| == |old(data).Keys|;
    }

    /** Replaces the entry of a key the map already holds. */
    method Overwrite(key: Name, entry: Entry)
      requires Valid() && key in data
      modifies `data
      ensures Valid() && View() == Put(old(View()), key, entry, clock) && data == old(data)[key := entry]
    {
      data := data[key := entry];
      assert data.Keys == old(data).Keys;
      assert |data| == |data.Keys| && |old(data)| == |old(data).Keys|;
    }

    /** Deletes the key if it has expired. */
    method Reclaim(key: Name) returns (reclaimed: int)
      requires Valid()
      modifies `data
      ensures Valid() && View() == old(View())
      ensures reclaimed == |old(data)| - |data|
      ensures data.Keys <= old(data).Keys && (forall k :: k in data ==> data[k] == old(data)[k])
      ensures key in data ==> Alive(data[key], clock)
    {
      if key in data && !Alive(data[key], clock) {
        SizeAfterRemoval(data, key);
        Discard(key);
        return 1;
      }
      return 0;
    }

    method Sweep() returns (reclaimed: int)
      requires Valid()
      modifies `data
      ensures Valid() && View() == old(View()) && data == View()
      ensures reclaimed == |old(data)| - |data|
    {
      reclaimed := 0;
      var keys := data.Keys;
      while keys != {}
        invariant Valid() && View() == old(View())
        invariant data.Keys <= old(data).Keys
        invariant forall k :: k in data && k !in keys ==> Alive(data[k], clock)
        invariant reclaimed == |old(data)| - |data|
        decreases |keys|
      {
        var key := AnyOf(keys);
        var dropped := Reclaim(key);
        reclaimed := reclaimed + dropped;
        keys := keys - {key};
      }
      AllLive(data, clock);
    }

    method Insert(key: Name, entry: Entry)
      requires Valid() && key !in data
      requires if scriptCreates.Some? then key in scriptCreates.value else |data| < maxKeys
      modifies `data
      ensures Valid() && View() == Put(old(View()), key, entry, clock)
    {
      ghost var before := data;
      data := data[key := entry];
      SizeAfterInsert(before, key, entry);
      if scriptCreates.Some? {
        SizeMonotone(data.Keys, budget);
        assert |data| == |data.Keys|;
      }
    }

    /** The room there is for a new key, in and out of scripts. */
    method Create(key: Name, entry: Entry) returns (refusal: Option<Error>)
      requires Valid()
      modifies `data
      ensures Valid()
      ensures refusal == if key in old(data) then None else Refusal(Limits(), old(View()), key)
      ensures View() == if refusal.Some? then old(View()) else Put(old(View()), key, entry, clock)
    {
      if key in data {
        Overwrite(key, entry);
        return None;
      }
      if scriptCreates.Some? {
        if key !in scriptCreates.value { return Some(Undeclared(key)); }
      } else if |data| >= maxKeys {
        var _ := Sweep();
        if |data| >= maxKeys { return Some(OutOfMemory); }
      } else {
        LiveSmaller(data, clock);
      }
      Insert(key, entry);
      return None;
    }

    method HashOf(key: Name) returns (hash: Result<map<Name, Value>, Error>)
      requires Valid()
      modifies `data
      ensures Valid() && View() == old(View()) && (key in data <==> key in View())
      ensures hash == HashAt(View(), key)
    {
      var entry := Lookup(key);
      hash := if entry.None? then Success(map[])
              else if entry.value.Hash? then Success(entry.value.fields)
              else Failure(WrongType);
    }

    method ZsetOf(key: Name) returns (zset: Result<map<Name, real>, Error>)
      requires Valid()
      modifies `data
      ensures Valid() && View() == old(View()) && (key in data <==> key in View())
      ensures zset == ZsetAt(View(), key)
    {
      var entry := Lookup(key);
      zset := if entry.None? then Success(map[])
              else if entry.value.Zset? then Success(entry.value.scores)
              else Failure(WrongType);
    }

    method StringOf(key: Name) returns (reply: Result<Reply, Error>)
      requires Valid()
      modifies `data
      ensures Valid() && View() == old(View()) && (key in data <==> key in View())
      ensures reply == ExecGet(View(), key)
    {
      var entry := Lookup(key);
      reply := if entry.None? then Success(Nil)
               else if entry.value.Str? then Success(Bulk(entry.value.value))
               else Failure(WrongType);
    }

    /** The hash at the key, created empty if there is none. */
    method HashForWrite(key: Name) returns (hash: Result<map<Name, Value>, Error>)
      requires Valid()
      modifies `data
      ensures Valid()
      ensures hash == if HashAt(old(View()), key).Failure? then HashAt(old(View()), key)
                      else if Refusal(Limits(), old(View()), key).Some? then
                        Failure(Refusal(Limits(), old(View()), key).value)
                      else HashAt(old(View()), key)
      ensures hash.Failure? ==> View() == old(View())
      ensures hash.Success? ==>
                View() == old(View())[key := Hash(hash.value, ExpiryAt(old(View()), key))]
    {
      hash := HashOf(key);
      if hash.Success? && key !in data {
        var refusal := Create(key, Hash(map[], None));
        if refusal.Some? { return Failure(refusal.value); }
      }
      assert hash.Success? ==> key in View();
    }

    /** Replaces a live entry by one with the same expiry. */
    method Replace(key: Name, entry: Entry)
      requires Valid() && key in View() && entry.expiresAt == View()[key].expiresAt
      modifies `data
      ensures Valid() && View() == old(View())[key := entry]
    {
      Overwrite(key, entry);
    }

    /** Writes back a container that is already there, or drops it if it is empty. */
    method WriteBack(key: Name, entry: Entry)
      requires Valid() && key in View() && entry.expiresAt == View()[key].expiresAt
      modifies `data
      ensures Valid() && View() == PutOrDrop(old(View()), key, entry)
    {
      if Empty(entry) {
        Discard(key);
      } else {
        Overwrite(key, entry);
      }
    }
  }

  /** Deleting one more of the listed names. */
  lemma MinusNext<V>(m: map<Name, V>, names: seq<Name>, i: nat)
    requires i < |names|
    ensures m - Named(names[..i + 1]) == (m - Named(names[..i])) - {names[i]}
  {
    assert Named(names[..i + 1]) == Named(names[..i]) + {names[i]} by {
      assert names[..i + 1] == names[..i] + [names[i]];
    }
    var set1 := Named(names[..i]);
    assert m - (set1 + {names[i]}) == (m - set1) - {names[i]};
  }

  lemma NoneNamed<V>(m: map<Name, V>)
    ensures m - Named([]) == m
  {
    assert Named([]) == {};
  }

  method AnyOf(keys: set<Name>) returns (key: Name)
    requires keys != {}
    ensures key in keys
  {
    key :| key in keys;
  }

  lemma AllLive(data: View, now: int)
    requires forall k :: k in data ==> Alive(data[k], now)
    ensures Live(data, now) == data
  {
  }

  lemma SizeAfterRemoval<V>(m: map<Name, V>, k: Name)
    requires k in m
    ensures |m - {k}| == |m| - 1
  {
    assert (m - {k}).Keys == m.Keys - {k};
    assert |m - {k}| == |(m - {k}).Keys| && |m| == |m.Keys|;
  }

  lemma LiveSmaller(data: View, now: int)
    ensures |Live(data, now)| <= |data|
  {
    SizeMonotone(Live(data, now).Keys, data.Keys);
    assert |Live(data, now)| == |Live(data, now).Keys| && |data| == |data.Keys|;
  }
}
