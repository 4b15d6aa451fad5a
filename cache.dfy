/** The user and channel directory cache the dispatcher reads through
    `getUser`, `getUsers`, `saveUsers`, `getChannel` and `saveChannels`.
    Those methods are called but not defined by the repository's store
    module, so this is an abstract store: records kept under the string form
    of their `id`, read back as saved. */
module Cache {
  import opened Wrappers
  import opened Js
  import Maps

  /** The key a record is saved under: `String(record.id)`. */
  function KeyOf(r: Record): string {
    ToStr(Prop(r, "id"))
  }

  /** Every record sits under its own key. */
  ghost predicate Keyed(m: map<string, Record>) {
    forall k :: k in m ==> KeyOf(m[k]) == k
  }

  /** The map after saving `list` in order: a later record with the same
      key overwrites an earlier one. */
  function Stored(m: map<string, Record>, list: seq<Record>): (r: map<string, Record>)
    ensures Keyed(m) ==> Keyed(r)
    decreases |list|
  {
    if list == [] then m else Stored(m[KeyOf(list[0]) := list[0]], list[1..])
  }

  /** A save adds exactly the keys of the records saved. */
  lemma {:induction false} StoredKeys(m: map<string, Record>, list: seq<Record>)
    ensures Stored(m, list).Keys == m.Keys + set x | x in list :: KeyOf(x)
    decreases |list|
  {
    if list != [] {
      StoredKeys(m[KeyOf(list[0]) := list[0]], list[1..]);
      assert forall x :: x in list <==> x == list[0] || x in list[1..];
    }
  }

  /** An entry no saved record is keyed to stays as it was. */
  lemma {:induction false} StoredKeepsOthers(m: map<string, Record>, list: seq<Record>, k: string)
    requires k in m && forall x :: x in list ==> KeyOf(x) != k
    ensures k in Stored(m, list) && Stored(m, list)[k] == m[k]
    decreases |list|
  {
    if list != [] {
      StoredKeepsOthers(m[KeyOf(list[0]) := list[0]], list[1..], k);
    }
  }

  /** The last record saved is the one found under its key. */
  lemma {:induction false} StoredLastWins(m: map<string, Record>, list: seq<Record>)
    requires list != []
    ensures var last := list[|list| - 1]; KeyOf(last) in Stored(m, list) && Stored(m, list)[KeyOf(last)] == last
    decreases |list|
  {
    if |list| == 1 {
    } else {
      StoredLastWins(m[KeyOf(list[0]) := list[0]], list[1..]);
      assert list[1..][|list| - 2] == list[|list| - 1];
    }
  }

  /** `list.find(x => x[key] === v)`, as the record found or `None`. */
  function Find(list: seq<Record>, key: string, v: Value): (r: Option<Record>)
    ensures r.Some? ==> r.value in list && StrictEquals(Prop(r.value, key), v)
    ensures r.None? <==> forall x :: x in list ==> !StrictEquals(Prop(x, key), v)
  {
    if list == [] then None
    else if StrictEquals(Prop(list[0], key), v) then Some(list[0])
    else Find(list[1..], key, v)
  }

  /** The record found is the first match: every record before it misses. */
  lemma {:induction false} FindIsFirst(list: seq<Record>, key: string, v: Value, i: nat)
    requires i < |list| && StrictEquals(Prop(list[i], key), v)
    requires forall j :: 0 <= j < i ==> !StrictEquals(Prop(list[j], key), v)
    ensures Find(list, key, v) == Some(list[i])
  {
    if i > 0 {
      FindIsFirst(list[1..], key, v, i - 1);
    }
  }

  /** What `find` hands on: the record, or `undefined` on a miss. */
  function Found(r: Option<Record>): Value {
    if r.Some? then Obj(r.value) else Undefined
  }

  /** `rs` is a listing of the records of `m`, each once, in any order. */
  ghost predicate ListsRecords(rs: seq<Record>, m: map<string, Record>) {
    exists ks :: Maps.EnumeratesKeys(ks, m) && |rs| == |ks| && forall i :: 0 <= i < |ks| ==> rs[i] == m[ks[i]]
  }

  /** A listing holds exactly the saved records. */
  lemma ListedValues(rs: seq<Record>, m: map<string, Record>)
    requires ListsRecords(rs, m)
    ensures forall x :: x in rs <==> x in m.Values
  {
    var ks :| Maps.EnumeratesKeys(ks, m) && |rs| == |ks| && forall i :: 0 <= i < |ks| ==> rs[i] == m[ks[i]];
    IndexedValues(rs, ks, m);
  }

  /** A list read off a map entry by entry, in the order of a key list that
      enumerates the map, holds exactly the map's values. */
  lemma IndexedValues<V>(vs: seq<V>, ks: seq<string>, m: map<string, V>)
    requires Maps.EnumeratesKeys(ks, m) && |vs| == |ks|
    requires forall i :: 0 <= i < |ks| ==> vs[i] == m[ks[i]]
    ensures forall x :: x in vs <==> x in m.Values
  {
    forall x | x in m.Values ensures x in vs {
      var k :| k in m && m[k] == x;
      var i :| 0 <= i < |ks| && ks[i] == k;
      assert vs[i] == x;
    }
  }

  class Directory {
    /** Saved users, by id. */
    var users: map<string, Record>
    /** Saved channels, by id. */
    var channels: map<string, Record>

    ghost predicate Valid()
      reads this
    {
      Keyed(users) && Keyed(channels)
    }

    constructor ()
      ensures Valid() && users == map[] && channels == map[]
    {
      users := map[];
      channels := map[];
    }

    /** `getUser(id)`: the saved record, or `null`. */
    method GetUser(id: string) returns (r: Option<Record>)
      ensures r.Some? <==> id in users
      ensures r.Some? ==> r.value == users[id]
    {
      r := if id in users then Some(users[id]) else None;
    }

    /** `getUsers()`: every saved user. */
    method GetUsers() returns (rs: seq<Record>)
      ensures ListsRecords(rs, users)
    {
      var m := users;
      var ks := Maps.KeysOf(m);
      rs := seq(|ks|, i requires 0 <= i < |ks| => m[ks[i]]);
    }

    /** `saveUsers(list)`: saves and replies with the saved list; an empty
        batch is refused before anything is written. */
    method SaveUsers(list: seq<Record>) returns (r: Outcome<seq<Record>>)
      requires Valid()
      modifies this
      ensures Valid()
      ensures list == [] ==> r == Throws(EmptyBatch) && users == old(users)
      ensures list != [] ==> r == Ok(list) && users == Stored(old(users), list)
      ensures channels == old(channels)
    {
      if list == [] {
        r := Throws(EmptyBatch);
      } else {
        users := Stored(users, list);
        r := Ok(list);
      }
    }

    /** `getChannel(id)`: the saved record, or `null`. */
    method GetChannel(id: string) returns (r: Option<Record>)
      ensures r.Some? <==> id in channels
      ensures r.Some? ==> r.value == channels[id]
    {
      r := if id in channels then Some(channels[id]) else None;
    }

    /** `saveChannels(list)`, as `saveUsers`. */
    method SaveChannels(list: seq<Record>) returns (r: Outcome<seq<Record>>)
      requires Valid()
      modifies this
      ensures Valid()
      ensures list == [] ==> r == Throws(EmptyBatch) && channels == old(channels)
      ensures list != [] ==> r == Ok(list) && channels == Stored(old(channels), list)
      ensures users == old(users)
    {
      if list == [] {
        r := Throws(EmptyBatch);
      } else {
        channels := Stored(channels, list);
        r := Ok(list);
      }
    }
  }
}
