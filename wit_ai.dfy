/** The conversation sessions of `WitAi`: a dictionary from session id to
    the channel and user it belongs to, found or created per message and
    deleted when the Wit.ai actions have run. The Wit.ai client and the
    clock that names new sessions are inputs. */
module WitAi {
  import opened Wrappers
  import opened Js

  /** `{channel, user, context}`. */
  datatype Session = Session(channel: Value, user: Value, context: Record)

  /** A message: its channel, its user and the regular-expression match
      the bot attached to it (`None` when there is none). */
  datatype Message = Message(channel: Value, user: Value, matched: Option<seq<string>>)

  /** The session stored under `key` is the message's (channel, user),
      compared with `===`. */
  predicate Matches(table: map<string, Session>, key: string, channel: Value, user: Value) {
    key in table && StrictEquals(table[key].channel, channel) && StrictEquals(table[key].user, user)
  }

  /** `keys[i]` matches, and no later key does. */
  ghost predicate IsLastMatch(keys: seq<string>, table: map<string, Session>, channel: Value, user: Value, i: int) {
    && 0 <= i < |keys|
    && Matches(table, keys[i], channel, user)
    && forall j :: i < j < |keys| ==> !Matches(table, keys[j], channel, user)
  }

  /** What the `forEach` over `Object.keys(this._sessions)` leaves in
      `sessionId`: the last matching key in enumeration order. */
  function LastMatch(keys: seq<string>, table: map<string, Session>, channel: Value, user: Value): (r: Option<string>)
    ensures r.None? <==> forall i :: 0 <= i < |keys| ==> !Matches(table, keys[i], channel, user)
    ensures r.Some? ==> exists i :: 0 <= i < |keys| && keys[i] == r.value && IsLastMatch(keys, table, channel, user, i)
    decreases |keys|
  {
    if keys == [] then None
    else
      var n := |keys| - 1;
      var init := keys[..n];
      if Matches(table, keys[n], channel, user) then
        assert IsLastMatch(keys, table, channel, user, n);
        Some(keys[n])
      else
        var r := LastMatch(init, table, channel, user);
        assert forall i :: 0 <= i < n ==> init[i] == keys[i];
        assert r.Some? ==> exists i :: 0 <= i < |keys| && keys[i] == r.value && IsLastMatch(keys, table, channel, user, i) by {
          if r.Some? {
            var i :| 0 <= i < n && init[i] == r.value && IsLastMatch(init, table, channel, user, i);
            assert IsLastMatch(keys, table, channel, user, i);
          }
        }
        r
  }

  predicate Unique(keys: seq<string>) {
    forall i, j :: 0 <= i < j < |keys| ==> keys[i] != keys[j]
  }

  /** `keys` without `k`. */
  function Without(keys: seq<string>, k: string): (r: seq<string>)
    ensures forall x :: x in r <==> x in keys && x != k
    ensures |r| <= |keys|
    ensures Unique(keys) ==> Unique(r)
  {
    if keys == [] then []
    else
      var rest := Without(keys[1..], k);
      if keys[0] == k then rest
      else
        assert Unique(keys) ==> keys[0] !in keys[1..] && Unique(keys[1..]) by {
          if Unique(keys) {
            forall i, j | 0 <= i < j < |keys[1..]| ensures keys[1..][i] != keys[1..][j] {
              assert keys[1..][i] == keys[i + 1] && keys[1..][j] == keys[j + 1];
            }
          }
        }
        UniqueCons(keys[0], rest);
        [keys[0]] + rest
  }

  lemma UniqueCons(x: string, rest: seq<string>)
    ensures x !in rest && Unique(rest) ==> Unique([x] + rest)
  {
    if x !in rest && Unique(rest) {
      var s := [x] + rest;
      forall i, j | 0 <= i < j < |s| ensures s[i] != s[j] {
        assert s[j] == rest[j - 1];
        if i > 0 {
          assert s[i] == rest[i - 1];
        }
      }
    }
  }

  class Sessions {
    /** The session ids in the order `Object.keys` enumerates them (the
        order of insertion, the ids being date strings). */
    var keys: seq<string>
    /** `this._sessions`. */
    var table: map<string, Session>

    ghost predicate Valid()
      reads this
    {
      && Unique(keys)
      && (forall k :: k in table <==> k in keys)
    }

    constructor ()
      ensures Valid() && keys == [] && table == map[]
    {
      keys := [];
      table := map[];
    }

    /** The `forEach` of `_findOrCreateSession`. */
    method FindSession(channel: Value, user: Value) returns (found: Option<string>)
      requires Valid()
      ensures found == LastMatch(keys, table, channel, user)
    {
      found := None;
      var i := 0;
      while i < |keys|
        invariant 0 <= i <= |keys|
        invariant found == LastMatch(keys[..i], table, channel, user)
      {
        var key := keys[i];
        if StrictEquals(table[key].channel, channel) && StrictEquals(table[key].user, user) {
          found := Some(key);
        }
        assert keys[..i + 1][..i] == keys[..i];
        i := i + 1;
      }
      assert keys[..|keys|] == keys;
    }

    /** `_findOrCreateSession(message)`: the last session of the message's
        channel and user, or else a new one under `freshKey` (the clock's
        `toISOString()`), which replaces any session already stored under
        that key. */
    method FindOrCreate(channel: Value, user: Value, freshKey: string) returns (id: string)
      requires Valid()
      modifies this
      ensures Valid()
      ensures var found := LastMatch(old(keys), old(table), channel, user);
        if found.Some? && found.value != "" then
          id == found.value && table == old(table) && keys == old(keys)
        else
          && id == freshKey
          && table == old(table)[freshKey := Session(channel, user, map[])]
          && keys == if freshKey in old(table) then old(keys) else old(keys) + [freshKey]
      ensures id in table && table[id].channel == channel && table[id].user == user
      ensures forall k :: k in old(table) && k != id ==> k in table && table[k] == old(table)[k]
      ensures |table| == if id in old(table) then |old(table)| else |old(table)| + 1
      ensures table == old(table)[id := table[id]]
      ensures keys == if id in old(table) then old(keys) else old(keys) + [id]
    {
      var found := FindSession(channel, user);
      if found.Some? && found.value != "" {
        id := found.value;
        return;
      }
      id := freshKey;
      if freshKey !in table {
        keys := keys + [freshKey];
      }
      table := table[freshKey := Session(channel, user, map[])];
    }

    /** `runActions(message)`: find or create the session, read the match,
        run the actions (their result is `witResult`), then delete the
        session whatever the result. A message without a match throws
        before the actions start, and its session stays. */
    method RunActions(message: Message, freshKey: string, witResult: Outcome<()>) returns (r: Outcome<()>, id: string)
      requires Valid()
      modifies this
      ensures Valid()
      ensures var found := LastMatch(old(keys), old(table), message.channel, message.user);
        id == if found.Some? && found.value != "" then found.value else freshKey
      ensures message.matched.None? ==>
        && r == Throws(TypeError) && id in table
        && table == old(table)[id := table[id]]
        && keys == (if id in old(table) then old(keys) else old(keys) + [id])
        && (var found := LastMatch(old(keys), old(table), message.channel, message.user);
            table[id] == if found.Some? && found.value != "" then old(table)[id]
                         else Session(message.channel, message.user, map[]))
      ensures message.matched.Some? ==>
        && r == witResult
        && id !in table
        && table == old(table) - {id}
        && keys == Without(old(keys), id)
      ensures message.matched.Some? && id !in old(table) ==> table == old(table) && keys == old(keys)
    {
      id := FindOrCreate(message.channel, message.user, freshKey);
      if message.matched.None? {
        return Throws(TypeError), id;
      }
      r := witResult;
      ghost var stored := table[id];
      // `finally`: `delete this._sessions[sessionId]`
      table := table - {id};
      keys := Without(keys, id);
      RemoveAgain(old(table), id, stored);
      if id !in old(table) {
        WithoutAbsent(old(keys), id);
        WithoutMissing(old(keys), id);
      }
    }
  }

  /** Storing under `k` and deleting `k` again leaves the table without
      `k`; if `k` was absent, as it was. */
  lemma RemoveAgain(m: map<string, Session>, k: string, v: Session)
    ensures m[k := v] - {k} == m - {k}
    ensures k !in m ==> m - {k} == m
  {
  }

  lemma {:induction false} WithoutMissing(keys: seq<string>, k: string)
    requires k !in keys
    ensures Without(keys, k) == keys
    decreases |keys|
  {
    if keys != [] {
      WithoutMissing(keys[1..], k);
      assert keys == [keys[0]] + keys[1..];
    }
  }

  lemma {:induction false} WithoutAbsent(keys: seq<string>, k: string)
    requires k !in keys
    ensures Without(keys + [k], k) == keys
    decreases |keys|
  {
    if keys == [] {
      assert Without([k], k) == [] + Without([], k);
    } else {
      assert (keys + [k])[1..] == keys[1..] + [k];
      WithoutAbsent(keys[1..], k);
      assert keys == [keys[0]] + keys[1..];
    }
  }
}
