/** The bot's persisted vote state: two Redis hashes, `user_scores`
    (user id -> integer score) and `last_voted_users` (channel id -> user id),
    with the semantics of HGET, HSET, HGETALL and HINCRBY. */
module Brain {
  import opened Wrappers
  import Maps

  /** HGET on `user_scores`, with a missing field read as 0. */
  function ScoreOf(scores: map<string, int>, user: string): int {
    if user in scores then scores[user] else 0
  }

  /** The hash after HINCRBY: a missing field counts as 0 and is created. */
  function Incremented(scores: map<string, int>, user: string, points: int): (r: map<string, int>)
    ensures ScoreOf(r, user) == ScoreOf(scores, user) + points
    ensures forall u :: u != user ==> ScoreOf(r, u) == ScoreOf(scores, u)
    ensures r.Keys == scores.Keys + {user}
  {
    scores[user := ScoreOf(scores, user) + points]
  }

  /** A write sent to Redis: HSET on `last_voted_users` or HINCRBY on
      `user_scores`. */
  datatype Write = SetLastVoted(channel: string, user: string) | Increment(user: string, points: int)

  /** `user_scores` after a sequence of writes. */
  function ScoresAfter(scores: map<string, int>, ws: seq<Write>): map<string, int>
    decreases |ws|
  {
    if ws == [] then scores
    else ScoresAfter(if ws[0].Increment? then Incremented(scores, ws[0].user, ws[0].points) else scores, ws[1..])
  }

  /** `last_voted_users` after a sequence of writes. */
  function LastVotedAfter(last: map<string, string>, ws: seq<Write>): map<string, string>
    decreases |ws|
  {
    if ws == [] then last
    else LastVotedAfter(if ws[0].SetLastVoted? then last[ws[0].channel := ws[0].user] else last, ws[1..])
  }

  /** `entries` is an HGETALL reply for `m`: each field once, with its value. */
  ghost predicate ListsHash(entries: seq<(string, int)>, m: map<string, int>) {
    && |entries| == |m|
    && (forall i :: 0 <= i < |entries| ==> entries[i].0 in m && m[entries[i].0] == entries[i].1)
    && (forall i, j :: 0 <= i < j < |entries| ==> entries[i].0 != entries[j].0)
    && (forall u :: u in m ==> exists i :: 0 <= i < |entries| && entries[i].0 == u)
  }

  /** Incrementing by `p` and then by `-p` restores every score as read
      through `ScoreOf`; the hash itself is equal again only if the field
      existed before (HINCRBY leaves a field holding 0 behind). */
  lemma IncrementRoundTrip(scores: map<string, int>, user: string, p: int)
    ensures forall u :: ScoreOf(Incremented(Incremented(scores, user, p), user, -p), u) == ScoreOf(scores, u)
    ensures Incremented(Incremented(scores, user, p), user, -p) == scores <==> user in scores
  {
    var back := Incremented(Incremented(scores, user, p), user, -p);
    if user !in scores {
      assert user in back;
    } else {
      assert back == scores;
    }
  }

  /** Two votes on the same user commute (HINCRBY is atomic and additive). */
  lemma IncrementsCommute(scores: map<string, int>, a: string, p: int, b: string, q: int)
    ensures Incremented(Incremented(scores, a, p), b, q) == Incremented(Incremented(scores, b, q), a, p)
  {
  }

  class Store {
    /** The `user_scores` hash. */
    var userScores: map<string, int>
    /** The `last_voted_users` hash. */
    var lastVotedUsers: map<string, string>
    /** The writes sent so far, in the order they were sent. */
    var issued: seq<Write>

    constructor ()
      ensures userScores == map[] && lastVotedUsers == map[] && issued == []
    {
      userScores := map[];
      lastVotedUsers := map[];
      issued := [];
    }

    /** `getLastVotedUser(channel)`: HGET, `None` for Redis's nil. */
    method GetLastVotedUser(channel: string) returns (r: Option<string>)
      ensures r.Some? <==> channel in lastVotedUsers
      ensures r.Some? ==> r.value == lastVotedUsers[channel]
    {
      r := if channel in lastVotedUsers then Some(lastVotedUsers[channel]) else None;
    }

    /** `setLastVotedUser(channel, user)`: HSET; no score changes. */
    method SetLastVotedUser(channel: string, user: string)
      modifies this
      ensures lastVotedUsers == old(lastVotedUsers)[channel := user]
      ensures userScores == old(userScores)
      ensures issued == old(issued) + [SetLastVoted(channel, user)]
    {
      lastVotedUsers := lastVotedUsers[channel := user];
      issued := issued + [SetLastVoted(channel, user)];
    }

    /** `getUserScore(user)`: HGET with `score || 0`. */
    method GetUserScore(user: string) returns (score: int)
      ensures user !in userScores ==> score == 0
      ensures user in userScores ==> score == userScores[user]
    {
      score := if user in userScores then userScores[user] else 0;
    }

    /** `getUserScores()`: HGETALL. Redis keeps no empty hash, and node_redis
        reports the missing key as `null`, modelled as `None`. */
    method GetUserScores() returns (r: Option<seq<(string, int)>>)
      ensures r.None? <==> userScores == map[]
      ensures r.Some? ==> ListsHash(r.value, userScores)
    {
      var scores := userScores;
      var fields := Maps.KeysOf(scores);
      var entries := seq(|fields|, i requires 0 <= i < |fields| => (fields[i], scores[fields[i]]));
      assert forall i :: 0 <= i < |entries| ==> entries[i].0 == fields[i] && fields[i] in scores;
      forall u | u in userScores ensures exists i :: 0 <= i < |entries| && entries[i].0 == u {
        var i :| 0 <= i < |fields| && fields[i] == u;
        assert entries[i].0 == u;
      }
      r := if entries == [] then None else Some(entries);
    }

    /** `incrementUserScore(user, points)`: HINCRBY, replying the new total;
        the last-voted hash is untouched. */
    method IncrementUserScore(user: string, points: int) returns (total: int)
      modifies this
      ensures userScores == Incremented(old(userScores), user, points)
      ensures total == ScoreOf(userScores, user)
      ensures lastVotedUsers == old(lastVotedUsers)
      ensures issued == old(issued) + [Increment(user, points)]
    {
      userScores := Incremented(userScores, user, points);
      total := userScores[user];
      issued := issued + [Increment(user, points)];
    }
  }
}
