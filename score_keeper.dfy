/** The older standalone score keeper (score-keeper.js): votes keyed by
    user name, `+1`/`-1` accepted as operators, and a leaderboard labelled
    with `@name`. */
module ScoreKeeper {
  import opened Wrappers
  import opened Js
  import Brain
  import Votes
  import Leaderboard

  /** What `parseVote` returns; it always carries the voted user back. */
  datatype Vote = Vote(user: Value, message: string, points: int)

  /** The operator after `+1`/`-1` are rewritten to `++`/`--`. */
  function Normalized(operator: Value): (r: Value)
    ensures r == Str("++") <==> operator == Str("++") || operator == Str("+1")
    ensures r == Str("--") <==> operator == Str("--") || operator == Str("-1")
  {
    if StrictEquals(operator, Str("+1")) then Str("++")
    else if StrictEquals(operator, Str("-1")) then Str("--")
    else operator
  }

  /** `ScoreKeeper.parseVote(currentUser, votedUser, operator)`; `None` is
      the `undefined` of an operator the `switch` does not know. */
  function ParseVote(currentUser: Value, votedUser: Value, operator: Value): (r: Option<Vote>)
    ensures r.Some? ==> r.value.user == votedUser
    ensures r.Some? ==> -1 <= r.value.points <= 1
    ensures (r.Some? && r.value.points != 0) <==>
      && !(Truthy(currentUser) && !Truthy(votedUser))
      && !StrictEquals(currentUser, votedUser)
      && (Normalized(operator) == Str("++") || Normalized(operator) == Str("--"))
    ensures r.Some? && r.value.points != 0 ==>
      && (r.value.points == 1 <==> Normalized(operator) == Str("++"))
      && (r.value.points == -1 <==> Normalized(operator) == Str("--"))
    ensures r.Some? && r.value.points == 0 ==>
      r.value.message == Votes.Specify || r.value.message == Votes.Cheating(currentUser)
    ensures r.None? <==>
      && !(Truthy(currentUser) && !Truthy(votedUser))
      && !StrictEquals(currentUser, votedUser)
      && Normalized(operator) != Str("++") && Normalized(operator) != Str("--")
  {
    if Truthy(currentUser) && !Truthy(votedUser) then Some(Vote(votedUser, Votes.Specify, 0))
    else if StrictEquals(currentUser, votedUser) then Some(Vote(votedUser, Votes.Cheating(currentUser), 0))
    else
      var op := Normalized(operator);
      if StrictEquals(op, Str("++")) then Some(Vote(votedUser, Votes.Upvoted(votedUser), 1))
      else if StrictEquals(op, Str("--")) then Some(Vote(votedUser, Votes.Downvoted(votedUser), -1))
      else None
  }

  /** `+1` votes exactly as `++` does, and `-1` as `--`. */
  lemma AliasesAgree(currentUser: Value, votedUser: Value)
    ensures ParseVote(currentUser, votedUser, Str("+1")) == ParseVote(currentUser, votedUser, Str("++"))
    ensures ParseVote(currentUser, votedUser, Str("-1")) == ParseVote(currentUser, votedUser, Str("--"))
  {
  }

  /** The four outcomes of `parseVote` that carry a message: a voter with
      no target is asked for a name, a vote for oneself is refused, and
      otherwise `++`/`+1` upvotes and `--`/`-1` downvotes. */
  lemma KeeperVoteCases(currentUser: Value, votedUser: Value, operator: Value)
    ensures Truthy(currentUser) && !Truthy(votedUser) ==>
      ParseVote(currentUser, votedUser, operator) == Some(Vote(votedUser, Votes.Specify, 0))
    ensures (!Truthy(currentUser) || Truthy(votedUser)) && StrictEquals(currentUser, votedUser) ==>
      ParseVote(currentUser, votedUser, operator) == Some(Vote(votedUser, "@" + ToStr(currentUser) + ": No cheating \U{1F60F}", 0))
    ensures && (!Truthy(currentUser) || Truthy(votedUser)) && !StrictEquals(currentUser, votedUser)
            && (operator == Str("++") || operator == Str("+1")) ==>
      ParseVote(currentUser, votedUser, operator) == Some(Vote(votedUser, "Upvoted @" + ToStr(votedUser) + " \U{1F603}", 1))
    ensures && (!Truthy(currentUser) || Truthy(votedUser)) && !StrictEquals(currentUser, votedUser)
            && (operator == Str("--") || operator == Str("-1")) ==>
      ParseVote(currentUser, votedUser, operator) == Some(Vote(votedUser, "Downvoted @" + ToStr(votedUser) + " \U{1F614}", -1))
  {
  }

  /** With no voter and no voted user the two are strictly equal, so the
      vote is refused as cheating rather than as a missing name. */
  lemma NobodyVotingIsCheating(operator: Value)
    ensures ParseVote(Undefined, Undefined, operator) == Some(Vote(Undefined, Votes.Cheating(Undefined), 0))
  {
  }

  /** The writes `updateScore` issues for a truthy user name: with a
      channel, last-voted first and then the score; without, the score only. */
  function UpdateWrites(channel: Value, username: Value, points: int): (ws: seq<Brain.Write>)
    ensures |ws| == (if Truthy(channel) then 2 else 1)
    ensures ws[|ws| - 1] == Brain.Increment(ToStr(username), points)
  {
    (if Truthy(channel) then [Brain.SetLastVoted(ToStr(channel), ToStr(username))] else [])
    + [Brain.Increment(ToStr(username), points)]
  }

  /** What those writes do to the two hashes: the score moves by `points`,
      and last-voted changes only when a channel was given. */
  lemma UpdateWritesEffect(channel: Value, username: Value, points: int, scores: map<string, int>, last: map<string, string>)
    ensures Brain.ScoresAfter(scores, UpdateWrites(channel, username, points)) == Brain.Incremented(scores, ToStr(username), points)
    ensures Brain.LastVotedAfter(last, UpdateWrites(channel, username, points)) ==
      if Truthy(channel) then last[ToStr(channel) := ToStr(username)] else last
  {
    var ws := UpdateWrites(channel, username, points);
    var user := ToStr(username);
    var inc := [Brain.Increment(user, points)];
    assert inc[1..] == [];
    assert Brain.ScoresAfter(scores, inc) == Brain.Incremented(scores, user, points);
    if Truthy(channel) {
      var last' := last[ToStr(channel) := user];
      assert ws[1..] == inc;
      assert Brain.ScoresAfter(scores, ws) == Brain.ScoresAfter(scores, inc);
      assert Brain.LastVotedAfter(last, ws) == Brain.LastVotedAfter(last', inc) == last';
    } else {
      assert ws == inc;
      assert Brain.LastVotedAfter(last, inc) == last;
    }
  }

  /** `@name` labels for the leaderboard, one per HGETALL entry. */
  function AtLabelled(listing: seq<(string, int)>): (r: seq<Leaderboard.Score>)
    ensures |r| == |listing|
    ensures forall i :: 0 <= i < |r| ==> r[i].who == "@" + listing[i].0 && r[i].points == listing[i].1
  {
    seq(|listing|, i requires 0 <= i < |listing| => Leaderboard.Score("@" + listing[i].0, listing[i].1))
  }

  /** The board is the "no scores" text exactly when no stored score is
      positive. */
  lemma NoScoresIffNoneStoredPositive(listing: seq<(string, int)>, scores: map<string, int>, sparkline: seq<string> -> string)
    requires Brain.ListsHash(listing, scores)
    ensures Leaderboard.Board(AtLabelled(listing), sparkline) == Leaderboard.NoScores <==>
      forall u :: u in scores ==> scores[u] <= 0
  {
    var labelled := AtLabelled(listing);
    Leaderboard.NoScoresIffNonePositive(labelled, sparkline);
    if forall u :: u in scores ==> scores[u] <= 0 {
      forall s | s in labelled ensures s.points <= 0 {
        var i :| 0 <= i < |labelled| && labelled[i] == s;
        assert listing[i].0 in scores;
      }
    } else {
      var u :| u in scores && scores[u] > 0;
      var i :| 0 <= i < |listing| && listing[i].0 == u;
      assert labelled[i] in labelled;
    }
  }

  class Keeper {
    const brain: Brain.Store
    /** `clark`, the sparkline drawn above the table. */
    const sparkline: seq<string> -> string

    constructor (brain: Brain.Store, sparkline: seq<string> -> string)
      ensures this.brain == brain && this.sparkline == sparkline
    {
      this.brain := brain;
      this.sparkline := sparkline;
    }

    /** `updateScore(channel, username, points)`, the reply being the new
        total. */
    method UpdateScore(channel: Value, username: Value, points: int) returns (r: Outcome<int>)
      modifies brain
      ensures !Truthy(username) ==>
        && r == Throws(InvalidUser)
        && brain.userScores == old(brain.userScores) && brain.lastVotedUsers == old(brain.lastVotedUsers)
        && brain.issued == old(brain.issued)
      ensures Truthy(username) ==>
        var ws := UpdateWrites(channel, username, points);
        && r == Ok(Brain.ScoreOf(brain.userScores, ToStr(username)))
        && brain.issued == old(brain.issued) + ws
        && brain.userScores == Brain.ScoresAfter(old(brain.userScores), ws)
        && brain.lastVotedUsers == Brain.LastVotedAfter(old(brain.lastVotedUsers), ws)
    {
      if !Truthy(username) {
        return Throws(InvalidUser);
      }
      UpdateWritesEffect(channel, username, points, brain.userScores, brain.lastVotedUsers);
      if Truthy(channel) {
        brain.SetLastVotedUser(ToStr(channel), ToStr(username));
      }
      var total := brain.IncrementUserScore(ToStr(username), points);
      r := Ok(total);
    }

    /** `getUserScores()`: the leaderboard reply for the stored scores. An
        empty hash reads as `null`, and `Object.keys(null)` throws. */
    method GetUserScores() returns (r: Outcome<string>, ghost listing: seq<(string, int)>)
      ensures r.Throws? <==> brain.userScores == map[]
      ensures r.Throws? ==> r.fault == TypeError
      ensures r.Ok? ==> Brain.ListsHash(listing, brain.userScores)
      ensures r.Ok? ==> r.value == Leaderboard.Board(AtLabelled(listing), sparkline)
      ensures r.Ok? ==> (r.value == Leaderboard.NoScores <==> forall u :: u in brain.userScores ==> brain.userScores[u] <= 0)
    {
      var entries := brain.GetUserScores();
      listing := [];
      if entries.None? {
        r := Throws(TypeError);
        return;
      }
      var keyed := entries.value;
      listing := keyed;
      NoScoresIffNoneStoredPositive(keyed, brain.userScores, sparkline);
      var text := Leaderboard.Render(AtLabelled(keyed), sparkline);
      r := Ok(text);
    }
  }
}
