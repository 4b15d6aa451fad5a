/** Vote evaluation: `_parseVote` in both revisions of the dispatcher, the
    score update it triggers and the steps of the `vote` action after its
    target has been resolved. `Canonical` is dispatcher.js, `Earlier` is
    commander.js; where the two files agree they share one definition. */
module Votes {
  import opened Wrappers
  import opened Js
  import Bot
  import Brain

  datatype Revision = Canonical | Earlier

  /** What `_parseVote` returns: the reply and the points to add. */
  datatype Vote = Vote(message: string, points: int)

  const Specify := "Please specify the username"

  function Cheating(name: Value): string {
    "@" + ToStr(name) + ": No cheating \U{1F60F}"
  }

  function Upvoted(name: Value): string {
    "Upvoted @" + ToStr(name) + " \U{1F603}"
  }

  function Downvoted(name: Value): string {
    "Downvoted @" + ToStr(name) + " \U{1F614}"
  }

  /** The part both revisions share once the voted user is known to be
      truthy: the self-vote test, then the `switch` on the operator, which
      falls through to `undefined` for any other operator. */
  function Judge(votingId: Value, votingName: Value, votedUser: Value, operator: Value): Option<Vote> {
    if StrictEquals(votingId, Field(votedUser, "id")) then Some(Vote(Cheating(votingName), 0))
    else if StrictEquals(operator, Str("++")) then Some(Vote(Upvoted(Field(votedUser, "name")), 1))
    else if StrictEquals(operator, Str("--")) then Some(Vote(Downvoted(Field(votedUser, "name")), -1))
    else None
  }

  /** `_parseVote({votingUser, votedUser, operator})`; `Ok(None)` is the
      `undefined` it returns for an unknown operator. */
  function ParseVote(rev: Revision, votingUser: Value, votedUser: Value, operator: Value): (r: Outcome<Option<Vote>>)
    ensures r.Ok? && r.value.Some? ==> -1 <= r.value.value.points <= 1
    ensures r.Ok? && r.value.Some? && r.value.value.points != 0 ==>
      && Truthy(votedUser)
      && (r.value.value.points == 1 <==> operator == Str("++"))
      && (r.value.value.points == -1 <==> operator == Str("--"))
    ensures r.Ok? && r.value.None? ==> operator != Str("++") && operator != Str("--")
  {
    match rev
    case Canonical =>
      if !votingUser.Obj? || !operator.Str? then Throws(AssertionError)
      else if !Truthy(votedUser) then Ok(Some(Vote(Specify, 0)))
      else Ok(Judge(Field(votingUser, "id"), Field(votingUser, "name"), votedUser, operator))
    case Earlier =>
      if !Truthy(votingUser) && !Truthy(votedUser) then Throws(InvalidVoteInformation)
      else if !Truthy(votedUser) then Ok(Some(Vote(Specify, 0)))
      else
        var votingId :- Get(votingUser, "id");
        Ok(Judge(votingId, Field(votingUser, "name"), votedUser, operator))
  }

  /** The four outcomes of the canonical `_parseVote` on well-typed input. */
  lemma CanonicalVoteCases(votingUser: Value, votedUser: Value, operator: Value)
    requires votingUser.Obj? && operator.Str?
    ensures !Truthy(votedUser) ==> ParseVote(Canonical, votingUser, votedUser, operator) == Ok(Some(Vote(Specify, 0)))
    ensures Truthy(votedUser) && StrictEquals(Field(votingUser, "id"), Field(votedUser, "id")) ==>
      ParseVote(Canonical, votingUser, votedUser, operator) == Ok(Some(Vote(Cheating(Field(votingUser, "name")), 0)))
    ensures Truthy(votedUser) && !StrictEquals(Field(votingUser, "id"), Field(votedUser, "id")) && operator == Str("++") ==>
      ParseVote(Canonical, votingUser, votedUser, operator) == Ok(Some(Vote(Upvoted(Field(votedUser, "name")), 1)))
    ensures Truthy(votedUser) && !StrictEquals(Field(votingUser, "id"), Field(votedUser, "id")) && operator == Str("--") ==>
      ParseVote(Canonical, votingUser, votedUser, operator) == Ok(Some(Vote(Downvoted(Field(votedUser, "name")), -1)))
  {
  }

  /** The canonical `_parseVote` asserts its argument types before anything else. */
  lemma CanonicalVoteAsserts(votingUser: Value, votedUser: Value, operator: Value)
    ensures ParseVote(Canonical, votingUser, votedUser, operator).Throws? <==> !votingUser.Obj? || !operator.Str?
    ensures ParseVote(Canonical, votingUser, votedUser, operator).Throws? ==>
      ParseVote(Canonical, votingUser, votedUser, operator).fault == AssertionError
  {
  }

  /** The earlier `_parseVote` throws only without either user, or when the
      voting user is `undefined`/`null` but the voted user is not. */
  lemma EarlierVoteThrows(votingUser: Value, votedUser: Value, operator: Value)
    ensures !Truthy(votingUser) && !Truthy(votedUser) ==>
      ParseVote(Earlier, votingUser, votedUser, operator) == Throws(InvalidVoteInformation)
    ensures Truthy(votingUser) && !Truthy(votedUser) ==>
      ParseVote(Earlier, votingUser, votedUser, operator) == Ok(Some(Vote(Specify, 0)))
    ensures ParseVote(Earlier, votingUser, votedUser, operator).Throws? <==>
      (!Truthy(votingUser) && !Truthy(votedUser)) || (Truthy(votedUser) && (votingUser.Undefined? || votingUser.Null?))
  {
  }

  /** On a voting user object and a string operator the two revisions agree. */
  lemma RevisionsAgree(votingUser: Value, votedUser: Value, operator: Value)
    requires votingUser.Obj? && operator.Str?
    ensures ParseVote(Canonical, votingUser, votedUser, operator) == ParseVote(Earlier, votingUser, votedUser, operator)
  {
  }

  /** The writes `_updateUserScore({channel, userId, points})` sends, as the
      Redis client stringifies its arguments. */
  function ScoreWrites(rev: Revision, channel: Value, userId: Value, points: int): (r: Outcome<seq<Brain.Write>>)
    ensures r.Ok? ==> r.value == [] || (points != 0 && |r.value| == 2)
    ensures r.Throws? ==> rev == Earlier && r.fault == InvalidScoreInformation
  {
    if rev == Earlier && (!Truthy(channel) || !Truthy(userId)) then Throws(InvalidScoreInformation)
    else if points == 0 then Ok([])
    else Ok([Brain.SetLastVoted(ToStr(channel), ToStr(userId)), Brain.Increment(ToStr(userId), points)])
  }

  /** No write for zero points; otherwise last-voted first, then the score,
      both for the same user. The earlier revision checks its arguments
      before it looks at the points. */
  lemma ScoreWritesOrder(rev: Revision, channel: Value, userId: Value, points: int,
                         scores: map<string, int>, last: map<string, string>)
    ensures rev == Earlier && (!Truthy(channel) || !Truthy(userId)) ==> ScoreWrites(rev, channel, userId, points).Throws?
    ensures (rev == Canonical || (Truthy(channel) && Truthy(userId))) && points == 0 ==>
      ScoreWrites(rev, channel, userId, points) == Ok([])
    ensures (rev == Canonical || (Truthy(channel) && Truthy(userId))) && points != 0 ==>
      var ws := ScoreWrites(rev, channel, userId, points).value;
      && ws[0] == Brain.SetLastVoted(ToStr(channel), ToStr(userId))
      && ws[1] == Brain.Increment(ToStr(userId), points)
      && Brain.ScoresAfter(scores, ws) == Brain.Incremented(scores, ToStr(userId), points)
      && Brain.LastVotedAfter(last, ws) == last[ToStr(channel) := ToStr(userId)]
  {
    if (rev == Canonical || (Truthy(channel) && Truthy(userId))) && points != 0 {
      var ws := ScoreWrites(rev, channel, userId, points).value;
      var u := ToStr(userId);
      assert ws[1..][1..] == [];
      calc {
        Brain.ScoresAfter(scores, ws);
        Brain.ScoresAfter(scores, ws[1..]);
        Brain.ScoresAfter(Brain.Incremented(scores, u, points), ws[1..][1..]);
      }
      calc {
        Brain.LastVotedAfter(last, ws);
        Brain.LastVotedAfter(last[ToStr(channel) := u], ws[1..]);
        Brain.LastVotedAfter(last[ToStr(channel) := u], ws[1..][1..]);
      }
    }
  }

  /** What one pass of the `vote` action does once its target is resolved:
      the effects in order, the Redis writes in order, and how it ends. */
  datatype Step = Step(effects: seq<Bot.Effect>, writes: seq<Brain.Write>, result: Outcome<()>)

  /** The log line written after the score was incremented. */
  function VotedLine(user: Value, operator: Value, votedUser: Value): string {
    "User " + ToStr(Field(user, "name")) + " "
    + (if StrictEquals(operator, Str("++")) then "up" else "down")
    + "voted user " + ToStr(Field(votedUser, "name"))
  }

  /** The `flatMap` body of the `vote` action (src/dispatcher.js:221-243):
      log the resolved user, parse the vote, send the reply, and only when
      the reply went out, update the score and log the vote. */
  function Scored(rev: Revision, user: Value, channel: Value, votedUser: Value, operator: Value): Step {
    var logged := [Bot.Logged(Bot.Info, votedUser)];
    match ParseVote(rev, user, votedUser, operator)
    case Throws(f) => Step(logged, [], Throws(f))
    case Ok(None) => Step(logged, [], Throws(TypeError))
    case Ok(Some(vote)) =>
      var channelId := Field(channel, "id");
      var said := Bot.Send(channelId, Str(vote.message));
      if said == [] then Step(logged, [], Ok(()))
      else
        match Get(votedUser, "id")
        case Throws(f) => Step(logged + said, [], Throws(f))
        case Ok(userId) =>
          match ScoreWrites(rev, channelId, userId, vote.points)
          case Throws(f) => Step(logged + said, [], Throws(f))
          case Ok(ws) =>
            if ws == [] then Step(logged + said, [], Ok(()))
            else Step(logged + said + [Bot.Logged(Bot.Info, Str(VotedLine(user, operator, votedUser)))], ws, Ok(()))
  }

  /** Scores move only after the reply was sent: any write comes with the
      reply as the second effect, and the writes are last-voted, then the
      score, for the same user, by the vote's points. */
  lemma WritesFollowReply(rev: Revision, user: Value, channel: Value, votedUser: Value, operator: Value)
    ensures var t := Scored(rev, user, channel, votedUser, operator);
      t.writes != [] ==>
        && |t.effects| == 3
        && t.effects[1].Said?
        && t.effects[1].channel == Field(channel, "id")
        && |t.writes| == 2
        && t.writes[0].SetLastVoted? && t.writes[1].Increment?
        && t.writes[0].user == t.writes[1].user
        && t.writes[0].channel == ToStr(Field(channel, "id"))
        && (t.writes[1].points == 1 || t.writes[1].points == -1)
  {
  }

  /** A vote scores nothing unless the operator is `++` or `--`, the target
      is truthy and is not the voter. */
  lemma {:induction false} NoWritesWithoutAVote(rev: Revision, user: Value, channel: Value, votedUser: Value, operator: Value)
    requires !Truthy(votedUser) || (operator != Str("++") && operator != Str("--"))
      || (Truthy(user) && StrictEquals(Field(user, "id"), Field(votedUser, "id")))
    ensures Scored(rev, user, channel, votedUser, operator).writes == []
  {
    match ParseVote(rev, user, votedUser, operator)
    case Throws(_) =>
    case Ok(None) =>
    case Ok(Some(vote)) =>
      if !Truthy(votedUser) {
        assert vote.points == 0;
      } else if Truthy(user) && StrictEquals(Field(user, "id"), Field(votedUser, "id")) {
        assert Get(user, "id") == Ok(Field(user, "id"));
        assert vote.points == 0;
      }
  }

  /** Voting for a user id that is not found even after the refresh, so
      that the target is `undefined`: the "specify" reply is sent, then
      reading the id of `undefined` fails, before any write. */
  lemma MissedTargetFails(rev: Revision, user: Value, channel: Value, operator: Value)
    requires user.Obj? && operator.Str? && Truthy(Field(channel, "id"))
    ensures Scored(rev, user, channel, Undefined, operator) ==
      Step([Bot.Logged(Bot.Info, Undefined), Bot.Said(Field(channel, "id"), Str(Specify))], [], Throws(TypeError))
  {
  }

  /** The last-voted fallback resolves to the stored user id as a bare
      string, whose `.id` is `undefined`: the canonical revision credits a
      user called "undefined", the earlier one rejects the score update. */
  lemma LastVotedFallback(user: Value, channel: Value, last: string, operator: Value)
    requires user.Obj? && Truthy(Field(user, "id")) && last != ""
    requires operator == Str("++") && Truthy(Field(channel, "id"))
    ensures Scored(Canonical, user, channel, Str(last), operator).writes ==
      [Brain.SetLastVoted(ToStr(Field(channel, "id")), "undefined"), Brain.Increment("undefined", 1)]
    ensures Scored(Earlier, user, channel, Str(last), operator).result == Throws(InvalidScoreInformation)
    ensures Scored(Earlier, user, channel, Str(last), operator).writes == []
  {
  }
}
