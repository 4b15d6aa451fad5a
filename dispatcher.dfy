/** The command dispatcher of the bot: `runCommand`'s guard, resolve,
    validate and act pipeline, the user and channel lookups through the
    directory cache, the user-record normalisation, and the `vote`,
    `userScore` and `leaderboard` actions. The class carries the revision:
    `Canonical` behaves as src/dispatcher.js, `Earlier` as src/commander.js,
    and every member the two files share is written once. Rx pipelines run
    sequentially; a stream is modelled by what it emits or how it fails. */
module Dispatch {
  import opened Wrappers
  import opened Js
  import Bot
  import Brain
  import Cache
  import Votes
  import Leaderboard

  /** A lookup stream: one emitted value, or an error. `NotObservable` is the
      bare `null` the earlier revision returns for a missing id; using it as
      a stream throws. */
  datatype Lookup = Emits(value: Value) | Fails(fault: Fault) | NotObservable

  /** Subscribing to a lookup. */
  function Observed(l: Lookup): Outcome<Value> {
    match l
    case Emits(v) => Ok(v)
    case Fails(f) => Throws(f)
    case NotObservable => Throws(TypeError)
  }

  /** The answer to a falsy id: a stream of `null`, or in the earlier
      revision no stream at all. */
  function Absent(rev: Votes.Revision): Lookup {
    if rev == Votes.Canonical then Emits(Null) else NotObservable
  }

  // ---------------------------------------------------------------------
  // Records fetched from Slack

  /** The fields `_updateUsers` keeps, in the order of its object literal. */
  const UserFields: seq<string> := ["id", "name", "is_admin", "first_name", "last_name", "real_name", "email"]

  /** The object literal built from one raw Slack user, before falsy fields
      are deleted. Reading a field of a missing user or profile throws. */
  function Projected(raw: Value): (r: Outcome<Record>)
    ensures r.Ok? ==> r.value.Keys == set k | k in UserFields
    ensures (raw.Undefined? || raw.Null?) ==> r == Throws(TypeError)
  {
    if raw.Undefined? || raw.Null? then Throws(TypeError)
    else
      var profile := Field(raw, "profile");
      if profile.Undefined? || profile.Null? then Throws(TypeError)
      else
        Ok(map["id" := Field(raw, "id"), "name" := Field(raw, "name"), "is_admin" := Field(raw, "is_admin"),
               "first_name" := Field(profile, "first_name"), "last_name" := Field(profile, "last_name"),
               "real_name" := Field(profile, "real_name"), "email" := Field(profile, "email")])
  }

  /** A user record as cached: the projected fields whose values are truthy. */
  function Normalized(raw: Value): (r: Outcome<Record>)
    ensures r.Ok? <==> Projected(raw).Ok?
    ensures r.Ok? ==> forall k :: k in r.value ==> k in UserFields && Truthy(r.value[k])
    ensures r.Ok? ==> forall k :: k in r.value ==>
      k in Projected(raw).value && r.value[k] == Projected(raw).value[k]
    ensures r.Ok? ==> forall k :: k in UserFields && Truthy(Projected(raw).value[k]) ==>
      k in r.value && r.value[k] == Projected(raw).value[k]
  {
    var p :- Projected(raw);
    Ok(map k | k in p && Truthy(p[k]) :: p[k])
  }

  /** A non-admin keeps no `is_admin` field, and a user without a profile
      cannot be normalised. */
  lemma NormalizedDropsFalseFlag(fields: Record)
    ensures Prop(fields, "is_admin") == Bool(false) && Normalized(Obj(fields)).Ok? ==>
      "is_admin" !in Normalized(Obj(fields)).value
    ensures Prop(fields, "profile").Undefined? || Prop(fields, "profile").Null? ==>
      Normalized(Obj(fields)) == Throws(TypeError)
  {
  }

  /** `{id: channel.id, name: channel.name}`. */
  function ChannelRecord(raw: Value): (r: Outcome<Record>)
    ensures r.Ok? ==> r.value == map["id" := Field(raw, "id"), "name" := Field(raw, "name")]
    ensures r.Throws? <==> raw.Undefined? || raw.Null?
  {
    if raw.Undefined? || raw.Null? then Throws(TypeError)
    else Ok(map["id" := Field(raw, "id"), "name" := Field(raw, "name")])
  }

  /** `raws.map(f)`, where the first element that throws ends the map. */
  function Collected(f: Value -> Outcome<Record>, raws: seq<Value>): (r: Outcome<seq<Record>>)
    ensures r.Ok? ==> |r.value| == |raws| && forall i :: 0 <= i < |raws| ==> f(raws[i]) == Ok(r.value[i])
    ensures r.Ok? <==> forall i :: 0 <= i < |raws| ==> f(raws[i]).Ok?
    decreases |raws|
  {
    if raws == [] then Ok([])
    else
      var init :- Collected(f, raws[..|raws| - 1]);
      var last :- f(raws[|raws| - 1]);
      assert forall i :: 0 <= i < |raws| - 1 ==> raws[..|raws| - 1][i] == raws[i];
      Ok(init + [last])
  }

  /** Once a prefix has thrown, the whole map throws the same. */
  lemma {:induction false} CollectedKeepsFailure(f: Value -> Outcome<Record>, raws: seq<Value>, i: nat)
    requires i <= |raws| && Collected(f, raws[..i]).Throws?
    ensures Collected(f, raws) == Collected(f, raws[..i])
    decreases |raws|
  {
    if i < |raws| {
      var init := raws[..|raws| - 1];
      assert init[..i] == raws[..i];
      CollectedKeepsFailure(f, init, i);
    } else {
      assert raws[..i] == raws;
    }
  }

  /** What a `saveUsers`/`saveChannels` of the mapped list replies. */
  function Batch(o: Outcome<seq<Record>>): (r: Outcome<seq<Record>>)
    ensures r.Ok? ==> o == r && r.value != []
    ensures o.Ok? && o.value == [] ==> r == Throws(EmptyBatch)
  {
    if o.Ok? && o.value == [] then Throws(EmptyBatch) else o
  }

  /** The cache's entries after a save of `Batch(o)`. */
  function AfterSave(m: map<string, Record>, o: Outcome<seq<Record>>): map<string, Record> {
    if Batch(o).Ok? then Cache.Stored(m, Batch(o).value) else m
  }

  // ---------------------------------------------------------------------
  // Lookups, as functions of the cache and of what Slack would return

  /** `_getUser(userId)`: a cache hit, or a refresh then a search by id. */
  function UserById(rev: Votes.Revision, users: map<string, Record>, raws: seq<Value>, userId: Value): Lookup {
    if !Truthy(userId) then Absent(rev)
    else if ToStr(userId) in users then Emits(Obj(users[ToStr(userId)]))
    else
      match Batch(Collected(Normalized, raws))
      case Throws(f) => Fails(f)
      case Ok(list) => Emits(Cache.Found(Cache.Find(list, "id", userId)))
  }

  /** The user cache after `_getUser(userId)`: refreshed only on a miss. */
  function UsersAfterLookup(users: map<string, Record>, raws: seq<Value>, userId: Value): map<string, Record> {
    if !Truthy(userId) || ToStr(userId) in users then users
    else AfterSave(users, Collected(Normalized, raws))
  }

  /** A hit never refreshes; a user found after a refresh has that very id
      and is one of the records just saved. */
  lemma UserByIdFacts(rev: Votes.Revision, users: map<string, Record>, raws: seq<Value>, userId: Value)
    ensures Truthy(userId) && ToStr(userId) in users ==>
      UsersAfterLookup(users, raws, userId) == users && UserById(rev, users, raws, userId) == Emits(Obj(users[ToStr(userId)]))
    ensures (Truthy(userId) && ToStr(userId) !in users && UserById(rev, users, raws, userId).Emits? &&
             UserById(rev, users, raws, userId).value.Obj?) ==>
        && Prop(UserById(rev, users, raws, userId).value.fields, "id") == userId
        && Collected(Normalized, raws).Ok?
        && UserById(rev, users, raws, userId).value.fields in Collected(Normalized, raws).value
  {
  }

  /** `_findUser(username)`, given the listing the cache handed out: a hit
      by name, or (the missing `return`) an error. */
  function UserByName(rev: Votes.Revision, listing: seq<Record>, username: Value): Lookup {
    if !Truthy(username) then Absent(rev)
    else
      match Cache.Find(listing, "name", username)
      case Some(u) => Emits(Obj(u))
      case None => Fails(TypeError)
  }

  /** `D…` and `G…` ids stand for themselves. */
  function Synthetic(channelId: string): Option<Record> {
    if channelId != [] && channelId[0] == 'D' then Some(map["id" := Str(channelId), "name" := Str("direct message")])
    else if channelId != [] && channelId[0] == 'G' then Some(map["id" := Str(channelId), "name" := Str("private channel")])
    else None
  }

  /** `_getChannel(channelId)`. A truthy id that is not a string has no
      `charAt`, so it throws. */
  function ChannelById(rev: Votes.Revision, channels: map<string, Record>, raws: seq<Value>, channelId: Value): Lookup {
    if !Truthy(channelId) then Absent(rev)
    else if !channelId.Str? then Fails(TypeError)
    else if Synthetic(channelId.s).Some? then Emits(Obj(Synthetic(channelId.s).value))
    else if channelId.s in channels then Emits(Obj(channels[channelId.s]))
    else
      match Batch(Collected(ChannelRecord, raws))
      case Throws(f) => Fails(f)
      case Ok(list) => Emits(Cache.Found(Cache.Find(list, "id", channelId)))
  }

  /** The channel cache after `_getChannel(channelId)`. */
  function ChannelsAfterLookup(channels: map<string, Record>, raws: seq<Value>, channelId: Value): map<string, Record> {
    if !Truthy(channelId) || !channelId.Str? || Synthetic(channelId.s).Some? || channelId.s in channels then channels
    else AfterSave(channels, Collected(ChannelRecord, raws))
  }

  /** Direct-message and private-channel ids resolve to a fixed record
      without reading or writing the cache. */
  lemma SyntheticChannels(rev: Votes.Revision, channels: map<string, Record>, raws: seq<Value>, id: string)
    requires id != [] && (id[0] == 'D' || id[0] == 'G')
    ensures ChannelById(rev, channels, raws, Str(id)) ==
      Emits(Obj(map["id" := Str(id), "name" := Str(if id[0] == 'D' then "direct message" else "private channel")]))
    ensures ChannelsAfterLookup(channels, raws, Str(id)) == channels
  {
  }

  // ---------------------------------------------------------------------
  // Commands

  const Commands: set<string> :=
    {"greet", "adventureTime", "welcomeUser", "getLibraryCategories", "getLibraries",
     "getTrendingRepos", "vote", "userScore", "leaderboard"}

  function Description(name: string): string {
    if name == "greet" then "Greeting"
    else if name == "adventureTime" then "Sending an Adventure Time GIF"
    else if name == "welcomeUser" then "Welcoming"
    else if name == "getLibraryCategories" then "Getting list of library categories"
    else if name == "getLibraries" then "Getting libraries"
    else if name == "getTrendingRepos" then "Getting trending repos"
    else if name == "vote" then "Processing vote"
    else if name == "userScore" then "Getting score"
    else "Getting leaderboard"
  }

  /** `operator || ''` looked up with `indexOf` in `['++', '--']`. */
  predicate IsVoteOperator(operator: Value) {
    var op := if Truthy(operator) then operator else Str("");
    StrictEquals(op, Str("++")) || StrictEquals(op, Str("--"))
  }

  /** The command's `validate` predicate on the resolved options; commands
      without one accept everything. */
  predicate Validate(name: string, o: Record) {
    if name == "welcomeUser" then !StrictEquals(Field(Prop(o, "channel"), "name"), Str("intro"))
    else if name == "getLibraryCategories" then Truthy(Prop(o, "platform"))
    else if name == "getLibraries" then Truthy(Prop(o, "platform")) && Truthy(Prop(o, "query"))
    else if name == "vote" then Truthy(Prop(o, "votedUser")) && IsVoteOperator(Prop(o, "operator"))
    else if name == "userScore" then
      var u := Prop(o, "requestedUser");
      Truthy(u) && (Truthy(Field(u, "name")) || Truthy(Field(u, "id")))
    else true
  }

  /** The `vote` validator accepts exactly a present target and `++`/`--`;
      the `userScore` one a present user carrying a name or an id. */
  lemma ValidatorsAccept(o: Record)
    ensures Validate("vote", o) <==>
      Truthy(Prop(o, "votedUser")) && (Prop(o, "operator") == Str("++") || Prop(o, "operator") == Str("--"))
    ensures Validate("userScore", o) ==> Truthy(Prop(o, "requestedUser"))
    ensures Validate("welcomeUser", o) <==> Field(Prop(o, "channel"), "name") != Str("intro")
    ensures forall n :: n in {"greet", "adventureTime", "getTrendingRepos", "leaderboard"} ==> Validate(n, o)
  {
  }

  /** The info line logged before an action. */
  function InfoLine(description: string, user: Value, channel: Value): string {
    var where := Field(channel, "name");
    description + " for user " + ToStr(Field(user, "name")) + " "
    + (if where == Str("direct message") || where == Str("private channel") then "in " + ToStr(where)
       else "in channel " + ToStr(where))
  }

  /** `options` once resolved: the ids are replaced by the records. */
  function Resolved(o: Record, user: Value, channel: Value): (r: Record)
    ensures "userId" !in r && "channelId" !in r
    ensures "user" in r && r["user"] == user && "channel" in r && r["channel"] == channel
    ensures forall k :: k !in {"userId", "channelId", "user", "channel"} ==> (k in r <==> k in o) && (k in o ==> r[k] == o[k])
  {
    (o - {"userId", "channelId"})["user" := user]["channel" := channel]
  }

  /** How a run of `runCommand` ended. */
  datatype Run =
    | Ignored              // the guard returned before any lookup
    | LookupFailed(fault: Fault)
    | Unresolved           // the user or the channel resolved to nothing
    | NoSuchCommand        // `command` was undefined
    | Rejected             // `validate` returned false
    | Acted(result: Outcome<()>)

  // ---------------------------------------------------------------------
  // The leaderboard's input

  /** `username ? '@' + username : 'mystery'` for the user with that id. */
  function Label(users: seq<Record>, userId: string): (s: string)
    ensures Cache.Find(users, "id", Str(userId)).None? ==> s == "mystery"
    ensures var u := Cache.Find(users, "id", Str(userId));
      s == "mystery" <==> u.None? || !Truthy(Prop(u.value, "name"))
    ensures s == "mystery" || (|s| > 0 && s[0] == '@')
  {
    var u := Cache.Find(users, "id", Str(userId));
    var name := if u.Some? then Prop(u.value, "name") else Undefined;
    if Truthy(name) then
      var tag := "@" + ToStr(name);
      assert tag[0] != "mystery"[0];
      tag
    else "mystery"
  }

  /** A known user with a name is shown as `@name`. */
  lemma LabelOfNamedUser(users: seq<Record>, i: nat, id: string, name: string)
    requires i < |users| && Prop(users[i], "id") == Str(id) && Prop(users[i], "name") == Str(name) && name != ""
    requires forall j :: 0 <= j < i ==> Prop(users[j], "id") != Str(id)
    ensures Label(users, id) == "@" + name
  {
    Cache.FindIsFirst(users, "id", Str(id), i);
  }

  /** The (label, points) pairs of `_getUserScores`, in the listing's order. */
  function Labelled(listing: seq<(string, int)>, users: seq<Record>): (r: seq<Leaderboard.Score>)
    ensures |r| == |listing|
    ensures forall i :: 0 <= i < |listing| ==> r[i].points == listing[i].1 && r[i].who == Label(users, listing[i].0)
  {
    seq(|listing|, i requires 0 <= i < |listing| => Leaderboard.Score(Label(users, listing[i].0), listing[i].1))
  }

  function ScoreReply(name: Value, score: int): string {
    "@" + ToStr(name) + ": your score is: " + Decimal(score)
  }

  /** The value `getLastVotedUser(channel)` emits: the stored id, or `null`. */
  function LastVoted(last: map<string, string>, channel: string): Value {
    if channel in last then Str(last[channel]) else Null
  }

  /** How the `vote` and `userScore` actions find the user a reference
      names: by its id if it has one, else by its name; `NotObservable`
      when it has neither (the actions' `getUser` is then undefined).
      `before`/`after` are the user cache around the lookup. */
  ghost predicate ResolvesUser(rev: Votes.Revision, before: map<string, Record>, after: map<string, Record>,
                               raws: seq<Value>, ref: Value, l: Lookup, listing: seq<Record>)
  {
    var id := Field(ref, "id");
    var name := Field(ref, "name");
    if ref.Undefined? || ref.Null? then l == Fails(TypeError) && after == before
    else if Truthy(id) then l == UserById(rev, before, raws, id) && after == UsersAfterLookup(before, raws, id)
    else if Truthy(name) then l == UserByName(rev, listing, name) && Cache.ListsRecords(listing, after) && after == before
    else l == NotObservable && after == before
  }

  /** What the actions read and change: the trace of effects, the user
      cache, the score and last-voted hashes, and the log of writes. */
  datatype World = World(effects: seq<Bot.Effect>, users: map<string, Record>,
                         scores: map<string, int>, last: map<string, string>, issued: seq<Brain.Write>)

  /** The hashes and the write log are as they were. */
  predicate StoreKept(w: World, w': World) {
    w'.scores == w.scores && w'.last == w.last && w'.issued == w.issued
  }

  /** The `vote` action from `w` to `w'`: the target is looked up as
      `byRef` (or, with neither id nor name, read from last-voted), and
      `Votes.Scored` of it gives the effects, the writes and the result. */
  ghost predicate VoteOutcome(rev: Votes.Revision, raws: seq<Value>, user: Value, channel: Value, votedUser: Value,
                              operator: Value, w: World, w': World, r: Outcome<()>, byRef: Lookup, listing: seq<Record>)
  {
    && ResolvesUser(rev, w.users, w'.users, raws, votedUser, byRef, listing)
    && var target := if byRef.NotObservable? then Ok(LastVoted(w.last, ToStr(Field(channel, "id")))) else Observed(byRef);
       && (target.Throws? ==> r == Throws(target.fault) && w'.effects == w.effects && StoreKept(w, w'))
       && (target.Ok? ==>
             var t := Votes.Scored(rev, user, channel, target.value, operator);
             && r == t.result && w'.effects == w.effects + t.effects
             && w'.issued == w.issued + t.writes
             && w'.scores == Brain.ScoresAfter(w.scores, t.writes)
             && w'.last == Brain.LastVotedAfter(w.last, t.writes))
  }

  /** The reply of `userScore` to the user `byRef` found, from trace `e` to
      `e'`: a failed lookup is the result; `undefined` or `null` throws on
      reading its id; any other user gets its score, read from `scores`,
      sent to the channel. */
  predicate ScoreReplied(channel: Value, byRef: Lookup, scores: map<string, int>,
                         e: seq<Bot.Effect>, e': seq<Bot.Effect>, r: Outcome<()>)
  {
    && (Observed(byRef).Throws? ==> r == Throws(Observed(byRef).fault) && e' == e)
    && (Observed(byRef).Ok? ==>
          var u := Observed(byRef).value;
          && (u.Undefined? || u.Null? ==> r == Throws(TypeError) && e' == e)
          && (!u.Undefined? && !u.Null? ==>
                && r == Ok(())
                && e' == e + Bot.Send(Field(channel, "id"),
                     Str(ScoreReply(Field(u, "name"), Brain.ScoreOf(scores, ToStr(Field(u, "id"))))))))
  }

  /** The `userScore` action: look the user up, then reply with its score. */
  ghost predicate UserScoreOutcome(rev: Votes.Revision, raws: seq<Value>, channel: Value, requestedUser: Value,
                                   w: World, w': World, r: Outcome<()>, byRef: Lookup, listing: seq<Record>)
  {
    && ResolvesUser(rev, w.users, w'.users, raws, requestedUser, byRef, listing)
    && StoreKept(w, w')
    && ScoreReplied(channel, byRef, w.scores, w.effects, w'.effects, r)
  }

  /** The `leaderboard` action: the board of a listing of the scores,
      labelled from a listing of the users, sent to the channel. */
  ghost predicate LeaderboardOutcome(sparkline: seq<string> -> string, channel: Value, w: World, w': World,
                                     r: Outcome<()>, listing: seq<(string, int)>, users: seq<Record>)
  {
    && Brain.ListsHash(listing, w.scores) && Cache.ListsRecords(users, w.users)
    && r == Ok(())
    && w' == w.(effects := w.effects + Bot.Send(Field(channel, "id"), Str(Leaderboard.Board(Labelled(listing, users), sparkline))))
  }

  /** `command.actions(o)` for the command `name`: `vote`, `userScore` and
      `leaderboard` as above; any other command is recorded as performed. */
  ghost predicate Acts(rev: Votes.Revision, raws: seq<Value>, sparkline: seq<string> -> string,
                       name: string, o: Record, w: World, w': World, r: Outcome<()>)
  {
    if name == "vote" then
      exists byRef, listing :: VoteOutcome(rev, raws, Prop(o, "user"), Prop(o, "channel"), Prop(o, "votedUser"),
                                           Prop(o, "operator"), w, w', r, byRef, listing)
    else if name == "userScore" then
      exists byRef, listing :: UserScoreOutcome(rev, raws, Prop(o, "channel"), Prop(o, "requestedUser"), w, w', r, byRef, listing)
    else if name == "leaderboard" then
      exists listing, users :: LeaderboardOutcome(sparkline, Prop(o, "channel"), w, w', r, listing, users)
    else
      w' == w.(effects := w.effects + [Bot.Performed(name)]) && r == Ok(())
  }

  /** A validated command: the info line is logged, the action runs as
      `Acts` says, and an action that throws has its failure logged after
      it (its error reply goes to a deleted `channelId`, so nowhere). */
  ghost predicate Invoked(rev: Votes.Revision, raws: seq<Value>, sparkline: seq<string> -> string,
                          name: string, o: Record, user: Value, channel: Value, w: World, w': World, result: Outcome<()>)
  {
    var logged := w.(effects := w.effects + [Bot.Logged(Bot.Info, Str(InfoLine(Description(name), user, channel)))]);
    exists acted :: Acts(rev, raws, sparkline, name, o, logged, acted, result) &&
      w' == if result.Throws? then acted.(effects := acted.effects + [Bot.Failed(name, result.fault)]) else acted
  }

  /** What `runCommand` does once the user and the channel resolved, from
      options `o` and state `w` to options `o'` and state `w'`: without a
      command it only logs the failure; a command whose validator says no
      does nothing; otherwise it logs the info line first, runs the action
      as `Invoked` says, and an action that throws has its failure logged
      last. */
  ghost predicate Dispatched(rev: Votes.Revision, raws: seq<Value>, sparkline: seq<string> -> string,
                             name: string, o: Record, o': Record, user: Value, channel: Value,
                             w: World, w': World, run: Run)
  {
    && o' == Resolved(o, user, channel)
    && match run
       case NoSuchCommand => name !in Commands && w' == w.(effects := w.effects + [Bot.Failed(name, TypeError)])
       case Rejected => name in Commands && !Validate(name, o') && w' == w
       case Acted(result) =>
         && name in Commands && Validate(name, o')
         && |w'.effects| > |w.effects|
         && w'.effects[..|w.effects| + 1] == w.effects + [Bot.Logged(Bot.Info, Str(InfoLine(Description(name), user, channel)))]
         && (result.Throws? ==> w'.effects[|w'.effects| - 1] == Bot.Failed(name, result.fault))
         && Invoked(rev, raws, sparkline, name, o', user, channel, w, w', result)
       case _ => false
  }

  // ---------------------------------------------------------------------

  /** The `options` object `runCommand` receives and rewrites. */
  class Options {
    var fields: Record

    constructor (fields: Record)
      ensures this.fields == fields
    {
      this.fields := fields;
    }
  }

  class Dispatcher {
    const rev: Votes.Revision
    /** The Redis-backed score store. */
    const brain: Brain.Store
    /** The user and channel directory cache. */
    const cache: Cache.Directory
    /** `clark`: the sparkline drawn for the shown point values. */
    const sparkline: seq<string> -> string
    /** What Slack's user and channel listings return when asked. */
    const slackUsers: seq<Value>
    const slackChannels: seq<Value>
    /** Messages sent and lines logged, in order. */
    var effects: seq<Bot.Effect>

    ghost predicate Valid()
      reads this, cache
    {
      cache.Valid()
    }

    /** The current trace, user cache and store. */
    ghost function Now(): World
      reads this, cache, brain
    {
      World(effects, cache.users, brain.userScores, brain.lastVotedUsers, brain.issued)
    }

    constructor (rev: Votes.Revision, brain: Brain.Store, cache: Cache.Directory, sparkline: seq<string> -> string,
                 slackUsers: seq<Value>, slackChannels: seq<Value>)
      requires cache.Valid()
      ensures Valid()
      ensures this.rev == rev && this.brain == brain && this.cache == cache && this.sparkline == sparkline
      ensures this.slackUsers == slackUsers && this.slackChannels == slackChannels && effects == []
    {
      this.rev := rev;
      this.brain := brain;
      this.cache := cache;
      this.sparkline := sparkline;
      this.slackUsers := slackUsers;
      this.slackChannels := slackChannels;
      effects := [];
    }

    /** `_bot.sayMessage({channel, text})`; `sent` is whether it emits. */
    method Say(channel: Value, text: Value) returns (sent: bool)
      modifies this
      ensures effects == old(effects) + Bot.Send(channel, text)
      ensures sent <==> Bot.Send(channel, text) != []
    {
      effects := effects + Bot.Send(channel, text);
      sent := Truthy(channel) && Truthy(text);
    }

    method Log(level: Bot.Level, message: Value)
      modifies this
      ensures effects == old(effects) + [Bot.Logged(level, message)]
    {
      effects := effects + [Bot.Logged(level, message)];
    }

    /** One user of `_updateUsers`: build the record, then delete every key
        whose value is falsy. */
    static method NormalizeUser(raw: Value) returns (r: Outcome<Record>)
      ensures r == Normalized(raw)
    {
      var p := Projected(raw);
      if p.Throws? {
        return Throws(p.fault);
      }
      var user := DeleteFalsy(p.value, UserFields);
      r := Ok(user);
    }

    /** `keys.forEach(key => { if (!user[key]) delete user[key]; })`, with
        `keys` the keys of the record. */
    static method DeleteFalsy(fields: Record, keys: seq<string>) returns (user: Record)
      requires forall k :: k in fields ==> k in keys
      ensures user == map k | k in fields && Truthy(fields[k]) :: fields[k]
    {
      user := fields;
      for i := 0 to |keys|
        invariant forall k :: k in user <==> k in fields && (k in keys[..i] ==> Truthy(fields[k]))
        invariant forall k :: k in user ==> user[k] == fields[k]
      {
        assert keys[..i + 1] == keys[..i] + [keys[i]];
        if !Truthy(Prop(user, keys[i])) {
          user := user - {keys[i]};
        }
      }
      assert keys[..|keys|] == keys;
    }

    /** `_updateUsers()`: fetch, normalise each user, save the list. */
    method UpdateUsers() returns (r: Outcome<seq<Record>>)
      requires Valid()
      modifies cache
      ensures Valid()
      ensures r == Batch(Collected(Normalized, slackUsers))
      ensures cache.users == AfterSave(old(cache.users), Collected(Normalized, slackUsers))
      ensures cache.channels == old(cache.channels)
    {
      var list: seq<Record> := [];
      for i := 0 to |slackUsers|
        invariant Collected(Normalized, slackUsers[..i]) == Ok(list)
        invariant Valid() && cache.users == old(cache.users) && cache.channels == old(cache.channels)
      {
        var u := NormalizeUser(slackUsers[i]);
        assert slackUsers[..i + 1][..i] == slackUsers[..i];
        assert slackUsers[..i + 1][i] == slackUsers[i];
        if u.Throws? {
          assert Collected(Normalized, slackUsers[..i + 1]) == Throws(u.fault);
          CollectedKeepsFailure(Normalized, slackUsers, i + 1);
          return Throws(u.fault);
        }
        list := list + [u.value];
      }
      assert slackUsers[..|slackUsers|] == slackUsers;
      r := cache.SaveUsers(list);
    }

    /** `_updateChannels()`: fetch, keep `id` and `name`, save the list. */
    method UpdateChannels() returns (r: Outcome<seq<Record>>)
      requires Valid()
      modifies cache
      ensures Valid()
      ensures r == Batch(Collected(ChannelRecord, slackChannels))
      ensures cache.channels == AfterSave(old(cache.channels), Collected(ChannelRecord, slackChannels))
      ensures cache.users == old(cache.users)
    {
      var list := Collected(ChannelRecord, slackChannels);
      if list.Throws? {
        return Throws(list.fault);
      }
      r := cache.SaveChannels(list.value);
    }

    /** `_getUser(userId)`. */
    method GetUser(userId: Value) returns (l: Lookup)
      requires Valid()
      modifies cache
      ensures Valid()
      ensures l == UserById(rev, old(cache.users), slackUsers, userId)
      ensures cache.users == UsersAfterLookup(old(cache.users), slackUsers, userId)
      ensures cache.channels == old(cache.channels)
    {
      if !Truthy(userId) {
        return Absent(rev);
      }
      var hit := cache.GetUser(ToStr(userId));
      if hit.Some? {
        return Emits(Obj(hit.value));
      }
      var users := UpdateUsers();
      if users.Throws? {
        return Fails(users.fault);
      }
      l := Emits(Cache.Found(Cache.Find(users.value, "id", userId)));
    }

    /** `_findUser(username)`: searched in the cached users only. */
    method FindUser(username: Value) returns (l: Lookup, ghost listing: seq<Record>)
      ensures Truthy(username) ==> Cache.ListsRecords(listing, cache.users)
      ensures l == UserByName(rev, listing, username)
    {
      listing := [];
      if !Truthy(username) {
        return Absent(rev), [];
      }
      var users := cache.GetUsers();
      listing := users;
      var found := Cache.Find(users, "name", username);
      if found.Some? {
        return Emits(Obj(found.value)), listing;
      }
      l := Fails(TypeError);
    }

    /** `_getChannel(channelId)`. */
    method GetChannel(channelId: Value) returns (l: Lookup)
      requires Valid()
      modifies cache
      ensures Valid()
      ensures l == ChannelById(rev, old(cache.channels), slackChannels, channelId)
      ensures cache.channels == ChannelsAfterLookup(old(cache.channels), slackChannels, channelId)
      ensures cache.users == old(cache.users)
    {
      if !Truthy(channelId) {
        return Absent(rev);
      }
      if !channelId.Str? {
        return Fails(TypeError);
      }
      var synthetic := Synthetic(channelId.s);
      if synthetic.Some? {
        return Emits(Obj(synthetic.value));
      }
      var hit := cache.GetChannel(channelId.s);
      if hit.Some? {
        return Emits(Obj(hit.value));
      }
      var channels := UpdateChannels();
      if channels.Throws? {
        return Fails(channels.fault);
      }
      l := Emits(Cache.Found(Cache.Find(channels.value, "id", channelId)));
    }

    /** `_updateUserScore({channel, userId, points})`. */
    method UpdateUserScore(channel: Value, userId: Value, points: int) returns (r: Outcome<Option<int>>)
      modifies brain
      ensures var w := Votes.ScoreWrites(rev, channel, userId, points);
        var ws := if w.Ok? then w.value else [];
        && r == (if w.Throws? then Throws(w.fault) else if ws == [] then Ok(None)
                 else Ok(Some(Brain.ScoreOf(brain.userScores, ToStr(userId)))))
        && brain.issued == old(brain.issued) + ws
        && brain.userScores == Brain.ScoresAfter(old(brain.userScores), ws)
        && brain.lastVotedUsers == Brain.LastVotedAfter(old(brain.lastVotedUsers), ws)
    {
      if rev == Votes.Earlier && (!Truthy(channel) || !Truthy(userId)) {
        return Throws(InvalidScoreInformation);
      }
      if points == 0 {
        return Ok(None);
      }
      brain.SetLastVotedUser(ToStr(channel), ToStr(userId));
      var total := brain.IncrementUserScore(ToStr(userId), points);
      Votes.ScoreWritesOrder(rev, channel, userId, points, old(brain.userScores), old(brain.lastVotedUsers));
      r := Ok(Some(total));
    }

    /** `_getUser(ref.id)` or `_findUser(ref.name)`, whichever applies. */
    method ResolveUser(ref: Value) returns (l: Lookup, ghost listing: seq<Record>)
      requires Valid()
      modifies cache
      ensures Valid()
      ensures ResolvesUser(rev, old(cache.users), cache.users, slackUsers, ref, l, listing)
      ensures cache.channels == old(cache.channels)
    {
      listing := [];
      if ref.Undefined? || ref.Null? {
        return Fails(TypeError), listing;
      }
      var id := Field(ref, "id");
      if Truthy(id) {
        l := GetUser(id);
        return;
      }
      var name := Field(ref, "name");
      if Truthy(name) {
        l, listing := FindUser(name);
        return;
      }
      l := NotObservable;
    }

    /** The `vote` action's target: the user the reference names, else the
        channel's last-voted user. */
    method ResolveTarget(channel: Value, votedUser: Value) returns (target: Outcome<Value>, byRef: Lookup, ghost listing: seq<Record>)
      requires Valid()
      modifies cache
      ensures Valid()
      ensures ResolvesUser(rev, old(cache.users), cache.users, slackUsers, votedUser, byRef, listing)
      ensures cache.channels == old(cache.channels)
      ensures target == if byRef.NotObservable?
        then Ok(LastVoted(brain.lastVotedUsers, ToStr(Field(channel, "id"))))
        else Observed(byRef)
    {
      byRef, listing := ResolveUser(votedUser);
      if byRef.NotObservable? {
        var last := brain.GetLastVotedUser(ToStr(Field(channel, "id")));
        target := Ok(if last.Some? then Str(last.value) else Null);
      } else {
        target := Observed(byRef);
      }
    }

    /** The steps of the `vote` action after its target resolved to `v`. */
    method ScoreVote(user: Value, channel: Value, v: Value, operator: Value) returns (r: Outcome<()>)
      modifies this, brain
      ensures var t := Votes.Scored(rev, user, channel, v, operator);
        && r == t.result && effects == old(effects) + t.effects
        && brain.issued == old(brain.issued) + t.writes
        && brain.userScores == Brain.ScoresAfter(old(brain.userScores), t.writes)
        && brain.lastVotedUsers == Brain.LastVotedAfter(old(brain.lastVotedUsers), t.writes)
    {
      Log(Bot.Info, v);
      var parsed := Votes.ParseVote(rev, user, v, operator);
      if parsed.Throws? {
        return Throws(parsed.fault);
      }
      if parsed.value.None? {
        return Throws(TypeError);
      }
      var vote := parsed.value.value;
      var channelId := Field(channel, "id");
      var sent := Say(channelId, Str(vote.message));
      if !sent {
        return Ok(());
      }
      var userId := Get(v, "id");
      if userId.Throws? {
        return Throws(userId.fault);
      }
      var scored := UpdateUserScore(channelId, userId.value, vote.points);
      if scored.Throws? {
        return Throws(scored.fault);
      }
      if scored.value.Some? {
        Log(Bot.Info, Str(Votes.VotedLine(user, operator, v)));
      }
      r := Ok(());
    }

    /** The `vote` action: resolve the target (by id, by name, else the
        channel's last-voted user), then run `Votes.Scored` on it. */
    method VoteAction(user: Value, channel: Value, votedUser: Value, operator: Value)
      returns (r: Outcome<()>, byRef: Lookup, ghost listing: seq<Record>)
      requires Valid()
      modifies this, cache, brain
      ensures Valid()
      ensures ResolvesUser(rev, old(cache.users), cache.users, slackUsers, votedUser, byRef, listing)
      ensures cache.channels == old(cache.channels)
      ensures var target := if byRef.NotObservable?
                then Ok(LastVoted(old(brain.lastVotedUsers), ToStr(Field(channel, "id"))))
                else Observed(byRef);
        && (target.Throws? ==>
              && r == Throws(target.fault) && effects == old(effects)
              && brain.issued == old(brain.issued) && brain.userScores == old(brain.userScores)
              && brain.lastVotedUsers == old(brain.lastVotedUsers))
        && (target.Ok? ==>
              var t := Votes.Scored(rev, user, channel, target.value, operator);
              && r == t.result && effects == old(effects) + t.effects
              && brain.issued == old(brain.issued) + t.writes
              && brain.userScores == Brain.ScoresAfter(old(brain.userScores), t.writes)
              && brain.lastVotedUsers == Brain.LastVotedAfter(old(brain.lastVotedUsers), t.writes))
      ensures VoteOutcome(rev, slackUsers, user, channel, votedUser, operator, old(Now()), Now(), r, byRef, listing)
    {
      var target;
      target, byRef, listing := ResolveTarget(channel, votedUser);
      if target.Throws? {
        r := Throws(target.fault);
      } else {
        r := ScoreVote(user, channel, target.value, operator);
      }
    }

    /** The `userScore` action: resolve the user, read its score, reply. */
    method UserScoreAction(channel: Value, requestedUser: Value)
      returns (r: Outcome<()>, byRef: Lookup, ghost listing: seq<Record>)
      requires Valid()
      modifies this, cache
      ensures Valid()
      ensures ResolvesUser(rev, old(cache.users), cache.users, slackUsers, requestedUser, byRef, listing)
      ensures cache.channels == old(cache.channels)
      ensures ScoreReplied(channel, byRef, brain.userScores, old(effects), effects, r)
    {
      byRef, listing := ResolveUser(requestedUser);
      var target := Observed(byRef);
      if target.Throws? {
        r := Throws(target.fault);
      } else {
        var u := target.value;
        var userId := Get(u, "id");
        if userId.Throws? {
          r := Throws(userId.fault);
        } else {
          var score := brain.GetUserScore(ToStr(userId.value));
          var _ := Say(Field(channel, "id"), Str(ScoreReply(Field(u, "name"), score)));
          r := Ok(());
        }
      }
    }

    /** `_getUserScores()`: the leaderboard text for the stored scores,
        labelled with the cached users. */
    method UserScores() returns (text: string, ghost listing: seq<(string, int)>, ghost users: seq<Record>)
      ensures Brain.ListsHash(listing, brain.userScores)
      ensures Cache.ListsRecords(users, cache.users)
      ensures text == Leaderboard.Board(Labelled(listing, users), sparkline)
    {
      var entries := brain.GetUserScores();
      var all := cache.GetUsers();
      var keyed := if entries.Some? then entries.value else [];
      listing, users := keyed, all;
      text := Leaderboard.Render(Labelled(keyed, all), sparkline);
    }

    /** The `leaderboard` action. */
    method LeaderboardAction(channel: Value) returns (r: Outcome<()>, ghost listing: seq<(string, int)>, ghost users: seq<Record>)
      modifies this
      ensures Brain.ListsHash(listing, brain.userScores)
      ensures Cache.ListsRecords(users, cache.users)
      ensures r == Ok(())
      ensures effects == old(effects) + Bot.Send(Field(channel, "id"), Str(Leaderboard.Board(Labelled(listing, users), sparkline)))
    {
      var text;
      text, listing, users := UserScores();
      var _ := Say(Field(channel, "id"), Str(text));
      r := Ok(());
    }

    /** `command.actions(options)`. The actions other than `vote`,
        `userScore` and `leaderboard` are recorded, not run. */
    method Act(name: string, o: Record) returns (r: Outcome<()>)
      requires Valid()
      modifies this, cache, brain
      ensures Valid()
      ensures |effects| >= |old(effects)| && effects[..|old(effects)|] == old(effects)
      ensures cache.channels == old(cache.channels)
      ensures name != "vote" ==>
        brain.issued == old(brain.issued) && brain.userScores == old(brain.userScores)
        && brain.lastVotedUsers == old(brain.lastVotedUsers)
      ensures Acts(rev, slackUsers, sparkline, name, o, old(Now()), Now(), r)
    {
      ghost var w := Now();
      if name == "vote" {
        var lookup; ghost var listing;
        r, lookup, listing := VoteAction(Prop(o, "user"), Prop(o, "channel"), Prop(o, "votedUser"), Prop(o, "operator"));
        assert VoteOutcome(rev, slackUsers, Prop(o, "user"), Prop(o, "channel"), Prop(o, "votedUser"),
                           Prop(o, "operator"), w, Now(), r, lookup, listing);
      } else if name == "userScore" {
        var lookup; ghost var listing;
        r, lookup, listing := UserScoreAction(Prop(o, "channel"), Prop(o, "requestedUser"));
        assert UserScoreOutcome(rev, slackUsers, Prop(o, "channel"), Prop(o, "requestedUser"), w, Now(), r, lookup, listing);
      } else if name == "leaderboard" {
        ghost var listing, users;
        r, listing, users := LeaderboardAction(Prop(o, "channel"));
        assert Now() == w.(effects := effects);
        assert LeaderboardOutcome(sparkline, Prop(o, "channel"), w, Now(), r, listing, users);
      } else {
        effects := effects + [Bot.Performed(name)];
        r := Ok(());
      }
    }

    /** The `.catch` of `runCommand`: log, then `sayError(options.channelId)`. */
    method Catch(name: string, fault: Fault, channelId: Value)
      modifies this
      ensures effects == old(effects) + [Bot.Failed(name, fault)] + Bot.Send(channelId, Str(Bot.ErrorReply))
    {
      effects := effects + [Bot.Failed(name, fault)];
      var _ := Say(channelId, Str(Bot.ErrorReply));
    }

    /** The two lookups of `runCommand`, zipped: both run, in this order. */
    method Identify(userId: Value, channelId: Value) returns (u: Outcome<Value>, c: Outcome<Value>)
      requires Valid()
      modifies cache
      ensures Valid()
      ensures u == Observed(UserById(rev, old(cache.users), slackUsers, userId))
      ensures c == Observed(ChannelById(rev, old(cache.channels), slackChannels, channelId))
      ensures cache.users == UsersAfterLookup(old(cache.users), slackUsers, userId)
      ensures cache.channels == ChannelsAfterLookup(old(cache.channels), slackChannels, channelId)
    {
      var userLookup := GetUser(userId);
      var channelLookup := GetChannel(channelId);
      u, c := Observed(userLookup), Observed(channelLookup);
    }

    /** What `runCommand` does once the user and the channel resolved:
        rewrite the options, find the command, validate, log and act. */
    method Perform(name: string, options: Options, user: Value, channel: Value) returns (run: Run)
      requires Valid() && Truthy(user) && Truthy(channel)
      modifies this, cache, brain, options
      ensures Valid()
      ensures Dispatched(rev, slackUsers, sparkline, name, old(options.fields), options.fields, user, channel,
                         old(Now()), Now(), run)
      ensures cache.channels == old(cache.channels)
      ensures !run.Acted? ==>
        brain.issued == old(brain.issued) && brain.userScores == old(brain.userScores)
        && brain.lastVotedUsers == old(brain.lastVotedUsers)
    {
      options.fields := Resolved(options.fields, user, channel);
      if name !in Commands {
        // `channelId` was just deleted, so the apology reaches no channel
        Catch(name, TypeError, Prop(options.fields, "channelId"));
        return NoSuchCommand;
      }
      if !Validate(name, options.fields) {
        return Rejected;
      }
      var result := Invoke(name, options.fields, user, channel);
      run := Acted(result);
    }

    /** A validated command: log the info line, run the action, and log the
        failure of an action that throws. The error reply goes to the
        options' `channelId`, which resolution has deleted. */
    method Invoke(name: string, o: Record, user: Value, channel: Value) returns (result: Outcome<()>)
      requires Valid() && "channelId" !in o
      modifies this, cache, brain
      ensures Valid()
      ensures |effects| > |old(effects)|
      ensures effects[..|old(effects)| + 1] == old(effects) + [Bot.Logged(Bot.Info, Str(InfoLine(Description(name), user, channel)))]
      ensures result.Throws? ==> effects[|effects| - 1] == Bot.Failed(name, result.fault)
      ensures Invoked(rev, slackUsers, sparkline, name, o, user, channel, old(Now()), Now(), result)
      ensures cache.channels == old(cache.channels)
    {
      Log(Bot.Info, Str(InfoLine(Description(name), user, channel)));
      ghost var logged := effects;
      ghost var start := Now();
      result := Act(name, o);
      ghost var acted := Now();
      if result.Throws? {
        Catch(name, result.fault, Prop(o, "channelId"));
        assert Bot.Send(Undefined, Str(Bot.ErrorReply)) == [];
      }
      assert effects[..|logged|] == logged;
      assert Acts(rev, slackUsers, sparkline, name, o, start, acted, result);
    }

    /** `runCommand(commandName, options)`. `user` and `channel` are what
        the lookups resolved to. */
    method RunCommand(commandName: Value, options: Options) returns (run: Run, user: Value, channel: Value)
      requires Valid()
      modifies this, cache, brain, options
      ensures Valid()
      ensures var o := old(options.fields);
        run.Ignored? <==> !Truthy(commandName) || !Truthy(Prop(o, "channelId")) || !Truthy(Prop(o, "userId"))
      ensures run.Ignored? ==>
        && effects == old(effects) && options.fields == old(options.fields)
        && cache.users == old(cache.users) && cache.channels == old(cache.channels)
      ensures !run.Acted? ==>
        brain.issued == old(brain.issued) && brain.userScores == old(brain.userScores)
        && brain.lastVotedUsers == old(brain.lastVotedUsers)
      ensures run.LookupFailed? ==>
        && options.fields == old(options.fields)
        && effects == old(effects) + [Bot.Failed(ToStr(commandName), run.fault)]
                      + Bot.Send(Prop(old(options.fields), "channelId"), Str(Bot.ErrorReply))
      ensures run.Unresolved? ==> effects == old(effects) && options.fields == old(options.fields)
      ensures run.NoSuchCommand? || run.Rejected? || run.Acted? ==>
        && UserById(rev, old(cache.users), slackUsers, Prop(old(options.fields), "userId")) == Emits(user)
        && ChannelById(rev, old(cache.channels), slackChannels, Prop(old(options.fields), "channelId")) == Emits(channel)
        && Truthy(user) && Truthy(channel)
        && Dispatched(rev, slackUsers, sparkline, ToStr(commandName), old(options.fields), options.fields, user, channel,
                      old(Now()).(users := UsersAfterLookup(old(cache.users), slackUsers, Prop(old(options.fields), "userId"))),
                      Now(), run)
      ensures !run.Ignored? ==>
        cache.channels == ChannelsAfterLookup(old(cache.channels), slackChannels, Prop(old(options.fields), "channelId"))
      ensures run.LookupFailed? || run.Unresolved? ==>
        cache.users == UsersAfterLookup(old(cache.users), slackUsers, Prop(old(options.fields), "userId"))
    {
      user, channel := Undefined, Undefined;
      if !Truthy(commandName) || !Truthy(Prop(options.fields, "channelId")) || !Truthy(Prop(options.fields, "userId")) {
        return Ignored, user, channel;
      }
      run, user, channel := Handle(ToStr(commandName), options);
    }

    /** Everything `runCommand` does after its guard: look up the user and
        the channel, report a failed lookup, stop on an unresolved one, and
        otherwise perform the command. */
    method Handle(name: string, options: Options) returns (run: Run, user: Value, channel: Value)
      requires Valid()
      modifies this, cache, brain, options
      ensures Valid()
      ensures !run.Ignored?
      ensures !run.Acted? ==>
        brain.issued == old(brain.issued) && brain.userScores == old(brain.userScores)
        && brain.lastVotedUsers == old(brain.lastVotedUsers)
      ensures run.LookupFailed? ==>
        && options.fields == old(options.fields)
        && effects == old(effects) + [Bot.Failed(name, run.fault)]
                      + Bot.Send(Prop(old(options.fields), "channelId"), Str(Bot.ErrorReply))
      ensures run.Unresolved? ==> effects == old(effects) && options.fields == old(options.fields)
      ensures run.NoSuchCommand? || run.Rejected? || run.Acted? ==>
        && UserById(rev, old(cache.users), slackUsers, Prop(old(options.fields), "userId")) == Emits(user)
        && ChannelById(rev, old(cache.channels), slackChannels, Prop(old(options.fields), "channelId")) == Emits(channel)
        && Truthy(user) && Truthy(channel)
        && Dispatched(rev, slackUsers, sparkline, name, old(options.fields), options.fields, user, channel,
                      old(Now()).(users := UsersAfterLookup(old(cache.users), slackUsers, Prop(old(options.fields), "userId"))),
                      Now(), run)
      ensures cache.channels == ChannelsAfterLookup(old(cache.channels), slackChannels, Prop(old(options.fields), "channelId"))
      ensures run.LookupFailed? || run.Unresolved? ==>
        cache.users == UsersAfterLookup(old(cache.users), slackUsers, Prop(old(options.fields), "userId"))
    {
      user, channel := Undefined, Undefined;
      // both lookups run; the user's error is the one reported
      var u, c := Identify(Prop(options.fields, "userId"), Prop(options.fields, "channelId"));
      if u.Throws? || c.Throws? {
        var fault := if u.Throws? then u.fault else c.fault;
        Catch(name, fault, Prop(options.fields, "channelId"));
        return LookupFailed(fault), user, channel;
      }
      user, channel := u.value, c.value;
      if !Truthy(user) || !Truthy(channel) {
        return Unresolved, user, channel;
      }
      ghost var looked := Now();
      assert looked == old(Now()).(users := UsersAfterLookup(old(cache.users), slackUsers, Prop(old(options.fields), "userId")));
      run := Perform(name, options, user, channel);
    }
  }
}
