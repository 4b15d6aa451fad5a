# bmo-slackbot karma core in Dafny

This project models the karma logic of the bmo Slack bot as Dafny:

- how a `++`/`--` vote is parsed;
- how the voted user is resolved;
- how the score and last-voted hashes are updated;
- how the leaderboard reply is built;
- how `runCommand` guards, resolves and validates a command, then dispatches it;
- the small pipelines that post-process fetched data:
  - the library merge;
  - the trending-repository filter, link and sort, with its date string;
  - the awesome-list category flattening and string clean-up;
- the wit.ai session table and the logger's severity gate.

The modules follow the source files:

| module | file | models |
|---|---|---|
| `Js` | — | JavaScript values, truthiness, property reads that throw on `undefined`/`null`, `String()`, `parseInt` of decimals, and exceptions as `Outcome` |
| `Bot` | src/bot.js | what the bot does, as a trace of effects; `sayMessage` sends only with a truthy channel and text |
| `Brain` | src/brain.js | the `user_scores` and `last_voted_users` Redis hashes as two maps in a class, plus a log of the writes issued |
| `Cache` | — | the user and channel directory the dispatcher reads and saves through (its `_brain.getUser`, `getUsers`, `saveUsers`, `getChannel` and `saveChannels`), as two maps |
| `Votes` | src/dispatcher.js, src/commander.js | `_parseVote` and `_updateUserScore` in both revisions, and the `vote` action once its target is known |
| `Leaderboard` | src/dispatcher.js, src/score-keeper.js | keep positive scores, group by points, rank by the string order of the keys, keep 10 groups, format the lines |
| `Dispatch` | src/dispatcher.js, src/commander.js | the `Dispatcher` class: `runCommand`, the lookups, user normalisation, the `vote`, `userScore` and `leaderboard` actions |
| `ScoreKeeper` | src/score-keeper.js | the older standalone keeper: `updateScore`, `getUserScores`, `parseVote` with `+1`/`-1` |
| `LibraryEngine` | src/library-engine.js | concatenate, keep the first per link, sort by title |
| `TrendingEngine` | src/trending-engine.js | date string, limit slice, language filter, links, trend sort |
| `AwesomeList` | src/awesome-list-scrapers/awesome-list-base-scraper.js | category flattening, the 0.6 threshold, slugs, descriptions |
| `WitAi` | src/wit-ai.js | the session table as a class: find-or-create, and deletion after `runActions` |
| `Logger` | src/logger.js | constructor defaults, the per-level gate, the tag prefix and the output routing |
| `Strings`, `Sorting`, `Maps`, `Wrappers` | — | string operations, a stable insertion sort with its permutation and order proofs, and an `Option` type |

## How the revisions are handled

src/commander.js is an earlier copy of src/dispatcher.js. `Dispatch.Dispatcher` carries a `rev` field:

- `Canonical` is src/dispatcher.js;
- `Earlier` is src/commander.js.

Where the two files differ, the model branches on `rev`:

- `_parseVote` throws on two missing users instead of asserting argument types;
- `_updateUserScore` throws on a missing channel or user id, before it tests the points;
- `_getUser`, `_findUser` and `_getChannel` return a bare `null` instead of a stream of `null` (`Dispatch.Lookup.NotObservable`).

Everything else is written once. `Votes.RevisionsAgree` proves that the two `_parseVote`s agree on well-typed input.

## Quirks modelled as written

- The leaderboard ranks point keys by string order: `Leaderboard.NineRanksAboveTen` proves that 9 ranks above 10.
- After resolution `runCommand` deletes `options.channelId`. A later failure therefore calls `sayError(undefined)`, which sends nothing: `Dispatch.Dispatched` records only the logged failure.
- A `_findUser` miss has no `return`, so the stream fails before `_parseVote` runs (`Dispatch.UserByName`): the vote sends no reply and writes nothing.
- A `_getUser` id that is still missing after the refresh gives an `undefined` target. `Votes.MissedTargetFails` shows that the "specify" reply then goes out, and reading `votedUser.id` throws before any write.
- `_parseVote` returns `undefined` for an unknown operator (`Votes.ParseVote` gives `Ok(None)`). Only the `vote` validator keeps such votes out.
- The last-voted fallback returns the stored id as a bare string, and its `.id` is `undefined` (`Votes.LastVotedFallback`):
  - the canonical revision credits a user named "undefined";
  - the earlier revision rejects the update.
- No source line guards the older keeper's `getUserScores` against the `null` that an empty hash returns, so `Object.keys(null)` throws there (`ScoreKeeper.Keeper.GetUserScores`). The dispatcher writes `scores || {}` instead.
- In `runActions`, `message.match[0]` is read after the session is created and outside the `finally`. A message without `match` therefore throws and leaves its session in the table (`WitAi.Sessions.RunActions`).
- `_findOrCreateSession` tests `!sessionId`. A matching session stored under the key `""` is therefore not reused.

## Model

| member | source | states |
|---|---|---|
| Js.ParseDecimalOfDecimal | src/dispatcher.js:449 | `parseInt(String(n), 10)` gives back `n` for every integer, so reading a stored score as a decimal string loses nothing |
| Js.DecimalInjective | src/dispatcher.js:469 | distinct point values have distinct decimal keys, so grouping by the key is grouping by the points |
| Bot.Send | src/bot.js:55-58 | a message is sent exactly when both the channel and the text are truthy; otherwise nothing happens |
| Bot.SayErrorReachesOnlyAChannel | src/bot.js:48-53 | the error reply reaches a truthy channel and is dropped for `undefined` |
| Brain.Incremented | src/brain.js:40-45 | HINCRBY: the user's score becomes the previous score (0 when absent) plus `points`; every other user keeps theirs; the user becomes a key |
| Brain.IncrementRoundTrip | src/brain.js:40-45 | incrementing by `p` then by `-p` restores every score read; it restores the hash itself exactly when the user already had an entry |
| Brain.IncrementsCommute | src/brain.js:40-45 | two increments give the same hash in either order |
| Brain.Store.constructor | src/brain.js:7-9 | the store starts with both hashes empty |
| Brain.Store.GetLastVotedUser | src/brain.js:11-20 | HGET on `last_voted_users`: the stored user of the channel, or nothing when the field is missing |
| Brain.Store.SetLastVotedUser | src/brain.js:22-27 | HSET: only that channel's entry changes, to `user`; the scores are untouched |
| Brain.Store.GetUserScore | src/brain.js:29-31 | the stored score, or 0 for a user with no entry |
| Brain.Store.GetUserScores | src/brain.js:33-38 | HGETALL: `null` exactly when the hash is empty, else a listing of every entry of the hash, once each |
| Brain.Store.IncrementUserScore | src/brain.js:40-45 | the scores become `Incremented(old, user, points)` and the new total is returned; last-voted is untouched |
| Cache.Stored | src/dispatcher.js:393 | a batch save keeps every record under its own id |
| Cache.StoredKeys | src/dispatcher.js:393 | a save adds exactly the ids of the records saved to the keys |
| Cache.StoredKeepsOthers | src/dispatcher.js:393 | an entry whose id no saved record has stays as it was |
| Cache.StoredLastWins | src/dispatcher.js:393 | of several records with one id, the last saved is the one kept |
| Cache.Find | src/dispatcher.js:349 | `Array.prototype.find` with `===` on one field: the record found matches, and nothing is found only when no record matches |
| Cache.FindIsFirst | src/dispatcher.js:360 | `find` returns the first matching record |
| Cache.ListedValues | src/dispatcher.js:358 | a listing of the directory holds exactly its records |
| Cache.Directory.GetUser | src/dispatcher.js:340-342 | the cached user with that id, or nothing |
| Cache.Directory.GetUsers | src/dispatcher.js:357-359 | every cached user, once each |
| Cache.Directory.SaveUsers | src/dispatcher.js:393 | a non-empty batch is stored and returned; an empty batch fails; channels are untouched |
| Cache.Directory.GetChannel | src/dispatcher.js:413-415 | the cached channel with that id, or nothing |
| Cache.Directory.SaveChannels | src/dispatcher.js:433 | as `SaveUsers`, for channels; users are untouched |
| Votes.ParseVote | src/dispatcher.js:495-522 | points are in -1..1; a nonzero vote has a truthy target, with +1 exactly for `++` and -1 exactly for `--`; `undefined` only for other operators |
| Votes.CanonicalVoteCases | src/dispatcher.js:499-522 | no target gives "Please specify the username" and 0 points; a self-vote gives "No cheating" and 0; `++` gives "Upvoted @name" and +1; `--` gives "Downvoted @name" and -1 |
| Votes.CanonicalVoteAsserts | src/dispatcher.js:496-497 | the canonical version throws exactly when the voting user is not an object or the operator is not a string |
| Votes.EarlierVoteThrows | src/commander.js:505-516 | the earlier version throws without either user and replies "specify" with a voter but no target; these are all the cases in which it throws, besides a nullish voter with a target |
| Votes.RevisionsAgree | src/commander.js:505-531 | on a voting-user object and a string operator, both revisions return the same vote |
| Votes.ScoreWrites | src/dispatcher.js:485-493 | the writes are none, or two for nonzero points; only the earlier revision can throw, with invalid score information |
| Votes.ScoreWritesOrder | src/commander.js:489-503 | the earlier revision checks channel and user before the points; 0 points write nothing; otherwise last-voted of the channel is set first, then the score increments by the points, and the hashes end as `Incremented` and `last[channel := user]` |
| Votes.WritesFollowReply | src/dispatcher.js:221-243 | when the vote writes, the reply to the channel has already been sent, and the writes are last-voted then increment, for the same user, by plus or minus one |
| Votes.NoWritesWithoutAVote | src/dispatcher.js:499-522 | no target, an operator other than `++`/`--`, or a self-vote scores nothing |
| Votes.MissedTargetFails | src/dispatcher.js:221-237 | an `undefined` target, as a user id not found even after the refresh yields, gets the "specify" reply; then reading its id throws, and nothing is written |
| Votes.LastVotedFallback | src/dispatcher.js:216-238 | resolving by the channel's last-voted user credits "undefined" in the canonical revision, and the earlier revision throws without writing |
| Leaderboard.Positive | src/dispatcher.js:452 | exactly the entries with positive points survive, and no more of them than the input has |
| Leaderboard.PositiveKeepsGroups | src/dispatcher.js:452 | after the filter each positive point value has the same labels in the same input order, and every other value has none |
| Leaderboard.PointValues | src/dispatcher.js:459-467 | the keys of the grouping object: every point value that occurs, each once |
| Leaderboard.RankedIgnoresKeyOrder | src/dispatcher.js:469 | the ranking depends only on which point values occur, not on the order `Object.keys` lists them in |
| Sorting.SortIgnoresOrder | src/dispatcher.js:469 | under an antisymmetric total order, sorting any arrangement of the same elements gives the same list |
| Leaderboard.Groups | src/dispatcher.js:459-467 | the grouping dictionary has a key for exactly the point values seen |
| Leaderboard.GroupsSnoc | src/dispatcher.js:460-464 | one more entry either joins its existing group at the end or opens a new group |
| Leaderboard.FoldStep | src/dispatcher.js:459-467 | one step of the `reduce` keeps the fold invariant: each group lists its members in input order |
| Leaderboard.GroupByPoints | src/dispatcher.js:459-467 | the mutable-dictionary fold yields `Groups(scores)` and the keys in first-seen order |
| Leaderboard.FoldedIsGroups | src/dispatcher.js:459-467 | a finished fold is the grouping by points |
| Leaderboard.KeyLeIsTotalPreorder | src/dispatcher.js:469 | comparing keys by their decimal strings is a total preorder, so `sort()` orders them |
| Leaderboard.SortedKeys | src/dispatcher.js:469 | the sorted keys are in string order |
| Leaderboard.RankedFromSort | src/dispatcher.js:469-470 | sort, reverse and slice give at most 10 distinct keys in descending string order, all from the input, and every key cut is below every key kept |
| Leaderboard.RankedDescending | src/dispatcher.js:469 | the ranked keys descend strictly as strings |
| Leaderboard.RankedTopTen | src/dispatcher.js:470 | `min(10, n)` keys are shown, and a key left out is string-less than every key shown |
| Leaderboard.NineRanksAboveTen | src/dispatcher.js:469 | with groups 10 and 9, the 9 group is ranked first |
| Leaderboard.GroupLines | src/dispatcher.js:473-478 | one line per member of the group |
| Leaderboard.RankOnFirstLineOnly | src/dispatcher.js:474-475 | a group's first line starts with its rank label; every later line starts with spaces |
| Leaderboard.CrownOnFirstGroupOnly | src/dispatcher.js:477 | a line ends with the crown exactly when it belongs to the first group |
| Leaderboard.FencedIsNotNoScores | src/dispatcher.js:481 | a rendered table can never be mistaken for "No scores yet" |
| Leaderboard.NoScoresIffNonePositive | src/dispatcher.js:452-457 | the reply is "No scores yet" exactly when no score is positive |
| Leaderboard.WriteTable | src/dispatcher.js:472-479 | the loop builds exactly the table lines of the ranked groups, group by group |
| Leaderboard.Render | src/dispatcher.js:454-482 | the imperative build of the reply, with its mutable grouping, equals `Board` |
| Dispatch.Projected | src/dispatcher.js:374-383 | for a user object, the object literal has exactly the seven copied fields; reading a missing user throws |
| Dispatch.Normalized | src/dispatcher.js:374-390 | a normalised user keeps exactly the copied fields whose value is truthy, with their values |
| Dispatch.NormalizedDropsFalseFlag | src/dispatcher.js:385-389 | `is_admin: false` is omitted; a user without a profile makes the refresh throw |
| Dispatch.Dispatcher.NormalizeUser | src/dispatcher.js:374-390 | the imperative build of one user record, copy then delete, yields exactly `Normalized(raw)` |
| Dispatch.Dispatcher.DeleteFalsy | src/dispatcher.js:385-389 | the `forEach` that deletes every key with a falsy value leaves exactly the truthy fields, with their values |
| Dispatch.ChannelRecord | src/dispatcher.js:428-432 | a channel is reduced to `{id, name}`; a missing one throws |
| Dispatch.Collected | src/dispatcher.js:374 | `users.map(f)` succeeds exactly when `f` succeeds on every element, and gives `f`'s results in order |
| Dispatch.CollectedKeepsFailure | src/dispatcher.js:374 | the first failure of `map` is the failure of the whole |
| Dispatch.Batch | src/dispatcher.js:393 | a save of the empty list fails; any other save returns its list |
| Dispatch.UserByIdFacts | src/dispatcher.js:336-351 | a cache hit answers without refreshing; a user found after a refresh has the requested id and is one of the records just saved |
| Dispatch.SyntheticChannels | src/dispatcher.js:401-411 | `D…` ids resolve to `{id, name: 'direct message'}` and `G…` ids to `{id, name: 'private channel'}`, without reading or writing the cache |
| Dispatch.ValidatorsAccept | src/dispatcher.js:207-209 | the vote validator accepts exactly a truthy target with `++` or `--`; userScore needs a requested user; welcomeUser refuses `intro`; commands without a validator accept everything |
| Dispatch.Resolved | src/dispatcher.js:301-306 | the options lose `userId` and `channelId`, gain the resolved `user` and `channel`, and keep everything else |
| Dispatch.Label | src/dispatcher.js:444-448 | a score is labelled `mystery` exactly when its user is not known or has a falsy name; every other label starts with `@` |
| Dispatch.LabelOfNamedUser | src/dispatcher.js:444-448 | a known user with a name is labelled `@name` |
| Dispatch.Labelled | src/dispatcher.js:442-450 | one (label, points) pair per stored score, in the listing's order |
| Dispatch.Options.constructor | src/dispatcher.js:282 | the options object holds the given fields |
| Dispatch.Dispatcher.constructor | src/dispatcher.js:39-55 | a dispatcher starts with the given store, cache and Slack data, and an empty trace |
| Dispatch.Dispatcher.Say | src/bot.js:55-58 | appends the send, if any, to the trace, and reports whether it happened |
| Dispatch.Dispatcher.Log | src/dispatcher.js:325 | appends one log effect |
| Dispatch.Dispatcher.UpdateUsers | src/dispatcher.js:371-394 | the refresh normalises every Slack user and saves the batch; the cache ends as that save leaves it; channels are untouched |
| Dispatch.Dispatcher.UpdateChannels | src/dispatcher.js:426-434 | the same for channels; users are untouched |
| Dispatch.Dispatcher.GetUser | src/dispatcher.js:336-351 | the lookup is `UserById` of the cache before the call, and the cache changes only by the refresh on a miss |
| Dispatch.Dispatcher.FindUser | src/dispatcher.js:353-369 | the lookup is by name in a listing of the cached users; a miss is an error |
| Dispatch.Dispatcher.GetChannel | src/dispatcher.js:396-424 | the lookup is `ChannelById`, and the cache changes only by the refresh on a miss |
| Dispatch.Dispatcher.UpdateUserScore | src/dispatcher.js:485-493 | the store receives exactly the writes `ScoreWrites` names, in order, and ends with the hashes those writes produce; the new total is returned when there were writes |
| Dispatch.Dispatcher.ResolveUser | src/dispatcher.js:251-256 | a user reference is resolved by id, else by name, else not at all |
| Dispatch.Dispatcher.ResolveTarget | src/dispatcher.js:211-218 | the vote target is by id, then by name, then the channel's last-voted user |
| Dispatch.Dispatcher.ScoreVote | src/dispatcher.js:220-243 | the trace, the result and the store follow `Votes.Scored` exactly |
| Dispatch.Dispatcher.VoteAction | src/dispatcher.js:209-245 | a failed target lookup changes nothing; otherwise the step is `Votes.Scored` of the resolved target |
| Dispatch.Dispatcher.UserScoreAction | src/dispatcher.js:250-265 | finds the user, then sends `@name: your score is: N` with the stored score (0 when absent), as `ScoreReplied` says; a missing user throws before sending |
| Dispatch.Dispatcher.UserScores | src/dispatcher.js:436-483 | the reply is `Board` of the labelled listing of the whole score hash, with the cached users |
| Dispatch.Dispatcher.LeaderboardAction | src/dispatcher.js:269-276 | sends that reply to the channel |
| Dispatch.Dispatcher.Act | src/dispatcher.js:207-326 | per command, as `Acts` spells out: `vote` stores what `Votes.Scored` writes for the resolved target (`Brain.ScoresAfter`, `Brain.LastVotedAfter`) and sends its replies; `userScore` sends the found user's score; `leaderboard` sends the board of the stored scores; any other command is only recorded; the action only appends to the trace, and only `vote` touches the store |
| Dispatch.Dispatcher.Catch | src/dispatcher.js:327-332 | the failure is logged, then the error reply is sent to the channel id the options still hold |
| Dispatch.Dispatcher.Identify | src/dispatcher.js:289-296 | the user and channel lookups are `UserById` and `ChannelById` of the cache as it was, and the cache then holds what those lookups refreshed |
| Dispatch.Dispatcher.Perform | src/dispatcher.js:297-332 | after resolution: the options are rewritten; an unknown command only logs its failure; a validator saying no stops everything; otherwise the info line is logged before the action runs, and the action then does what `Acts` says for that command; the channel cache stays as it was |
| Dispatch.Dispatcher.Invoke | src/dispatcher.js:317-332 | the info line is logged before the action, and the action does what `Acts` says; an action that throws has its failure logged last, and its error reply reaches no channel; the channel cache stays as it was |
| Dispatch.Dispatcher.Handle | src/dispatcher.js:289-332 | after the guard: a failed lookup logs and replies to the channel id; an unresolved user or channel does nothing; otherwise the command is performed as `Dispatched` says; the channel cache ends as the channel lookup refreshed it, and after a failed or unresolved lookup the user cache ends as the user lookup refreshed it |
| Dispatch.Dispatcher.RunCommand | src/dispatcher.js:282-333 | nothing happens without a command name, channel id or user id; a failed lookup logs and replies to the channel id; an unresolved user or channel does nothing; the action runs only for resolved, validated commands, and only an action touches the store; past the guard, the channel cache ends as the channel lookup refreshed it, and after a failed or unresolved lookup the user cache ends as the user lookup refreshed it |
| ScoreKeeper.Normalized | src/score-keeper.js:83-87 | `+1` counts as `++` and `-1` as `--`; nothing else is rewritten to either |
| ScoreKeeper.ParseVote | src/score-keeper.js:68-103 | the vote is for `votedUser`, worth −1, 0 or 1; a nonzero vote needs a target other than the voter, and is +1 exactly for `++`/`+1` and −1 exactly for `--`/`-1`; a zero vote carries the "specify" or "No cheating" message; `undefined` exactly for other operators |
| ScoreKeeper.KeeperVoteCases | src/score-keeper.js:68-103 | the four replies: a voter with no target is asked for the user name, a self-vote gets `@voter: No cheating 😏`, and otherwise `++`/`+1` upvotes and `--`/`-1` downvotes by one, with their messages |
| ScoreKeeper.AliasesAgree | src/score-keeper.js:83-87 | `+1` and `-1` vote exactly as `++` and `--` do |
| ScoreKeeper.NobodyVotingIsCheating | src/score-keeper.js:75-80 | with neither user given, `undefined === undefined` makes it a self-vote |
| ScoreKeeper.UpdateWrites | src/score-keeper.js:14-22 | with a channel, last-voted is written and then the score; without one, only the score |
| ScoreKeeper.UpdateWritesEffect | src/score-keeper.js:14-22 | the score ends incremented by the points, and last-voted changes only with a channel |
| ScoreKeeper.AtLabelled | src/score-keeper.js:29-33 | each stored user is shown as `@user` with their points |
| ScoreKeeper.NoScoresIffNoneStoredPositive | src/score-keeper.js:35-40 | the reply is "No scores yet" exactly when no stored score is positive |
| ScoreKeeper.Keeper.constructor | src/score-keeper.js:6-8 | the keeper holds the given store |
| ScoreKeeper.Keeper.UpdateScore | src/score-keeper.js:10-23 | a falsy username throws and changes nothing; otherwise the store receives `UpdateWrites` and the new score is returned |
| ScoreKeeper.Keeper.GetUserScores | src/score-keeper.js:25-66 | an empty hash throws; otherwise the reply is `Board` of the `@user` listing of the whole hash, and "No scores yet" exactly when no stored score is positive |
| LibraryEngine.Scrapers | src/library-engine.js:14-22 | scrapers exist exactly for `ios` (awesome-ios, then awesome-swift) and `android` |
| LibraryEngine.Concat | src/library-engine.js:32 | the concatenation holds exactly the items of the batches |
| LibraryEngine.ConcatLength | src/library-engine.js:32 | the concatenation is as long as all batches together |
| LibraryEngine.Reduced | src/library-engine.js:32 | `reduce` without an initial value throws exactly on no batches |
| LibraryEngine.Deduped | src/library-engine.js:33-38 | the result keeps items of the input, no two with the same link, and every input link |
| LibraryEngine.DedupedKeepsFirst | src/library-engine.js:33-38 | an item is kept exactly when it is the first with its link |
| LibraryEngine.NotAboveIsLe | src/library-engine.js:39-47 | "not greater" by `>`/`<` on strings is the lexicographic `<=` |
| LibraryEngine.TitleLeIsTotalPreorder | src/library-engine.js:39-47 | the title comparator is a total preorder |
| LibraryEngine.Batches | src/library-engine.js:29 | one result batch per scraper, in the scrapers' order |
| LibraryEngine.GetLibrariesForQuery | src/library-engine.js:25-49 | throws exactly for a platform with no scrapers |
| LibraryEngine.SortKeepsDistinctLinks | src/library-engine.js:39-47 | sorting keeps links distinct |
| LibraryEngine.LibrariesForQuery | src/library-engine.js:25-49 | no two results share a link; results are sorted by title; each was returned by one of the platform's scrapers; the first item of each link, and no other, is kept; every link appears; there are at most as many results as items scraped |
| LibraryEngine.LibrariesKeepPlatform | src/library-engine.js:26-30 | when the scrapers return only items of the platform, so does the query |
| TrendingEngine.TwoDigitsOfSmall | src/trending-engine.js:24-25 | `leftpad(n, 2, 0)` of 0..99 is two digits that read back as `n` |
| TrendingEngine.DateParts | src/trending-engine.js:22-29 | the date is the year, the UTC month + 1 and the UTC date - 1, the last two padded, joined by `-` |
| TrendingEngine.DateLayout | src/trending-engine.js:21-29 | for a month in 0..11 and a date in 1..31 the string is `YYYY-MM-DD`: the year, a dash, two digits reading month + 1, a dash, two digits reading date - 1 |
| TrendingEngine.FirstOfMonthIsDayZero | src/trending-engine.js:25 | on the 1st of a month the day field is `00` |
| TrendingEngine.SliceEnd | src/trending-engine.js:32 | the slice never runs past the results |
| TrendingEngine.Repos | src/trending-engine.js:32-57 | one repo per sliced result, with `name = repo_name`, `trend = count`, and description and language from the inline repo or the fetch |
| TrendingEngine.Filtered | src/trending-engine.js:61-64 | exactly the repos whose lower-cased language equals the query are kept, each no more often than in the input |
| TrendingEngine.FilteredAppend | src/trending-engine.js:61-64 | the filter keeps input order: filtering a concatenation is concatenating the filtered parts |
| TrendingEngine.FilteredOne | src/trending-engine.js:61-64 | one repo is kept exactly when its language matches |
| TrendingEngine.Linked | src/trending-engine.js:66-70 | every repo gets the link `https://github.com/` + name, and nothing else changes |
| TrendingEngine.TrendLeIsTotalPreorder | src/trending-engine.js:71-79 | the trend comparator is a total preorder |
| TrendingEngine.TrendingLimit | src/trending-engine.js:32 | at most min(limit, or 20 when it is missing or 0, results.length) repos are returned; a negative limit counts back from the end |
| TrendingEngine.TrendingOrigins | src/trending-engine.js:32-70 | each returned repo comes from one of the sliced results, carries its GitHub link, and with a language given has that language |
| TrendingEngine.TrendingLanguage | src/trending-engine.js:61-64 | with a language, a repo is returned exactly when it matches; without one, all repos are returned |
| TrendingEngine.LinkedMember | src/trending-engine.js:66-70 | a linked repo is present exactly when its unlinked form was |
| TrendingEngine.TrendingOrder | src/trending-engine.js:71-79 | the output is in non-increasing trend order and is a permutation of the filtered, linked repos |
| AwesomeList.Flatten | src/awesome-list-scrapers/awesome-list-base-scraper.js:66-77 | the flattened list has one entry per node of the tree |
| AwesomeList.SizeAppend | src/awesome-list-scrapers/awesome-list-base-scraper.js:66-77 | node counts add over concatenation |
| AwesomeList.CountSnoc | src/awesome-list-scrapers/awesome-list-base-scraper.js:67-76 | one more category adds its own node count |
| AwesomeList.PreOrderAppend | src/awesome-list-scrapers/awesome-list-base-scraper.js:66-77 | the pre-order of two forests is the pre-order of each, in turn |
| AwesomeList.FlattenIsPreOrder | src/awesome-list-scrapers/awesome-list-base-scraper.js:66-77 | the `reduce`/`concat` traversal is the pre-order traversal |
| AwesomeList.ParentBeforeDescendants | src/awesome-list-scrapers/awesome-list-base-scraper.js:68-72 | a parent is emitted as `{title, slug}` only, followed by its flattened subcategories |
| AwesomeList.SiblingsKeepOrder | src/awesome-list-scrapers/awesome-list-base-scraper.js:67-76 | flattening keeps siblings in their order |
| AwesomeList.FlatIsFixed | src/awesome-list-scrapers/awesome-list-base-scraper.js:73-75 | a list without subcategories flattens to itself |
| AwesomeList.FlattenIsFlat | src/awesome-list-scrapers/awesome-list-base-scraper.js:66-77 | the result has no subcategories, so flattening twice is flattening once |
| AwesomeList.FindCategory | src/awesome-list-scrapers/awesome-list-base-scraper.js:79-86 | the picked category comes back exactly when the similarity is above 0.6 |
| AwesomeList.FoundIsLeaf | src/awesome-list-scrapers/awesome-list-base-scraper.js:80-85 | a found category is a flattened entry, which has no subcategories |
| AwesomeList.LibrariesOf | src/awesome-list-scrapers/awesome-list-base-scraper.js:22 | no category gives no libraries |
| AwesomeList.SlugDropsFirstHash | src/awesome-list-scrapers/awesome-list-base-scraper.js:54 | the slug is the href with its first `#` removed, or the href itself when it has none |
| AwesomeList.AnchorSlug | src/awesome-list-scrapers/awesome-list-base-scraper.js:54 | `#name` gives the slug `name` |
| AwesomeList.Description | src/awesome-list-scrapers/awesome-list-base-scraper.js:102 | the description has no leading or trailing white space |
| AwesomeList.DescriptionDropsFirstTitle | src/awesome-list-scrapers/awesome-list-base-scraper.js:102 | the first `title - `, wherever it occurs, is cut out and the remaining text trimmed |
| AwesomeList.DescriptionWithoutTitle | src/awesome-list-scrapers/awesome-list-base-scraper.js:102 | a text without `title - ` is only trimmed |
| Strings.Trim | src/awesome-list-scrapers/awesome-list-base-scraper.js:102 | `trim()` gives the infix of the text left when its leading and trailing white space are removed, and that infix neither starts nor ends with white space |
| AwesomeList.DescriptionAfterTitle | src/awesome-list-scrapers/awesome-list-base-scraper.js:102 | `title - description` gives back the description |
| AwesomeList.ParseLibrary | src/awesome-list-scrapers/awesome-list-base-scraper.js:95-104 | the library takes the anchor text as title and the href as link, with a trimmed description |
| WitAi.LastMatch | src/wit-ai.js:53-60 | nothing matches exactly when no session has the message's channel and user; otherwise the key found is the last match |
| WitAi.Without | src/wit-ai.js:44 | deleting a key keeps every other key and repeats none |
| WitAi.Sessions.constructor | src/wit-ai.js:15 | the table starts empty |
| WitAi.Sessions.FindSession | src/wit-ai.js:52-60 | the `forEach` loop finds `LastMatch` of the table |
| WitAi.Sessions.FindOrCreate | src/wit-ai.js:51-70 | a match under a truthy key is returned and nothing changes; otherwise `{channel, user, context: {}}` is stored under the fresh key; the key returned maps to the message's channel and user; other sessions are unchanged; the table grows by one exactly when the key is new |
| WitAi.Sessions.RunActions | src/wit-ai.js:36-49 | a message without `match` throws and leaves its session; otherwise the result is wit's, and the session is deleted whether wit succeeded or failed |
| WitAi.RemoveAgain | src/wit-ai.js:44 | creating a session and then deleting it leaves the table as it was |
| WitAi.WithoutMissing | src/wit-ai.js:44 | deleting an absent key changes nothing |
| WitAi.WithoutAbsent | src/wit-ai.js:61-68 | deleting a key just appended restores the key order |
| Logger.Create | src/logger.js:13-16 | the level defaults to LOG (1) for `undefined`/`null`, and the tags to `[]` |
| Logger.Write | src/logger.js:42-81 | `_log` writes exactly a truthy message |
| Logger.Emit | src/logger.js:18-40 | a message of severity `s` is written exactly when `LEVELS[s] >= level` and the message is truthy |
| Logger.DefaultThreshold | src/logger.js:5-16 | a default logger drops debug and writes log, warn and error |
| Logger.GateIsMonotone | src/logger.js:5-10 | a severity that is written implies every higher one is too |
| Logger.FalsyNeverWritten | src/logger.js:43-45 | `undefined`, `null`, `""`, `0` and `false` are never written |
| Logger.PrefixOnlyWithWinstonAndTags | src/logger.js:47-49 | the `[t1,t2] ` prefix appears only, and always, with winston and tags |
| Logger.ConsoleRouting | src/logger.js:51-80 | on the console, error and warn go to standard error, debug and log to standard output |
| Logger.WinstonRouting | src/logger.js:51-80 | with winston, error, warn and debug go to the winston level of the same name, and log goes to `info` |

## Left out

- Sorting.Sort: the insertion sort is stable, so equal-titled libraries (`LibraryEngine.GetLibrariesForQuery`) and equal-trend repos (`TrendingEngine.TrendingRepos`) keep their input order. `Array.prototype.sort` only had to be stable from ECMAScript 2019 on, so that tie order is the model's choice. The proved properties do not depend on it.

- Network and I/O are parameters of the model, not modelled:
  - the Slack client (src/bot.js beyond its send guard), src/slack-api.js and src/speaker.js;
  - the Botkit routes in src/index.js;
  - the Redis connection;
  - HTTP with its retry backoff (src/provider.js);
  - the GitHub fetch in the trending engine, which is a function `fetch` parameter.
- Redis, network and Slack errors are not modelled: every Redis operation succeeds, and so does every save through the directory except the empty batch below.
- Rx scheduling is not modelled. Each pipeline runs sequentially, and `zip`/`merge` arrival order is taken as declaration order: scrapers in `Scrapers` order, trending results in slice order. With several scrapers, the real concatenation order, and so which duplicate link survives, depends on which response arrives first.
- Exceptions thrown synchronously while a pipeline is being built are modelled as errors of that stream. This is why the earlier revision's bare `null` lookups appear as `Lookup.NotObservable`.
- The `clark` sparkline and the nearest-neighbour similarity are foreign libraries:
  - the sparkline is a function parameter;
  - the similarity search is given as a chosen index and a probability (src/awesome-list-scrapers/awesome-list-base-scraper.js:81-84).
- `yargs-parser` argument parsing is not modelled (src/dispatcher.js:122).
- Randomness is not modelled: greetings and GIF choice (src/dispatcher.js:58-59, 70).
- Session keys come from the clock, so a fresh key is a parameter (src/wit-ai.js:62). A key equal to an existing one overwrites that session, as the code would.
- The bodies of the commands other than `vote`, `userScore` and `leaderboard` are not modelled. Each is recorded as one `Performed` effect.
- The DOM extraction done with cheerio is left out (`_categoriesForList` traversal, `_librariesForList`, and the per-site scrapers). `AwesomeList.Slug`, `Description` and `ParseLibrary` take the anchor text, href and node text as strings.
- Leaderboard.Board: scores are stored as integers in the model. `parseInt` of a stored value is therefore the value itself, by `Js.ParseDecimalOfDecimal`; fractional or non-numeric hash values are not modelled.
- Js.Value: numbers are integers, with no floating point, NaN or 32-bit wrap-around. Strings are sequences of code points, not UTF-16 code units.
- TrendingEngine.SliceEnd: a `NaN` or non-numeric `limit` is not modelled.
- TrendingEngine.Repos: a repository language is a string or missing; other JSON types are not modelled. The code updates repo objects in place; each one is fresh, so the model builds values instead.
- WitAi.Sessions.RunActions: the wit.ai `say`, `merge` and `error` callbacks and the session context are not modelled; the result of the remote call is a parameter.
- Logger.Write: console colours and the winston formatting are not modelled; a written line records its sink and its message.
- Dispatch.Dispatcher.UserScores: `Object.keys` order is not fixed; the score listing is any enumeration of the hash, each entry once.
- Cache.Directory.SaveUsers: the module that implements `saveUsers` and `saveChannels` is not part of this model. The model assumes that this store refuses an empty batch before any write (`Throws(EmptyBatch)`, also in `SaveChannels` and `Dispatch.Batch`). So when Slack returns no users or no channels, a cache miss makes the lookup fail, and `runCommand` logs the error and replies to the channel id. A store that accepted the empty save would instead make `find` return `undefined`, and the command would do nothing (src/dispatcher.js:297-300).
- TrendingEngine.Filtered: `toLowerCase` is modelled by `Strings.ToLower`, which lowers only `A`–`Z`. JavaScript lowers every Unicode letter, so for a language such as "Ä" queried as "ä" the source keeps the repo and the model drops it.
- PointValues: the model lists the grouping keys in first-seen order, while `Object.keys` lists integer keys in ascending order. The keys are sorted next, and `Leaderboard.RankedIgnoresKeyOrder` proves the ranking is the same for every order of the keys.
- Dispatch.Dispatcher.RunCommand: `this._commands[commandName]` also finds inherited `Object.prototype` members such as `toString` (src/dispatcher.js:287). For those, the source logs the info line "undefined for user …" (src/dispatcher.js:317-326), and then `command.actions` throws. The model treats every name outside the command table as unknown and logs only the failure.
- Dispatch.ValidatorsAccept: only an implication is stated for the `userScore` validator. Its converse also needs a name or id on the requested user.
