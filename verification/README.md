# Opi v1 API client: request construction and validation

This project models the request-construction and input-validation layer of the
`Api` class of the Opi client library (`opi/v1/Api.cs`), a thin client for the
osu! web API. Each public operation takes the API key bound at construction and
typed arguments, and does one of two things before any network traffic:

- it rejects the arguments with `ArgumentOutOfRangeException` or `ArgumentException`;
- or it builds a query string `?k=<key>&<name>=<value>...` and requests
  `https://osu.ppy.sh/api/<endpoint><query>`.

The model makes each operation a pure function from the key and the arguments
to `Result<Request>`. A result is either `Failure(OutOfRange(param))`,
`Failure(InvalidArgument)` or `Success(Request(endpoint, query))`.

The two beatmap lookups become one function `GetBeatmaps` over
`BeatmapTarget = OneBeatmap | BeatmapSet`, and the best and recent lookups one
function `UserScores` over `ScoreList = Best | Recent`. Each by-id / by-name
overload pair (`GetUserAsync`, `GetScoresAsync`, `GetUserBestAsync`,
`GetUserRecentAsync`) becomes one function over
`UserRef = ById(id) | ByName(name)`. The two forms differ only in the `type=id` /
`type=string` tag and, for scores, in the guard that decides whether `u` is sent.
That guard is a positive id or a non-empty name.

Modules:

- `Decimal` (decimal.dfy): the decimal text of a C# `int` as interpolation writes
  it, including negative values, and its inverse `Parse`. Round trips are proved
  in both directions.
- `Query` (query.dfy): the query-string renderer, and `ParseQuery`, a plain split
  of the string at every `&` and at the first `=` of each field into the key and
  an ordered parameter list. It is not everything a web server does with the
  text (see "Left out"). The round trip holds in both directions:
  - `ParseRender`: the split recovers exactly what was rendered when the key and
    the values contain no `&`.
  - `RenderParse`: every string the split accepts is the rendering of what it
    reads.
- `Enums` (enums.dfy): the `PlayMode` codes (0..4) and member names, and the
  `RankedStatus` and `Genre` wire codes (including -2/-1 and the gap at 8), each
  with its inverse.
- `Api` (api.dfy): the operations. Each operation's contract states its
  validation order, its endpoint, its query string as the source's
  interpolation writes it, and what splitting that string yields. The last part
  is a declarative predicate (`BeatmapQueryOk`, `UserQueryOk`, `ScoresQueryOk`,
  `UserScoresQueryOk`, `ReplayQueryOk`) that states each parameter's presence
  condition, value and position. The `*QueryExact` lemmas prove that each
  predicate pins the string down: any string whose split satisfies it is the
  one the operation builds.
- `Responses` (responses.dfy): what happens to the decoded response, one function
  per source operation (`GetBeatmapAsync`, `GetBeatmapSetAsync`, `GetUserAsync`,
  `GetScoresAsync`, `GetUserScoresAsync`, `GetReplayAsync`, `GetMatchAsync`).
  The transport and the JSON decoder are one function parameter `fetch`.
  - The beatmap and user lookups keep the first record, or none for an empty
    array (`FetchFirst`).
  - The beatmap-set, scores, best, recent and match lookups return the decoded
    array unchanged, and the replay fetch returns the decoded file (`Fetch`).

Details of the code the model keeps:

- The user lookup writes its parameters in the order `u`, `m`, `type`,
  `event_days`.
- The scores, best and recent lookups write the mode as the enum member name
  (`m=Osu`), not as its integer code. Only the beatmap, user and replay requests
  write the integer.
- Unset arguments are the source's sentinels (`-1`, `""`), passed as ordinary
  values.

## Model

| member | source | states |
|---|---|---|
| `Api.GetBeatmaps` | opi/v1/Api.cs:47-112 | Neither beatmap lookup rejects its arguments, not even the limit, and both request `get_beatmaps`. The query is `?k=KEY`, then the id (as `&b=` for one beatmap, `&s=` for a set) only when it is at least 0 (so 0 is sent and -1 is not), `&m=` with the mode's code only for the four concrete modes, `&a=` 0/1 always, `&h=` only for a non-empty checksum, and `&limit=` always. With a `&`-free key and checksum, splitting it yields exactly those parameters in that order |
| `Api.BeatmapLookupWire` | opi/v1/Api.cs:50-69 | The parameter rules shared by both beatmap lookups. For a key and checksum free of `&`, the parsed query satisfies `BeatmapQueryOk` (order, presence conditions and values, each name at most once) |
| `Api.BeatmapLookupText` | opi/v1/Api.cs:50-69 | The beatmap query is the key followed by the optional id, the optional mode code, the flag, the optional checksum and the limit, each appended as the source appends it |
| `Api.BeatmapQueryExact` | opi/v1/Api.cs:50-69 | Any query string whose split satisfies `BeatmapQueryOk` is exactly the string the beatmap lookup builds |
| `Api.DefaultBeatmapQuery` | opi/v1/Api.cs:47-102 | For the single-beatmap and the beatmap-set lookup alike, with the defaults (id -1, mode All, flag false, empty checksum, limit 500) the request is exactly `get_beatmaps` with `?k=KEY&a=0&limit=500` |
| `Api.GetUser` | opi/v1/Api.cs:113-146 | More than 31 event days fails with OutOfRange("eventDays"), checked before mode `All` fails with InvalidArgument. 31 is accepted and there is no lower bound. Otherwise `get_user` is requested with the query `?k=KEY&u=U&m=CODE&type=id|string&event_days=D`, the type matching the argument's form. Splitting it yields exactly those four parameters |
| `Api.UserWire` | opi/v1/Api.cs:120 | For a key and user name free of `&`, the parsed user query is the key and the four parameters in that order, with the stated values |
| `Api.UserText` | opi/v1/Api.cs:120 | The user query is `?k=KEY&u=U&m=CODE&type=T&event_days=D` |
| `Api.UserQueryExact` | opi/v1/Api.cs:120 | Any query string whose split satisfies `UserQueryOk` is exactly that user query |
| `Api.GetScores` | opi/v1/Api.cs:147-194 | A limit above 100 fails with OutOfRange("limit") before mode `All` fails with InvalidArgument. Otherwise `get_scores` is requested with `?k=KEY&b=B`, then `&u=U&type=id|string` only for a positive id or a non-empty name, then `&m=` with the enum name, `&mods=` and `&limit=`. `b` is never checked |
| `Api.ScoresWire` | opi/v1/Api.cs:155-160 | For a key and user name free of `&`, the parsed scores query satisfies `ScoresQueryOk`: names in order `b`, optionally `u`/`type`, then `m`, `mods`, `limit`, each with its value |
| `Api.ScoresText` | opi/v1/Api.cs:155-160 | The scores query has `&u=U&type=T` between `b` and `m` exactly when a user is given, and is otherwise `?k=KEY&b=B&m=NAME&mods=M&limit=L` |
| `Api.ScoresQueryExact` | opi/v1/Api.cs:155-160 | Any query string whose split satisfies `ScoresQueryOk` is exactly the scores query |
| `Api.UserScores` | opi/v1/Api.cs:195-266 | Both best and both recent overloads: limit > 100 is OutOfRange first, then `All` is InvalidArgument, and nothing else is rejected. The best list requests `get_user_best` and the recent list `get_user_recent`, both with `?k=KEY&u=U&type=id|string&m=NAME&limit=L`, whatever the id's sign |
| `Api.UserScoresWire` | opi/v1/Api.cs:202 | For a key and user name free of `&`, the parsed best/recent query is the key and `u`, `type`, `m`, `limit` with the stated values |
| `Api.UserScoresText` | opi/v1/Api.cs:202 | The best/recent query is `?k=KEY&u=U&type=T&m=NAME&limit=L` |
| `Api.UserScoresQueryExact` | opi/v1/Api.cs:202 | Any query string whose split satisfies `UserScoresQueryOk` is exactly that query |
| `Api.BestAndRecentShareQuery` | opi/v1/Api.cs:238 | The best and recent lookups accept the same arguments and build the same query string. Only the endpoint differs |
| `Api.GetReplay` | opi/v1/Api.cs:267-287 | Succeeds exactly when the mode is concrete and both ids are positive (so beatmap id 0 is rejected). Every rejection is InvalidArgument. On success `get_replay` is requested with `?k=KEY&m=CODE&b=B&u=U` |
| `Api.ReplayWire` | opi/v1/Api.cs:277 | For a key free of `&`, the parsed replay query is the key and `m`, `b`, `u` with the stated values |
| `Api.ReplayText` | opi/v1/Api.cs:277 | The replay query is `?k=KEY&m=CODE&b=B&u=U` |
| `Api.ReplayQueryExact` | opi/v1/Api.cs:277 | Any query string whose split satisfies `ReplayQueryOk` is exactly the replay query |
| `Api.GetMatch` | opi/v1/Api.cs:288-300 | Never rejects. Requests `get_match` with `?k=KEY&mp=ID`, whatever the id's sign, and splitting it yields the key and `mp` alone |
| `Api.MatchQueryExact` | opi/v1/Api.cs:290 | Any query string that splits into the key and `mp` alone is exactly `?k=KEY&mp=ID` |
| `Api.AllOnlyFiltersBeatmaps` | opi/v1/Api.cs:55-63 | `All` is accepted by both beatmap lookups, whatever the other arguments. When the key and checksum hold no `&`, splitting the query they send finds no `m`. The user, scores, best, recent and replay operations reject it as InvalidArgument once their range check passes |
| `Api.ModeWrittenTwoWays` | opi/v1/Api.cs:160 | For a concrete mode, the integer form parses back to the mode's code, while the name form is not a number at all. The two encodings never coincide |
| `Api.EventDaysBoundary` | opi/v1/Api.cs:115-116 | The event-days check is an inclusive ceiling with no floor: for a concrete mode, 31 passes, 32 fails with OutOfRange("eventDays"), and the minimum int passes |
| `Api.ScoresLimitBoundary` | opi/v1/Api.cs:150-151 | The scores limit is an inclusive ceiling: for a concrete mode, 100 passes and 101 fails with OutOfRange("limit") |
| `Api.ReplayIdBoundary` | opi/v1/Api.cs:270-275 | For a concrete mode, beatmap and user id 1 pass, and a beatmap id of 0 or a user id of 0 fails with InvalidArgument |
| `Api.UserScoresLimitBoundary` | opi/v1/Api.cs:197-198 | For both the best and the recent list, limit 100 passes and 101 fails with OutOfRange("limit") |
| `Decimal.Show` | opi/v1/Api.cs:53 | The text of an int is non-empty, starts with `-` exactly for negative values, and contains no `&` or `=` |
| `Decimal.ParseShow` | opi/v1/Api.cs:53 | Reading the text of any int gives that int back |
| `Decimal.ShowParse` | opi/v1/Api.cs:53 | Every canonical decimal text (no leading zero, no `-0`) is the text of the int it reads as |
| `Decimal.ShowInjective` | opi/v1/Api.cs:53 | Two ints have the same text exactly when they are equal |
| `Decimal.ShowIsCanonical` | opi/v1/Api.cs:53 | The text of every int is canonical, so with `ShowParse` the canonical texts are exactly the texts of ints |
| `Query.Render` | opi/v1/Api.cs:50 | The query string starts with `?k=` followed by the key |
| `Query.ParseRender` | opi/v1/Api.cs:50-69 | When the key has no `&` and the parameters are clean, reading the rendered string recovers exactly the key and the parameter sequence |
| `Query.RenderParse` | opi/v1/Api.cs:50-69 | Every string the split accepts is the rendering of the key and parameters it reads, so the split loses nothing |
| `Enums.ModeCode` | opi/v1/Api.cs:585-592 | Codes lie in 0..4, and the code is 4 exactly for `All` |
| `Enums.ModeFromCode` | opi/v1/Api.cs:585-592 | Exactly the codes 0..4 decode, each to the mode with that code |
| `Enums.ModeName` | opi/v1/Api.cs:184 | The member name written by interpolating the enum is non-empty and starts with a capital letter |
| `Enums.ModeEncodingsInvert` | opi/v1/Api.cs:585-592 | Both the integer code and the member name identify the mode |
| `Enums.RankedCode` | opi/v1/Api.cs:575-584 | The codes run from -2 to 4, and are negative exactly for Graveyard and Wip |
| `Enums.RankedFromCode` | opi/v1/Api.cs:577-583 | Exactly the codes -2..4 decode, each to the status with that code (1 is Ranked) |
| `Enums.GenreCode` | opi/v1/Api.cs:608-620 | The codes lie in 0..10 and none is 8 |
| `Enums.GenreFromCode` | opi/v1/Api.cs:617-619 | Exactly 0..7, 9 and 10 decode, each to the genre with that code |
| `Responses.FirstOrNull` | opi/v1/Api.cs:77-78 | An empty decoded array gives no record, and otherwise its first element |
| `Responses.FetchFirst` | opi/v1/Api.cs:144-145 | A single-record lookup fails exactly when validation failed, with the same error. Otherwise it is empty exactly when the decoded response is, and holds that response's first element |
| `Responses.Fetch` | opi/v1/Api.cs:110-111 | An array lookup fails exactly when validation failed. Otherwise it returns the decoded response of the one requested URL, unchanged |
| `Responses.RejectedNeverFetches` | opi/v1/Api.cs:115-121 | A rejected request's outcome is the same whatever the transport would answer |
| `Responses.OnlyTheRequestedUrlMatters` | opi/v1/Api.cs:71-75 | An accepted request's outcome depends on the transport only through the answer at its one URL |
| `Responses.GetBeatmapAsync` | opi/v1/Api.cs:47-79 | The one-beatmap lookup never fails, and gives the first record decoded from its URL, or none for an empty array |
| `Responses.GetBeatmapSetAsync` | opi/v1/Api.cs:80-112 | The set lookup never fails, and gives the whole array decoded from its URL |
| `Responses.GetUserAsync` | opi/v1/Api.cs:113-146 | The user lookup fails exactly when its validation does, with the same error. Otherwise it gives the first user decoded from its URL, or none |
| `Responses.GetScoresAsync` | opi/v1/Api.cs:147-194 | The scores lookup fails exactly when its validation does, with the same error. Otherwise it gives the whole decoded array |
| `Responses.GetUserScoresAsync` | opi/v1/Api.cs:195-266 | The best and recent lookups fail exactly when their validation does, with the same error. Otherwise they give the whole decoded array |
| `Responses.GetReplayAsync` | opi/v1/Api.cs:267-287 | The replay fetch fails exactly when its validation does, always with InvalidArgument. Otherwise it gives the file decoded from its URL |
| `Responses.GetMatchAsync` | opi/v1/Api.cs:288-300 | The match lookup never fails, and gives the whole array decoded from its URL |

## Left out

- HTTP transport (`WebClient.DownloadString`, `Task.Run`) is I/O and threading. It
  is the parameter `fetch`, and only the endpoint and query string are modelled.
- `new Uri(...)` construction and whatever escaping it applies are not modelled.
  The library itself escapes nothing.
- JSON decoding with Newtonsoft is a foreign library. Decoded arrays are an
  abstract `seq<T>` produced by `fetch`.
- The record classes (`File`, `User`, `Beatmap`, `Score`, `UserScore`,
  `MultiPlayer` and the rest) are passive data with date and floating-point
  fields and no behaviour.
- The synchronous wrappers only wait for the asynchronous forms, so they have the
  same semantics.
- The exception messages are not modelled. Only the exception kind and the
  `nameof` parameter of the out-of-range ones are.
- The `Language`, `Team` and `ScoringType` enums are decode targets with plain
  sequential codes and no logic.
- Integer formatting assumes the invariant culture's `-` sign. Interpolation uses
  the current culture.
- Api.GetBeatmaps: the parse-level clause assumes a key and checksum free of `&`, because a value containing `&` would inject parameters. The query string is still built the same way.
- Api.GetUser: the parse-level clause assumes a key and user name free of `&`, for the same reason.
- Api.GetScores: the parse-level clause assumes a key and user name free of `&`, for the same reason.
- Api.UserScores: the parse-level clause assumes a key and user name free of `&`, for the same reason.
- Api.GetReplay: the parse-level clause assumes a key free of `&`, for the same reason.
- Api.GetMatch: the parse-level clause assumes a key free of `&`, for the same reason.
- `PlayMode` values outside the declared members are not modelled. In C# any int
  cast to the enum is legal: such a value passes the `All` checks, is sent as its
  number by the user and replay lookups and (since an undefined member prints as
  its number) by the scores, best and recent lookups, and is not sent at all by the
  beatmap lookups.
- Null strings are not modelled. A null checksum (opi/v1/Api.cs:66 and 99) or a null user
  name in the scores lookup (opi/v1/Api.cs:181) throws `NullReferenceException`, while a
  null key or name anywhere else is interpolated as empty text.
- Transport failures are not modelled: `fetch` is total. Nor is a JSON `null`
  body, on which the first-record lookups would throw at `.Length`
  (opi/v1/Api.cs:78, 128 and 145).
- The C# default arguments other than the beatmap ones (event days 1, mode Osu,
  scores limit 50, best/recent limit 10, user id -1, empty user name) are not
  modelled; every argument is explicit.
- What the web server makes of the text is not modelled beyond the `&`/`=` split.
  `System.Uri` drops everything after a `#` as a fragment, and the server decodes
  `%xx` escapes and reads `+` as a space. So a user name such as `a#b` would
  truncate the query. The literal query strings in the contracts hold regardless;
  only the parse-level clauses assume `&`-free values, and they do not cover these
  characters either.
