/** What each operation does with the decoded response. The transport and the
    JSON decoder are one parameter, `fetch`, from the requested URL to the
    decoded value; a rejected request never reaches it. The beatmap and user
    lookups keep only the first record, or none for an empty array; the other
    lookups return the decoded array (or replay file) unchanged. */
module Responses {
  import opened Options
  import opened Api
  import opened Enums

  /** The first element of a decoded array, or nothing when it is empty. */
  function FirstOrNull<T>(xs: seq<T>): (r: Option<T>)
    ensures r.None? <==> |xs| == 0
    ensures r.Some? ==> r.value == xs[0]
  {
    if |xs| <= 0 then None else Some(xs[0])
  }

  /** A request as the array-returning lookups and the replay fetch perform it. */
  function Fetch<T>(req: Result<Request>, fetch: string -> T): (r: Result<T>)
    ensures r.Failure? <==> req.Failure?
    ensures r.Failure? ==> r.error == req.error
    ensures r.Success? ==> r.value == fetch(Url(req.value))
  {
    match req
    case Failure(e) => Failure(e)
    case Success(request) => Success(fetch(Url(request)))
  }

  /** A request as the single-record lookups (beatmap, user) perform it. */
  function FetchFirst<T>(req: Result<Request>, fetch: string -> seq<T>): (r: Result<Option<T>>)
    ensures r.Failure? <==> req.Failure?
    ensures r.Failure? ==> r.error == req.error
    ensures r.Success? ==> (r.value.None? <==> |fetch(Url(req.value))| == 0)
    ensures r.Success? && r.value.Some? ==> r.value.value == fetch(Url(req.value))[0]
  {
    match Fetch(req, fetch)
    case Failure(e) => Failure(e)
    case Success(xs) => Success(FirstOrNull(xs))
  }

  /** An argument error is decided before any transport is involved: the outcome
      is the same whatever the transport would have answered. */
  lemma RejectedNeverFetches<T>(req: Result<Request>, f: string -> seq<T>, g: string -> seq<T>)
    requires req.Failure?
    ensures Fetch(req, f) == Fetch(req, g) == Failure(req.error)
    ensures FetchFirst(req, f) == FetchFirst(req, g) == Failure(req.error)
  {
  }

  /** An accepted request consults the transport at its one URL and nowhere else. */
  lemma OnlyTheRequestedUrlMatters<T>(req: Result<Request>, f: string -> seq<T>, g: string -> seq<T>)
    requires req.Success? && f(Url(req.value)) == g(Url(req.value))
    ensures Fetch(req, f) == Fetch(req, g)
    ensures FetchFirst(req, f) == FetchFirst(req, g)
  {
  }

  /** `GetBeatmapAsync`: the first beatmap `get_beatmaps` answers for the `b` query, or none. */
  function GetBeatmapAsync<B>(key: string, beatmapId: Int32, mode: PlayMode, converted: bool, md5: string, limit: Int32, fetch: string -> seq<B>): (r: Result<Option<B>>)
    ensures var xs := fetch(Url(GetBeatmaps(key, OneBeatmap, beatmapId, mode, converted, md5, limit).value));
            && r.Success?
            && (r.value.None? <==> |xs| == 0)
            && (r.value.Some? ==> r.value.value == xs[0])
  {
    FetchFirst(GetBeatmaps(key, OneBeatmap, beatmapId, mode, converted, md5, limit), fetch)
  }

  /** `GetBeatmapSetAsync`: every beatmap `get_beatmaps` answers for the `s` query. */
  function GetBeatmapSetAsync<B>(key: string, beatmapSetId: Int32, mode: PlayMode, converted: bool, md5: string, limit: Int32, fetch: string -> seq<B>): (r: Result<seq<B>>)
    ensures r == Success(fetch(Url(GetBeatmaps(key, BeatmapSet, beatmapSetId, mode, converted, md5, limit).value)))
  {
    Fetch(GetBeatmaps(key, BeatmapSet, beatmapSetId, mode, converted, md5, limit), fetch)
  }

  /** Both `GetUserAsync` overloads: the argument error, or the first user `get_user` answers, or none. */
  function GetUserAsync<U>(key: string, user: UserRef, mode: PlayMode, eventDays: Int32, fetch: string -> seq<U>): (r: Result<Option<U>>)
    ensures r.Failure? <==> GetUser(key, user, mode, eventDays).Failure?
    ensures r.Failure? ==> r.error == GetUser(key, user, mode, eventDays).error
    ensures r.Success? ==>
              var xs := fetch(Url(GetUser(key, user, mode, eventDays).value));
              && (r.value.None? <==> |xs| == 0)
              && (r.value.Some? ==> r.value.value == xs[0])
  {
    FetchFirst(GetUser(key, user, mode, eventDays), fetch)
  }

  /** Both `GetScoresAsync` overloads: the argument error, or every score `get_scores` answers. */
  function GetScoresAsync<S>(key: string, beatmapId: Int32, user: UserRef, mode: PlayMode, mods: Int32, limit: Int32, fetch: string -> seq<S>): (r: Result<seq<S>>)
    ensures r.Failure? <==> GetScores(key, beatmapId, user, mode, mods, limit).Failure?
    ensures r.Failure? ==> r.error == GetScores(key, beatmapId, user, mode, mods, limit).error
    ensures r.Success? ==> r.value == fetch(Url(GetScores(key, beatmapId, user, mode, mods, limit).value))
  {
    Fetch(GetScores(key, beatmapId, user, mode, mods, limit), fetch)
  }

  /** The `GetUserBestAsync` and `GetUserRecentAsync` overloads: the argument
      error, or every score the list's endpoint answers. */
  function GetUserScoresAsync<S>(key: string, list: ScoreList, user: UserRef, mode: PlayMode, limit: Int32, fetch: string -> seq<S>): (r: Result<seq<S>>)
    ensures r.Failure? <==> UserScores(key, list, user, mode, limit).Failure?
    ensures r.Failure? ==> r.error == UserScores(key, list, user, mode, limit).error
    ensures r.Success? ==> r.value == fetch(Url(UserScores(key, list, user, mode, limit).value))
  {
    Fetch(UserScores(key, list, user, mode, limit), fetch)
  }

  /** `GetReplayAsync`: the argument error, or the replay file `get_replay` answers. */
  function GetReplayAsync<F>(key: string, mode: PlayMode, beatmapId: Int32, userId: Int32, fetch: string -> F): (r: Result<F>)
    ensures r.Failure? <==> GetReplay(key, mode, beatmapId, userId).Failure?
    ensures r.Failure? ==> r.error == InvalidArgument
    ensures r.Success? ==> r.value == fetch(Url(GetReplay(key, mode, beatmapId, userId).value))
  {
    Fetch(GetReplay(key, mode, beatmapId, userId), fetch)
  }

  /** `GetMatchAsync`: every record `get_match` answers. */
  function GetMatchAsync<M>(key: string, matchId: Int32, fetch: string -> seq<M>): (r: Result<seq<M>>)
    ensures r == Success(fetch(Url(GetMatch(key, matchId).value)))
  {
    Fetch(GetMatch(key, matchId), fetch)
  }
}
