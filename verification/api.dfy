/** The request-construction and validation layer of the API client: each
    operation turns the bound API key and its arguments into the endpoint and
    query string it would request, or into the argument error it raises before
    any request is made. The by-id and by-name overload pairs share one
    function over `UserRef`. Each operation's contract states its validation
    order, its query string as the source interpolates it, and, through
    `ParseQuery`, which parameters a split of that string yields, in which order
    and with which values. */
module Api {
  import opened Options
  import opened Decimal
  import opened Query
  import opened Enums

  /** A C# `int`. No operation computes with one, so no wrap-around arises. */
  type Int32 = x: int | -0x8000_0000 <= x < 0x8000_0000

  const BaseUrl: string := "https://osu.ppy.sh/api"

  /** `ArgumentOutOfRangeException(nameof(p))` and a plain `ArgumentException`. */
  datatype ApiError = OutOfRange(paramName: string) | InvalidArgument

  datatype Result<+T> = Success(value: T) | Failure(error: ApiError)

  /** The endpoint under `BaseUrl` and the query string appended to it. */
  datatype Request = Request(endpoint: string, query: string)

  function Url(r: Request): string {
    BaseUrl + "/" + r.endpoint + r.query
  }

  /** The user argument of the overload pairs: a numeric id or a user name. */
  datatype UserRef = ById(id: Int32) | ByName(name: string)

  /** The `u` value: the id's decimal text or the name verbatim. */
  function UserValue(u: UserRef): string {
    match u
    case ById(id) => Show(id)
    case ByName(name) => name
  }

  /** The `type` discriminator telling the service how to read `u`. */
  function UserType(u: UserRef): string {
    if u.ById? then "id" else "string"
  }

  /** Whether the scores lookup filters by user: a positive id or a non-empty name. */
  predicate UserGiven(u: UserRef) {
    match u
    case ById(id) => id > 0
    case ByName(name) => |name| > 0
  }

  /** A user reference whose text cannot inject parameters. */
  predicate CleanUser(u: UserRef) {
    u.ByName? ==> '&' !in u.name
  }

  /** `Convert.ToInt32(bool)`. */
  function Flag(b: bool): string {
    if b then "1" else "0"
  }

  function When(c: bool, ps: seq<Param>): seq<Param> {
    if c then ps else []
  }

  function Opt(c: bool, name: string): seq<string> {
    if c then [name] else []
  }

  /** The parameters both beatmap lookups append after the key; `idName` is `b` or `s`. */
  function BeatmapLookupParams(idName: string, id: Int32, mode: PlayMode, converted: bool, md5: string, limit: Int32): seq<Param> {
    When(id >= 0, [Param(idName, Show(id))])
    + When(IsConcrete(mode), [Param("m", Show(ModeCode(mode)))])
    + [Param("a", Flag(converted))]
    + When(|md5| > 0, [Param("h", md5)])
    + [Param("limit", Show(limit))]
  }

  /** What a beatmap lookup promises a split of its query yields: the id only when it is
      not negative, the mode's code only for a concrete mode, the converted-maps
      flag always, the checksum only when non-empty, the limit always and
      unchecked, in that order and each at most once. */
  predicate BeatmapQueryOk(q: Parsed, key: string, idName: string, id: Int32, mode: PlayMode, converted: bool, md5: string, limit: Int32) {
    && q.key == key
    && Names(q.params) == Opt(id >= 0, idName) + Opt(IsConcrete(mode), "m") + ["a"] + Opt(|md5| > 0, "h") + ["limit"]
    && Lookup(q.params, idName) == (if id >= 0 then Some(Show(id)) else None)
    && Lookup(q.params, "m") == (if IsConcrete(mode) then Some(Show(ModeCode(mode))) else None)
    && Lookup(q.params, "a") == Some(Flag(converted))
    && Lookup(q.params, "h") == (if |md5| > 0 then Some(md5) else None)
    && Lookup(q.params, "limit") == Some(Show(limit))
  }

  lemma BeatmapLookupNames(idName: string, id: Int32, mode: PlayMode, converted: bool, md5: string, limit: Int32)
    ensures Names(BeatmapLookupParams(idName, id, mode, converted, md5, limit))
         == Opt(id >= 0, idName) + Opt(IsConcrete(mode), "m") + ["a"] + Opt(|md5| > 0, "h") + ["limit"]
  {
    var p1 := When(id >= 0, [Param(idName, Show(id))]);
    var p2 := When(IsConcrete(mode), [Param("m", Show(ModeCode(mode)))]);
    var p3 := [Param("a", Flag(converted))];
    var p4 := When(|md5| > 0, [Param("h", md5)]);
    var p5 := [Param("limit", Show(limit))];
    WhenNames(id >= 0, Param(idName, Show(id)));
    WhenNames(IsConcrete(mode), Param("m", Show(ModeCode(mode))));
    WhenNames(|md5| > 0, Param("h", md5));
    assert Names(p3) == ["a"] && Names(p5) == ["limit"];
    NamesAppend(p1, p2);
    NamesAppend(p1 + p2, p3);
    NamesAppend(p1 + p2 + p3, p4);
    NamesAppend(p1 + p2 + p3 + p4, p5);
  }

  lemma WhenNames(c: bool, p: Param)
    ensures Names(When(c, [p])) == Opt(c, p.name)
  {
  }

  lemma BeatmapLookupDistinct(idName: string, b1: bool, b2: bool, b3: bool)
    requires idName == "b" || idName == "s"
    ensures Distinct(Opt(b1, idName) + Opt(b2, "m") + ["a"] + Opt(b3, "h") + ["limit"])
  {
  }

  lemma BeatmapLookupClean(idName: string, id: Int32, mode: PlayMode, converted: bool, md5: string, limit: Int32)
    requires idName == "b" || idName == "s"
    requires '&' !in md5
    ensures AllClean(BeatmapLookupParams(idName, id, mode, converted, md5, limit))
  {
    var p1 := When(id >= 0, [Param(idName, Show(id))]);
    var p2 := When(IsConcrete(mode), [Param("m", Show(ModeCode(mode)))]);
    var p3 := [Param("a", Flag(converted))];
    var p4 := When(|md5| > 0, [Param("h", md5)]);
    var p5 := [Param("limit", Show(limit))];
    assert AllClean(p1) && AllClean(p2) && AllClean(p3) && AllClean(p4) && AllClean(p5);
    AllCleanAppend(p1, p2);
    AllCleanAppend(p1 + p2, p3);
    AllCleanAppend(p1 + p2 + p3, p4);
    AllCleanAppend(p1 + p2 + p3 + p4, p5);
  }

  /** The premises every per-parameter lookup below starts from. */
  lemma BeatmapLookupShape(idName: string, id: Int32, mode: PlayMode, converted: bool, md5: string, limit: Int32)
    requires idName == "b" || idName == "s"
    ensures Distinct(Names(BeatmapLookupParams(idName, id, mode, converted, md5, limit)))
  {
    BeatmapLookupNames(idName, id, mode, converted, md5, limit);
    BeatmapLookupDistinct(idName, id >= 0, IsConcrete(mode), |md5| > 0);
  }

  lemma BeatmapLookupId(idName: string, id: Int32, mode: PlayMode, converted: bool, md5: string, limit: Int32)
    requires idName == "b" || idName == "s"
    ensures Lookup(BeatmapLookupParams(idName, id, mode, converted, md5, limit), idName) == (if id >= 0 then Some(Show(id)) else None)
  {
    var ps := BeatmapLookupParams(idName, id, mode, converted, md5, limit);
    BeatmapLookupShape(idName, id, mode, converted, md5, limit);
    BeatmapLookupNames(idName, id, mode, converted, md5, limit);
    LookupSound(ps, idName);
    LookupDistinct(ps, idName, Show(id));
  }

  lemma BeatmapLookupMode(idName: string, id: Int32, mode: PlayMode, converted: bool, md5: string, limit: Int32)
    requires idName == "b" || idName == "s"
    ensures Lookup(BeatmapLookupParams(idName, id, mode, converted, md5, limit), "m") == (if IsConcrete(mode) then Some(Show(ModeCode(mode))) else None)
  {
    var ps := BeatmapLookupParams(idName, id, mode, converted, md5, limit);
    BeatmapLookupShape(idName, id, mode, converted, md5, limit);
    BeatmapLookupNames(idName, id, mode, converted, md5, limit);
    LookupSound(ps, "m");
    LookupDistinct(ps, "m", Show(ModeCode(mode)));
  }

  lemma BeatmapLookupFlag(idName: string, id: Int32, mode: PlayMode, converted: bool, md5: string, limit: Int32)
    requires idName == "b" || idName == "s"
    ensures Lookup(BeatmapLookupParams(idName, id, mode, converted, md5, limit), "a") == Some(Flag(converted))
  {
    var ps := BeatmapLookupParams(idName, id, mode, converted, md5, limit);
    BeatmapLookupShape(idName, id, mode, converted, md5, limit);
    LookupDistinct(ps, "a", Flag(converted));
  }

  lemma BeatmapLookupHash(idName: string, id: Int32, mode: PlayMode, converted: bool, md5: string, limit: Int32)
    requires idName == "b" || idName == "s"
    ensures Lookup(BeatmapLookupParams(idName, id, mode, converted, md5, limit), "h") == (if |md5| > 0 then Some(md5) else None)
  {
    var ps := BeatmapLookupParams(idName, id, mode, converted, md5, limit);
    BeatmapLookupShape(idName, id, mode, converted, md5, limit);
    BeatmapLookupNames(idName, id, mode, converted, md5, limit);
    LookupSound(ps, "h");
    LookupDistinct(ps, "h", md5);
  }

  lemma BeatmapLookupLimit(idName: string, id: Int32, mode: PlayMode, converted: bool, md5: string, limit: Int32)
    requires idName == "b" || idName == "s"
    ensures Lookup(BeatmapLookupParams(idName, id, mode, converted, md5, limit), "limit") == Some(Show(limit))
  {
    var ps := BeatmapLookupParams(idName, id, mode, converted, md5, limit);
    BeatmapLookupShape(idName, id, mode, converted, md5, limit);
    LookupDistinct(ps, "limit", Show(limit));
  }

  /** The beatmap parameters' text is the text of its five parts in order. */
  lemma BeatmapLookupPieces(idName: string, id: Int32, mode: PlayMode, converted: bool, md5: string, limit: Int32)
    ensures Fields(BeatmapLookupParams(idName, id, mode, converted, md5, limit))
         == Fields(When(id >= 0, [Param(idName, Show(id))]))
            + Fields(When(IsConcrete(mode), [Param("m", Show(ModeCode(mode)))]))
            + Fields([Param("a", Flag(converted))])
            + Fields(When(|md5| > 0, [Param("h", md5)]))
            + Fields([Param("limit", Show(limit))])
  {
    var w1, w2, w3, w4, w5 := When(id >= 0, [Param(idName, Show(id))]), When(IsConcrete(mode), [Param("m", Show(ModeCode(mode)))]),
                              [Param("a", Flag(converted))], When(|md5| > 0, [Param("h", md5)]), [Param("limit", Show(limit))];
    FieldsAppend(w1, w2);
    FieldsAppend(w1 + w2, w3);
    FieldsAppend(w1 + w2 + w3, w4);
    FieldsAppend(w1 + w2 + w3 + w4, w5);
  }

  /** The beatmap parameters' text: each optional field present only under its condition. */
  lemma BeatmapLookupFields(idName: string, id: Int32, mode: PlayMode, converted: bool, md5: string, limit: Int32)
    ensures Fields(BeatmapLookupParams(idName, id, mode, converted, md5, limit))
         == (if id >= 0 then "&" + idName + "=" + Show(id) else "")
            + (if IsConcrete(mode) then "&m=" + Show(ModeCode(mode)) else "")
            + Field(Param("a", Flag(converted)))
            + (if |md5| > 0 then "&h=" + md5 else "")
            + Field(Param("limit", Show(limit)))
  {
    var pi, pm, pa, ph, pl := Param(idName, Show(id)), Param("m", Show(ModeCode(mode))), Param("a", Flag(converted)), Param("h", md5), Param("limit", Show(limit));
    BeatmapLookupPieces(idName, id, mode, converted, md5, limit);
    OptionalField(id >= 0, pi, When(id >= 0, [pi]));
    OptionalField(IsConcrete(mode), pm, When(IsConcrete(mode), [pm]));
    OptionalField(|md5| > 0, ph, When(|md5| > 0, [ph]));
    FieldsOne(pa);
    FieldsOne(pl);
    FieldAs(pm, "&m=");
    FieldAs(ph, "&h=");
  }

  /** The beatmap query is the string both beatmap lookups build by appending,
      each optional part present only when its condition holds. */
  lemma BeatmapLookupText(key: string, idName: string, id: Int32, mode: PlayMode, converted: bool, md5: string, limit: Int32)
    ensures Render(key, BeatmapLookupParams(idName, id, mode, converted, md5, limit))
         == "?k=" + key
            + (if id >= 0 then "&" + idName + "=" + Show(id) else "")
            + (if IsConcrete(mode) then "&m=" + Show(ModeCode(mode)) else "")
            + "&a=" + Flag(converted)
            + (if |md5| > 0 then "&h=" + md5 else "")
            + "&limit=" + Show(limit)
  {
    BeatmapLookupFields(idName, id, mode, converted, md5, limit);
    var a := "?k=" + key;
    var o1 := if id >= 0 then "&" + idName + "=" + Show(id) else "";
    var o2 := if IsConcrete(mode) then "&m=" + Show(ModeCode(mode)) else "";
    var o4 := if |md5| > 0 then "&h=" + md5 else "";
    var pa, pl := Param("a", Flag(converted)), Param("limit", Show(limit));
    Regroup5(a, o1, o2, Field(pa), o4, Field(pl));
    AppendField(a + o1 + o2, pa, "&a=");
    AppendField(a + o1 + o2 + "&a=" + Flag(converted) + o4, pl, "&limit=");
  }

  lemma BeatmapParamsOk(key: string, idName: string, id: Int32, mode: PlayMode, converted: bool, md5: string, limit: Int32)
    requires idName == "b" || idName == "s"
    ensures BeatmapQueryOk(Parsed(key, BeatmapLookupParams(idName, id, mode, converted, md5, limit)), key, idName, id, mode, converted, md5, limit)
  {
    BeatmapLookupNames(idName, id, mode, converted, md5, limit);
    BeatmapLookupId(idName, id, mode, converted, md5, limit);
    BeatmapLookupMode(idName, id, mode, converted, md5, limit);
    BeatmapLookupFlag(idName, id, mode, converted, md5, limit);
    BeatmapLookupHash(idName, id, mode, converted, md5, limit);
    BeatmapLookupLimit(idName, id, mode, converted, md5, limit);
  }

  /** Splitting the beatmap query at '&' and '=' gives back the rules it was built by. */
  lemma BeatmapLookupWire(key: string, idName: string, id: Int32, mode: PlayMode, converted: bool, md5: string, limit: Int32)
    requires idName == "b" || idName == "s"
    ensures '&' !in key && '&' !in md5 ==>
              var q := ParseQuery(Render(key, BeatmapLookupParams(idName, id, mode, converted, md5, limit)));
              q.Some? && BeatmapQueryOk(q.value, key, idName, id, mode, converted, md5, limit)
  {
    if '&' !in key && '&' !in md5 {
      BeatmapLookupClean(idName, id, mode, converted, md5, limit);
      BeatmapParamsOk(key, idName, id, mode, converted, md5, limit);
      ParseRender(key, BeatmapLookupParams(idName, id, mode, converted, md5, limit));
    }
  }

  /** A query string that splits into what `BeatmapQueryOk` describes is exactly
      the string the beatmap lookup builds: the predicate pins it down. */
  lemma BeatmapQueryExact(s: string, q: Parsed, key: string, idName: string, id: Int32, mode: PlayMode, converted: bool, md5: string, limit: Int32)
    requires idName == "b" || idName == "s"
    requires ParseQuery(s) == Some(q) && BeatmapQueryOk(q, key, idName, id, mode, converted, md5, limit)
    ensures s == Render(key, BeatmapLookupParams(idName, id, mode, converted, md5, limit))
  {
    BeatmapParamsUnique(q, key, idName, id, mode, converted, md5, limit);
    RenderParse(s, q);
  }

  /** `BeatmapQueryOk` holds of exactly one reading: the beatmap parameters themselves. */
  lemma BeatmapParamsUnique(q: Parsed, key: string, idName: string, id: Int32, mode: PlayMode, converted: bool, md5: string, limit: Int32)
    requires idName == "b" || idName == "s"
    requires BeatmapQueryOk(q, key, idName, id, mode, converted, md5, limit)
    ensures q == Parsed(key, BeatmapLookupParams(idName, id, mode, converted, md5, limit))
  {
    var ps := BeatmapLookupParams(idName, id, mode, converted, md5, limit);
    BeatmapParamsOk(key, idName, id, mode, converted, md5, limit);
    BeatmapLookupShape(idName, id, mode, converted, md5, limit);
    forall n | n in Names(ps)
      ensures Lookup(ps, n) == Lookup(q.params, n)
    {
      assert n == idName || n == "m" || n == "a" || n == "h" || n == "limit";
    }
    SameParams(ps, q.params);
  }

  /** Which of the two beatmap lookups: one difficulty (`b`) or a whole set (`s`). */
  datatype BeatmapTarget = OneBeatmap | BeatmapSet

  function IdParam(t: BeatmapTarget): string {
    if t == OneBeatmap then "b" else "s"
  }

  /** `GetBeatmapAsync` and `GetBeatmapSetAsync`: neither rejects its arguments
      (not even the limit); both request `get_beatmaps`, the id sent as `b` for
      one beatmap and as `s` for a set. */
  function GetBeatmaps(key: string, target: BeatmapTarget, id: Int32, mode: PlayMode, converted: bool, md5: string, limit: Int32): (r: Result<Request>)
    ensures r.Success? && r.value.endpoint == "get_beatmaps"
    ensures r.value.query
         == "?k=" + key
            + (if id >= 0 then "&" + (if target == OneBeatmap then "b" else "s") + "=" + Show(id) else "")
            + (if IsConcrete(mode) then "&m=" + Show(ModeCode(mode)) else "")
            + "&a=" + Flag(converted)
            + (if |md5| > 0 then "&h=" + md5 else "")
            + "&limit=" + Show(limit)
    ensures '&' !in key && '&' !in md5 ==>
              var q := ParseQuery(r.value.query);
              q.Some? && BeatmapQueryOk(q.value, key, IdParam(target), id, mode, converted, md5, limit)
  {
    BeatmapLookupText(key, IdParam(target), id, mode, converted, md5, limit);
    BeatmapLookupWire(key, IdParam(target), id, mode, converted, md5, limit);
    Success(Request("get_beatmaps", Render(key, BeatmapLookupParams(IdParam(target), id, mode, converted, md5, limit))))
  }

  /** The literal pieces of the default query, glued in the order the lookups append them. */
  lemma DefaultText(a: string)
    ensures a + "" + "" + "&a=" + "0" + "" + "&limit=" + "500" == a + "&a=0" + "&limit=500"
  {
  }

  /** With every optional argument at its default the query is the key, the flag and the limit,
      for the single-beatmap and the beatmap-set lookup alike. */
  lemma DefaultBeatmapQuery(key: string, target: BeatmapTarget)
    ensures GetBeatmaps(key, target, -1, All, false, "", 500) == Success(Request("get_beatmaps", "?k=" + key + "&a=0" + "&limit=500"))
  {
    Show500();
    DefaultText("?k=" + key);
  }

  function UserParams(user: UserRef, mode: PlayMode, eventDays: Int32): seq<Param> {
    [Param("u", UserValue(user)), Param("m", Show(ModeCode(mode))), Param("type", UserType(user)), Param("event_days", Show(eventDays))]
  }

  /** What a user lookup promises a split of its query yields: the user, the mode's code,
      the discriminator matching the user's form, and the event window. */
  predicate UserQueryOk(q: Parsed, key: string, user: UserRef, mode: PlayMode, eventDays: Int32) {
    && q.key == key
    && Names(q.params) == ["u", "m", "type", "event_days"]
    && Lookup(q.params, "u") == Some(UserValue(user))
    && Lookup(q.params, "m") == Some(Show(ModeCode(mode)))
    && Lookup(q.params, "type") == Some(if user.ById? then "id" else "string")
    && Lookup(q.params, "event_days") == Some(Show(eventDays))
  }

  lemma UserParamsOk(key: string, user: UserRef, mode: PlayMode, eventDays: Int32)
    ensures UserQueryOk(Parsed(key, UserParams(user, mode, eventDays)), key, user, mode, eventDays)
  {
    var ps := UserParams(user, mode, eventDays);
    assert Names(ps) == ["u", "m", "type", "event_days"];
    LookupFirst(ps, 0);
    LookupFirst(ps, 1);
    LookupFirst(ps, 2);
    LookupFirst(ps, 3);
  }

  /** The user query is the interpolated string of both `GetUserAsync` overloads. */
  lemma UserText(key: string, user: UserRef, mode: PlayMode, eventDays: Int32)
    ensures Render(key, UserParams(user, mode, eventDays))
         == "?k=" + key + "&u=" + UserValue(user) + "&m=" + Show(ModeCode(mode)) + "&type=" + UserType(user) + "&event_days=" + Show(eventDays)
  {
    FourText(key, Param("u", UserValue(user)), Param("m", Show(ModeCode(mode))), Param("type", UserType(user)), Param("event_days", Show(eventDays)),
             "&u=", "&m=", "&type=", "&event_days=");
  }

  lemma UserWire(key: string, user: UserRef, mode: PlayMode, eventDays: Int32)
    ensures '&' !in key && CleanUser(user) ==>
              var q := ParseQuery(Render(key, UserParams(user, mode, eventDays)));
              q.Some? && UserQueryOk(q.value, key, user, mode, eventDays)
  {
    if '&' !in key && CleanUser(user) {
      var ps := UserParams(user, mode, eventDays);
      assert AllClean(ps);
      ParseRender(key, ps);
      UserParamsOk(key, user, mode, eventDays);
    }
  }

  /** A query string that splits into what `UserQueryOk` describes is exactly the user query. */
  lemma UserQueryExact(s: string, q: Parsed, key: string, user: UserRef, mode: PlayMode, eventDays: Int32)
    requires ParseQuery(s) == Some(q) && UserQueryOk(q, key, user, mode, eventDays)
    ensures s == "?k=" + key + "&u=" + UserValue(user) + "&m=" + Show(ModeCode(mode)) + "&type=" + UserType(user) + "&event_days=" + Show(eventDays)
  {
    UserParamsUnique(q, key, user, mode, eventDays);
    RenderParse(s, q);
    UserText(key, user, mode, eventDays);
  }

  /** `UserQueryOk` holds of exactly one reading: the user parameters themselves. */
  lemma UserParamsUnique(q: Parsed, key: string, user: UserRef, mode: PlayMode, eventDays: Int32)
    requires UserQueryOk(q, key, user, mode, eventDays)
    ensures q == Parsed(key, UserParams(user, mode, eventDays))
  {
    var ps := UserParams(user, mode, eventDays);
    UserParamsOk(key, user, mode, eventDays);
    forall n | n in Names(ps)
      ensures Lookup(ps, n) == Lookup(q.params, n)
    {
      assert n == "u" || n == "m" || n == "type" || n == "event_days";
    }
    SameParams(ps, q.params);
  }

  /** Both `GetUserAsync` overloads: more than 31 event days is out of range,
      checked first; then mode `All` is invalid; otherwise `get_user` is requested. */
  function GetUser(key: string, user: UserRef, mode: PlayMode, eventDays: Int32): (r: Result<Request>)
    ensures eventDays > 31 ==> r == Failure(OutOfRange("eventDays"))
    ensures eventDays <= 31 && mode == All ==> r == Failure(InvalidArgument)
    ensures r.Success? <==> eventDays <= 31 && IsConcrete(mode)
    ensures r.Success? ==> r.value.endpoint == "get_user"
    ensures r.Success? ==>
              r.value.query == "?k=" + key + "&u=" + UserValue(user) + "&m=" + Show(ModeCode(mode)) + "&type=" + UserType(user) + "&event_days=" + Show(eventDays)
    ensures r.Success? && '&' !in key && CleanUser(user) ==>
              var q := ParseQuery(r.value.query);
              q.Some? && UserQueryOk(q.value, key, user, mode, eventDays)
  {
    if eventDays > 31 then Failure(OutOfRange("eventDays"))
    else if mode == All then Failure(InvalidArgument)
    else
      UserText(key, user, mode, eventDays);
      UserWire(key, user, mode, eventDays);
      Success(Request("get_user", Render(key, UserParams(user, mode, eventDays))))
  }

  function ScoresParams(beatmapId: Int32, user: UserRef, mode: PlayMode, mods: Int32, limit: Int32): seq<Param> {
    [Param("b", Show(beatmapId))]
    + When(UserGiven(user), [Param("u", UserValue(user)), Param("type", UserType(user))])
    + [Param("m", ModeName(mode)), Param("mods", Show(mods)), Param("limit", Show(limit))]
  }

  /** What a scores lookup promises a split of its query yields: the beatmap id always
      (unchecked), the user and discriminator only for a positive id or a
      non-empty name, then the mode by NAME, the mods and the limit. */
  predicate ScoresQueryOk(q: Parsed, key: string, beatmapId: Int32, user: UserRef, mode: PlayMode, mods: Int32, limit: Int32) {
    && q.key == key
    && Names(q.params) == ["b"] + (if UserGiven(user) then ["u", "type"] else []) + ["m", "mods", "limit"]
    && Lookup(q.params, "b") == Some(Show(beatmapId))
    && Lookup(q.params, "u") == (if UserGiven(user) then Some(UserValue(user)) else None)
    && Lookup(q.params, "type") == (if UserGiven(user) then Some(UserType(user)) else None)
    && Lookup(q.params, "m") == Some(ModeName(mode))
    && Lookup(q.params, "mods") == Some(Show(mods))
    && Lookup(q.params, "limit") == Some(Show(limit))
  }

  lemma ScoresNames(beatmapId: Int32, user: UserRef, mode: PlayMode, mods: Int32, limit: Int32)
    ensures Names(ScoresParams(beatmapId, user, mode, mods, limit)) == ["b"] + (if UserGiven(user) then ["u", "type"] else []) + ["m", "mods", "limit"]
  {
    var p1 := [Param("b", Show(beatmapId))];
    var p2 := When(UserGiven(user), [Param("u", UserValue(user)), Param("type", UserType(user))]);
    var p3 := [Param("m", ModeName(mode)), Param("mods", Show(mods)), Param("limit", Show(limit))];
    NamesAppend(p1, p2);
    NamesAppend(p1 + p2, p3);
  }

  lemma ScoresBeatmap(beatmapId: Int32, user: UserRef, mode: PlayMode, mods: Int32, limit: Int32)
    ensures Lookup(ScoresParams(beatmapId, user, mode, mods, limit), "b") == Some(Show(beatmapId))
  {
    LookupFirst(ScoresParams(beatmapId, user, mode, mods, limit), 0);
  }

  lemma ScoresUser(beatmapId: Int32, user: UserRef, mode: PlayMode, mods: Int32, limit: Int32)
    ensures var ps := ScoresParams(beatmapId, user, mode, mods, limit);
            && Lookup(ps, "u") == (if UserGiven(user) then Some(UserValue(user)) else None)
            && Lookup(ps, "type") == (if UserGiven(user) then Some(UserType(user)) else None)
  {
    var ps := ScoresParams(beatmapId, user, mode, mods, limit);
    if UserGiven(user) {
      LookupFirst(ps, 1);
      LookupFirst(ps, 2);
    } else {
      ScoresNames(beatmapId, user, mode, mods, limit);
      LookupSound(ps, "u");
      LookupSound(ps, "type");
    }
  }

  lemma ScoresTailValues(beatmapId: Int32, user: UserRef, mode: PlayMode, mods: Int32, limit: Int32)
    ensures var ps := ScoresParams(beatmapId, user, mode, mods, limit);
            && Lookup(ps, "m") == Some(ModeName(mode))
            && Lookup(ps, "mods") == Some(Show(mods))
            && Lookup(ps, "limit") == Some(Show(limit))
  {
    var ps := ScoresParams(beatmapId, user, mode, mods, limit);
    var k := if UserGiven(user) then 3 else 1;
    LookupFirst(ps, k);
    LookupFirst(ps, k + 1);
    LookupFirst(ps, k + 2);
  }

  lemma ScoresClean(beatmapId: Int32, user: UserRef, mode: PlayMode, mods: Int32, limit: Int32)
    requires CleanUser(user)
    ensures AllClean(ScoresParams(beatmapId, user, mode, mods, limit))
  {
    var head := [Param("b", Show(beatmapId))];
    var who := When(UserGiven(user), [Param("u", UserValue(user)), Param("type", UserType(user))]);
    var tail := [Param("m", ModeName(mode)), Param("mods", Show(mods)), Param("limit", Show(limit))];
    assert AllClean(head) && AllClean(who) && AllClean(tail);
    AllCleanAppend(head, who);
    AllCleanAppend(head + who, tail);
  }

  /** The scores query is the interpolated string of both `GetScoresAsync`
      overloads, the user part appended only when a user is given. */
  lemma ScoresText(key: string, beatmapId: Int32, user: UserRef, mode: PlayMode, mods: Int32, limit: Int32)
    ensures UserGiven(user) ==> (
              Render(key, ScoresParams(beatmapId, user, mode, mods, limit))
              == "?k=" + key + "&b=" + Show(beatmapId) + "&u=" + UserValue(user) + "&type=" + UserType(user)
                 + "&m=" + ModeName(mode) + "&mods=" + Show(mods) + "&limit=" + Show(limit))
    ensures !UserGiven(user) ==> (
              Render(key, ScoresParams(beatmapId, user, mode, mods, limit))
              == "?k=" + key + "&b=" + Show(beatmapId) + "&m=" + ModeName(mode) + "&mods=" + Show(mods) + "&limit=" + Show(limit))
  {
    if UserGiven(user) {
      ScoresTextWithUser(key, beatmapId, user, mode, mods, limit);
    } else {
      ScoresTextWithoutUser(key, beatmapId, user, mode, mods, limit);
    }
  }

  lemma ScoresTextWithUser(key: string, beatmapId: Int32, user: UserRef, mode: PlayMode, mods: Int32, limit: Int32)
    requires UserGiven(user)
    ensures Render(key, ScoresParams(beatmapId, user, mode, mods, limit))
         == "?k=" + key + "&b=" + Show(beatmapId) + "&u=" + UserValue(user) + "&type=" + UserType(user)
            + "&m=" + ModeName(mode) + "&mods=" + Show(mods) + "&limit=" + Show(limit)
  {
    var b, u, t, m, d, l := Show(beatmapId), UserValue(user), UserType(user), ModeName(mode), Show(mods), Show(limit);
    assert ScoresParams(beatmapId, user, mode, mods, limit) == [Param("b", b), Param("u", u), Param("type", t)] + [Param("m", m), Param("mods", d), Param("limit", l)];
    SixText(key, Param("b", b), Param("u", u), Param("type", t), Param("m", m), Param("mods", d), Param("limit", l), "&b=", "&u=", "&type=", "&m=", "&mods=", "&limit=");
  }

  lemma ScoresTextWithoutUser(key: string, beatmapId: Int32, user: UserRef, mode: PlayMode, mods: Int32, limit: Int32)
    requires !UserGiven(user)
    ensures Render(key, ScoresParams(beatmapId, user, mode, mods, limit))
         == "?k=" + key + "&b=" + Show(beatmapId) + "&m=" + ModeName(mode) + "&mods=" + Show(mods) + "&limit=" + Show(limit)
  {
    var b, m, d, l := Show(beatmapId), ModeName(mode), Show(mods), Show(limit);
    assert ScoresParams(beatmapId, user, mode, mods, limit) == [Param("b", b), Param("m", m), Param("mods", d), Param("limit", l)];
    FourText(key, Param("b", b), Param("m", m), Param("mods", d), Param("limit", l), "&b=", "&m=", "&mods=", "&limit=");
  }

  lemma ScoresParamsOk(key: string, beatmapId: Int32, user: UserRef, mode: PlayMode, mods: Int32, limit: Int32)
    ensures ScoresQueryOk(Parsed(key, ScoresParams(beatmapId, user, mode, mods, limit)), key, beatmapId, user, mode, mods, limit)
  {
    ScoresNames(beatmapId, user, mode, mods, limit);
    ScoresBeatmap(beatmapId, user, mode, mods, limit);
    ScoresUser(beatmapId, user, mode, mods, limit);
    ScoresTailValues(beatmapId, user, mode, mods, limit);
  }

  lemma ScoresWire(key: string, beatmapId: Int32, user: UserRef, mode: PlayMode, mods: Int32, limit: Int32)
    ensures '&' !in key && CleanUser(user) ==>
              var q := ParseQuery(Render(key, ScoresParams(beatmapId, user, mode, mods, limit)));
              q.Some? && ScoresQueryOk(q.value, key, beatmapId, user, mode, mods, limit)
  {
    if '&' !in key && CleanUser(user) {
      ScoresClean(beatmapId, user, mode, mods, limit);
      ScoresParamsOk(key, beatmapId, user, mode, mods, limit);
      ParseRender(key, ScoresParams(beatmapId, user, mode, mods, limit));
    }
  }

  lemma ScoresDistinct(beatmapId: Int32, user: UserRef, mode: PlayMode, mods: Int32, limit: Int32)
    ensures Distinct(Names(ScoresParams(beatmapId, user, mode, mods, limit)))
  {
    ScoresNames(beatmapId, user, mode, mods, limit);
  }

  /** A query string that splits into what `ScoresQueryOk` describes is exactly the scores query. */
  lemma ScoresQueryExact(s: string, q: Parsed, key: string, beatmapId: Int32, user: UserRef, mode: PlayMode, mods: Int32, limit: Int32)
    requires ParseQuery(s) == Some(q) && ScoresQueryOk(q, key, beatmapId, user, mode, mods, limit)
    ensures s == Render(key, ScoresParams(beatmapId, user, mode, mods, limit))
  {
    ScoresParamsUnique(q, key, beatmapId, user, mode, mods, limit);
    RenderParse(s, q);
  }

  /** `ScoresQueryOk` holds of exactly one reading: the scores parameters themselves. */
  lemma ScoresParamsUnique(q: Parsed, key: string, beatmapId: Int32, user: UserRef, mode: PlayMode, mods: Int32, limit: Int32)
    requires ScoresQueryOk(q, key, beatmapId, user, mode, mods, limit)
    ensures q == Parsed(key, ScoresParams(beatmapId, user, mode, mods, limit))
  {
    var ps := ScoresParams(beatmapId, user, mode, mods, limit);
    ScoresParamsOk(key, beatmapId, user, mode, mods, limit);
    ScoresDistinct(beatmapId, user, mode, mods, limit);
    forall n | n in Names(ps)
      ensures Lookup(ps, n) == Lookup(q.params, n)
    {
      assert n == "b" || n == "u" || n == "type" || n == "m" || n == "mods" || n == "limit";
    }
    SameParams(ps, q.params);
  }

  /** Both `GetScoresAsync` overloads: a limit above 100 is out of range, checked
      first; then mode `All` is invalid; otherwise `get_scores` is requested. */
  function GetScores(key: string, beatmapId: Int32, user: UserRef, mode: PlayMode, mods: Int32, limit: Int32): (r: Result<Request>)
    ensures limit > 100 ==> r == Failure(OutOfRange("limit"))
    ensures limit <= 100 && mode == All ==> r == Failure(InvalidArgument)
    ensures r.Success? <==> limit <= 100 && IsConcrete(mode)
    ensures r.Success? ==> r.value.endpoint == "get_scores"
    ensures r.Success? && UserGiven(user) ==>
              r.value.query == "?k=" + key + "&b=" + Show(beatmapId) + "&u=" + UserValue(user) + "&type=" + UserType(user)
                               + "&m=" + ModeName(mode) + "&mods=" + Show(mods) + "&limit=" + Show(limit)
    ensures r.Success? && !UserGiven(user) ==>
              r.value.query == "?k=" + key + "&b=" + Show(beatmapId) + "&m=" + ModeName(mode) + "&mods=" + Show(mods) + "&limit=" + Show(limit)
    ensures r.Success? && '&' !in key && CleanUser(user) ==>
              var q := ParseQuery(r.value.query);
              q.Some? && ScoresQueryOk(q.value, key, beatmapId, user, mode, mods, limit)
  {
    if limit > 100 then Failure(OutOfRange("limit"))
    else if mode == All then Failure(InvalidArgument)
    else
      ScoresText(key, beatmapId, user, mode, mods, limit);
      ScoresWire(key, beatmapId, user, mode, mods, limit);
      Success(Request("get_scores", Render(key, ScoresParams(beatmapId, user, mode, mods, limit))))
  }

  function UserScoresParams(user: UserRef, mode: PlayMode, limit: Int32): seq<Param> {
    [Param("u", UserValue(user)), Param("type", UserType(user)), Param("m", ModeName(mode)), Param("limit", Show(limit))]
  }

  /** What a best or recent lookup promises a split of its query yields: the user and its
      discriminator whatever the id's sign, then the mode by NAME and the limit. */
  predicate UserScoresQueryOk(q: Parsed, key: string, user: UserRef, mode: PlayMode, limit: Int32) {
    && q.key == key
    && Names(q.params) == ["u", "type", "m", "limit"]
    && Lookup(q.params, "u") == Some(UserValue(user))
    && Lookup(q.params, "type") == Some(if user.ById? then "id" else "string")
    && Lookup(q.params, "m") == Some(ModeName(mode))
    && Lookup(q.params, "limit") == Some(Show(limit))
  }

  lemma UserScoresParamsOk(key: string, user: UserRef, mode: PlayMode, limit: Int32)
    ensures UserScoresQueryOk(Parsed(key, UserScoresParams(user, mode, limit)), key, user, mode, limit)
  {
    var ps := UserScoresParams(user, mode, limit);
    assert Names(ps) == ["u", "type", "m", "limit"];
    LookupFirst(ps, 0);
    LookupFirst(ps, 1);
    LookupFirst(ps, 2);
    LookupFirst(ps, 3);
  }

  /** The best and recent query is the interpolated string of all four of their overloads. */
  lemma UserScoresText(key: string, user: UserRef, mode: PlayMode, limit: Int32)
    ensures Render(key, UserScoresParams(user, mode, limit))
         == "?k=" + key + "&u=" + UserValue(user) + "&type=" + UserType(user) + "&m=" + ModeName(mode) + "&limit=" + Show(limit)
  {
    FourText(key, Param("u", UserValue(user)), Param("type", UserType(user)), Param("m", ModeName(mode)), Param("limit", Show(limit)),
             "&u=", "&type=", "&m=", "&limit=");
  }

  lemma UserScoresWire(key: string, user: UserRef, mode: PlayMode, limit: Int32)
    ensures '&' !in key && CleanUser(user) ==>
              var q := ParseQuery(Render(key, UserScoresParams(user, mode, limit)));
              q.Some? && UserScoresQueryOk(q.value, key, user, mode, limit)
  {
    if '&' !in key && CleanUser(user) {
      var ps := UserScoresParams(user, mode, limit);
      assert AllClean(ps);
      ParseRender(key, ps);
      UserScoresParamsOk(key, user, mode, limit);
    }
  }

  /** A query string that splits into what `UserScoresQueryOk` describes is exactly the best/recent query. */
  lemma UserScoresQueryExact(s: string, q: Parsed, key: string, user: UserRef, mode: PlayMode, limit: Int32)
    requires ParseQuery(s) == Some(q) && UserScoresQueryOk(q, key, user, mode, limit)
    ensures s == "?k=" + key + "&u=" + UserValue(user) + "&type=" + UserType(user) + "&m=" + ModeName(mode) + "&limit=" + Show(limit)
  {
    UserScoresParamsUnique(q, key, user, mode, limit);
    RenderParse(s, q);
    UserScoresText(key, user, mode, limit);
  }

  /** `UserScoresQueryOk` holds of exactly one reading: the best/recent parameters themselves. */
  lemma UserScoresParamsUnique(q: Parsed, key: string, user: UserRef, mode: PlayMode, limit: Int32)
    requires UserScoresQueryOk(q, key, user, mode, limit)
    ensures q == Parsed(key, UserScoresParams(user, mode, limit))
  {
    var ps := UserScoresParams(user, mode, limit);
    UserScoresParamsOk(key, user, mode, limit);
    forall n | n in Names(ps)
      ensures Lookup(ps, n) == Lookup(q.params, n)
    {
      assert n == "u" || n == "type" || n == "m" || n == "limit";
    }
    SameParams(ps, q.params);
  }

  /** Which list of a user's scores: the best plays or the recent ones. */
  datatype ScoreList = Best | Recent

  function ScoreListEndpoint(l: ScoreList): string {
    if l == Best then "get_user_best" else "get_user_recent"
  }

  /** Both `GetUserBestAsync` and both `GetUserRecentAsync` overloads: a limit
      above 100 is out of range, checked first; then mode `All` is invalid;
      otherwise the list's endpoint is requested. */
  function UserScores(key: string, list: ScoreList, user: UserRef, mode: PlayMode, limit: Int32): (r: Result<Request>)
    ensures limit > 100 ==> r == Failure(OutOfRange("limit"))
    ensures limit <= 100 && mode == All ==> r == Failure(InvalidArgument)
    ensures r.Success? <==> limit <= 100 && IsConcrete(mode)
    ensures r.Success? ==> r.value.endpoint == (if list == Best then "get_user_best" else "get_user_recent")
    ensures r.Success? ==>
              r.value.query == "?k=" + key + "&u=" + UserValue(user) + "&type=" + UserType(user) + "&m=" + ModeName(mode) + "&limit=" + Show(limit)
    ensures r.Success? && '&' !in key && CleanUser(user) ==>
              var q := ParseQuery(r.value.query);
              q.Some? && UserScoresQueryOk(q.value, key, user, mode, limit)
  {
    if limit > 100 then Failure(OutOfRange("limit"))
    else if mode == All then Failure(InvalidArgument)
    else
      UserScoresText(key, user, mode, limit);
      UserScoresWire(key, user, mode, limit);
      Success(Request(ScoreListEndpoint(list), Render(key, UserScoresParams(user, mode, limit))))
  }

  function ReplayParams(mode: PlayMode, beatmapId: Int32, userId: Int32): seq<Param> {
    [Param("m", Show(ModeCode(mode))), Param("b", Show(beatmapId)), Param("u", Show(userId))]
  }

  /** What a replay fetch promises a split of its query yields: the mode's code, the beatmap and the user. */
  predicate ReplayQueryOk(q: Parsed, key: string, mode: PlayMode, beatmapId: Int32, userId: Int32) {
    && q.key == key
    && Names(q.params) == ["m", "b", "u"]
    && Lookup(q.params, "m") == Some(Show(ModeCode(mode)))
    && Lookup(q.params, "b") == Some(Show(beatmapId))
    && Lookup(q.params, "u") == Some(Show(userId))
  }

  lemma ReplayParamsOk(key: string, mode: PlayMode, beatmapId: Int32, userId: Int32)
    ensures ReplayQueryOk(Parsed(key, ReplayParams(mode, beatmapId, userId)), key, mode, beatmapId, userId)
  {
    var ps := ReplayParams(mode, beatmapId, userId);
    assert Names(ps) == ["m", "b", "u"];
    LookupFirst(ps, 0);
    LookupFirst(ps, 1);
    LookupFirst(ps, 2);
  }

  /** The replay query is the interpolated string of `GetReplayAsync`. */
  lemma ReplayText(key: string, mode: PlayMode, beatmapId: Int32, userId: Int32)
    ensures Render(key, ReplayParams(mode, beatmapId, userId))
         == "?k=" + key + "&m=" + Show(ModeCode(mode)) + "&b=" + Show(beatmapId) + "&u=" + Show(userId)
  {
    ThreeText(key, Param("m", Show(ModeCode(mode))), Param("b", Show(beatmapId)), Param("u", Show(userId)), "&m=", "&b=", "&u=");
  }

  lemma ReplayWire(key: string, mode: PlayMode, beatmapId: Int32, userId: Int32)
    ensures '&' !in key ==>
              var q := ParseQuery(Render(key, ReplayParams(mode, beatmapId, userId)));
              q.Some? && ReplayQueryOk(q.value, key, mode, beatmapId, userId)
  {
    if '&' !in key {
      var ps := ReplayParams(mode, beatmapId, userId);
      assert AllClean(ps);
      ParseRender(key, ps);
      ReplayParamsOk(key, mode, beatmapId, userId);
    }
  }

  /** A query string that splits into what `ReplayQueryOk` describes is exactly the replay query. */
  lemma ReplayQueryExact(s: string, q: Parsed, key: string, mode: PlayMode, beatmapId: Int32, userId: Int32)
    requires ParseQuery(s) == Some(q) && ReplayQueryOk(q, key, mode, beatmapId, userId)
    ensures s == "?k=" + key + "&m=" + Show(ModeCode(mode)) + "&b=" + Show(beatmapId) + "&u=" + Show(userId)
  {
    ReplayParamsUnique(q, key, mode, beatmapId, userId);
    RenderParse(s, q);
    ReplayText(key, mode, beatmapId, userId);
  }

  /** `ReplayQueryOk` holds of exactly one reading: the replay parameters themselves. */
  lemma ReplayParamsUnique(q: Parsed, key: string, mode: PlayMode, beatmapId: Int32, userId: Int32)
    requires ReplayQueryOk(q, key, mode, beatmapId, userId)
    ensures q == Parsed(key, ReplayParams(mode, beatmapId, userId))
  {
    var ps := ReplayParams(mode, beatmapId, userId);
    ReplayParamsOk(key, mode, beatmapId, userId);
    forall n | n in Names(ps)
      ensures Lookup(ps, n) == Lookup(q.params, n)
    {
      assert n == "m" || n == "b" || n == "u";
    }
    SameParams(ps, q.params);
  }

  /** `GetReplayAsync`: mode `All`, a beatmap id that is not positive and a user
      id that is not positive are each an invalid argument, checked in that
      order; otherwise `get_replay` is requested. */
  function GetReplay(key: string, mode: PlayMode, beatmapId: Int32, userId: Int32): (r: Result<Request>)
    ensures r.Success? <==> IsConcrete(mode) && beatmapId > 0 && userId > 0
    ensures r.Failure? ==> r.error == InvalidArgument
    ensures r.Success? ==> r.value.endpoint == "get_replay"
    ensures r.Success? ==>
              r.value.query == "?k=" + key + "&m=" + Show(ModeCode(mode)) + "&b=" + Show(beatmapId) + "&u=" + Show(userId)
    ensures r.Success? && '&' !in key ==>
              var q := ParseQuery(r.value.query);
              q.Some? && ReplayQueryOk(q.value, key, mode, beatmapId, userId)
  {
    if mode == All then Failure(InvalidArgument)
    else if beatmapId <= 0 then Failure(InvalidArgument)
    else if userId <= 0 then Failure(InvalidArgument)
    else
      ReplayText(key, mode, beatmapId, userId);
      ReplayWire(key, mode, beatmapId, userId);
      Success(Request("get_replay", Render(key, ReplayParams(mode, beatmapId, userId))))
  }

  function MatchParams(matchId: Int32): seq<Param> {
    [Param("mp", Show(matchId))]
  }

  lemma MatchWire(key: string, matchId: Int32)
    ensures Render(key, MatchParams(matchId)) == "?k=" + key + "&mp=" + Show(matchId)
    ensures '&' !in key ==> ParseQuery(Render(key, MatchParams(matchId))) == Some(Parsed(key, [Param("mp", Show(matchId))]))
  {
    OneText(key, Param("mp", Show(matchId)), "&mp=");
    if '&' !in key {
      assert AllClean(MatchParams(matchId));
      ParseRender(key, MatchParams(matchId));
    }
  }

  /** `GetMatchAsync`: no validation; the query is the key and the match id alone. */
  function GetMatch(key: string, matchId: Int32): (r: Result<Request>)
    ensures r.Success? && r.value.endpoint == "get_match"
    ensures r.value.query == "?k=" + key + "&mp=" + Show(matchId)
    ensures '&' !in key ==>
              ParseQuery(r.value.query) == Some(Parsed(key, [Param("mp", Show(matchId))]))
  {
    MatchWire(key, matchId);
    Success(Request("get_match", Render(key, MatchParams(matchId))))
  }

  /** Every query string that splits into the key and the match id alone is the match query. */
  lemma MatchQueryExact(s: string, key: string, matchId: Int32)
    requires ParseQuery(s) == Some(Parsed(key, [Param("mp", Show(matchId))]))
    ensures s == "?k=" + key + "&mp=" + Show(matchId)
  {
    RenderParse(s, Parsed(key, [Param("mp", Show(matchId))]));
    MatchWire(key, matchId);
  }

  /** `All` is a filter only the beatmap lookups accept (and then send no mode);
      every other operation taking a mode rejects it as an invalid argument
      once its range check has passed. */
  lemma AllOnlyFiltersBeatmaps(key: string, target: BeatmapTarget, id: Int32, converted: bool, md5: string, user: UserRef,
                               eventDays: Int32, mods: Int32, limit: Int32, list: ScoreList, beatmapId: Int32, userId: Int32)
    ensures GetBeatmaps(key, target, id, All, converted, md5, limit).Success?
    ensures '&' !in key && '&' !in md5 ==>
              Lookup(ParseQuery(GetBeatmaps(key, target, id, All, converted, md5, limit).value.query).value.params, "m") == None
    ensures eventDays <= 31 ==> GetUser(key, user, All, eventDays) == Failure(InvalidArgument)
    ensures limit <= 100 ==> GetScores(key, beatmapId, user, All, mods, limit) == Failure(InvalidArgument)
    ensures limit <= 100 ==> UserScores(key, list, user, All, limit) == Failure(InvalidArgument)
    ensures GetReplay(key, All, beatmapId, userId) == Failure(InvalidArgument)
  {
  }

  /** The user and replay lookups send a mode as its integer code, the scores,
      best and recent lookups as its member name: a number can be read
      from the first and never from the second. */
  lemma ModeWrittenTwoWays(m: PlayMode)
    requires IsConcrete(m)
    ensures Parse(Show(ModeCode(m))) == Some(ModeCode(m))
    ensures Parse(ModeName(m)) == None
    ensures Show(ModeCode(m)) != ModeName(m)
  {
    ParseShow(ModeCode(m));
  }

  /** The user lookup's event-days check is an inclusive ceiling with no floor. */
  lemma EventDaysBoundary(key: string, user: UserRef, m: PlayMode)
    requires IsConcrete(m)
    ensures GetUser(key, user, m, 31).Success? && GetUser(key, user, m, 32) == Failure(OutOfRange("eventDays"))
    ensures GetUser(key, user, m, -0x8000_0000).Success?
  {
    assert GetUser(key, user, m, 31).Success? && GetUser(key, user, m, -0x8000_0000).Success?;
  }

  /** The scores lookup's limit check is an inclusive ceiling. */
  lemma ScoresLimitBoundary(key: string, user: UserRef, m: PlayMode, beatmapId: Int32, mods: Int32)
    requires IsConcrete(m)
    ensures GetScores(key, beatmapId, user, m, mods, 100).Success? && GetScores(key, beatmapId, user, m, mods, 101) == Failure(OutOfRange("limit"))
  {
    assert GetScores(key, beatmapId, user, m, mods, 100).Success?;
  }

  /** The replay lookup wants both ids positive: 1 passes, 0 already fails. */
  lemma ReplayIdBoundary(key: string, m: PlayMode)
    requires IsConcrete(m)
    ensures GetReplay(key, m, 1, 1).Success?
    ensures GetReplay(key, m, 0, 1) == Failure(InvalidArgument) && GetReplay(key, m, 1, 0) == Failure(InvalidArgument)
  {
  }

  /** The best and recent lists share the scores lookup's inclusive ceiling of 100. */
  lemma UserScoresLimitBoundary(key: string, list: ScoreList, user: UserRef, m: PlayMode)
    requires IsConcrete(m)
    ensures UserScores(key, list, user, m, 100).Success?
    ensures UserScores(key, list, user, m, 101) == Failure(OutOfRange("limit"))
  {
  }

  /** The best and recent lookups differ only in the endpoint they request. */
  lemma BestAndRecentShareQuery(key: string, user: UserRef, mode: PlayMode, limit: Int32)
    ensures UserScores(key, Best, user, mode, limit).Success? <==> UserScores(key, Recent, user, mode, limit).Success?
    ensures UserScores(key, Best, user, mode, limit).Success? ==>
              && UserScores(key, Best, user, mode, limit).value.query == UserScores(key, Recent, user, mode, limit).value.query
              && UserScores(key, Best, user, mode, limit).value.endpoint != UserScores(key, Recent, user, mode, limit).value.endpoint
  {
  }
}
