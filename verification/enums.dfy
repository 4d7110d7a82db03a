/** The enumerations whose values reach the wire. `PlayMode` is written into
    query strings, once as its integer code and once as its member name;
    `RankedStatus` and `Genre` are decoded from the service's integer codes,
    including the negative codes and the gap at 8 that the service dictates. */
module Enums {
  import opened Options

  datatype PlayMode = Osu | Taiko | Ctb | Mania | All

  /** The four modes a play can actually happen in; `All` is only a filter. */
  predicate IsConcrete(m: PlayMode) {
    m != All
  }

  /** The integer value of the enum member, in declaration order. */
  function ModeCode(m: PlayMode): (c: int)
    ensures 0 <= c <= 4
    ensures c == 4 <==> !IsConcrete(m)
  {
    match m
    case Osu => 0
    case Taiko => 1
    case Ctb => 2
    case Mania => 3
    case All => 4
  }

  function ModeFromCode(c: int): (r: Option<PlayMode>)
    ensures r.Some? <==> 0 <= c <= 4
    ensures r.Some? ==> ModeCode(r.value) == c
  {
    if c == 0 then Some(Osu)
    else if c == 1 then Some(Taiko)
    else if c == 2 then Some(Ctb)
    else if c == 3 then Some(Mania)
    else if c == 4 then Some(All)
    else None
  }

  /** The text of the enum member's identifier, which interpolating the enum writes. */
  function ModeName(m: PlayMode): (s: string)
    ensures |s| > 0 && 'A' <= s[0] <= 'Z'
    ensures forall i :: 0 <= i < |s| ==> 'A' <= s[i] <= 'Z' || 'a' <= s[i] <= 'z'
  {
    match m
    case Osu => "Osu"
    case Taiko => "Taiko"
    case Ctb => "Ctb"
    case Mania => "Mania"
    case All => "All"
  }

  function ModeFromName(s: string): (r: Option<PlayMode>)
    ensures r.Some? ==> ModeName(r.value) == s
  {
    if s == "Osu" then Some(Osu)
    else if s == "Taiko" then Some(Taiko)
    else if s == "Ctb" then Some(Ctb)
    else if s == "Mania" then Some(Mania)
    else if s == "All" then Some(All)
    else None
  }

  /** Codes and names each identify the mode: both encodings invert. */
  lemma ModeEncodingsInvert(m: PlayMode)
    ensures ModeFromCode(ModeCode(m)) == Some(m)
    ensures ModeFromName(ModeName(m)) == Some(m)
  {
  }

  datatype RankedStatus = Graveyard | Wip | Pending | Ranked | Approved | Qualified | Loved

  /** The wire code: the first two members are pinned at -2 and -1, the rest count up from 0. */
  function RankedCode(r: RankedStatus): (c: int)
    ensures -2 <= c <= 4
    ensures c < 0 <==> r == Graveyard || r == Wip
  {
    match r
    case Graveyard => -2
    case Wip => -1
    case Pending => 0
    case Ranked => 1
    case Approved => 2
    case Qualified => 3
    case Loved => 4
  }

  function RankedFromCode(c: int): (r: Option<RankedStatus>)
    ensures r.Some? <==> -2 <= c <= 4
    ensures r.Some? ==> RankedCode(r.value) == c
  {
    if c == -2 then Some(Graveyard)
    else if c == -1 then Some(Wip)
    else if c == 0 then Some(Pending)
    else if c == 1 then Some(Ranked)
    else if c == 2 then Some(Approved)
    else if c == 3 then Some(Qualified)
    else if c == 4 then Some(Loved)
    else None
  }

  lemma RankedCodeInverts(r: RankedStatus)
    ensures RankedFromCode(RankedCode(r)) == Some(r)
  {
  }

  datatype Genre = Any | Unspecified | Game | Anime | Rock | Pop | Other | Novelty | HipHop | Electronic

  /** The wire code: 0 to 7 in declaration order, then 9 and 10; no genre has code 8. */
  function GenreCode(g: Genre): (c: int)
    ensures 0 <= c <= 10 && c != 8
  {
    match g
    case Any => 0
    case Unspecified => 1
    case Game => 2
    case Anime => 3
    case Rock => 4
    case Pop => 5
    case Other => 6
    case Novelty => 7
    case HipHop => 9
    case Electronic => 10
  }

  function GenreFromCode(c: int): (r: Option<Genre>)
    ensures r.Some? <==> 0 <= c <= 10 && c != 8
    ensures r.Some? ==> GenreCode(r.value) == c
  {
    if c == 0 then Some(Any)
    else if c == 1 then Some(Unspecified)
    else if c == 2 then Some(Game)
    else if c == 3 then Some(Anime)
    else if c == 4 then Some(Rock)
    else if c == 5 then Some(Pop)
    else if c == 6 then Some(Other)
    else if c == 7 then Some(Novelty)
    else if c == 9 then Some(HipHop)
    else if c == 10 then Some(Electronic)
    else None
  }

  lemma GenreCodeInverts(g: Genre)
    ensures GenreFromCode(GenreCode(g)) == Some(g)
  {
  }
}
