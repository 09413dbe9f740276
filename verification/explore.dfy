/**
 * The Explore screen's venue discovery: the catalog of venues, the
 * four-check filter behind the map and list views, the selected-venue
 * lookup with its fallback, the display labels, and the screen state
 * that the filter controls and venue clicks replace.
 */
module Explore {
  import opened Wrappers
  import opened Strings
  import opened Filtering

  datatype Sport = Tennis | PingPong
  datatype Status = Live | Busy | Quiet

  /** The sport chip: every sport, or one. */
  datatype SportFilter = AllSports | Only(sport: Sport)

  /**
   * A venue. `distanceTenths` is the distance from the user in tenths of a
   * kilometre (1.2 km is 12); `x` and `y` place the pin on the map.
   */
  datatype Venue = Venue(
    id: string,
    name: string,
    area: string,
    sport: Sport,
    status: Status,
    players: nat,
    vibe: int,
    distanceTenths: nat,
    x: int,
    y: int)

  /** The filter controls: search text, sport chip, live-only switch, distance slider (whole km). */
  datatype Criteria = Criteria(query: string, sport: SportFilter, liveOnly: bool, maxKm: nat)

  const TrinityBellwoods := Venue("v1", "Trinity Bellwoods Courts", "Queen West", Tennis, Live, 7, 8, 12, 38, 55)
  const Harbourfront := Venue("v2", "Harbourfront Tables", "Waterfront", PingPong, Live, 4, 7, 26, 62, 72)
  const HighPark := Venue("v3", "High Park Courts", "High Park", Tennis, Busy, 10, 9, 51, 18, 38)
  const RiverdaleEast := Venue("v4", "Riverdale East Courts", "Leslieville", Tennis, Quiet, 1, 4, 38, 76, 44)
  const ChristiePits := Venue("v5", "Christie Pits Courts", "Christie", Tennis, Busy, 8, 8, 32, 44, 33)
  const DufferinGrove := Venue("v6", "Dufferin Grove Tables", "Dufferin", PingPong, Quiet, 0, 3, 44, 29, 22)

  /** The hard-coded catalog. */
  const MockVenues: seq<Venue> :=
    [TrinityBellwoods, Harbourfront, HighPark, RiverdaleEast, ChristiePits, DufferinGrove]

  /** The text check: applies only when the trimmed query is non-empty; the needle itself is not trimmed. */
  predicate MatchesText(query: string, v: Venue) {
    Trim(query) == [] ||
    Includes(ToLower(v.name), ToLower(query)) || Includes(ToLower(v.area), ToLower(query))
  }

  /** The filter callback: sport, then live-only, then distance, then text. */
  predicate Passes(c: Criteria, v: Venue) {
    (c.sport == AllSports || v.sport == c.sport.sport) &&
    (!c.liveOnly || v.status == Live) &&
    v.distanceTenths <= 10 * c.maxKm &&
    MatchesText(c.query, v)
  }

  /** The callback handed to `filter` for criteria `c`. */
  function Matcher(c: Criteria): Venue -> bool {
    v => Passes(c, v)
  }

  /** The venues shown on the map and in the list. */
  function Filter(catalog: seq<Venue>, c: Criteria): seq<Venue> {
    Keep(catalog, Matcher(c))
  }

  /** Every shown venue passes each of the four checks. */
  lemma FilterSound(catalog: seq<Venue>, c: Criteria, v: Venue)
    requires v in Filter(catalog, c)
    ensures v in catalog
    ensures c.sport.Only? ==> v.sport == c.sport.sport
    ensures c.liveOnly ==> v.status == Live
    ensures v.distanceTenths <= 10 * c.maxKm
    ensures Trim(c.query) != [] ==>
      Includes(ToLower(v.name), ToLower(c.query)) || Includes(ToLower(v.area), ToLower(c.query))
  {
  }

  /** A venue is shown exactly when it is in the catalog and passes every check: no passing venue is dropped. */
  lemma FilterComplete(catalog: seq<Venue>, c: Criteria, v: Venue)
    ensures v in Filter(catalog, c) <==> v in catalog && Passes(c, v)
  {
    if v in catalog && Passes(c, v) {
      KeepComplete(catalog, Matcher(c), v);
    }
  }

  /**
   * The shown venues are the catalog's passing venues in catalog order: `idx`
   * gives their positions in the catalog, increasing, and a catalog position
   * is among them exactly when its venue passes.
   */
  lemma FilterOrder(catalog: seq<Venue>, c: Criteria) returns (idx: seq<nat>)
    ensures |idx| == |Filter(catalog, c)| && Increasing(idx)
    ensures forall j :: 0 <= j < |idx| ==> idx[j] < |catalog| && Filter(catalog, c)[j] == catalog[idx[j]]
    ensures forall k :: 0 <= k < |catalog| ==> (Passes(c, catalog[k]) <==> k in idx)
  {
    idx := KeepIndices(catalog, Matcher(c));
  }

  /** Only white space in the search box means no text filtering at all. */
  lemma BlankQueryMatchesAll(query: string, v: Venue)
    requires forall i :: 0 <= i < |query| ==> IsJsSpace(query[i])
    ensures MatchesText(query, v)
  {
    TrimEmptyIff(query);
  }

  /**
   * With every sport, live-only off, a slider at least every distance and an
   * empty (or blank) query, the filter shows the whole catalog in order.
   */
  lemma FilterIdentity(catalog: seq<Venue>, c: Criteria)
    requires c.sport == AllSports && !c.liveOnly
    requires forall v :: v in catalog ==> v.distanceTenths <= 10 * c.maxKm
    requires forall i :: 0 <= i < |c.query| ==> IsJsSpace(c.query[i])
    ensures Filter(catalog, c) == catalog
  {
    TrimEmptyIff(c.query);
    KeepAll(catalog, Matcher(c));
  }

  /**
   * The search is case-insensitive: two queries that lower-case alike match
   * exactly the same venues.
   */
  lemma CaseInsensitiveQuery(q1: string, q2: string, v: Venue)
    requires ToLower(q1) == ToLower(q2)
    ensures MatchesText(q1, v) == MatchesText(q2, v)
  {
    ToLowerKeepsSpace(q1);
    ToLowerKeepsSpace(q2);
    TrimEmptyIff(q1);
    TrimEmptyIff(q2);
    assert |q1| == |q2|;
    forall i | 0 <= i < |q1| ensures IsJsSpace(q1[i]) <==> IsJsSpace(q2[i]) {
      assert ToLower(q1)[i] == ToLower(q2)[i];
    }
  }

  /** The search finds "Courts" in the name of High Park Courts... */
  lemma BareWordMatches()
    ensures MatchesText("Courts", MockVenues[2])
  {
    var v := MockVenues[2];
    assert v.name == "High Park Courts";
    assert ToLower(v.name) == "high park courts" by {}
    assert ToLower("Courts") == "courts" by {}
    IncludesAt("high park courts", "courts", 10);
  }

  /**
   * ...but the needle is not trimmed, so "Courts " with a trailing space
   * hides that venue although the query is not blank.
   */
  lemma UntrimmedNeedle()
    ensures Trim("Courts ") != []
    ensures !MatchesText("Courts ", MockVenues[2])
  {
    assert MockVenues[2] == HighPark;
    assert HighPark.name == "High Park Courts" && HighPark.area == "High Park";
    PaddedNeedleNotInName();
    PaddedNeedleNotInArea();
    PaddedQueryNotBlank();
  }

  /** "courts " (with its space) does not occur in "high park courts". */
  lemma PaddedNeedleNotInName()
    ensures !Includes(ToLower("High Park Courts"), ToLower("Courts "))
  {
    assert ToLower("High Park Courts") == "high park courts" by {}
    assert ToLower("Courts ") == "courts " by {}
    NotIncludes("high park courts", "courts ", 10);
  }

  /** "courts " does not occur in "high park". */
  lemma PaddedNeedleNotInArea()
    ensures !Includes(ToLower("High Park"), ToLower("Courts "))
  {
    assert ToLower("High Park") == "high park" by {}
    assert ToLower("Courts ") == "courts " by {}
    NotIncludes("high park", "courts ", 9);
  }

  /** "Courts " is not blank, so the text check applies. */
  lemma PaddedQueryNotBlank()
    ensures Trim("Courts ") != []
  {
    TrimEmptyIff("Courts ");
    assert !IsJsSpace("Courts "[0]);
  }

  /** `catalog.find(v => v.id === id)`: the first venue with that id, if any. */
  function Find(catalog: seq<Venue>, id: string): (r: Option<Venue>)
    ensures r.Some? ==> r.value in catalog && r.value.id == id
    ensures r.None? <==> forall v :: v in catalog ==> v.id != id
    decreases |catalog|
  {
    if catalog == [] then None
    else if catalog[0].id == id then Some(catalog[0])
    else Find(catalog[1..], id)
  }

  /** The venue `Find` returns is the first one in the catalog carrying the id. */
  lemma {:induction false} FindFirst(catalog: seq<Venue>, id: string) returns (k: nat)
    requires Find(catalog, id).Some?
    ensures k < |catalog| && catalog[k] == Find(catalog, id).value
    ensures forall j :: 0 <= j < k ==> catalog[j].id != id
    decreases |catalog|
  {
    if catalog[0].id == id {
      k := 0;
    } else {
      var k' := FindFirst(catalog[1..], id);
      k := k' + 1;
    }
  }

  /**
   * The venue in the details panel: the catalog venue with the selected id,
   * else the first catalog venue. It is looked up in the whole catalog, not
   * in the filtered list, and (for an empty catalog) may be absent.
   */
  function Selected(catalog: seq<Venue>, selectedId: string): (r: Option<Venue>)
    ensures (exists v :: v in catalog && v.id == selectedId) ==>
      r.Some? && r.value in catalog && r.value.id == selectedId
    ensures (forall v :: v in catalog ==> v.id != selectedId) ==>
      r == if catalog == [] then None else Some(catalog[0])
  {
    match Find(catalog, selectedId)
    case Some(v) => Some(v)
    case None => if catalog == [] then None else Some(catalog[0])
  }

  /**
   * The selection does not follow the filter: with the initial selection
   * "v1" and the Ping Pong chip, the details panel still shows Trinity
   * Bellwoods Courts, which the list no longer contains.
   */
  lemma SelectionMayBeFilteredOut()
    ensures Selected(MockVenues, "v1") == Some(MockVenues[0])
    ensures MockVenues[0] !in Filter(MockVenues, Criteria("", Only(PingPong), false, 6))
  {
    FilterComplete(MockVenues, Criteria("", Only(PingPong), false, 6), MockVenues[0]);
  }

  /** The three status badges have distinct texts, the badge's three texts. */
  lemma StatusLabelInjective(a: Status, b: Status)
    ensures StatusLabel(a) in {"Live now", "Busy", "Quiet"}
    ensures StatusLabel(a) == StatusLabel(b) ==> a == b
  {
  }

  /** The status badge text. */
  function StatusLabel(s: Status): string {
    match s
    case Live => "Live now"
    case Busy => "Busy"
    case Quiet => "Quiet"
  }

  datatype BadgeVariant = Default | Secondary | Outline

  /** The status badge style. */
  function StatusVariant(s: Status): BadgeVariant {
    match s
    case Live => Secondary
    case Busy => Default
    case Quiet => Outline
  }

  /** The sport shown in the details panel and on a list row. */
  function SportLabel(s: Sport): string {
    if s == Tennis then "Tennis" else "Ping Pong"
  }

  /** The "Mode" tile on a list row. */
  function ModeLabel(s: Sport): string {
    if s == Tennis then "Singles" else "Fast"
  }

  /** Each status has its own badge style, and each sport its own label and mode. */
  lemma LabelsDistinguish(a: Status, b: Status, s: Sport, t: Sport)
    ensures StatusVariant(a) == StatusVariant(b) ==> a == b
    ensures SportLabel(s) == SportLabel(t) ==> s == t
    ensures ModeLabel(s) == ModeLabel(t) ==> s == t
  {
  }

  /**
   * Tennis with a blank query and the slider at 6 km or more: the four tennis
   * venues pass and the two ping pong venues do not.
   */
  lemma TennisWithinSix(c: Criteria)
    requires c.sport == Only(Tennis) && !c.liveOnly && 6 <= c.maxKm && Trim(c.query) == []
    ensures Passes(c, TrinityBellwoods) && Passes(c, HighPark)
    ensures Passes(c, RiverdaleEast) && Passes(c, ChristiePits)
    ensures !Passes(c, Harbourfront) && !Passes(c, DufferinGrove)
  {
  }

  /** Live only, every sport, blank query, 3 km or more: only the two live venues pass. */
  lemma LiveWithinSix(c: Criteria)
    requires c.sport == AllSports && c.liveOnly && 3 <= c.maxKm && Trim(c.query) == []
    ensures Passes(c, TrinityBellwoods) && Passes(c, Harbourfront)
    ensures !Passes(c, HighPark) && !Passes(c, RiverdaleEast)
    ensures !Passes(c, ChristiePits) && !Passes(c, DufferinGrove)
  {
  }

  /** Every venue, blank query, 3 km: Trinity Bellwoods (1.2 km) and Harbourfront (2.6 km) pass. */
  lemma WithinThree(c: Criteria)
    requires c.sport == AllSports && !c.liveOnly && c.maxKm == 3 && Trim(c.query) == []
    ensures Passes(c, TrinityBellwoods) && Passes(c, Harbourfront)
    ensures !Passes(c, HighPark) && !Passes(c, RiverdaleEast)
    ensures !Passes(c, ChristiePits) && !Passes(c, DufferinGrove)
  {
  }

  /** Live ping pong within 1 km: nothing passes, so the list is empty. */
  lemma NothingWithinOne(c: Criteria)
    requires c.sport == Only(PingPong) && c.liveOnly && c.maxKm <= 1
    ensures Filter(MockVenues, c) == []
  {
    KeepNone(MockVenues, Matcher(c));
  }

  /**
   * The Explore screen's state: the filter controls and the selected venue
   * id. Each setter replaces one field wholesale; the catalog never changes.
   */
  class ExploreScreen {
    const catalog: seq<Venue>
    var query: string
    var sport: SportFilter
    var liveOnly: bool
    var maxKm: nat
    var selectedId: string

    /** Initial state: empty search, every sport, live-only off, 6 km, the first venue selected. */
    constructor ()
      ensures catalog == MockVenues
      ensures query == "" && sport == AllSports && !liveOnly && maxKm == 6
      ensures selectedId == "v1" && Focused() == Some(TrinityBellwoods)
    {
      catalog := MockVenues;
      query := "";
      sport := AllSports;
      liveOnly := false;
      maxKm := 6;
      selectedId := MockVenues[0].id;
    }

    function Current(): Criteria
      reads this
    {
      Criteria(query, sport, liveOnly, maxKm)
    }

    /** The venues on the map and in the list. */
    function Shown(): seq<Venue>
      reads this
    {
      Filter(catalog, Current())
    }

    /** The venue in the details panel. */
    function Focused(): Option<Venue>
      reads this
    {
      Selected(catalog, selectedId)
    }

    /** Typing in the search box. The details panel keeps its venue. */
    method SetQuery(q: string)
      modifies this`query
      ensures query == q
      ensures Focused() == old(Focused())
    {
      query := q;
    }

    /** Clicking a sport chip. The details panel keeps its venue. */
    method SetSport(s: SportFilter)
      modifies this`sport
      ensures sport == s
      ensures Focused() == old(Focused())
    {
      sport := s;
    }

    /** Flipping the live-only switch. The details panel keeps its venue. */
    method SetLiveOnly(b: bool)
      modifies this`liveOnly
      ensures liveOnly == b
      ensures Focused() == old(Focused())
    {
      liveOnly := b;
    }

    /** Moving the distance slider. The details panel keeps its venue. */
    method SetMaxKm(km: nat)
      modifies this`maxKm
      ensures maxKm == km
      ensures Focused() == old(Focused())
    {
      maxKm := km;
    }

    /**
     * Clicking a pin or a list row. The filtered list is unchanged, and when
     * the id is that of a catalog venue the details panel shows that venue.
     */
    method Select(id: string)
      modifies this`selectedId
      ensures selectedId == id
      ensures Shown() == old(Shown())
      ensures (exists v :: v in catalog && v.id == id) ==>
        Focused().Some? && Focused().value.id == id && Focused().value in catalog
    {
      selectedId := id;
    }
  }
}
