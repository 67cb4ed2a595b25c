/** The example paged asteroid list
    (src/components/examples/AsteroidsListExample.jsx): its badge colours,
    the add-to-watchlist guard, the "Hazardous Only" filter toggle and the
    Previous/Next pager over pages of 20 records. */
module AsteroidsList {
  import opened Options
  import opened Asteroids

  const PageSize: nat := 20

  /** getRiskColor, keyed by the database labels; anything else is gray. */
  function ListRiskColor(level: Option<RiskLabel>): (c: string)
    ensures c == "bg-red-100 text-red-800" <==> level == Some(High)
    ensures c == "bg-yellow-100 text-yellow-800" <==> level == Some(Medium)
    ensures c == "bg-green-100 text-green-800" <==> level == Some(Low)
    ensures c == "bg-gray-100 text-gray-800" <==> !(level == Some(High) || level == Some(Medium) || level == Some(Low))
  {
    match level
    case Some(High) => "bg-red-100 text-red-800"
    case Some(Medium) => "bg-yellow-100 text-yellow-800"
    case Some(Low) => "bg-green-100 text-green-800"
    case _ => "bg-gray-100 text-gray-800"
  }

  /** The body handleAddToWatchlist hands to the add mutation. */
  datatype AddRequest = AddRequest(userId: string, asteroidId: string, notes: string)

  /** Nothing is sent unless the user has a non-empty `id`; `userId` is
      `user?.id`. */
  function AddToWatchlist(userId: Option<string>, asteroidId: string): (r: Option<AddRequest>)
    ensures r.Some? <==> userId.Some? && userId.value != ""
    ensures r.Some? ==> r.value == AddRequest(userId.value, asteroidId, "")
  {
    if userId.Some? && userId.value != "" then Some(AddRequest(userId.value, asteroidId, "")) else None
  }

  // ----- pager arithmetic -----

  /** `Math.ceil(total / 20)`. */
  function PageCount(total: nat): (n: nat)
    ensures (n - 1) * PageSize < total <= n * PageSize || (total == 0 && n == 0)
  {
    (total + PageSize - 1) / PageSize
  }

  /** `total && total > 20`. */
  predicate PagerShown(total: nat) {
    total > PageSize
  }

  predicate PreviousDisabled(page: int) {
    page == 1
  }

  predicate NextDisabled(page: int, total: nat) {
    page >= PageCount(total)
  }

  /** The page after a click on Previous; a disabled or hidden button does
      nothing. The page moves back at most one, and a page in range stays
      in range. */
  function AfterPrevious(page: int, total: nat): (p: int)
    ensures p == page || p == page - 1
    ensures PagerShown(total) && page > 1 ==> p == page - 1
    ensures !PagerShown(total) ==> p == page
    ensures InRange(page, total) ==> InRange(p, total)
  {
    if PagerShown(total) && !PreviousDisabled(page) then page - 1 else page
  }

  /** The page after a click on Next: forward at most one, never past the
      last page from a page in range. */
  function AfterNext(page: int, total: nat): (p: int)
    ensures p == page || p == page + 1
    ensures PagerShown(total) && 1 <= page < PageCount(total) ==> p == page + 1
    ensures !PagerShown(total) || page >= PageCount(total) ==> p == page
    ensures InRange(page, total) ==> InRange(p, total)
  {
    if PagerShown(total) && !NextDisabled(page, total) then page + 1 else page
  }

  /** Pages the pager can reach. */
  predicate InRange(page: int, total: nat) {
    1 <= page <= (if PageCount(total) < 1 then 1 else PageCount(total))
  }

  /** Starting from page 1, any sequence of clicks stays in range. */
  lemma {:induction false} ClicksStayInRange(clicks: seq<bool>, total: nat)
    ensures InRange(Replay(1, clicks, total), total)
  {
    ReplayKeepsRange(1, clicks, total);
  }

  /** The page after a sequence of clicks, `true` for Next and `false` for
      Previous. */
  function Replay(page: int, clicks: seq<bool>, total: nat): int
    decreases |clicks|
  {
    if clicks == [] then page
    else Replay(if clicks[0] then AfterNext(page, total) else AfterPrevious(page, total), clicks[1..], total)
  }

  lemma {:induction false} ReplayKeepsRange(page: int, clicks: seq<bool>, total: nat)
    requires InRange(page, total)
    ensures InRange(Replay(page, clicks, total), total)
    decreases |clicks|
  {
    if clicks != [] {
      ReplayKeepsRange(if clicks[0] then AfterNext(page, total) else AfterPrevious(page, total), clicks[1..], total);
    }
  }

  // ----- component state -----

  /** A value in the `filters` object; `Undefined` is a key set to
      `undefined`. */
  datatype FilterValue = Undefined | Flag(b: bool) | Text(s: string)

  /** `filters.hazardous === true`: the button is drawn pressed. */
  predicate HazardousOn(filters: map<string, FilterValue>) {
    "hazardous" in filters && filters["hazardous"] == Flag(true)
  }

  /** `filters.hazardous` is truthy: `true` or a non-empty string. */
  predicate HazardousTruthy(filters: map<string, FilterValue>) {
    "hazardous" in filters && (filters["hazardous"] == Flag(true) || (filters["hazardous"].Text? && filters["hazardous"].s != ""))
  }

  class ListState {
    var page: int
    var filters: map<string, FilterValue>

    constructor()
      ensures page == 1 && filters == map[]
    {
      page := 1;
      filters := map[];
    }

    method Previous(total: nat)
      modifies this
      ensures page == AfterPrevious(old(page), total) && filters == old(filters)
    {
      if PagerShown(total) && page != 1 {
        page := page - 1;
      }
    }

    method Next(total: nat)
      modifies this
      ensures page == AfterNext(old(page), total) && filters == old(filters)
    {
      if PagerShown(total) && page < PageCount(total) {
        page := page + 1;
      }
    }

    /** The "Hazardous Only" button: sets `hazardous` to `true`, or back to
        `undefined`, and keeps every other filter. */
    method ToggleHazardous()
      modifies this
      ensures filters == old(filters)["hazardous" := if HazardousTruthy(old(filters)) then Undefined else Flag(true)]
      ensures HazardousOn(filters) <==> !HazardousTruthy(old(filters))
      ensures HazardousOn(filters) <==> HazardousTruthy(filters)
      ensures forall k :: k in old(filters) && k != "hazardous" ==> k in filters && filters[k] == old(filters)[k]
      ensures page == old(page)
    {
      var on := "hazardous" in filters && (filters["hazardous"] == Flag(true) || (filters["hazardous"].Text? && filters["hazardous"].s != ""));
      filters := filters["hazardous" := if on then Undefined else Flag(true)];
    }
  }
}
