/** The asteroid detail modal (src/components/AsteroidDetailModal.tsx): the
    risk meter and badge, the lookup of the asteroid's watchlist entry, and
    the decision the bookmark button takes. */
module DetailModal {
  import opened Options
  import opened Asteroids

  /** The width of the risk bar, in percent. */
  function RiskPercent(risk: RiskLabel): (p: nat)
    ensures p == 100 <==> risk == Dangerous
    ensures p == 75 <==> risk == Hazardous
    ensures p == 50 <==> risk == Problematic
    ensures !(risk == Dangerous || risk == Hazardous || risk == Problematic) <==> p == 15
  {
    if risk == Dangerous then 100
    else if risk == Hazardous then 75
    else if risk == Problematic then 50
    else 15
  }

  /** A more severe tier always gets a wider bar. */
  lemma RiskPercentMonotone(a: Tier, b: Tier)
    ensures Severity(a) < Severity(b) <==> RiskPercent(a) < RiskPercent(b)
  {
  }

  /** The colour class of the risk bar. */
  function BarColor(risk: RiskLabel): (c: string)
    ensures c == "bg-destructive" <==> risk == Dangerous || risk == Hazardous
    ensures c == "bg-warning" <==> risk == Problematic
    ensures c == "bg-safe" <==> !(risk == Dangerous || risk == Hazardous || risk == Problematic)
  {
    if risk == Dangerous || risk == Hazardous then "bg-destructive"
    else if risk == Problematic then "bg-warning"
    else "bg-safe"
  }

  /** The bar colour follows the derived hazard flag when the record carries
      no label of its own. */
  lemma BarColorOfUnlabelled(a: Asteroid)
    requires a.riskLevel.None?
    ensures BarColor(GetRiskLevel(a)) == "bg-destructive" <==> a.isPotentiallyHazardous
  {
  }

  datatype BadgeIcon = AlertTriangle | Shield

  /** The icon and text of the risk badge: the icon follows the risk, the
      text only the hazard flag. */
  function Badge(risk: RiskLabel, hazardous: bool): (b: (BadgeIcon, string))
    ensures b.0 == AlertTriangle <==> risk == Dangerous || risk == Hazardous
    ensures b.1 == (if hazardous then "Potentially Hazardous" else "Safe Object")
  {
    (if risk == Dangerous || risk == Hazardous then AlertTriangle else Shield,
     if hazardous then "Potentially Hazardous" else "Safe Object")
  }

  /** A stored label can make the icon and the text disagree: a HIGH record
      that is flagged shows the shield beside "Potentially Hazardous". */
  lemma BadgeCanDisagree()
    ensures Badge(High, true) == (Shield, "Potentially Hazardous")
  {
  }

  // ----- the watchlist entry -----

  /** A watchlist entry as the hook returns it: its own `_id` and the
      populated asteroid, which may be missing. */
  datatype WatchEntry = WatchEntry(entryId: Option<string>, asteroid: Option<Asteroid>)

  /** The `find` predicate: `w.asteroid._id === asteroidId || w.asteroid.id === asteroidId`. */
  predicate EntryMatches(w: WatchEntry, asteroidId: string)
    requires w.asteroid.Some?
  {
    w.asteroid.value.dbId == Some(asteroidId) || w.asteroid.value.id == asteroidId
  }

  /** The outcome of the `find`: the matching entry's `_id`, no match, or
      the TypeError raised by reading `_id` of a missing asteroid. */
  datatype Lookup = Found(entryId: Option<string>) | NoMatch | Throws

  /** No entry before position `k` stops the search. */
  ghost predicate PassedBefore(watchlist: seq<WatchEntry>, asteroidId: string, k: int)
    requires 0 <= k <= |watchlist|
  {
    forall i :: 0 <= i < k ==> watchlist[i].asteroid.Some? && !EntryMatches(watchlist[i], asteroidId)
  }

  /** The search stops at a matching entry `k`. */
  ghost predicate FoundAt(watchlist: seq<WatchEntry>, asteroidId: string, k: int) {
    0 <= k < |watchlist| && PassedBefore(watchlist, asteroidId, k)
    && watchlist[k].asteroid.Some? && EntryMatches(watchlist[k], asteroidId)
  }

  /** The search reaches entry `k`, which has no asteroid. */
  ghost predicate ThrowsAt(watchlist: seq<WatchEntry>, asteroidId: string, k: int) {
    0 <= k < |watchlist| && PassedBefore(watchlist, asteroidId, k) && watchlist[k].asteroid.None?
  }

  /** `watchlist.find(...)`, entry by entry. */
  function FindEntry(watchlist: seq<WatchEntry>, asteroidId: string): (r: Lookup)
    ensures r == NoMatch <==> PassedBefore(watchlist, asteroidId, |watchlist|)
    ensures r.Found? ==> exists k :: FoundAt(watchlist, asteroidId, k) && watchlist[k].entryId == r.entryId
    ensures r == Throws ==> exists k :: ThrowsAt(watchlist, asteroidId, k)
    decreases |watchlist|
  {
    if watchlist == [] then NoMatch
    else if watchlist[0].asteroid.None? then
      assert ThrowsAt(watchlist, asteroidId, 0);
      Throws
    else if EntryMatches(watchlist[0], asteroidId) then
      assert FoundAt(watchlist, asteroidId, 0);
      Found(watchlist[0].entryId)
    else
      var r := FindEntry(watchlist[1..], asteroidId);
      PassedShift(watchlist, asteroidId);
      assert forall k :: FoundAt(watchlist[1..], asteroidId, k) ==> FoundAt(watchlist, asteroidId, k + 1);
      assert forall k :: ThrowsAt(watchlist[1..], asteroidId, k) ==> ThrowsAt(watchlist, asteroidId, k + 1);
      r
  }

  /** Passing the first entry shifts every position by one. */
  lemma PassedShift(watchlist: seq<WatchEntry>, asteroidId: string)
    requires watchlist != [] && watchlist[0].asteroid.Some? && !EntryMatches(watchlist[0], asteroidId)
    ensures forall k :: 0 <= k <= |watchlist| - 1 ==>
      (PassedBefore(watchlist[1..], asteroidId, k) <==> PassedBefore(watchlist, asteroidId, k + 1))
  {
    forall k | 0 <= k <= |watchlist| - 1
      ensures PassedBefore(watchlist[1..], asteroidId, k) <==> PassedBefore(watchlist, asteroidId, k + 1)
    {
      if PassedBefore(watchlist[1..], asteroidId, k) {
        forall i | 0 <= i < k + 1
          ensures watchlist[i].asteroid.Some? && !EntryMatches(watchlist[i], asteroidId)
        {
          if i > 0 {
            assert watchlist[i] == watchlist[1..][i - 1];
          }
        }
      }
      if PassedBefore(watchlist, asteroidId, k + 1) {
        forall i | 0 <= i < k
          ensures watchlist[1..][i].asteroid.Some? && !EntryMatches(watchlist[1..][i], asteroidId)
        {
          assert watchlist[1..][i] == watchlist[i + 1];
        }
      }
    }
  }

  /** `find(...)?._id`: the watchlist id the modal acts on, if any. With no
      match there is none; otherwise it is the `_id` of the first matching
      entry. A lookup that throws stops the render, so it has no id. */
  function WatchlistId(watchlist: seq<WatchEntry>, asteroidId: string): (r: Option<string>)
    requires FindEntry(watchlist, asteroidId) != Throws
    ensures PassedBefore(watchlist, asteroidId, |watchlist|) ==> r.None?
    ensures !PassedBefore(watchlist, asteroidId, |watchlist|) ==>
      exists k :: FoundAt(watchlist, asteroidId, k) && watchlist[k].entryId == r
  {
    var l := FindEntry(watchlist, asteroidId);
    if l.Found? then l.entryId else None
  }

  // ----- the bookmark button -----

  const AddNotes: string := "Added from detail view"

  datatype ToggleAction =
    | Navigate(path: string)
    | Remove(watchlistId: string)
    | Add(userId: string, asteroidId: string, notes: string)

  /** handleWatchlistToggle: `userDbId` is the signed-in user's `_id`, or
      `None` with nobody signed in. */
  function Toggle(userDbId: Option<string>, isInWatchlist: bool, watchlistId: Option<string>, asteroidId: string): (a: ToggleAction)
    ensures userDbId.None? <==> a == Navigate("/profile")
    ensures a.Remove? <==> userDbId.Some? && isInWatchlist && watchlistId.Some? && watchlistId.value != ""
    ensures a.Remove? ==> a.watchlistId == watchlistId.value
    ensures a.Add? ==> a == Add(userDbId.value, asteroidId, AddNotes)
  {
    if userDbId.None? then Navigate("/profile")
    else if isInWatchlist && watchlistId.Some? && watchlistId.value != "" then Remove(watchlistId.value)
    else Add(userDbId.value, asteroidId, AddNotes)
  }

  /** When the watchlist says the asteroid is saved but no entry id was
      found, the button adds it again instead of removing it. */
  lemma ToggleAddsWhenIdMissing(userDbId: string, asteroidId: string)
    ensures Toggle(Some(userDbId), true, None, asteroidId) == Add(userDbId, asteroidId, AddNotes)
    ensures Toggle(Some(userDbId), true, WatchlistId([], asteroidId), asteroidId) == Add(userDbId, asteroidId, AddNotes)
  {
  }

  /** The entry found for the asteroid is the one the button removes. */
  lemma ToggleRemovesFoundEntry(userDbId: string, watchlist: seq<WatchEntry>, asteroidId: string)
    requires FindEntry(watchlist, asteroidId).Found?
    requires var id := FindEntry(watchlist, asteroidId).entryId; id.Some? && id.value != ""
    ensures var id := FindEntry(watchlist, asteroidId).entryId;
      Toggle(Some(userDbId), true, WatchlistId(watchlist, asteroidId), asteroidId) == Remove(id.value)
  {
  }
}
