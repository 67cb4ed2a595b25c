/** The watchlist page (src/pages/WatchlistPage.tsx): what it shows for a
    visitor and for a signed-in user, the cards it builds from the
    watchlist entries, and which entry each card's remove button deletes. */
module WatchlistPage {
  import opened Options
  import opened Asteroids

  /** A watchlist entry: its own `_id` and the populated asteroid, which
      may be missing. */
  datatype WatchItem = WatchItem(entryId: string, asteroid: Option<Asteroid>)

  /** `item.asteroid || item`: the card shows the asteroid, or the raw
      entry when it was not populated. */
  datatype Card = Populated(asteroid: Asteroid) | RawEntry(item: WatchItem)

  function CardOf(item: WatchItem): (c: Card)
    ensures c.Populated? <==> item.asteroid.Some?
  {
    match item.asteroid
    case Some(a) => Populated(a)
    case None => RawEntry(item)
  }

  /** `watchlist.map(...)`. */
  function Cards(watchlist: seq<WatchItem>): (cards: seq<Card>)
    ensures |cards| == |watchlist|
    ensures forall i :: 0 <= i < |watchlist| ==> cards[i] == CardOf(watchlist[i])
  {
    seq(|watchlist|, i requires 0 <= i < |watchlist| => CardOf(watchlist[i]))
  }

  /** The id card `i`'s remove button deletes: `watchlist[i]._id`. */
  function RemoveTarget(watchlist: seq<WatchItem>, i: nat): string
    requires i < |watchlist|
  {
    watchlist[i].entryId
  }

  /** Card `i` and its remove button come from the same entry: the button
      deletes the entry whose asteroid (or raw self) the card shows. */
  lemma RemoveMatchesCard(watchlist: seq<WatchItem>, i: nat)
    requires i < |watchlist|
    ensures var c := Cards(watchlist)[i];
      (c.Populated? ==> Some(c.asteroid) == watchlist[i].asteroid)
      && (c.RawEntry? ==> c.item.entryId == RemoveTarget(watchlist, i))
    ensures exists w :: w in watchlist && w.entryId == RemoveTarget(watchlist, i) && CardOf(w) == Cards(watchlist)[i]
  {
    assert watchlist[i] in watchlist;
  }

  /** The plural ending of "You are tracking N asteroid(s)". */
  function PluralSuffix(count: nat): (s: string)
    ensures s == "s" <==> count != 1
    ensures s == "" <==> count == 1
  {
    if count != 1 then "s" else ""
  }

  /** What the page renders. */
  datatype View =
    | AuthSpinner
    | LoginPrompt
    | Tracking(count: nat, suffix: string, body: Body)

  datatype Body = ListSpinner | EmptyState | CardGrid(cards: seq<Card>, removeTargets: seq<string>)

  /** The page; `signedIn` is whether `useCurrentUser` found a user. */
  function Page(authLoading: bool, signedIn: bool, listLoading: bool, watchlist: seq<WatchItem>): (v: View)
    ensures !authLoading && !signedIn ==> v == LoginPrompt
    ensures v.Tracking? ==> !authLoading && signedIn && v.count == |watchlist| && v.suffix == PluralSuffix(|watchlist|)
    ensures v.Tracking? && v.body.CardGrid? ==>
      |v.body.cards| == |v.body.removeTargets| == |watchlist|
      && forall i :: 0 <= i < |watchlist| ==> v.body.cards[i] == CardOf(watchlist[i]) && v.body.removeTargets[i] == watchlist[i].entryId
  {
    if authLoading then AuthSpinner
    else if !signedIn then LoginPrompt
    else
      var cards := Cards(watchlist);
      var body :=
        if listLoading then ListSpinner
        else if |cards| > 0 then CardGrid(cards, seq(|watchlist|, i requires 0 <= i < |watchlist| => RemoveTarget(watchlist, i)))
        else EmptyState;
      Tracking(|watchlist|, PluralSuffix(|watchlist|), body)
  }

  /** A visitor sees only the login prompt, whatever the watchlist holds. */
  lemma VisitorSeesOnlyPrompt(listLoading: bool, watchlist: seq<WatchItem>)
    ensures Page(false, false, listLoading, watchlist) == LoginPrompt
  {
  }
}
