/**
 * Keyset pagination of a room's timeline: the page fetch of internal/persistence/timeline.go and the
 * next-cursor rule of internal/gateway/handler_room_events.go, walked page by page while the event
 * table grows.
 */
module Timeline {
  import opened Options
  import opened SortedLists

  datatype Kind = MessagePosted | MemberJoined | MemberLeft

  datatype Entry = Entry(room: nat, kind: Kind, text: string)

  /** The event table, keyed by event id. */
  type Table = map<nat, Entry>

  predicate OccursAt(text: string, term: string, i: nat) {
    i + |term| <= |text| && text[i..i + |term|] == term
  }

  predicate Contains(text: string, term: string) {
    exists i: nat :: i <= |text| && OccursAt(text, term, i)
  }

  /** The WHERE clause: the room, and for a non-empty query only messages that contain every term. */
  predicate Selects(room: nat, terms: seq<string>, e: Entry) {
    e.room == room && (terms != [] ==> e.kind.MessagePosted? && forall t :: t in terms ==> Contains(e.text, t))
  }

  function Matching(t: Table, room: nat, terms: seq<string>): set<nat> {
    set i | i in t && Selects(room, terms, t[i])
  }

  /** The keyset condition; a zero cursor means the newest page. */
  function Below(ids: set<nat>, before: nat): set<nat> {
    set i | i in ids && (before == 0 || i < before)
  }

  // ---- Descending listings ----

  ghost predicate IsListing(xs: seq<nat>, s: set<nat>) {
    && (forall i, j :: 0 <= i < j < |xs| ==> xs[i] > xs[j])
    && (forall x :: x in xs <==> x in s)
  }

  function Reversed(xs: seq<nat>): seq<nat> {
    seq(|xs|, i requires 0 <= i < |xs| => xs[|xs| - 1 - i])
  }

  /** ORDER BY id DESC: every id of the set once, largest first. */
  ghost function Listing(s: set<nat>): (xs: seq<nat>)
    ensures IsListing(xs, s)
  {
    var up := Sorted(s);
    var xs := Reversed(up);
    assert forall x :: x in up ==> exists i :: 0 <= i < |up| && up[i] == x && xs[|up| - 1 - i] == x;
    xs
  }

  lemma ListingIsUnique(xs: seq<nat>, s: set<nat>)
    requires IsListing(xs, s)
    ensures xs == Listing(s)
  {
    var ys := Listing(s);
    forall zs | IsListing(zs, s) ensures IsSortedListOf(Reversed(zs), s) {
      assert forall x :: x in zs ==> exists i :: 0 <= i < |zs| && zs[i] == x && Reversed(zs)[|zs| - 1 - i] == x;
    }
    SortedListIsUnique(Reversed(xs), Reversed(ys), s);
    assert |Reversed(xs)| == |xs| && |Reversed(ys)| == |ys|;
    forall i | 0 <= i < |xs| ensures xs[i] == ys[i] {
      assert Reversed(xs)[|xs| - 1 - i] == xs[i];
    }
  }

  /** Below its n-th element a listing is the rest of it. */
  lemma ListingBelow(s: set<nat>, before: nat, n: nat)
    requires 0 < n <= |Listing(Below(s, before))| && 0 < Listing(Below(s, before))[n - 1]
    ensures Listing(Below(s, Listing(Below(s, before))[n - 1])) == Listing(Below(s, before))[n..]
  {
    var xs := Listing(Below(s, before));
    var cut := xs[n - 1];
    forall x | x in Below(s, cut) ensures x in xs[n..] {
      assert cut in Below(s, before);
      assert x in xs;
      var i :| 0 <= i < |xs| && xs[i] == x;
      assert n <= i;
      assert xs[n..][i - n] == x;
    }
    forall x | x in xs[n..] ensures x in Below(s, cut) {
      var i :| 0 <= i < |xs[n..]| && xs[n..][i] == x;
      assert xs[n + i] == x && x in xs;
    }
    ListingIsUnique(xs[n..], Below(s, cut));
  }

  // ---- One page ----

  datatype Page = Page(events: seq<nat>, hasMore: bool)

  /** Fetch limit + 1 rows and trim the look-ahead row. */
  function Trimmed(rows: seq<nat>, limit: nat): Page {
    if |rows| > limit then Page(rows[..limit], true) else Page(rows, false)
  }

  function FirstRows(rows: seq<nat>, n: nat): seq<nat> {
    if |rows| <= n then rows else rows[..n]
  }

  ghost function PageOf(ids: set<nat>, before: nat, limit: nat): Page {
    Trimmed(FirstRows(Listing(Below(ids, before)), limit + 1), limit)
  }

  /** The next cursor: the last event of a page that has more behind it. */
  function NextCursor(p: Page): Option<nat> {
    if p.hasMore && p.events != [] then Some(p.events[|p.events| - 1]) else None
  }

  lemma PageIsAPrefix(ids: set<nat>, before: nat, limit: nat)
    requires limit >= 1
    ensures var p, all := PageOf(ids, before, limit), Listing(Below(ids, before));
            && p.events <= all && p.hasMore == (|all| > limit)
            && (p.hasMore ==> |p.events| == limit && NextCursor(p) == Some(all[limit - 1]))
            && (!p.hasMore ==> p.events == all)
  {
  }

  /** The append loop of collectEntries over the rows the statement returns, then the trim. */
  method FetchPage(rows: seq<nat>, limit: nat) returns (page: Page)
    ensures page == Trimmed(rows, limit)
    ensures forall ids, before :: rows == FirstRows(Listing(Below(ids, before)), limit + 1) ==>
              page == PageOf(ids, before, limit)
  {
    var entries: seq<nat> := [];
    for i := 0 to |rows|
      invariant entries == rows[..i]
    {
      entries := entries + [rows[i]];
    }
    if |entries| > limit {
      return Page(entries[..limit], true);
    }
    page := Page(entries, false);
  }

  // ---- The walk ----

  /** What successive reads see: read k finds the matching ids feed(k); `limit(k)` is its page size. */
  datatype Feed = Feed(at: nat -> set<nat>, limit: nat -> nat)

  ghost predicate Growing(f: Feed) {
    && (forall k: nat :: f.limit(k) >= 1)
    && (forall k: nat :: Kept(f, k))
  }

  /** Read k + 1 still finds what read k found; event ids are positive. */
  predicate Kept(f: Feed, k: nat) {
    f.at(k) <= f.at(k + 1) && 0 !in f.at(k)
  }

  /** All rows of the history that read k would still see. */
  ghost function Rest(f: Feed, k: nat, before: nat): seq<nat> {
    Listing(Below(f.at(k), before))
  }

  /** The cursor that read k returns: the limit-th of those rows, when there are more. */
  ghost function Cursor(f: Feed, k: nat, before: nat): (c: Option<nat>)
    requires Growing(f)
    ensures c.Some? <==> |Rest(f, k, before)| > f.limit(k)
    ensures c.Some? ==> c.value == Rest(f, k, before)[f.limit(k) - 1]
    ensures c.Some? ==> 0 < c.value && (before == 0 || c.value < before) && c.value in f.at(k)
    ensures PageOf(f.at(k), before, f.limit(k)).events ==
            if c.Some? then Rest(f, k, before)[..f.limit(k)] else Rest(f, k, before)
  {
    PageIsAPrefix(f.at(k), before, f.limit(k));
    assert Kept(f, k);
    var c := NextCursor(PageOf(f.at(k), before, f.limit(k)));
    assert c.Some? ==> c.value in Below(f.at(k), before);
    c
  }

  /** Everything the client collects from read k with this cursor to the end of the history. */
  ghost function Walk(f: Feed, k: nat, before: nat): seq<nat>
    requires Growing(f)
    decreases before == 0, before
  {
    PageOf(f.at(k), before, f.limit(k)).events +
    match Cursor(f, k, before)
    case None => []
    case Some(c) => Walk(f, k + 1, c)
  }

  /** No read finds, below its cursor, a matching event that was not there at the first read. */
  ghost predicate Undisturbed(f: Feed, first: set<nat>, k: nat, before: nat)
    requires Growing(f)
    decreases before == 0, before
  {
    && Below(f.at(k), before) == Below(first, before)
    && match Cursor(f, k, before)
       case None => true
       case Some(c) => Undisturbed(f, first, k + 1, c)
  }

  lemma WalkOnePage(f: Feed, k: nat, before: nat, c: nat)
    requires Growing(f) && Cursor(f, k, before) == Some(c)
    ensures Walk(f, k, before) == Rest(f, k, before)[..f.limit(k)] + Walk(f, k + 1, c)
  {
  }

  lemma WalkLastPage(f: Feed, k: nat, before: nat)
    requires Growing(f) && Cursor(f, k, before).None?
    ensures Walk(f, k, before) == Rest(f, k, before)
  {
  }

  /** What a page leaves out, the next read finds below its cursor. */
  lemma StillBelow(f: Feed, k: nat, before: nat, c: nat, x: nat)
    requires Growing(f) && Cursor(f, k, before) == Some(c)
    requires x in Rest(f, k, before) && x !in Rest(f, k, before)[..f.limit(k)]
    ensures x in Below(f.at(k + 1), c)
  {
    var all, n := Rest(f, k, before), f.limit(k);
    assert all == all[..n] + all[n..];
    ListingBelow(f.at(k), before, n);
    assert x in Below(f.at(k), c);
    assert Kept(f, k);
  }

  lemma {:induction false} WalkCovers(f: Feed, k: nat, before: nat, x: nat)
    requires Growing(f) && x in Below(f.at(k), before)
    ensures x in Walk(f, k, before)
    decreases before == 0, before
  {
    assert x in Rest(f, k, before);
    var cursor := Cursor(f, k, before);
    if cursor.None? {
      WalkLastPage(f, k, before);
    } else {
      WalkOnePage(f, k, before, cursor.value);
      if x !in Rest(f, k, before)[..f.limit(k)] {
        StillBelow(f, k, before, cursor.value, x);
        WalkCovers(f, k + 1, cursor.value, x);
      }
    }
  }

  /** Where read k finds what the first read would, the pages still to come list the rest. */
  lemma RestBelowCursor(f: Feed, first: set<nat>, k: nat, before: nat, c: nat)
    requires Growing(f) && Cursor(f, k, before) == Some(c) && Below(f.at(k), before) == Below(first, before)
    ensures Listing(Below(first, before)) == Rest(f, k, before)[..f.limit(k)] + Listing(Below(first, c))
  {
    var all, n := Listing(Below(first, before)), f.limit(k);
    assert all == Rest(f, k, before);
    ListingBelow(first, before, n);
    assert all == all[..n] + all[n..];
  }

  lemma {:induction false} UndisturbedWalkIsListing(f: Feed, first: set<nat>, k: nat, before: nat)
    requires Growing(f) && Undisturbed(f, first, k, before)
    ensures Walk(f, k, before) == Listing(Below(first, before))
    decreases before == 0, before
  {
    var cursor := Cursor(f, k, before);
    if cursor.Some? {
      RestBelowCursor(f, first, k, before, cursor.value);
      UndisturbedWalkIsListing(f, first, k + 1, cursor.value);
      WalkOnePage(f, k, before, cursor.value);
    }
  }

  lemma WalkFindsAll(f: Feed, first: set<nat>, k: nat, before: nat)
    requires Growing(f) && first <= f.at(k) && Walk(f, k, before) == Listing(Below(first, before))
    ensures Below(f.at(k), before) == Below(first, before)
  {
    forall x | x in Below(f.at(k), before) ensures x in Below(first, before) {
      WalkCovers(f, k, before, x);
    }
  }

  lemma SamePrefixSameRest(prefix: seq<nat>, xs: seq<nat>, ys: seq<nat>)
    requires prefix + xs == prefix + ys
    ensures xs == ys
  {
    assert (prefix + xs)[|prefix|..] == xs && (prefix + ys)[|prefix|..] == ys;
  }

  lemma {:induction false} ListingWalkIsUndisturbed(f: Feed, first: set<nat>, k: nat, before: nat)
    requires Growing(f) && first <= f.at(k) && Walk(f, k, before) == Listing(Below(first, before))
    ensures Undisturbed(f, first, k, before)
    decreases before == 0, before
  {
    WalkFindsAll(f, first, k, before);
    var cursor := Cursor(f, k, before);
    if cursor.Some? {
      var c := cursor.value;
      RestBelowCursor(f, first, k, before, c);
      WalkOnePage(f, k, before, c);
      SamePrefixSameRest(Rest(f, k, before)[..f.limit(k)], Walk(f, k + 1, c), Listing(Below(first, c)));
      assert Kept(f, k);
      ListingWalkIsUndisturbed(f, first, k + 1, c);
    }
  }

  lemma {:induction false} FirstIsKept(f: Feed, k: nat)
    requires Growing(f)
    ensures f.at(0) <= f.at(k)
  {
    if k > 0 {
      FirstIsKept(f, k - 1);
      assert Kept(f, k - 1);
    }
  }

  // ---- The same condition on the input alone ----

  /** How many events the first k pages hold. */
  function Offset(f: Feed, k: nat): nat {
    if k == 0 then 0 else Offset(f, k - 1) + f.limit(k - 1)
  }

  /**
   * Read k, if the first history is long enough for one, finds nothing new below the event of that
   * history that the page before must have ended with.
   */
  ghost predicate QuietAt(f: Feed, k: nat) {
    var history := Listing(f.at(0));
    0 < k && 0 < Offset(f, k) < |history| ==> Below(f.at(k), history[Offset(f, k) - 1]) <= f.at(0)
  }

  ghost predicate QuietFrom(f: Feed, k: nat) {
    forall j: nat :: k <= j ==> QuietAt(f, j)
  }

  lemma {:induction false} OffsetGrows(f: Feed, k: nat, j: nat)
    requires Growing(f) && k <= j
    ensures Offset(f, k) + (j - k) <= Offset(f, j)
  {
    if k < j {
      OffsetGrows(f, k, j - 1);
      assert f.limit(j - 1) >= 1;
    }
  }

  /** The cursor of read k is where the pages before it end in the first history. */
  ghost predicate Placed(f: Feed, k: nat, before: nat) {
    var history := Listing(f.at(0));
    if k == 0 then before == 0
    else 0 < Offset(f, k) < |history| && before == history[Offset(f, k) - 1]
  }

  lemma HistoryBelowPlace(f: Feed, k: nat, before: nat)
    requires Growing(f) && Placed(f, k, before)
    ensures Offset(f, k) <= |Listing(f.at(0))| && (k > 0 ==> 0 < before)
    ensures Listing(Below(f.at(0), before)) == Listing(f.at(0))[Offset(f, k)..]
  {
    var history := Listing(f.at(0));
    assert Below(f.at(0), 0) == f.at(0);
    if k == 0 {
      assert history[0..] == history;
    } else {
      assert before in history && Kept(f, 0);
      ListingBelow(f.at(0), 0, Offset(f, k));
    }
  }

  lemma QuietMeansSame(f: Feed, k: nat, before: nat)
    requires Growing(f) && Placed(f, k, before)
    ensures QuietAt(f, k) <==> Below(f.at(k), before) == Below(f.at(0), before)
  {
    HistoryBelowPlace(f, k, before);
    FirstIsKept(f, k);
  }

  /** An undisturbed read ends where the next one is placed; the last one where the history ends. */
  lemma NextPlace(f: Feed, k: nat, before: nat)
    requires Growing(f) && Placed(f, k, before) && Below(f.at(k), before) == Below(f.at(0), before)
    ensures match Cursor(f, k, before)
            case None => Offset(f, k + 1) >= |Listing(f.at(0))|
            case Some(c) => Placed(f, k + 1, c)
  {
    HistoryBelowPlace(f, k, before);
    assert Rest(f, k, before) == Listing(f.at(0))[Offset(f, k)..];
  }

  lemma QuietAfterTheEnd(f: Feed, k: nat)
    requires Growing(f) && Offset(f, k) >= |Listing(f.at(0))|
    ensures QuietFrom(f, k)
  {
    forall j: nat | k <= j ensures QuietAt(f, j) {
      OffsetGrows(f, k, j);
    }
  }

  lemma QuietFromHere(f: Feed, k: nat)
    ensures QuietFrom(f, k) <==> QuietAt(f, k) && QuietFrom(f, k + 1)
  {
  }

  lemma UndisturbedFromHere(f: Feed, k: nat, before: nat)
    requires Growing(f)
    ensures Undisturbed(f, f.at(0), k, before) <==>
              && Below(f.at(k), before) == Below(f.at(0), before)
              && (Cursor(f, k, before).None? || Undisturbed(f, f.at(0), k + 1, Cursor(f, k, before).value))
  {
  }

  lemma {:induction false} UndisturbedIffQuiet(f: Feed, k: nat, before: nat)
    requires Growing(f) && Placed(f, k, before)
    ensures Undisturbed(f, f.at(0), k, before) <==> QuietFrom(f, k)
    decreases before == 0, before
  {
    QuietMeansSame(f, k, before);
    QuietFromHere(f, k);
    UndisturbedFromHere(f, k, before);
    if QuietAt(f, k) {
      NextPlace(f, k, before);
      var cursor := Cursor(f, k, before);
      if cursor.None? {
        QuietAfterTheEnd(f, k + 1);
      } else {
        UndisturbedIffQuiet(f, k + 1, cursor.value);
      }
    }
  }

  /**
   * Exactly when: a walk with any page sizes returns every matching event of the first read once, in
   * descending order, and nothing else, if and only if no read finds a new matching event below the
   * place in that first history which the page sizes alone determine.
   */
  lemma WalkIsExact(f: Feed)
    requires Growing(f)
    ensures Walk(f, 0, 0) == Listing(f.at(0)) <==> QuietFrom(f, 0)
  {
    assert Below(f.at(0), 0) == f.at(0);
    if Undisturbed(f, f.at(0), 0, 0) {
      UndisturbedWalkIsListing(f, f.at(0), 0, 0);
    }
    if Walk(f, 0, 0) == Listing(f.at(0)) {
      ListingWalkIsUndisturbed(f, f.at(0), 0, 0);
    }
    UndisturbedIffQuiet(f, 0, 0);
  }

  /** Whatever is appended carries a larger id than everything present at the first read. */
  ghost predicate AppendsAbove(f: Feed) {
    forall k: nat, new_, old_ :: new_ in f.at(k) && new_ !in f.at(0) && old_ in f.at(0) ==> old_ < new_
  }

  lemma AppendsAboveAreQuiet(f: Feed, k: nat)
    requires Growing(f) && AppendsAbove(f)
    ensures QuietAt(f, k)
  {
    var history := Listing(f.at(0));
    if 0 < k && 0 < Offset(f, k) < |history| {
      var last := history[Offset(f, k) - 1];
      assert last in history;
      forall x | x in Below(f.at(k), last) ensures x in f.at(0) {
        assert Kept(f, 0);
        assert x !in f.at(0) ==> last < x;
      }
    }
  }

  /** The promise of the endpoint: with new events only on top, the walk is the listing of the first read. */
  lemma WalkReturnsTheHistory(f: Feed)
    requires Growing(f) && AppendsAbove(f)
    ensures Walk(f, 0, 0) == Listing(f.at(0))
  {
    forall k: nat ensures QuietAt(f, k) {
      AppendsAboveAreQuiet(f, k);
    }
    WalkIsExact(f);
  }

  // ---- The walk over the event table ----

  /** A walk's reads: the table each of them finds, and the page size it asks for. */
  datatype Reads = Reads(table: nat -> Table, limit: nat -> nat)

  /** Rows stay as they are, and ids are positive. */
  predicate Appended(t: Table, u: Table) {
    0 !in t && forall i :: i in t ==> i in u && u[i] == t[i]
  }

  ghost predicate AppendOnly(view: Reads) {
    && (forall k: nat :: view.limit(k) >= 1)
    && (forall k: nat :: Appended(view.table(k), view.table(k + 1)))
  }

  function FeedOf(view: Reads, room: nat, terms: seq<string>): Feed {
    Feed((k: nat) => Matching(view.table(k), room, terms), view.limit)
  }

  /** Appending rows to the table only adds to what a query matches. */
  lemma AppendingGrows(t: Table, u: Table, room: nat, terms: seq<string>)
    requires Appended(t, u)
    ensures Matching(t, room, terms) <= Matching(u, room, terms) && 0 !in Matching(t, room, terms)
  {
  }

  lemma FeedGrows(view: Reads, room: nat, terms: seq<string>)
    requires AppendOnly(view)
    ensures Growing(FeedOf(view, room, terms))
  {
    var f := FeedOf(view, room, terms);
    forall k: nat ensures Kept(f, k) {
      AppendingGrows(view.table(k), view.table(k + 1), room, terms);
    }
  }

  /** What the client collects from a room, page by page, while the journal grows. */
  ghost function History(view: Reads, room: nat, terms: seq<string>): seq<nat>
    requires AppendOnly(view)
  {
    FeedGrows(view, room, terms);
    Walk(FeedOf(view, room, terms), 0, 0)
  }

  /** The room's new events carry larger ids than those of the first read. */
  ghost predicate NewOnTop(view: Reads, room: nat) {
    forall k: nat, n, o ::
      (&& n in view.table(k) && n !in view.table(0) && view.table(k)[n].room == room
       && o in view.table(0) && view.table(0)[o].room == room) ==> o < n
  }

  /**
   * The promise of the endpoint, over tables that only grow: with a room's new events on top, the walk
   * returns every matching event of the first read exactly once, newest first, and nothing else.
   */
  lemma HistoryIsComplete(view: Reads, room: nat, terms: seq<string>)
    requires AppendOnly(view) && NewOnTop(view, room)
    ensures History(view, room, terms) == Listing(Matching(view.table(0), room, terms))
  {
    var f := FeedOf(view, room, terms);
    FeedGrows(view, room, terms);
    forall k: nat, n, o | n in f.at(k) && n !in f.at(0) && o in f.at(0) ensures o < n {
      if n in view.table(0) {
        TableKeeps(view, k, n);
      }
    }
    WalkReturnsTheHistory(f);
  }

  /** Without that, exactly when no read finds a new matching event below its place in the first history. */
  lemma HistoryIsExact(view: Reads, room: nat, terms: seq<string>)
    requires AppendOnly(view)
    ensures History(view, room, terms) == Listing(Matching(view.table(0), room, terms)) <==>
              QuietFrom(FeedOf(view, room, terms), 0)
  {
    FeedGrows(view, room, terms);
    WalkIsExact(FeedOf(view, room, terms));
  }

  lemma {:induction false} TableKeeps(view: Reads, k: nat, i: nat)
    requires AppendOnly(view) && i in view.table(0)
    ensures i in view.table(k) && view.table(k)[i] == view.table(0)[i]
  {
    if k > 0 {
      TableKeeps(view, k - 1, i);
      assert Appended(view.table(k - 1), view.table(k - 1 + 1));
    }
  }

  const ENTRY := Entry(7, MessagePosted, "")
  const EARLIER: Table := map[1 := ENTRY, 3 := ENTRY]
  const LATER: Table := map[1 := ENTRY, 2 := ENTRY, 3 := ENTRY]
  const LAGGING := Reads((k: nat) => if k == 0 then EARLIER else LATER, (k: nat) => 1)

  lemma LaggingIsAppendOnly()
    ensures AppendOnly(LAGGING) && !NewOnTop(LAGGING, 7)
  {
    assert 2 in LAGGING.table(1) && 2 !in LAGGING.table(0) && 3 in LAGGING.table(0);
  }

  lemma LaggingFeed()
    ensures FeedOf(LAGGING, 7, []).at(0) == {1, 3} && 2 in FeedOf(LAGGING, 7, []).at(1)
  {
    assert LAGGING.table(0) == EARLIER && LAGGING.table(1) == LATER;
    assert Matching(EARLIER, 7, []) == {1, 3};
  }

  /** An id below the newest, as a host with a lagging clock may mint it, and a walk it disturbs. */
  lemma LaggingIdDisturbs()
    ensures AppendOnly(LAGGING) && !NewOnTop(LAGGING, 7)
    ensures 2 in History(LAGGING, 7, []) && 2 !in Listing(Matching(LAGGING.table(0), 7, []))
  {
    LaggingIsAppendOnly();
    LaggingFeed();
    FeedGrows(LAGGING, 7, []);
    var f := FeedOf(LAGGING, 7, []);
    FirstPageOfTwo(f);
    WalkCovers(f, 1, 3, 2);
  }

  lemma ListingOfTwo()
    ensures Listing({1, 3}) == [3, 1]
  {
    var xs: seq<nat>, s: set<nat> := [3, 1], {1, 3};
    assert IsListing(xs, s);
    ListingIsUnique(xs, s);
  }

  lemma FirstPageOfTwo(f: Feed)
    requires Growing(f) && f.at(0) == {1, 3} && f.limit(0) == 1
    ensures Walk(f, 0, 0) == [3] + Walk(f, 1, 3)
  {
    assert Below(f.at(0), 0) == f.at(0);
    ListingOfTwo();
    WalkOnePage(f, 0, 0, 3);
  }
}
