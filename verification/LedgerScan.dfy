/** scanPartyUpdateTrees: page through one party's updates in (beginExclusive, ledger end]
    until one matches. The server is a pair of functions of the cursor: the page it answers
    with, and whether the request fails. */
module LedgerScan {
  import opened Wrappers

  datatype Tree = Tree(updateId: string, offset: int, commandId: string, consumed: set<string>)

  /** A page item: a transaction tree, or some other update the scan cannot read. */
  datatype Item = Transaction(tree: Tree) | Other(offset: nat)

  type Pages = nat -> seq<Item>

  type Match = Tree -> bool

  datatype ScanError = LedgerEndFailed | PageFailed

  const DEFAULT_LOOKBACK: nat := 10_000

  /** unwrapTransactionTree gave a tree with an update id. */
  predicate Readable(item: Item) {
    item.Transaction? && item.tree.updateId != ""
  }

  predicate Hits(item: Item, wanted: Match) {
    Readable(item) && wanted(item.tree)
  }

  function OffsetOf(item: Item): int {
    if item.Transaction? then item.tree.offset else item.offset
  }

  /** The newest matching tree of a page. */
  function PageHit(items: seq<Item>, wanted: Match): Option<Tree> {
    if items == [] then None
    else if Hits(items[|items| - 1], wanted) then Some(items[|items| - 1].tree)
    else PageHit(items[..|items| - 1], wanted)
  }

  /** The largest positive offset of a readable tree, or `seen`. */
  function LastSeen(items: seq<Item>, seen: nat): (r: nat)
    ensures r >= seen
  {
    if items == [] then seen
    else
      var last := items[|items| - 1];
      LastSeen(items[..|items| - 1], if Readable(last) && last.tree.offset > seen then last.tree.offset else seen)
  }

  datatype Outcome = Hit(tree: Tree) | Exhausted | Broken

  function Scan(page: Pages, fails: nat -> bool, wanted: Match, cursor: nat, end: nat): Outcome
    decreases if cursor < end then end - cursor else 0
  {
    if cursor >= end then Exhausted
    else if fails(cursor) then Broken
    else
      var items := page(cursor);
      if items == [] then Exhausted
      else
        match PageHit(items, wanted)
        case Some(tree) => Hit(tree)
        case None =>
          var next := LastSeen(items, cursor);
          if next <= cursor then Exhausted else Scan(page, fails, wanted, next, end)
  }

  /** `beginExclusive` makes the scan strict: an HTTP failure is an error, not "not found". */
  method ScanPartyUpdateTrees(
      page: Pages, fails: nat -> bool, wanted: Match, end: Option<nat>, beginExclusive: Option<nat>, lookback: nat)
    returns (r: Result<Option<Tree>, ScanError>)
    ensures end.None? ==> r == if beginExclusive.Some? then Err(LedgerEndFailed) else Ok(None)
    ensures end.Some? ==>
              var begin := if beginExclusive.Some? then beginExclusive.value
                           else if end.value > lookback then end.value - lookback else 0;
              r == match Scan(page, fails, wanted, begin, end.value)
                   case Hit(tree) => Ok(Some(tree))
                   case Exhausted => Ok(None)
                   case Broken => if beginExclusive.Some? then Err(PageFailed) else Ok(None)
    ensures r.Err? ==> beginExclusive.Some? && (end.None? || exists c :: beginExclusive.value <= c < end.value && fails(c))
    ensures beginExclusive.Some? && end.Some? && end.value <= beginExclusive.value ==> r == Ok(None)
  {
    if end.None? {
      if beginExclusive.Some? { return Err(LedgerEndFailed); }
      return Ok(None);
    }
    var begin: nat :=
      if beginExclusive.Some? then beginExclusive.value else if end.value > lookback then end.value - lookback else 0;
    var cursor: nat, lastSeenOffset: nat := begin, begin;
    while cursor < end.value
      invariant begin <= cursor && lastSeenOffset == cursor
      invariant Scan(page, fails, wanted, begin, end.value) == Scan(page, fails, wanted, cursor, end.value)
      decreases if cursor < end.value then end.value - cursor else 0
    {
      if fails(cursor) {
        if beginExclusive.Some? { return Err(PageFailed); }
        return Ok(None);
      }
      var items := page(cursor);
      if items == [] { break; }
      assert items[..|items|] == items;
      for i := |items| downto 0
        invariant PageHit(items, wanted) == PageHit(items[..i], wanted)
        invariant LastSeen(items, cursor) == LastSeen(items[..i], lastSeenOffset) && cursor <= lastSeenOffset
      {
        assert items[..i + 1][..i] == items[..i];
        if Readable(items[i]) {
          if items[i].tree.offset > 0 && items[i].tree.offset > lastSeenOffset { lastSeenOffset := items[i].tree.offset; }
          if wanted(items[i].tree) { return Ok(Some(items[i].tree)); }
        }
      }
      if lastSeenOffset <= cursor { break; }
      cursor := lastSeenOffset;
    }
    r := Ok(None);
  }

  // ----- A faithful server -----

  /** A party's updates, oldest first. */
  ghost predicate Ordered(updates: seq<Item>) {
    forall i, j | 0 <= i < j < |updates| :: 0 < OffsetOf(updates[i]) < OffsetOf(updates[j])
  }

  /** The page is the slice lo..hi of the updates, right after the cursor. */
  ghost predicate PageAt(updates: seq<Item>, cursor: nat, end: nat, items: seq<Item>, lo: nat, hi: nat) {
    && lo <= hi <= |updates| && items == updates[lo..hi]
    && (forall i | 0 <= i < lo :: OffsetOf(updates[i]) <= cursor)
    && (forall i | lo <= i < |updates| :: cursor < OffsetOf(updates[i]))
    && (forall i | lo <= i < hi :: OffsetOf(updates[i]) <= end)
  }

  /** The page after `cursor` starts with the party's next update and may stop anywhere, but
      it is empty only when no update is left up to `end`. */
  ghost predicate FaithfulPage(updates: seq<Item>, cursor: nat, end: nat, items: seq<Item>) {
    exists lo: nat, hi: nat :: PageAt(updates, cursor, end, items, lo, hi)
      && (lo == hi ==> forall i | lo <= i < |updates| :: end < OffsetOf(updates[i]))
  }

  /** The cursors the scan gets a page for, in order. */
  function Cursors(page: Pages, fails: nat -> bool, wanted: Match, cursor: nat, end: nat): seq<nat>
    decreases if cursor < end then end - cursor else 0
  {
    if cursor >= end || fails(cursor) then []
    else
      var next := LastSeen(page(cursor), cursor);
      [cursor] + if PageHit(page(cursor), wanted).Some? || next <= cursor then []
                 else Cursors(page, fails, wanted, next, end)
  }

  /** Every page the scan asks for is faithful. */
  ghost predicate Faithful(updates: seq<Item>, page: Pages, end: nat, cursors: seq<nat>) {
    forall c | c in cursors :: FaithfulPage(updates, c, end, page(c))
  }

  /** A page with updates, none of which the scan can read. */
  predicate Unreadable(items: seq<Item>) {
    items != [] && forall k | 0 <= k < |items| :: !Readable(items[k])
  }

  lemma {:induction false} PageHitIsHit(items: seq<Item>, wanted: Match)
    ensures PageHit(items, wanted).Some? ==>
              exists k | 0 <= k < |items| :: Hits(items[k], wanted) && items[k].tree == PageHit(items, wanted).value
                && forall j | k < j < |items| :: !Hits(items[j], wanted)
    ensures PageHit(items, wanted).None? ==> forall k | 0 <= k < |items| :: !Hits(items[k], wanted)
  {
    if items != [] && !Hits(items[|items| - 1], wanted) {
      var front := items[..|items| - 1];
      PageHitIsHit(front, wanted);
      if PageHit(front, wanted).Some? {
        var k :| 0 <= k < |front| && Hits(front[k], wanted) && front[k].tree == PageHit(front, wanted).value
                 && forall j | k < j < |front| :: !Hits(front[j], wanted);
        assert items[k] == front[k];
        forall j | k < j < |items| ensures !Hits(items[j], wanted) { if j < |front| { assert front[j] == items[j]; } }
      } else {
        forall k | 0 <= k < |items| ensures !Hits(items[k], wanted) { if k < |front| { assert front[k] == items[k]; } }
      }
    }
  }

  lemma {:induction false} LastSeenIsOffset(items: seq<Item>, seen: nat)
    ensures LastSeen(items, seen) == seen
            || exists k | 0 <= k < |items| :: Readable(items[k]) && items[k].tree.offset == LastSeen(items, seen)
    ensures forall k | 0 <= k < |items| :: Readable(items[k]) ==> items[k].tree.offset <= LastSeen(items, seen)
  {
    if items != [] {
      var last := items[|items| - 1];
      var seen' := if Readable(last) && last.tree.offset > seen then last.tree.offset else seen;
      var front := items[..|items| - 1];
      LastSeenIsOffset(front, seen');
      forall k | 0 <= k < |items| && Readable(items[k]) ensures items[k].tree.offset <= LastSeen(items, seen) {
        if k < |front| { assert front[k] == items[k]; }
      }
      if LastSeen(items, seen) != seen' {
        var k :| 0 <= k < |front| && Readable(front[k]) && front[k].tree.offset == LastSeen(front, seen');
        assert items[k] == front[k];
      }
    }
  }

  /** What a scan that found nothing has excluded. */
  ghost predicate NoneIn(updates: seq<Item>, wanted: Match, from: nat, end: nat) {
    forall i | 0 <= i < |updates| && from < OffsetOf(updates[i]) <= end :: !Hits(updates[i], wanted)
  }

  /** A readable page moves the cursor to the offset of one of its own items. */
  lemma CursorMoves(updates: seq<Item>, items: seq<Item>, cursor: nat, end: nat, lo: nat, hi: nat) returns (m: nat)
    requires PageAt(updates, cursor, end, items, lo, hi)
    requires exists k | 0 <= k < |items| :: Readable(items[k])
    ensures lo <= m < hi && OffsetOf(updates[m]) == LastSeen(items, cursor)
    ensures cursor < LastSeen(items, cursor) <= end
  {
    LastSeenIsOffset(items, cursor);
    var k :| 0 <= k < |items| && Readable(items[k]);
    assert items[k] == updates[lo + k];
    var n :| 0 <= n < |items| && Readable(items[n]) && items[n].tree.offset == LastSeen(items, cursor);
    m := lo + n;
    assert items[n] == updates[m];
  }

  /** One page excludes everything up to the new cursor, and moves the cursor on. */
  lemma PageExcludes(updates: seq<Item>, items: seq<Item>, wanted: Match, cursor: nat, end: nat)
    requires Ordered(updates) && FaithfulPage(updates, cursor, end, items)
    requires items != [] && !Unreadable(items) && PageHit(items, wanted).None?
    ensures cursor < LastSeen(items, cursor) <= end && NoneIn(updates, wanted, cursor, LastSeen(items, cursor))
  {
    var lo: nat, hi: nat :| PageAt(updates, cursor, end, items, lo, hi);
    PageHitIsHit(items, wanted);
    var m := CursorMoves(updates, items, cursor, end, lo, hi);
    hide LastSeen, PageHit, Hits;
    forall i | 0 <= i < |updates| && cursor < OffsetOf(updates[i]) <= LastSeen(items, cursor)
      ensures !Hits(updates[i], wanted)
    {
      assert lo <= i <= m;
      assert items[i - lo] == updates[i];
    }
  }

  /** "Not found" from a faithful server means that no update in (cursor, end] matches, exactly
      when nothing matches behind the unreadable pages the scan asked for. */
  lemma {:induction false} NotFoundMeansNone(
    updates: seq<Item>, page: Pages, fails: nat -> bool, wanted: Match, cursor: nat, end: nat)
    requires Ordered(updates) && Faithful(updates, page, end, Cursors(page, fails, wanted, cursor, end))
    requires Scan(page, fails, wanted, cursor, end) == Exhausted
    ensures NoneIn(updates, wanted, cursor, end)
            <==> forall c | c in Cursors(page, fails, wanted, cursor, end) && Unreadable(page(c)) ::
                   NoneIn(updates, wanted, c, end)
    decreases if cursor < end then end - cursor else 0
  {
    hide Hits, Readable;
    if cursor < end {
      var items, next := page(cursor), LastSeen(page(cursor), cursor);
      assert FaithfulPage(updates, cursor, end, items);
      if Unreadable(items) {
        LastSeenIsOffset(items, cursor);
      } else if items != [] {
        PageExcludes(updates, items, wanted, cursor, end);
        NotFoundMeansNone(updates, page, fails, wanted, next, end);
        assert NoneIn(updates, wanted, cursor, end) <==> NoneIn(updates, wanted, next, end);
        hide NoneIn, LastSeen, PageHit, FaithfulPage;
      }
    }
  }

  /** A hit is one of the party's updates in range, and it matches. */
  lemma {:induction false} HitMatches(
    updates: seq<Item>, page: Pages, fails: nat -> bool, wanted: Match, cursor: nat, end: nat)
    requires Faithful(updates, page, end, Cursors(page, fails, wanted, cursor, end))
    requires Scan(page, fails, wanted, cursor, end).Hit?
    ensures var tree := Scan(page, fails, wanted, cursor, end).tree;
      && tree.updateId != "" && wanted(tree)
      && exists i | 0 <= i < |updates| :: updates[i] == Transaction(tree) && Hits(updates[i], wanted)
           && cursor < OffsetOf(updates[i]) <= end
    decreases if cursor < end then end - cursor else 0
  {
    var items := page(cursor);
    assert FaithfulPage(updates, cursor, end, items);
    PageHitIsHit(items, wanted);
    if PageHit(items, wanted).Some? {
      var k :| 0 <= k < |items| && Hits(items[k], wanted) && items[k].tree == PageHit(items, wanted).value;
      var lo: nat, hi: nat :| PageAt(updates, cursor, end, items, lo, hi);
      assert updates[lo + k] == items[k];
    } else {
      HitMatches(updates, page, fails, wanted, LastSeen(items, cursor), end);
    }
  }

  /** Whatever lies behind it, a page without a readable tree ends the scan. */
  lemma UnreadablePageEndsScan(page: Pages, fails: nat -> bool, wanted: Match, cursor: nat, end: nat)
    requires cursor < end && !fails(cursor)
    requires forall k | 0 <= k < |page(cursor)| :: !Readable(page(cursor)[k])
    ensures Scan(page, fails, wanted, cursor, end) == Exhausted
  {
    PageHitIsHit(page(cursor), wanted);
    LastSeenIsOffset(page(cursor), cursor);
  }

  // ----- When a scan fails, and when it is complete -----

  /** The cursors the scan sends a request for, the one that fails included. */
  function Requests(page: Pages, fails: nat -> bool, wanted: Match, cursor: nat, end: nat): seq<nat>
    decreases if cursor < end then end - cursor else 0
  {
    if cursor >= end then []
    else if fails(cursor) then [cursor]
    else
      var next := LastSeen(page(cursor), cursor);
      [cursor] + if PageHit(page(cursor), wanted).Some? || next <= cursor then []
                 else Requests(page, fails, wanted, next, end)
  }

  /** A scan breaks off exactly when one of its own requests fails: reaching the ledger end, an
      empty page or a page that moves the cursor nowhere is no failure. */
  lemma {:induction false} BrokenIff(page: Pages, fails: nat -> bool, wanted: Match, cursor: nat, end: nat)
    ensures Scan(page, fails, wanted, cursor, end) == Broken
            <==> exists c :: c in Requests(page, fails, wanted, cursor, end) && fails(c)
    decreases if cursor < end then end - cursor else 0
  {
    if cursor < end && !fails(cursor) {
      var next := LastSeen(page(cursor), cursor);
      if PageHit(page(cursor), wanted).None? && next > cursor {
        BrokenIff(page, fails, wanted, next, end);
      } else if page(cursor) == [] {
        assert PageHit(page(cursor), wanted).None?;
      }
    } else if cursor < end {
      assert cursor in Requests(page, fails, wanted, cursor, end);
    }
  }

  /** Some update in (from, end] matches. */
  ghost predicate SomeIn(updates: seq<Item>, wanted: Match, from: nat, end: nat) {
    exists i :: 0 <= i < |updates| && from < OffsetOf(updates[i]) <= end && Hits(updates[i], wanted)
  }

  /** A faithful server that answers every request with a page the scan can read: the scan ends
      with a hit if and only if some update in the range matches, and otherwise at the ledger end. */
  lemma ScanIsComplete(
    updates: seq<Item>, page: Pages, fails: nat -> bool, wanted: Match, cursor: nat, end: nat)
    requires Ordered(updates) && Faithful(updates, page, end, Cursors(page, fails, wanted, cursor, end))
    requires forall c | c in Requests(page, fails, wanted, cursor, end) :: !fails(c) && !Unreadable(page(c))
    ensures SomeIn(updates, wanted, cursor, end) ==> Scan(page, fails, wanted, cursor, end).Hit?
    ensures !SomeIn(updates, wanted, cursor, end) ==> Scan(page, fails, wanted, cursor, end) == Exhausted
  {
    hide Hits, Unreadable;
    BrokenIff(page, fails, wanted, cursor, end);
    CursorsAreRequests(page, fails, wanted, cursor, end);
    match Scan(page, fails, wanted, cursor, end) {
      case Hit(_) => HitMatches(updates, page, fails, wanted, cursor, end);
      case Exhausted => NotFoundMeansNone(updates, page, fails, wanted, cursor, end);
      case Broken =>
    }
  }

  lemma {:induction false} CursorsAreRequests(page: Pages, fails: nat -> bool, wanted: Match, cursor: nat, end: nat)
    ensures forall c | c in Cursors(page, fails, wanted, cursor, end) :: c in Requests(page, fails, wanted, cursor, end)
    decreases if cursor < end then end - cursor else 0
  {
    if cursor < end && !fails(cursor) {
      var next := LastSeen(page(cursor), cursor);
      if PageHit(page(cursor), wanted).None? && next > cursor { CursorsAreRequests(page, fails, wanted, next, end); }
    }
  }

  // ----- Which servers hide something -----

  const NoMatch: Match := _ => false

  function Only(tree: Tree): Match { t => t == tree }

  /** A readable update behind an unreadable page that a scan may ask for. */
  ghost predicate Hides(updates: seq<Item>, page: Pages, fails: nat -> bool, cursor: nat, end: nat) {
    exists c, i ::
      && c in Cursors(page, fails, NoMatch, cursor, end) && Unreadable(page(c))
      && 0 <= i < |updates| && Readable(updates[i]) && c < OffsetOf(updates[i]) <= end
  }

  /** Whoever looks for something stops no later than one who looks for nothing. */
  lemma {:induction false} CursorsShrink(page: Pages, fails: nat -> bool, wanted: Match, cursor: nat, end: nat)
    ensures forall c :: c in Cursors(page, fails, wanted, cursor, end) ==> c in Cursors(page, fails, NoMatch, cursor, end)
    decreases if cursor < end then end - cursor else 0
  {
    if cursor < end && !fails(cursor) {
      var next := LastSeen(page(cursor), cursor);
      PageHitIsHit(page(cursor), NoMatch);
      if next > cursor { CursorsShrink(page, fails, wanted, next, end); }
    }
  }

  lemma {:induction false} CursorsAhead(page: Pages, fails: nat -> bool, wanted: Match, cursor: nat, end: nat)
    ensures forall c | c in Cursors(page, fails, wanted, cursor, end) :: cursor <= c < end && !fails(c)
    decreases if cursor < end then end - cursor else 0
  {
    if cursor < end && !fails(cursor) {
      var next := LastSeen(page(cursor), cursor);
      if next > cursor { CursorsAhead(page, fails, wanted, next, end); }
    }
  }

  /** A tree behind an unreadable page is never found, whatever lies before that page. */
  lemma {:induction false} HiddenTreeIsMissed(
    page: Pages, fails: nat -> bool, tree: Tree, c: nat, cursor: nat, end: nat)
    requires c in Cursors(page, fails, NoMatch, cursor, end) && Unreadable(page(c)) && c < tree.offset
    ensures Scan(page, fails, Only(tree), cursor, end) == Exhausted
    decreases if cursor < end then end - cursor else 0
  {
    if c == cursor {
      UnreadablePageEndsScan(page, fails, Only(tree), cursor, end);
    } else {
      var items, next := page(cursor), LastSeen(page(cursor), cursor);
      HiddenTreeIsMissed(page, fails, tree, c, next, end);
      CursorsAhead(page, fails, NoMatch, next, end);
      LastSeenIsOffset(items, cursor);
      PageHitIsHit(items, Only(tree));
    }
  }

  /** For a faithful server "not found" is right for every search if and only if the server hides
      no readable update behind an unreadable page. */
  lemma CompleteIff(updates: seq<Item>, page: Pages, fails: nat -> bool, cursor: nat, end: nat)
    requires Ordered(updates) && Faithful(updates, page, end, Cursors(page, fails, NoMatch, cursor, end))
    ensures (forall wanted: Match :: Scan(page, fails, wanted, cursor, end) == Exhausted
                                     ==> NoneIn(updates, wanted, cursor, end))
            <==> !Hides(updates, page, fails, cursor, end)
  {
    if Hides(updates, page, fails, cursor, end) {
      var c, i :| c in Cursors(page, fails, NoMatch, cursor, end) && Unreadable(page(c))
                  && 0 <= i < |updates| && Readable(updates[i]) && c < OffsetOf(updates[i]) <= end;
      var wanted := Only(updates[i].tree);
      HiddenTreeIsMissed(page, fails, updates[i].tree, c, cursor, end);
      CursorsAhead(page, fails, NoMatch, cursor, end);
      assert Hits(updates[i], wanted);
      assert !NoneIn(updates, wanted, cursor, end);
      assert Scan(page, fails, wanted, cursor, end) == Exhausted;
    } else {
      forall wanted: Match | Scan(page, fails, wanted, cursor, end) == Exhausted
        ensures NoneIn(updates, wanted, cursor, end)
      {
        CursorsShrink(page, fails, wanted, cursor, end);
        NotFoundMeansNone(updates, page, fails, wanted, cursor, end);
      }
    }
  }

  /** Such servers are faithful: one whose first page holds only an update that cannot be read. */
  lemma UnreadablePageHidesMatch(fails: nat -> bool, wanted: Match, tree: Tree)
    requires tree.updateId != "" && wanted(tree) && tree.offset == 2 && !fails(0)
    ensures var updates := [Other(1), Transaction(tree)];
      var page: Pages := cursor => if cursor == 0 then [Other(1)] else if cursor == 1 then [Transaction(tree)] else [];
      && Ordered(updates) && (forall cursor: nat :: FaithfulPage(updates, cursor, 2, page(cursor)))
      && Scan(page, fails, wanted, 0, 2) == Exhausted && !NoneIn(updates, wanted, 0, 2)
  {
    var updates := [Other(1), Transaction(tree)];
    var page: Pages := cursor => if cursor == 0 then [Other(1)] else if cursor == 1 then [Transaction(tree)] else [];
    forall cursor: nat ensures FaithfulPage(updates, cursor, 2, page(cursor)) {
      if cursor == 0 { assert PageAt(updates, cursor, 2, page(cursor), 0, 1); }
      else if cursor == 1 { assert PageAt(updates, cursor, 2, page(cursor), 1, 2); }
      else { assert PageAt(updates, cursor, 2, page(cursor), 2, 2); }
    }
    assert PageHit([Other(1)], wanted) == PageHit([Other(1)][..0], wanted);
    assert LastSeen([Other(1)], 0) == LastSeen([Other(1)][..0], 0);
    assert Hits(updates[1], wanted) && OffsetOf(updates[1]) == 2;
  }
}
