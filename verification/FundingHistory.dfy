/**
  Paging through a venue's funding payments (`fetch_realized_funding` in
  bot_utils/futures_funding.py).  A total is published only from a complete,
  readable history; everything else is no answer at all.
 */
module FundingHistory {
  import opened Wrappers

  datatype Side = Long | Short

  datatype Ident = NoId(symbol: string) | BadId | Id(text: string)

  /** One payment as parsed; a row that is no record, of another symbol, or without amount or time is unreadable. */
  datatype Row = Unreadable | Payment(ts: int, amount: real, side: Option<Side>, ident: Ident)

  datatype Page = NoPage | Page(rows: seq<Row>)

  datatype Query = Query(since: int, until: Option<int>, native: bool, expected: Option<Side>, maxPages: nat,
      bound: Option<real>)

  /** The venue's answer to page `n` asked with a given cursor. */
  type Venue = (nat, int) -> Page

  const PAGE_LIMIT := 50

  datatype Key = ById(text: string) | ByContent(ts: int, amount: real, symbol: string)

  /** What has been gathered; `seen` remembers time and amount under which each key was first met. */
  datatype Gathered = Gathered(history: seq<Row>, seen: map<Key, (int, real)>, unverifiable: bool, added: nat,
      maxTs: int)

  predicate InWindow(q: Query, ts: int) {
    q.since <= ts && (q.until.None? || ts <= q.until.value)
  }

  /** A payment that belongs to the position: in the window, and not known to be of the other side. */
  predicate Counts(q: Query, r: Row) {
    r.Payment? && InWindow(q, r.ts) && (q.expected.None? || r.side.None? || r.side == q.expected)
  }

  predicate Unidentified(q: Query, r: Row)
    requires r.Payment?
  {
    r.ident.BadId? || (q.native && r.ident.NoId?)
  }

  function KeyOf(r: Row): Key
    requires r.Payment? && !r.ident.BadId?
  {
    if r.ident.Id? then ById(r.ident.text) else ByContent(r.ts, r.amount, r.ident.symbol)
  }

  // ------------------------------------------------------------ one page

  function Take(g: Gathered, q: Query, r: Row): Gathered {
    if r.Unreadable? then g.(unverifiable := true)
    else
      var g' := g.(maxTs := if g.maxTs < r.ts then r.ts else g.maxTs);
      if !Counts(q, r) then g'
      else if Unidentified(q, r) then g'.(unverifiable := true)
      else if KeyOf(r) in g.seen then
        (if g.seen[KeyOf(r)] == (r.ts, r.amount) then g' else g'.(unverifiable := true))
      else g'.(history := g.history + [r], seen := g.seen[KeyOf(r) := (r.ts, r.amount)], added := g.added + 1)
  }

  function TakeAll(g: Gathered, q: Query, rows: seq<Row>): Gathered {
    if rows == [] then g else Take(TakeAll(g, q, rows[..|rows| - 1]), q, rows[|rows| - 1])
  }

  function Scan(g: Gathered, q: Query, rows: seq<Row>, cursor: int): Gathered {
    TakeAll(g.(added := 0, maxTs := cursor), q, rows)
  }

  predicate Usable(page: Page) {
    page.Page? && |page.rows| <= PAGE_LIMIT
  }

  // ------------------------------------------------------------ all pages

  /** The complete history from page `n` on, or None. */
  function Fetch(q: Query, venue: Venue, n: nat, cursor: int, g: Gathered): Option<seq<Row>>
    requires n <= q.maxPages
    decreases q.maxPages - n
  {
    if n == q.maxPages || !Usable(venue(n, cursor)) then None
    else
      var rows := venue(n, cursor).rows;
      var g' := Scan(g, q, rows, cursor);
      if g'.unverifiable then None
      else if |rows| < PAGE_LIMIT then Some(g'.history)
      else if q.native then Fetch(q, venue, n + 1, cursor, g')
      else if g'.added == 0 || g'.maxTs <= cursor then None
      else Fetch(q, venue, n + 1, g'.maxTs + 1, g')
  }

  const Nothing := Gathered([], map[], false, 0, 0)

  function Received(history: seq<Row>): real {
    if history == [] then 0.0
    else Received(history[..|history| - 1]) + (if history[|history| - 1].Payment? then history[|history| - 1].amount
        else 0.0)
  }

  function Abs(x: real): real {
    if x < 0.0 then -x else x
  }

  /** The bound the database puts on a funding amount for this notional. */
  predicate Plausible(total: real, notional: real) {
    notional > 0.0 && Abs(total) <= (if notional * 0.20 < 0.25 then 0.25 else notional * 0.20)
  }

  function Realized(q: Query, venue: Venue): Option<real> {
    var history := Fetch(q, venue, 0, q.since, Nothing);
    if history.None? then None
    else
      var total := -Received(history.value);
      if q.bound.Some? && !Plausible(total, q.bound.value) then None else Some(total)
  }

  method FetchRealizedFunding(q: Query, venue: Venue) returns (total: Option<real>)
    ensures total == Realized(q, venue)
  {
    var g, cursor, n := Nothing, q.since, 0;
    var complete := false;
    while n < q.maxPages && !complete
      invariant 0 <= n <= q.maxPages
      invariant complete ==> Fetch(q, venue, 0, q.since, Nothing) == Some(g.history)
      invariant !complete ==> Fetch(q, venue, 0, q.since, Nothing) == Fetch(q, venue, n, cursor, g)
      decreases q.maxPages - n, if complete then 0 else 1
    {
      var page := venue(n, cursor);
      if !Usable(page) {
        return None;
      }
      ghost var before := g;
      g := g.(added := 0, maxTs := cursor);
      var i := 0;
      while i < |page.rows|
        invariant 0 <= i <= |page.rows|
        invariant g == TakeAll(before.(added := 0, maxTs := cursor), q, page.rows[..i])
      {
        assert page.rows[..i + 1][..i] == page.rows[..i];
        g := Take(g, q, page.rows[i]);
        i := i + 1;
      }
      assert page.rows[..i] == page.rows;
      if g.unverifiable {
        return None;
      }
      if |page.rows| < PAGE_LIMIT {
        complete := true;
      } else {
        if !q.native {
          if g.added == 0 || g.maxTs <= cursor {
            return None;
          }
          cursor := g.maxTs + 1;
        }
        n := n + 1;
      }
    }
    if !complete {
      return None;
    }
    var received, i := 0.0, 0;
    while i < |g.history|
      invariant 0 <= i <= |g.history|
      invariant received == Received(g.history[..i])
    {
      assert g.history[..i + 1][..i] == g.history[..i];
      received := received + (if g.history[i].Payment? then g.history[i].amount else 0.0);
      i := i + 1;
    }
    assert g.history[..i] == g.history;
    if q.bound.Some? && !Plausible(-received, q.bound.value) {
      return None;
    }
    total := Some(-received);
  }

  // ------------------------------------------------- never a partial sum

  /** `history` holds each payment of `rows` that counts exactly once. */
  ghost predicate EachOnce(q: Query, history: seq<Row>, rows: seq<Row>) {
    && (forall r :: r in rows ==> r.Payment? && (Counts(q, r) ==> !Unidentified(q, r)))
    && (forall h :: h in history ==> h in rows && Counts(q, h))
    && (forall r :: r in rows && Counts(q, r) ==> Recorded(history, r))
    && (forall i, j :: 0 <= i < j < |history| && Identified(history[i]) && Identified(history[j]) ==>
          KeyOf(history[i]) != KeyOf(history[j]))
  }

  predicate Identified(r: Row) {
    r.Payment? && !r.ident.BadId?
  }

  /** The same payment is in the history, with the same time and amount. */
  ghost predicate Recorded(history: seq<Row>, r: Row) {
    Identified(r)
    && exists h :: h in history && Identified(h) && KeyOf(h) == KeyOf(r) && h.ts == r.ts && h.amount == r.amount
  }

  /** The bookkeeping agrees with the history. */
  ghost predicate Consistent(g: Gathered) {
    && (forall h :: h in g.history ==> Identified(h) && KeyOf(h) in g.seen && g.seen[KeyOf(h)] == (h.ts, h.amount))
    && (forall k :: k in g.seen ==>
          exists h :: h in g.history && Identified(h) && KeyOf(h) == k && g.seen[k] == (h.ts, h.amount))
  }

  lemma AppendKeepsRecorded(history: seq<Row>, h: Row, r: Row)
    requires Recorded(history, r)
    ensures Recorded(history + [h], r)
  {
    var x :| x in history && Identified(x) && KeyOf(x) == KeyOf(r) && x.ts == r.ts && x.amount == r.amount;
    assert x in history + [h];
  }

  /** The bookkeeping after a payment that is new. */
  lemma NewKeepsConsistent(g: Gathered, q: Query, r: Row)
    requires Consistent(g) && Counts(q, r) && Identified(r) && KeyOf(r) !in g.seen
    ensures Consistent(g.(history := g.history + [r], seen := g.seen[KeyOf(r) := (r.ts, r.amount)]))
  {
    var history, seen := g.history + [r], g.seen[KeyOf(r) := (r.ts, r.amount)];
    forall k | k in seen
      ensures exists h :: h in history && Identified(h) && KeyOf(h) == k && seen[k] == (h.ts, h.amount)
    {
      if k == KeyOf(r) {
        assert r in history;
      } else {
        var h :| h in g.history && Identified(h) && KeyOf(h) == k && g.seen[k] == (h.ts, h.amount);
        assert h in history;
      }
    }
  }

  lemma NewKeepsOnce(g: Gathered, q: Query, rows: seq<Row>, r: Row)
    requires EachOnce(q, g.history, rows) && Consistent(g)
    requires Counts(q, r) && !Unidentified(q, r) && KeyOf(r) !in g.seen
    ensures EachOnce(q, g.history + [r], rows + [r])
  {
    var history := g.history + [r];
    forall x | x in rows + [r] && Counts(q, x) ensures Recorded(history, x) {
      if x in rows {
        AppendKeepsRecorded(g.history, r, x);
      } else {
        assert r in history;
      }
    }
    forall i, j | 0 <= i < j < |history| && Identified(history[i]) && Identified(history[j])
      ensures KeyOf(history[i]) != KeyOf(history[j])
    {
      assert history[i] in g.history;
    }
  }

  lemma OldKeepsOnce(g: Gathered, q: Query, rows: seq<Row>, r: Row)
    requires EachOnce(q, g.history, rows) && Consistent(g) && r.Payment?
    requires Counts(q, r) ==> !Unidentified(q, r) && KeyOf(r) in g.seen && g.seen[KeyOf(r)] == (r.ts, r.amount)
    ensures EachOnce(q, g.history, rows + [r])
  {
    if Counts(q, r) {
      var h :| h in g.history && Identified(h) && KeyOf(h) == KeyOf(r) && g.seen[KeyOf(r)] == (h.ts, h.amount);
      assert Recorded(g.history, r);
    }
    assert forall x :: x in rows + [r] <==> x in rows || x == r;
  }

  lemma TakeKeepsOnce(g: Gathered, q: Query, rows: seq<Row>, r: Row)
    requires EachOnce(q, g.history, rows) && Consistent(g) && !Take(g, q, r).unverifiable
    ensures EachOnce(q, Take(g, q, r).history, rows + [r]) && Consistent(Take(g, q, r))
  {
    if Counts(q, r) && KeyOf(r) !in g.seen {
      NewKeepsOnce(g, q, rows, r);
      NewKeepsConsistent(g, q, r);
    } else {
      OldKeepsOnce(g, q, rows, r);
    }
  }

  lemma {:induction false} TakeAllKeepsOnce(g: Gathered, q: Query, rows: seq<Row>, more: seq<Row>)
    requires EachOnce(q, g.history, rows) && Consistent(g) && !TakeAll(g, q, more).unverifiable
    ensures EachOnce(q, TakeAll(g, q, more).history, rows + more) && Consistent(TakeAll(g, q, more))
  {
    if more == [] {
      assert rows + more == rows;
    } else {
      var init, r := more[..|more| - 1], more[|more| - 1];
      TakeAllKeepsOnce(g, q, rows, init);
      TakeKeepsOnce(TakeAll(g, q, init), q, rows + init, r);
      assert rows + more == rows + init + [r];
    }
  }

  function Joined(pages: seq<seq<Row>>): seq<Row> {
    if pages == [] then [] else pages[0] + Joined(pages[1..])
  }

  /** Where the next page is asked to start. */
  function NextCursor(q: Query, rows: seq<Row>, cursor: int): int {
    if q.native then cursor else LatestFrom(rows, cursor) + 1
  }

  function LatestFrom(rows: seq<Row>, cursor: int): int {
    if rows == [] then cursor
    else
      var latest := LatestFrom(rows[..|rows| - 1], cursor);
      var r := rows[|rows| - 1];
      if r.Payment? && latest < r.ts then r.ts else latest
  }

  /** `pages` are the venue's consecutive answers from page `n` on; only the last is short. */
  ghost predicate Answers(q: Query, venue: Venue, n: nat, cursor: int, pages: seq<seq<Row>>)
    decreases |pages|
  {
    pages != [] && n + |pages| <= q.maxPages
    && venue(n, cursor) == Page(pages[0])
    && if |pages| == 1 then |pages[0]| < PAGE_LIMIT
       else |pages[0]| == PAGE_LIMIT && Answers(q, venue, n + 1, NextCursor(q, pages[0], cursor), pages[1..])
  }

  lemma {:induction false} TakeAllTracksLatest(g: Gathered, q: Query, rows: seq<Row>)
    ensures TakeAll(g, q, rows).maxTs == LatestFrom(rows, g.maxTs)
  {
    if rows != [] {
      TakeAllTracksLatest(g, q, rows[..|rows| - 1]);
    }
  }

  lemma {:induction false} FetchedIsComplete(q: Query, venue: Venue, n: nat, cursor: int, g: Gathered, rows: seq<Row>)
    requires n <= q.maxPages && Fetch(q, venue, n, cursor, g).Some?
    requires EachOnce(q, g.history, rows) && Consistent(g)
    ensures exists pages :: Answers(q, venue, n, cursor, pages)
                            && EachOnce(q, Fetch(q, venue, n, cursor, g).value, rows + Joined(pages))
    decreases q.maxPages - n
  {
    var page := venue(n, cursor).rows;
    var start := g.(added := 0, maxTs := cursor);
    var g' := Scan(g, q, page, cursor);
    TakeAllKeepsOnce(start, q, rows, page);
    if |page| < PAGE_LIMIT {
      assert Joined([page]) == page;
      assert Answers(q, venue, n, cursor, [page]);
    } else {
      TakeAllTracksLatest(start, q, page);
      var next := NextCursor(q, page, cursor);
      FetchedIsComplete(q, venue, n + 1, next, g', rows + page);
      var rest :| Answers(q, venue, n + 1, next, rest)
                  && EachOnce(q, Fetch(q, venue, n + 1, next, g').value, rows + page + Joined(rest));
      var pages := [page] + rest;
      assert pages[1..] == rest && rows + Joined(pages) == rows + page + Joined(rest);
      assert Answers(q, venue, n, cursor, pages);
    }
  }

  /**
    A total never leaves out anything that was served: it is minus the sum of a
    history that holds each served payment of the window exactly once, taken
    from pages that follow each other up to a short one, all readable.
   */
  lemma NeverAPartialSum(q: Query, venue: Venue)
    requires Realized(q, venue).Some?
    ensures exists pages, history ::
              && Answers(q, venue, 0, q.since, pages) && EachOnce(q, history, Joined(pages))
              && Realized(q, venue).value == -Received(history)
  {
    FetchedIsComplete(q, venue, 0, q.since, Nothing, []);
    var history := Fetch(q, venue, 0, q.since, Nothing).value;
    var pages :| Answers(q, venue, 0, q.since, pages) && EachOnce(q, history, [] + Joined(pages));
    assert [] + Joined(pages) == Joined(pages);
  }

  // ------------------------------------------------- exactly when and which total

  /** A payment that the position can have made: in its time, and not known to be of the other side. */
  ghost predicate Relevant(q: Query, r: Row) {
    && r.Payment? && q.since <= r.ts && (q.until.Some? ==> r.ts <= q.until.value)
    && !(q.expected.Some? && r.side.Some? && r.side.value != q.expected.value)
  }

  /** A payment that matters carries an id; where the venue has none, its content stands for it. */
  ghost predicate Legible(q: Query, r: Row) {
    r.Payment? && (Relevant(q, r) ==> r.ident.Id? || (r.ident.NoId? && !q.native))
  }

  /** Two rows of one payment. */
  ghost predicate Same(a: Row, b: Row) {
    a.Payment? && b.Payment? && a.ident == b.ident
    && (a.ident.Id? || (a.ident.NoId? && a.ts == b.ts && a.amount == b.amount))
  }

  /** Two rows under one id that do not say the same. */
  ghost predicate Contradict(a: Row, b: Row) {
    a.Payment? && b.Payment? && a.ident.Id? && a.ident == b.ident && (a.ts != b.ts || a.amount != b.amount)
  }

  ghost predicate AllLegible(q: Query, rows: seq<Row>) {
    && (forall r :: r in rows ==> Legible(q, r))
    && (forall a, b :: a in rows && b in rows && Relevant(q, a) && Relevant(q, b) ==> !Contradict(a, b))
  }

  /** The relevant payments, each once. */
  ghost function Distinct(q: Query, rows: seq<Row>): seq<Row> {
    if rows == [] then []
    else
      var init, r := rows[..|rows| - 1], rows[|rows| - 1];
      if Relevant(q, r) && !IsOld(q, init, r) then Distinct(q, init) + [r] else Distinct(q, init)
  }

  ghost predicate IsOld(q: Query, rows: seq<Row>, r: Row) {
    exists b :: b in rows && Relevant(q, b) && Same(b, r)
  }

  lemma {:induction false} DistinctCover(q: Query, rows: seq<Row>, b: Row) returns (h: Row)
    requires b in rows && Relevant(q, b) && Legible(q, b)
    ensures h in Distinct(q, rows) && Same(h, b)
  {
    var init, r := rows[..|rows| - 1], rows[|rows| - 1];
    if b in init {
      h := DistinctCover(q, init, b);
    } else if IsOld(q, init, r) {
      var old' :| old' in init && Relevant(q, old') && Same(old', r);
      h := DistinctCover(q, init, old');
    } else {
      h := r;
    }
  }

  lemma {:induction false} DistinctAreRelevant(q: Query, rows: seq<Row>)
    ensures forall h :: h in Distinct(q, rows) ==> h in rows && Relevant(q, h)
  {
    if rows != [] {
      DistinctAreRelevant(q, rows[..|rows| - 1]);
    }
  }

  /** What has been gathered stands for the rows read so far. */
  ghost predicate Represents(q: Query, rows: seq<Row>, g: Gathered) {
    && g.unverifiable == !AllLegible(q, rows)
    && (!g.unverifiable ==> Consistent(g) && g.history == Distinct(q, rows))
  }

  lemma SeenIffOld(q: Query, rows: seq<Row>, g: Gathered, r: Row)
    requires Represents(q, rows, g) && !g.unverifiable && Relevant(q, r) && Legible(q, r)
    ensures KeyOf(r) in g.seen <==> IsOld(q, rows, r)
    ensures KeyOf(r) in g.seen ==>
              (g.seen[KeyOf(r)] == (r.ts, r.amount) <==>
               forall b :: b in rows && Relevant(q, b) ==> !Contradict(b, r))
  {
    DistinctAreRelevant(q, rows);
    if KeyOf(r) in g.seen {
      var h :| h in g.history && Identified(h) && KeyOf(h) == KeyOf(r) && g.seen[KeyOf(r)] == (h.ts, h.amount);
      assert Same(h, r);
      forall b | b in rows && Relevant(q, b) && Contradict(b, r) ensures Contradict(h, r) {
        assert !Contradict(h, b);
      }
    } else if IsOld(q, rows, r) {
      var b :| b in rows && Relevant(q, b) && Same(b, r);
      var _ := DistinctCover(q, rows, b);
    }
  }

  lemma LegibleWith(q: Query, rows: seq<Row>, r: Row)
    ensures AllLegible(q, rows + [r]) <==>
              && AllLegible(q, rows) && Legible(q, r)
              && (Relevant(q, r) ==> forall b :: b in rows && Relevant(q, b) ==> !Contradict(b, r))
  {
    var all := rows + [r];
    assert forall x :: x in all <==> x in rows || x == r;
    if AllLegible(q, all) {
      assert r in all;
    }
    forall a, b | a in rows && b == r && Contradict(b, a) ensures Contradict(a, b) {}
  }

  ghost predicate CountsNew(g: Gathered, g': Gathered) {
    g'.added - g.added == |g'.history| - |g.history|
  }

  lemma TakeRepresents(q: Query, rows: seq<Row>, g: Gathered, r: Row)
    requires Represents(q, rows, g)
    ensures Represents(q, rows + [r], Take(g, q, r)) && CountsNew(g, Take(g, q, r))
  {
    LegibleWith(q, rows, r);
    assert (rows + [r])[..|rows|] == rows;
    if !g.unverifiable && Relevant(q, r) && Legible(q, r) {
      SeenIffOld(q, rows, g, r);
      if KeyOf(r) !in g.seen {
        forall b | b in rows && Relevant(q, b) ensures !Contradict(b, r) {
          assert Same(b, r) ==> IsOld(q, rows, r);
        }
        NewKeepsConsistent(g, q, r);
      }
    }
  }

  lemma {:induction false} TakeAllRepresents(q: Query, rows: seq<Row>, g: Gathered, more: seq<Row>)
    requires Represents(q, rows, g)
    ensures var g' := TakeAll(g, q, more);
            Represents(q, rows + more, g') && CountsNew(g, g')
  {
    if more == [] {
      assert rows + more == rows;
    } else {
      var init, r := more[..|more| - 1], more[|more| - 1];
      TakeAllRepresents(q, rows, g, init);
      assert rows + more == (rows + init) + [r];
      TakeRepresents(q, rows + init, TakeAll(g, q, init), r);
    }
  }

  /** Each full page brings a payment that was not served before and moves the cursor. */
  ghost predicate Progress(q: Query, pages: seq<seq<Row>>, cursor: int, before: seq<Row>)
    decreases |pages|
  {
    |pages| <= 1
    || (&& |Distinct(q, before + pages[0])| > |Distinct(q, before)|
        && (exists r :: r in pages[0] && r.Payment? && r.ts > cursor)
        && Progress(q, pages[1..], LatestFrom(pages[0], cursor) + 1, before + pages[0]))
  }

  lemma {:induction false} LatestIsLater(rows: seq<Row>, cursor: int)
    ensures LatestFrom(rows, cursor) > cursor <==> exists r :: r in rows && r.Payment? && r.ts > cursor
    ensures LatestFrom(rows, cursor) >= cursor
  {
    if rows != [] {
      var init, r := rows[..|rows| - 1], rows[|rows| - 1];
      LatestIsLater(init, cursor);
      assert forall x :: x in rows <==> x in init || x == r;
    }
  }

  lemma LegiblePart(q: Query, rows: seq<Row>, more: seq<Row>)
    ensures AllLegible(q, rows + more) ==> AllLegible(q, rows)
  {
    if AllLegible(q, rows + more) {
      forall r | r in rows ensures Legible(q, r) {
        assert r in rows + more;
      }
      forall a, b | a in rows && b in rows && Relevant(q, a) && Relevant(q, b) ensures !Contradict(a, b) {
        assert a in rows + more && b in rows + more;
      }
    }
  }

  /** What makes the rows of these pages, after those before, a history. */
  ghost predicate IsHistory(q: Query, pages: seq<seq<Row>>, cursor: int, before: seq<Row>) {
    AllLegible(q, before + Joined(pages)) && (!q.native ==> Progress(q, pages, cursor, before))
  }

  lemma HistoryGoesOn(q: Query, pages: seq<seq<Row>>, cursor: int, before: seq<Row>)
    requires |pages| > 1
    ensures before + Joined(pages) == before + pages[0] + Joined(pages[1..])
    ensures IsHistory(q, pages, cursor, before) <==>
              && AllLegible(q, before + pages[0])
              && (!q.native ==> |Distinct(q, before + pages[0])| > |Distinct(q, before)|
                                && LatestFrom(pages[0], cursor) > cursor)
              && IsHistory(q, pages[1..], NextCursor(q, pages[0], cursor), before + pages[0])
  {
    assert before + Joined(pages) == before + pages[0] + Joined(pages[1..]);
    LegiblePart(q, before + pages[0], Joined(pages[1..]));
    LatestIsLater(pages[0], cursor);
  }

  lemma OnePageHistory(q: Query, page: seq<Row>, cursor: int, before: seq<Row>)
    ensures before + Joined([page]) == before + page
    ensures IsHistory(q, [page], cursor, before) <==> AllLegible(q, before + page)
  {
    assert Joined([page]) == page + Joined([]);
  }

  lemma {:induction false} FetchIff(q: Query, venue: Venue, n: nat, cursor: int, g: Gathered, rows: seq<Row>,
                                    pages: seq<seq<Row>>)
    requires n <= q.maxPages && Answers(q, venue, n, cursor, pages)
    requires Represents(q, rows, g) && !g.unverifiable
    ensures Fetch(q, venue, n, cursor, g)
         == if IsHistory(q, pages, cursor, rows) then Some(Distinct(q, rows + Joined(pages))) else None
    decreases |pages|
  {
    var page := pages[0];
    var start := g.(added := 0, maxTs := cursor);
    TakeAllRepresents(q, rows, start, page);
    if |pages| == 1 {
      assert pages == [page];
      OnePageHistory(q, page, cursor, rows);
    } else {
      HistoryGoesOn(q, pages, cursor, rows);
      TakeAllTracksLatest(start, q, page);
      if !Scan(g, q, page, cursor).unverifiable {
        FetchIff(q, venue, n + 1, NextCursor(q, page, cursor), Scan(g, q, page, cursor), rows + page, pages[1..]);
      }
    }
  }

  /** Not beyond a fifth of the notional, nor beyond a quarter where that is more; without notional nothing is. */
  ghost predicate InBound(bound: Option<real>, x: real) {
    bound.Some? ==>
      bound.value > 0.0 && ((-0.25 <= x <= 0.25) || (-(bound.value * 0.2) <= x <= bound.value * 0.2))
  }

  lemma RealizedFrom(q: Query, venue: Venue, fetched: Option<seq<Row>>, x: real)
    requires Fetch(q, venue, 0, q.since, Nothing) == fetched
    ensures Realized(q, venue) == Some(x) <==>
              fetched.Some? && x == -Received(fetched.value) && InBound(q.bound, x)
  {
  }

  lemma HistoryIsFetched(q: Query, venue: Venue, pages: seq<seq<Row>>)
    requires Answers(q, venue, 0, q.since, pages)
    ensures Fetch(q, venue, 0, q.since, Nothing)
         == if IsHistory(q, pages, q.since, []) then Some(Distinct(q, Joined(pages))) else None
  {
    assert Represents(q, [], Nothing);
    FetchIff(q, venue, 0, q.since, Nothing, [], pages);
    assert [] + Joined(pages) == Joined(pages);
  }

  /**
    What the pages come to is minus the sum of the distinct payments, if they
    are a history and it is within the bound.
   */
  ghost predicate ComeTo(q: Query, pages: seq<seq<Row>>, x: real) {
    IsHistory(q, pages, q.since, []) && x == -Received(Distinct(q, Joined(pages))) && InBound(q.bound, x)
  }

  lemma PagesDecide(q: Query, venue: Venue, pages: seq<seq<Row>>, x: real)
    requires Answers(q, venue, 0, q.since, pages)
    ensures Realized(q, venue) == Some(x) <==> ComeTo(q, pages, x)
  {
    HistoryIsFetched(q, venue, pages);
    RealizedFrom(q, venue, Fetch(q, venue, 0, q.since, Nothing), x);
  }

  /**
    There is a total exactly when the pages up to a short one come within the
    page limit, are legible throughout and make progress, and what they come to
    is within the bound; then it is minus the sum of the distinct payments.
   */
  lemma RealizedIff(q: Query, venue: Venue, x: real)
    ensures Realized(q, venue) == Some(x) <==>
              exists pages :: Answers(q, venue, 0, q.since, pages) && ComeTo(q, pages, x)
  {
    if Realized(q, venue) == Some(x) {
      FetchedIsComplete(q, venue, 0, q.since, Nothing, []);
      var pages :| Answers(q, venue, 0, q.since, pages);
      PagesDecide(q, venue, pages, x);
    }
    forall pages | Answers(q, venue, 0, q.since, pages) && ComeTo(q, pages, x)
      ensures Realized(q, venue) == Some(x)
    {
      PagesDecide(q, venue, pages, x);
    }
  }

  // ------------------------------------------- a venue that answers in order

  /** A readable payment from the start of the window on. */
  predicate Readable(q: Query, r: Row) {
    r.Payment? && !Unidentified(q, r) && q.since <= r.ts
  }

  predicate OwnKey(all: seq<Row>, i: int, j: int) {
    0 <= i < j < |all| && Identified(all[i]) && Identified(all[j]) ==> KeyOf(all[i]) != KeyOf(all[j])
  }

  /** Readable payments, each with a key of its own. */
  ghost predicate Proper(q: Query, all: seq<Row>) {
    && (forall r :: r in all ==> Readable(q, r))
    && (forall i: int, j: int :: OwnKey(all, i, j))
  }

  function TimeOf(r: Row): int {
    if r.Payment? then r.ts else 0
  }

  predicate NotLater(all: seq<Row>, i: int, j: int) {
    0 <= i < j < |all| ==> TimeOf(all[i]) <= TimeOf(all[j])
  }

  /** Several payments may carry the same time. */
  ghost predicate InTimeOrder(all: seq<Row>) {
    forall i: int, j: int :: NotLater(all, i, j)
  }

  /** The payments from index `a` up to index `b` that belong to the position. */
  function Counted(q: Query, all: seq<Row>, a: nat, b: nat): seq<Row>
    requires a <= b <= |all|
  {
    if a == b then []
    else if Counts(q, all[b - 1]) then Counted(q, all, a, b - 1) + [all[b - 1]]
    else Counted(q, all, a, b - 1)
  }

  /** Some payment between the two indices belongs to the position. */
  ghost predicate SomeCounts(q: Query, all: seq<Row>, a: nat, b: nat)
    requires b <= |all|
  {
    exists k :: a <= k < b && Counts(q, all[k])
  }

  predicate IsNew(seen: map<Key, (int, real)>, r: Row) {
    Identified(r) ==> KeyOf(r) !in seen
  }

  /** No payment from index `m` on was met before. */
  ghost predicate Unmet(g: Gathered, all: seq<Row>, m: nat) {
    forall i {:trigger IsNew(g.seen, all[i])} :: m <= i < |all| ==> IsNew(g.seen, all[i])
  }

  lemma TakeAdds(g: Gathered, q: Query, all: seq<Row>, m: nat)
    requires Proper(q, all) && m < |all| && Unmet(g, all, m) && !g.unverifiable
    ensures var g' := Take(g, q, all[m]);
            && !g'.unverifiable && Unmet(g', all, m + 1)
            && (Counts(q, all[m]) ==> g'.history == g.history + [all[m]] && g'.added == g.added + 1)
            && (!Counts(q, all[m]) ==> g'.history == g.history && g'.added == g.added)
  {
    var g' := Take(g, q, all[m]);
    assert all[m] in all && Readable(q, all[m]) && IsNew(g.seen, all[m]);
    forall i | m + 1 <= i < |all| ensures IsNew(g'.seen, all[i]) {
      assert IsNew(g.seen, all[i]) && OwnKey(all, m, i);
    }
  }

  /** Payments that were not met before are added where they count. */
  lemma {:induction false} TakeAllAdds(g: Gathered, q: Query, all: seq<Row>, a: nat, b: nat)
    requires Proper(q, all) && a <= b <= |all| && Unmet(g, all, a) && !g.unverifiable
    ensures var g' := TakeAll(g, q, all[a..b]);
            && !g'.unverifiable && g'.history == g.history + Counted(q, all, a, b) && Unmet(g', all, b)
            && g'.added >= g.added && (g'.added > g.added <==> SomeCounts(q, all, a, b))
    decreases b
  {
    if a < b {
      TakeAllAdds(g, q, all, a, b - 1);
      assert all[a..b][..b - 1 - a] == all[a..b - 1];
      TakeAdds(TakeAll(g, q, all[a..b - 1]), q, all, b - 1);
    } else {
      assert all[a..b] == [];
    }
  }

  /** Index of the first payment at or after the cursor, from index `k` on. */
  function FirstFrom(all: seq<Row>, cursor: int, k: nat): (m: nat)
    requires k <= |all|
    ensures k <= m <= |all|
    ensures forall i :: k <= i < m ==> TimeOf(all[i]) < cursor
    ensures m < |all| ==> cursor <= TimeOf(all[m])
    decreases |all| - k
  {
    if k == |all| || cursor <= TimeOf(all[k]) then k else FirstFrom(all, cursor, k + 1)
  }

  function FirstPage(rows: seq<Row>): seq<Row> {
    if |rows| <= PAGE_LIMIT then rows else rows[..PAGE_LIMIT]
  }

  /** A venue that answers with the first fifty payments at or after the cursor. */
  function CursorVenue(all: seq<Row>): Venue {
    (n: nat, cursor: int) => Page(FirstPage(all[FirstFrom(all, cursor, 0)..]))
  }

  /** Payments from index `m` on fill a page. */
  predicate Fills(all: seq<Row>, m: nat) {
    m + PAGE_LIMIT <= |all|
  }

  /** The cursor that follows the full page that starts at index `m`. */
  function CursorAfter(all: seq<Row>, m: nat): int
    requires Fills(all, m)
  {
    TimeOf(all[m + PAGE_LIMIT - 1]) + 1
  }

  /** Where the next page starts: payments at the time of the last one are skipped. */
  function NextStart(all: seq<Row>, m: nat): nat
    requires Fills(all, m)
  {
    FirstFrom(all, CursorAfter(all, m), m + PAGE_LIMIT)
  }

  /** The payments of the position from index `m` on that are served. */
  function Served(q: Query, all: seq<Row>, m: nat): seq<Row>
    requires m <= |all|
    decreases |all| - m
  {
    if !Fills(all, m) then Counted(q, all, m, |all|)
    else Counted(q, all, m, m + PAGE_LIMIT) + Served(q, all, NextStart(all, m))
  }

  /** The payments of the position from index `m` on that are never served. */
  function Lost(q: Query, all: seq<Row>, m: nat): seq<Row>
    requires m <= |all|
    decreases |all| - m
  {
    if !Fills(all, m) then []
    else Counted(q, all, m + PAGE_LIMIT, NextStart(all, m)) + Lost(q, all, NextStart(all, m))
  }

  /** The short page comes before the page limit, and each full page before it counts and moves the cursor. */
  ghost predicate Finishes(q: Query, all: seq<Row>, m: nat, cursor: int, n: nat)
    requires m <= |all|
    decreases |all| - m
  {
    n < q.maxPages
    && (!Fills(all, m)
        || (SomeCounts(q, all, m, m + PAGE_LIMIT) && cursor < CursorAfter(all, m) - 1
            && Finishes(q, all, NextStart(all, m), CursorAfter(all, m), n + 1)))
  }

  lemma {:induction false} LatestInOrder(rows: seq<Row>, cursor: int)
    requires InTimeOrder(rows) && rows != [] && cursor <= TimeOf(rows[0])
    requires forall r :: r in rows ==> r.Payment?
    ensures LatestFrom(rows, cursor) == TimeOf(rows[|rows| - 1])
  {
    if |rows| > 1 {
      OrderOfPart(rows, 0, |rows| - 1);
      assert rows[0..|rows| - 1] == rows[..|rows| - 1];
      LatestInOrder(rows[..|rows| - 1], cursor);
      assert NotLater(rows, |rows| - 2, |rows| - 1);
    } else {
      assert LatestFrom(rows[..0], cursor) == cursor;
    }
  }

  /** A cursor asks for the same payments wherever the search starts. */
  lemma CursorFinds(all: seq<Row>, cursor: int, k: nat)
    requires k <= |all| && forall i :: 0 <= i < k ==> TimeOf(all[i]) < cursor
    ensures FirstFrom(all, cursor, 0) == FirstFrom(all, cursor, k)
  {
  }

  lemma OrderOfPart(all: seq<Row>, m: nat, k: nat)
    requires InTimeOrder(all) && m <= k <= |all|
    ensures InTimeOrder(all[m..k])
  {
    forall i, j | 0 <= i < j < k - m ensures TimeOf(all[m..k][i]) <= TimeOf(all[m..k][j]) {
      assert all[m..k][i] == all[m + i] && all[m..k][j] == all[m + j] && NotLater(all, m + i, m + j);
    }
  }

  lemma ShortPageEnds(q: Query, venue: Venue, n: nat, cursor: int, g: Gathered, all: seq<Row>, m: nat)
    requires n < q.maxPages && m <= |all| < m + PAGE_LIMIT && venue(n, cursor) == Page(all[m..|all|])
    requires Proper(q, all) && Unmet(g, all, m) && !g.unverifiable
    ensures Fetch(q, venue, n, cursor, g) == Some(g.history + Counted(q, all, m, |all|))
  {
    TakeAllAdds(g.(added := 0, maxTs := cursor), q, all, m, |all|);
  }

  /** After a full page a numbered venue is asked for the next one. */
  lemma NumberedPageGoesOn(q: Query, venue: Venue, n: nat, cursor: int, g: Gathered, all: seq<Row>, m: nat)
      returns (g': Gathered)
    requires q.native && n < q.maxPages && Fills(all, m) && venue(n, cursor) == Page(all[m..m + PAGE_LIMIT])
    requires Proper(q, all) && Unmet(g, all, m) && !g.unverifiable
    ensures !g'.unverifiable && g'.history == g.history + Counted(q, all, m, m + PAGE_LIMIT)
        && Unmet(g', all, m + PAGE_LIMIT)
    ensures Fetch(q, venue, n, cursor, g) == Fetch(q, venue, n + 1, cursor, g')
  {
    TakeAllAdds(g.(added := 0, maxTs := cursor), q, all, m, m + PAGE_LIMIT);
    g' := Scan(g, q, all[m..m + PAGE_LIMIT], cursor);
  }

  /** A cursor venue too, unless the page added nothing or the cursor did not move. */
  lemma CursorPageGoesOn(q: Query, venue: Venue, n: nat, cursor: int, g: Gathered, all: seq<Row>, m: nat)
      returns (g': Gathered)
    requires !q.native && n < q.maxPages && Fills(all, m) && venue(n, cursor) == Page(all[m..m + PAGE_LIMIT])
    requires Proper(q, all) && Unmet(g, all, m) && !g.unverifiable && InTimeOrder(all) && cursor <= TimeOf(all[m])
    ensures !g'.unverifiable && g'.history == g.history + Counted(q, all, m, m + PAGE_LIMIT)
        && Unmet(g', all, m + PAGE_LIMIT)
    ensures Fetch(q, venue, n, cursor, g)
         == if SomeCounts(q, all, m, m + PAGE_LIMIT) && cursor < CursorAfter(all, m) - 1
            then Fetch(q, venue, n + 1, CursorAfter(all, m), g') else None
  {
    var start := g.(added := 0, maxTs := cursor);
    TakeAllAdds(start, q, all, m, m + PAGE_LIMIT);
    TakeAllTracksLatest(start, q, all[m..m + PAGE_LIMIT]);
    LatestOfPage(q, all, m, cursor);
    g' := Scan(g, q, all[m..m + PAGE_LIMIT], cursor);
  }

  lemma LatestOfPage(q: Query, all: seq<Row>, m: nat, cursor: int)
    requires Fills(all, m) && InTimeOrder(all) && Proper(q, all) && cursor <= TimeOf(all[m])
    ensures LatestFrom(all[m..m + PAGE_LIMIT], cursor) + 1 == CursorAfter(all, m)
  {
    OrderOfPart(all, m, m + PAGE_LIMIT);
    forall r | r in all[m..m + PAGE_LIMIT] ensures r.Payment? {
      assert r in all && Readable(q, r);
    }
    LatestInOrder(all[m..m + PAGE_LIMIT], cursor);
  }

  lemma FirstPageFrom(all: seq<Row>, m: nat)
    requires m <= |all|
    ensures FirstPage(all[m..]) == if Fills(all, m) then all[m..m + PAGE_LIMIT] else all[m..|all|]
  {
  }

  /** After a full page the venue goes on where `NextStart` says. */
  lemma FullPageLeaves(all: seq<Row>, m: nat)
    requires Fills(all, m) && InTimeOrder(all)
    ensures FirstFrom(all, CursorAfter(all, m), 0) == NextStart(all, m)
  {
    forall i | 0 <= i < m + PAGE_LIMIT ensures TimeOf(all[i]) < CursorAfter(all, m) {
      assert NotLater(all, i, m + PAGE_LIMIT - 1);
    }
    CursorFinds(all, CursorAfter(all, m), m + PAGE_LIMIT);
  }

  lemma Regroup(a: seq<Row>, b: seq<Row>, c: seq<Row>)
    ensures a + b + c == a + (b + c)
  {
  }

  /** What a cursor venue gives from any page on. */
  lemma {:induction false} FetchServes(q: Query, all: seq<Row>, n: nat, cursor: int, g: Gathered, m: nat)
    requires !q.native && n <= q.maxPages && Proper(q, all) && InTimeOrder(all) && m == FirstFrom(all, cursor, 0)
    requires Unmet(g, all, m) && !g.unverifiable
    ensures Fetch(q, CursorVenue(all), n, cursor, g)
         == if Finishes(q, all, m, cursor, n) then Some(g.history + Served(q, all, m)) else None
    decreases q.maxPages - n
  {
    if n < q.maxPages {
      FirstPageFrom(all, m);
      if !Fills(all, m) {
        ShortPageEnds(q, CursorVenue(all), n, cursor, g, all, m);
      } else {
        var g' := CursorPageGoesOn(q, CursorVenue(all), n, cursor, g, all, m);
        if SomeCounts(q, all, m, m + PAGE_LIMIT) && cursor < CursorAfter(all, m) - 1 {
          FullPageLeaves(all, m);
          FetchServes(q, all, n + 1, CursorAfter(all, m), g', NextStart(all, m));
          Regroup(g.history, Counted(q, all, m, m + PAGE_LIMIT), Served(q, all, NextStart(all, m)));
        }
      }
    }
  }

  lemma RealizedIs(q: Query, venue: Venue, history: Option<seq<Row>>)
    requires q.bound.None? && Fetch(q, venue, 0, q.since, Nothing) == history
    ensures Realized(q, venue) == if history.None? then None else Some(-Received(history.value))
  {
  }

  /**
    A cursor venue's answer: minus the sum of the payments that are served, and
    it is given exactly when the last, short page comes before the page limit
    and each full page before it holds a counting payment and moves the cursor.
   */
  lemma CursorVenueIsSummed(q: Query, all: seq<Row>)
    requires Proper(q, all) && InTimeOrder(all) && !q.native && q.bound.None?
    ensures Realized(q, CursorVenue(all))
         == if Finishes(q, all, 0, q.since, 0) then Some(-Received(Served(q, all, 0))) else None
  {
    CursorVenueIsFetched(q, all, Served(q, all, 0), Finishes(q, all, 0, q.since, 0));
    RealizedIs(q, CursorVenue(all), if Finishes(q, all, 0, q.since, 0) then Some(Served(q, all, 0)) else None);
  }

  lemma CursorVenueIsFetched(q: Query, all: seq<Row>, served: seq<Row>, finishes: bool)
    requires Proper(q, all) && InTimeOrder(all) && !q.native
    requires served == Served(q, all, 0) && (finishes <==> Finishes(q, all, 0, q.since, 0))
    ensures Fetch(q, CursorVenue(all), 0, q.since, Nothing) == if finishes then Some(served) else None
  {
    if all != [] {
      assert all[0] in all && Readable(q, all[0]);
    }
    FetchServes(q, all, 0, q.since, Nothing, 0);
    assert [] + served == served;
  }

  // ------------------------------------------------------- what is not served

  lemma {:induction false} CountedOfBoth(q: Query, all: seq<Row>, a: nat, b: nat, c: nat)
    requires a <= b <= c <= |all|
    ensures Counted(q, all, a, c) == Counted(q, all, a, b) + Counted(q, all, b, c)
    decreases c
  {
    if b < c {
      CountedOfBoth(q, all, a, b, c - 1);
    }
  }

  lemma {:induction false} ReceivedOfBoth(a: seq<Row>, b: seq<Row>)
    ensures Received(a + b) == Received(a) + Received(b)
  {
    if b == [] {
      assert a + b == a;
    } else {
      ReceivedOfBoth(a, b[..|b| - 1]);
      assert (a + b)[..|a + b| - 1] == a + b[..|b| - 1];
    }
  }

  /** Served and lost payments together are all that count. */
  lemma {:induction false} ServedAndLostAreAll(q: Query, all: seq<Row>, m: nat)
    requires m <= |all|
    ensures Received(Counted(q, all, m, |all|)) == Received(Served(q, all, m)) + Received(Lost(q, all, m))
    ensures |Counted(q, all, m, |all|)| == |Served(q, all, m)| + |Lost(q, all, m)|
    ensures Lost(q, all, m) == [] ==> Served(q, all, m) == Counted(q, all, m, |all|)
    decreases |all| - m
  {
    if Fills(all, m) {
      var a, b := m + PAGE_LIMIT, NextStart(all, m);
      ServedAndLostAreAll(q, all, b);
      CountedOfBoth(q, all, m, a, |all|);
      CountedOfBoth(q, all, a, b, |all|);
      var page, tied, rest := Counted(q, all, m, a), Counted(q, all, a, b), Counted(q, all, b, |all|);
      ReceivedOfBoth(page, tied + rest);
      ReceivedOfBoth(tied, rest);
      ReceivedOfBoth(page, Served(q, all, b));
      ReceivedOfBoth(tied, Lost(q, all, b));
    }
  }

  /**
    So the published total is off by exactly the payments that tie with the last
    payment of a full page; the history behind it is complete exactly when none
    of those belongs to the position.
   */
  lemma CursorVenueIsSummedCompletely(q: Query, all: seq<Row>)
    requires Proper(q, all) && InTimeOrder(all) && !q.native && q.bound.None?
    ensures Realized(q, CursorVenue(all))
         == if Finishes(q, all, 0, q.since, 0)
            then Some(Received(Lost(q, all, 0)) - Received(Counted(q, all, 0, |all|))) else None
    ensures Served(q, all, 0) == Counted(q, all, 0, |all|) <==> Lost(q, all, 0) == []
  {
    SummedFrom(q, all, 0, Finishes(q, all, 0, q.since, 0));
  }

  lemma SummedFrom(q: Query, all: seq<Row>, m: nat, finishes: bool)
    requires Proper(q, all) && InTimeOrder(all) && !q.native && q.bound.None?
    requires m == 0 && finishes == Finishes(q, all, m, q.since, m)
    ensures Realized(q, CursorVenue(all))
         == if finishes then Some(Received(Lost(q, all, m)) - Received(Counted(q, all, m, |all|))) else None
    ensures Served(q, all, m) == Counted(q, all, m, |all|) <==> Lost(q, all, m) == []
  {
    CursorVenueIsSummed(q, all);
    OffByTheLost(q, all, m);
  }

  lemma OffByTheLost(q: Query, all: seq<Row>, m: nat)
    requires m <= |all|
    ensures -Received(Served(q, all, m)) == Received(Lost(q, all, m)) - Received(Counted(q, all, m, |all|))
    ensures Served(q, all, m) == Counted(q, all, m, |all|) <==> Lost(q, all, m) == []
  {
    ServedAndLostAreAll(q, all, m);
  }

  /** From index `PAGE_LIMIT * j` on, no multiple of fifty carries the time of the payment before it. */
  ghost predicate NoTieAtPageEnds(all: seq<Row>, j: nat) {
    forall n: nat :: j < n && PAGE_LIMIT * n < |all| ==> TimeOf(all[PAGE_LIMIT * n - 1]) < TimeOf(all[PAGE_LIMIT * n])
  }

  lemma NoTieFurtherOn(all: seq<Row>, j: nat)
    requires PAGE_LIMIT * (j + 1) < |all|
    ensures NoTieAtPageEnds(all, j)
       <==> NoTieAtPageEnds(all, j + 1) && TimeOf(all[PAGE_LIMIT * (j + 1) - 1]) < TimeOf(all[PAGE_LIMIT * (j + 1)])
  {
  }

  lemma {:induction false} AllCounted(q: Query, all: seq<Row>, a: nat, b: nat)
    requires a <= b <= |all| && forall i :: a <= i < b ==> Counts(q, all[i])
    ensures Counted(q, all, a, b) == all[a..b]
    decreases b
  {
    if a < b {
      AllCounted(q, all, a, b - 1);
    }
  }

  /** No tie, nothing lost; and where every payment belongs to the position, a tie is a loss. */
  lemma {:induction false} NothingIsLostIff(q: Query, all: seq<Row>, j: nat)
    requires InTimeOrder(all) && PAGE_LIMIT * j <= |all|
    ensures NoTieAtPageEnds(all, j) ==> Lost(q, all, PAGE_LIMIT * j) == []
    ensures (forall i :: 0 <= i < |all| ==> Counts(q, all[i])) && Lost(q, all, PAGE_LIMIT * j) == [] ==>
        NoTieAtPageEnds(all, j)
    decreases |all| - PAGE_LIMIT * j
  {
    var m := PAGE_LIMIT * j;
    if Fills(all, m) {
      var a, b := m + PAGE_LIMIT, NextStart(all, m);
      if a < |all| {
        NoTieFurtherOn(all, j);
        if TimeOf(all[a - 1]) < TimeOf(all[a]) {
          assert b == a;
          NothingIsLostIff(q, all, j + 1);
        } else {
          assert b > a;
          if forall i :: 0 <= i < |all| ==> Counts(q, all[i]) {
            AllCounted(q, all, a, b);
          }
        }
      }
    }
  }

  lemma {:induction false} UnitsAdd(rows: seq<Row>)
    requires forall i :: 0 <= i < |rows| ==> rows[i].Payment? && rows[i].amount == 1.0
    ensures Received(rows) == |rows| as real
  {
    if rows != [] {
      UnitsAdd(rows[..|rows| - 1]);
    }
  }

  /** Fifty-one payments of one unit, the last two at one time: the total lacks one of them. */
  lemma TheTiedOneIsMissing(q: Query, all: seq<Row>)
    requires Proper(q, all) && InTimeOrder(all) && !q.native && q.bound.None? && q.maxPages > 1
        && |all| == PAGE_LIMIT + 1
    requires forall i :: 0 <= i < |all| ==> Counts(q, all[i]) && all[i].amount == 1.0
    requires q.since < TimeOf(all[PAGE_LIMIT - 1]) == TimeOf(all[PAGE_LIMIT])
    ensures Realized(q, CursorVenue(all)) == Some(-50.0) && -Received(Counted(q, all, 0, |all|)) == -51.0
  {
    assert NextStart(all, 0) == |all| && Counts(q, all[0]);
    CursorVenueIsSummed(q, all);
    AllCounted(q, all, 0, |all|);
    AllCounted(q, all, 0, PAGE_LIMIT);
    UnitsAdd(all[0..|all|]);
    UnitsAdd(all[0..PAGE_LIMIT]);
    assert Served(q, all, 0) == all[0..PAGE_LIMIT] + [] == all[0..PAGE_LIMIT];
  }

  const Everything := Query(0, None, false, None, 10, None)

  function TiedHistory(): seq<Row> {
    seq(PAGE_LIMIT + 1, i requires 0 <= i <= PAGE_LIMIT =>
      Payment(if i < PAGE_LIMIT then i + 1 else PAGE_LIMIT, 1.0, None, Id(seq(i, _ => 'x'))))
  }

  /** It happens: a total is published although a payment of the position is missing from it. */
  lemma ATiedPaymentIsLost()
    ensures exists q, all ::
              && Proper(q, all) && InTimeOrder(all)
              && Realized(q, CursorVenue(all)) == Some(-50.0)
              && -Received(Counted(q, all, 0, |all|)) == -51.0
  {
    var q, all := Everything, TiedHistory();
    forall i: int, j: int ensures OwnKey(all, i, j) {
      if 0 <= i < j < |all| {
        assert |seq(i, _ => 'x')| != |seq(j, _ => 'x')|;
      }
    }
    TheTiedOneIsMissing(q, all);
  }

  // ------------------------------------------------------------ numbered pages

  /** Where the `n`-th page starts, when pages are numbered. */
  function PageStart(all: seq<Row>, n: nat): nat {
    if PAGE_LIMIT * n <= |all| then PAGE_LIMIT * n else |all|
  }

  /** A venue that numbers its pages, whatever the cursor. */
  function NumberedVenue(all: seq<Row>): Venue {
    (n: nat, cursor: int) => Page(FirstPage(all[PageStart(all, n)..]))
  }

  lemma OnePageLess(x: int)
    ensures x / PAGE_LIMIT == (x - PAGE_LIMIT) / PAGE_LIMIT + 1
  {
  }

  lemma {:induction false} FetchNumbered(q: Query, all: seq<Row>, n: nat, g: Gathered, m: nat)
    requires q.native && n <= q.maxPages && Proper(q, all) && m == PageStart(all, n)
    requires Unmet(g, all, m) && !g.unverifiable
    ensures Fetch(q, NumberedVenue(all), n, q.since, g)
         == if (|all| - m) / PAGE_LIMIT < q.maxPages - n then Some(g.history + Counted(q, all, m, |all|)) else None
    decreases q.maxPages - n
  {
    if n < q.maxPages {
      FirstPageFrom(all, m);
      if !Fills(all, m) {
        ShortPageEnds(q, NumberedVenue(all), n, q.since, g, all, m);
      } else {
        var g' := NumberedPageGoesOn(q, NumberedVenue(all), n, q.since, g, all, m);
        FetchNumbered(q, all, n + 1, g', m + PAGE_LIMIT);
        CountedOfBoth(q, all, m, m + PAGE_LIMIT, |all|);
        Regroup(g.history, Counted(q, all, m, m + PAGE_LIMIT), Counted(q, all, m + PAGE_LIMIT, |all|));
        OnePageLess(|all| - m);
      }
    }
  }

  lemma NumberedVenueIsFetched(q: Query, all: seq<Row>, counted: seq<Row>, fits: bool)
    requires Proper(q, all) && q.native && (fits <==> |all| / PAGE_LIMIT < q.maxPages)
    requires counted == Counted(q, all, 0, |all|)
    ensures Fetch(q, NumberedVenue(all), 0, q.since, Nothing) == if fits then Some(counted) else None
  {
    FetchNumbered(q, all, 0, Nothing, 0);
    assert [] + counted == counted;
  }

  /** For numbered pages the page limit alone decides, whatever the order and times. */
  lemma NumberedVenueIsSummedCompletely(q: Query, all: seq<Row>)
    requires Proper(q, all) && q.native && q.bound.None?
    ensures Realized(q, NumberedVenue(all))
         == if |all| / PAGE_LIMIT < q.maxPages then Some(-Received(Counted(q, all, 0, |all|))) else None
  {
    var fits, counted := |all| / PAGE_LIMIT < q.maxPages, Counted(q, all, 0, |all|);
    NumberedVenueIsFetched(q, all, counted, fits);
    RealizedIs(q, NumberedVenue(all), if fits then Some(counted) else None);
  }

  // ----------------------------------------------------- settlement boundaries

  /** `k` intervals. */
  function Times(k: int, interval: real): real {
    k as real * interval
  }

  /** How many whole intervals fit. */
  function Fit(x: real, interval: real): int
    requires interval > 0.0
  {
    (x / interval).Floor
  }

  /** Number of the first boundary after a time. */
  function FirstAfter(time: real, interval: real, anchor: real): int
    requires interval > 0.0
  {
    Fit(time - anchor, interval) + 1
  }

  /** `count_funding_settlements` for a valid schedule. */
  function Settlements(start: real, end: real, interval: real, anchor: real): int
    requires interval > 0.0
  {
    if end <= start then 0
    else
      var first := anchor + Times(FirstAfter(start, interval, anchor), interval);
      if first > end then 0 else Fit(end - first, interval) + 1
  }

  /** The boundary number `k` of the schedule lies in the half-open holding period. */
  predicate Crossed(start: real, end: real, interval: real, anchor: real, k: int) {
    start < anchor + Times(k, interval) <= end
  }

  lemma Larger(d: real, c: real)
    requires d > 0.0 && c > 0.0
    ensures d * c > 0.0
  {
  }

  lemma TimesOrder(k: int, m: int, interval: real)
    requires interval > 0.0
    ensures k <= m <==> Times(k, interval) <= Times(m, interval)
  {
    if k < m {
      Larger((m - k) as real, interval);
      assert Times(m, interval) - Times(k, interval) == (m - k) as real * interval;
    } else if m < k {
      Larger((k - m) as real, interval);
      assert Times(k, interval) - Times(m, interval) == (k - m) as real * interval;
    }
  }

  lemma TimesAdd(k: int, m: int, interval: real)
    ensures Times(k + m, interval) == Times(k, interval) + Times(m, interval)
  {
  }

  lemma Product(a: real, b: real, c: real)
    requires a < b && c > 0.0
    ensures a * c < b * c
  {
    Larger(b - a, c);
  }

  lemma Quotient(x: real, c: real)
    requires c > 0.0
    ensures x / c * c == x
  {
  }

  lemma Scaled(q: real, low: real, high: real, c: real)
    requires low <= q < high && c > 0.0
    ensures low * c <= q * c < high * c
  {
    Product(q, high, c);
    if low < q {
      Product(low, q, c);
    }
  }

  lemma FitsBetween(x: real, interval: real)
    requires interval > 0.0
    ensures Times(Fit(x, interval), interval) <= x < Times(Fit(x, interval) + 1, interval)
  {
    var n, q := Fit(x, interval), x / interval;
    Scaled(q, n as real, (n + 1) as real, interval);
    Quotient(x, interval);
    calc {
      Times(n + 1, interval);
    ==
      (n + 1) as real * interval;
    >
      q * interval;
    ==
      x;
    }
  }

  /** The boundaries crossed are those from the first after the opening on, as many as are counted. */
  lemma SettlementsAreTheCrossedBoundaries(start: real, end: real, interval: real, anchor: real, k: int)
    requires interval > 0.0 && start < end
    ensures var first := FirstAfter(start, interval, anchor);
            Crossed(start, end, interval, anchor, k) <==> first <= k < first + Settlements(start, end, interval, anchor)
  {
    var first := FirstAfter(start, interval, anchor);
    var at := anchor + Times(first, interval);
    FitsBetween(start - anchor, interval);
    TimesOrder(k, first - 1, interval);
    TimesOrder(first, k, interval);
    if at <= end {
      var more := Fit(end - at, interval);
      FitsBetween(end - at, interval);
      TimesAdd(first, k - first, interval);
      TimesOrder(k - first, more, interval);
      TimesOrder(more + 1, k - first, interval);
    }
  }
}
