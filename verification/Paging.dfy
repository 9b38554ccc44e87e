/** Windows on a ledger: pages going backward, and the newest tail. */
module Paging {
  import opened Ledger
  import opened Tables

  const DEFAULT_PAGE := 100
  const MAX_PAGE := 500
  const DEFAULT_TAIL := 2000
  const MAX_TAIL := 5000

  /** 2^62 - 1 stands for "no upper bound" in a query. */
  const FAR := 0x4000_0000_0000_0000 - 1

  /** Rows in key order, with numbers as appends allocate them. */
  ghost predicate Keyed(es: seq<Event>) {
    Ascending(es) && forall i :: 0 <= i < |es| ==> es[i].seqNo > 0
  }

  lemma AppendKeepsKeyed(es: seq<Event>, run: RunId, body: Body)
    requires Keyed(es)
    ensures Keyed(es + [NextEvent(es, run, body)])
  {
    if es != [] {
      assert es[0].seqNo <= MaxSeq(es);
    }
  }

  function PageLimit(limit: int): nat {
    if limit <= 0 || limit > MAX_PAGE then DEFAULT_PAGE else limit
  }

  datatype Page = Page(events: seq<Event>, hasMore: bool)

  /** The length of the ledger up to its last event numbered below the bound. */
  function CountBelow(es: seq<Event>, bound: int): (p: nat)
    ensures p <= |es|
    ensures p > 0 ==> es[p - 1].seqNo < bound
    ensures forall i :: p <= i < |es| ==> es[i].seqNo >= bound
  {
    CountIn(es, |es|, bound)
  }

  function CountIn(es: seq<Event>, n: nat, bound: int): (p: nat)
    requires n <= |es|
    ensures p <= n
    ensures p > 0 ==> es[p - 1].seqNo < bound
    ensures forall i :: p <= i < n ==> es[i].seqNo >= bound
  {
    if n == 0 then 0 else if es[n - 1].seqNo < bound then n else CountIn(es, n - 1, bound)
  }

  /** A page is a slice of the ledger: the last `limit` events below the bound. */
  function PageBefore(es: seq<Event>, beforeSeq: int, limit: int): Page {
    var p := CountBelow(es, if beforeSeq <= 0 then FAR else beforeSeq);
    if p <= PageLimit(limit) then Page(es[..p], false) else Page(es[p - PageLimit(limit)..p], true)
  }

  /** In key order, those are exactly the events below the bound. */
  lemma CountBelowSelects(es: seq<Event>, bound: int, i: nat)
    requires Ascending(es) && i < |es|
    ensures i < CountBelow(es, bound) <==> es[i].seqNo < bound
  {
    var p := CountBelow(es, bound);
    if i + 1 < p {
      assert es[i].seqNo < es[p - 1].seqNo;
    }
  }

  /** The numbers a page with this bound may return. */
  predicate IsBelow(e: Event, beforeSeq: int) {
    e.seqNo < if beforeSeq <= 0 then FAR else beforeSeq
  }

  /** Events of a slice in key order are those whose position lies in it. */
  lemma InSlice(es: seq<Event>, lo: nat, p: nat, i: nat)
    requires Ascending(es) && lo <= p <= |es| && i < |es|
    ensures es[i] in es[lo..p] <==> lo <= i < p
  {
    if es[i] in es[lo..p] {
      var k :| 0 <= k < p - lo && es[lo..p][k] == es[i];
      assert es[lo + k].seqNo == es[i].seqNo;
    }
    if lo <= i < p {
      assert es[lo..p][i - lo] == es[i];
    }
  }

  /** The page leaves out no event below the bound but those before its first. */
  ghost predicate NewestBelow(page: Page, es: seq<Event>, beforeSeq: int) {
    && Ascending(page.events)
    && (forall i :: 0 <= i < |es| && es[i] in page.events ==> IsBelow(es[i], beforeSeq))
    && (forall i :: 0 <= i < |es| && IsBelow(es[i], beforeSeq) && es[i] !in page.events ==>
          page.hasMore && (page.events != [] ==> es[i].seqNo < page.events[0].seqNo))
    && (page.hasMore ==> exists i :: 0 <= i < |es| && IsBelow(es[i], beforeSeq) && es[i] !in page.events)
  }

  lemma SliceIsNewestBelow(es: seq<Event>, lo: nat, p: nat, beforeSeq: int)
    requires Ascending(es) && lo <= p <= |es| && forall i :: 0 <= i < |es| ==> (IsBelow(es[i], beforeSeq) <==> i < p)
    ensures NewestBelow(Page(es[lo..p], lo > 0), es, beforeSeq)
  {
    forall i | 0 <= i < |es| ensures es[i] in es[lo..p] <==> lo <= i < p {
      InSlice(es, lo, p, i);
    }
    if lo > 0 {
      assert IsBelow(es[0], beforeSeq) && es[0] !in es[lo..p];
    }
  }

  lemma CountsBelow(es: seq<Event>, beforeSeq: int, p: nat)
    requires Ascending(es) && p == CountBelow(es, if beforeSeq <= 0 then FAR else beforeSeq)
    ensures forall i :: 0 <= i < |es| ==> (IsBelow(es[i], beforeSeq) <==> i < p)
  {
    forall i | 0 <= i < |es| ensures IsBelow(es[i], beforeSeq) <==> i < p {
      CountBelowSelects(es, if beforeSeq <= 0 then FAR else beforeSeq, i);
    }
  }

  /** Where a page ending at position q begins. */
  function PageStart(q: nat, limit: int): nat {
    if q <= PageLimit(limit) then 0 else q - PageLimit(limit)
  }

  lemma PageIsSlice(es: seq<Event>, beforeSeq: int, limit: int, p: nat)
    requires p == CountBelow(es, if beforeSeq <= 0 then FAR else beforeSeq)
    ensures var page := PageBefore(es, beforeSeq, limit);
            && page == Page(es[PageStart(p, limit)..p], PageStart(p, limit) > 0)
            && (forall i :: 0 <= i < |page.events| ==> page.events[i] in es)
  {
    var lo := PageStart(p, limit);
    forall i | 0 <= i < p - lo ensures es[lo..p][i] in es {
      assert es[lo..p][i] == es[lo + i];
    }
  }

  /**
   A page is the newest events below the bound, in key order: at most `limit`, or 100 when the limit is not
   between 1 and 500; and hasMore says exactly whether an event below the bound was left out.
   */
  lemma PageIsNewestBelow(es: seq<Event>, beforeSeq: int, limit: int)
    requires Ascending(es)
    ensures var page, size := PageBefore(es, beforeSeq, limit), if 0 < limit <= 500 then limit else 100;
            && NewestBelow(page, es, beforeSeq)
            && (forall i :: 0 <= i < |page.events| ==> page.events[i] in es)
            && |page.events| <= size && (page.hasMore ==> |page.events| == size)
  {
    var p := CountBelow(es, if beforeSeq <= 0 then FAR else beforeSeq);
    PageIsSlice(es, beforeSeq, limit, p);
    CountsBelow(es, beforeSeq, p);
    SliceIsNewestBelow(es, PageStart(p, limit), p, beforeSeq);
  }

  // ---------- The queries' loops ----------

  /** Scans the newest rows, newest first. */
  method SelectNewest(rows: seq<Event>, limit: nat) returns (desc: array<Event>)
    ensures fresh(desc) && desc.Length == if |rows| <= limit then |rows| else limit
    ensures forall i :: 0 <= i < desc.Length ==> desc[i] == rows[|rows| - 1 - i]
  {
    desc := new Event[if |rows| <= limit then |rows| else limit];
    for n := 0 to desc.Length
      invariant forall i :: 0 <= i < n ==> desc[i] == rows[|rows| - 1 - i]
    {
      desc[n] := rows[|rows| - 1 - n];
    }
  }

  /** Reverses the first n elements in place, swapping from both ends. */
  method Reverse(desc: array<Event>, n: nat)
    requires n <= desc.Length
    modifies desc
    ensures forall k :: 0 <= k < n ==> desc[k] == old(desc[n - 1 - k])
    ensures forall k :: n <= k < desc.Length ==> desc[k] == old(desc[k])
  {
    var i, j := 0, n - 1;
    while i < j
      invariant 0 <= i && i + j == n - 1 && i <= j + 1
      invariant forall k :: 0 <= k < i || j < k < n ==> desc[k] == old(desc[n - 1 - k])
      invariant forall k :: i <= k <= j || n <= k < desc.Length ==> desc[k] == old(desc[k])
    {
      desc[i], desc[j] := desc[j], desc[i];
      i, j := i + 1, j - 1;
    }
  }

  /** Selecting newest first and reversing gives the newest rows in key order. */
  lemma ReversedSelection(desc: seq<Event>, rows: seq<Event>, n: nat)
    requires n <= |desc| && n <= |rows| && forall k :: 0 <= k < n ==> desc[k] == rows[|rows| - n + k]
    ensures desc[..n] == rows[|rows| - n..]
  {
  }

  /** One row more than wanted tells whether older rows exist; the rest is put into key order. */
  method LastRows(rows: seq<Event>, limit: nat) returns (events: seq<Event>, hasMore: bool)
    ensures hasMore == (|rows| > limit)
    ensures events == rows[if hasMore then |rows| - limit else 0..]
  {
    var desc := SelectNewest(rows, limit + 1);
    hasMore := desc.Length > limit;
    var n := if hasMore then limit else desc.Length;
    Reverse(desc, n);
    events := desc[..n];
    ReversedSelection(desc[..], rows, n);
  }

  method RowsBefore(rows: seq<Event>, beforeSeq: int, limit: int) returns (events: seq<Event>, hasMore: bool)
    ensures Page(events, hasMore) == PageBefore(rows, beforeSeq, limit)
    ensures |events| <= if 0 < limit <= 500 then limit else 100
  {
    var limit, beforeSeq := limit, beforeSeq;
    if limit <= 0 || limit > MAX_PAGE {
      limit := DEFAULT_PAGE;
    }
    if beforeSeq <= 0 {
      beforeSeq := FAR;
    }
    var below := rows[..CountBelow(rows, beforeSeq)];
    events, hasMore := LastRows(below, limit);
    assert hasMore ==> below[|below| - limit..] == rows[|below| - limit..|below|];
  }

  method RowsTail(rows: seq<Event>, limit: int) returns (events: seq<Event>)
    ensures events == Tail(rows, if 0 < limit <= 5000 then limit else 2000)
  {
    var limit := limit;
    if limit <= 0 || limit > MAX_TAIL {
      limit := DEFAULT_TAIL;
    }
    var desc := SelectNewest(rows, limit);
    Reverse(desc, desc.Length);
    events := desc[..];
    ReversedSelection(desc[..], rows, desc.Length);
  }

  // ---------- Paging backward to exhaustion ----------

  /** Where the next page ends: 0 for the newest page, then the smallest number returned. */
  function NextBound(pages: seq<Page>, k: nat): int
    requires k <= |pages|
  {
    if k == 0 || pages[k - 1].events == [] then 0 else pages[k - 1].events[0].seqNo
  }

  /** A reader's pages, each taken from the ledger as it was then: it may have grown, and the limits may vary. */
  ghost predicate IsPaging(ledgers: seq<seq<Event>>, limits: seq<int>, pages: seq<Page>) {
    && |pages| == |ledgers| == |limits| > 0
    && (forall i :: 0 <= i < |ledgers[0]| ==> ledgers[0][i].seqNo < FAR)
    && (forall k :: 0 <= k < |pages| ==> Keyed(ledgers[k]) && ledgers[0] <= ledgers[k])
    && (forall k :: 0 <= k < |pages| - 1 ==> pages[k].hasMore)
    && (forall k :: 0 <= k < |pages| ==> IsPage(ledgers, limits, pages, k))
  }

  /** Page k is what the query returned for the bound the previous page gave. */
  ghost predicate IsPage(ledgers: seq<seq<Event>>, limits: seq<int>, pages: seq<Page>, k: nat)
    requires k < |ledgers| && k < |limits| && k < |pages|
  {
    pages[k] == PageBefore(ledgers[k], NextBound(pages, k), limits[k])
  }

  /** The first k pages put together, oldest first. */
  function Collected(pages: seq<Page>, k: nat): seq<Event>
    requires k <= |pages|
  {
    if k == 0 then [] else pages[k - 1].events + Collected(pages, k - 1)
  }

  function Total(limits: seq<int>, k: nat): (n: nat)
    requires k <= |limits|
    ensures n >= k
  {
    if k == 0 then 0 else Total(limits, k - 1) + PageLimit(limits[k - 1])
  }

  /** In a grown ledger, the events below an old event are those that preceded it. */
  lemma CountBelowOld(was: seq<Event>, es: seq<Event>, p: nat)
    requires Keyed(es) && was <= es && p < |was|
    ensures CountBelow(es, was[p].seqNo) == p
  {
    var n := CountBelow(es, was[p].seqNo);
    CountBelowSelects(es, was[p].seqNo, p);
    if p > 0 {
      CountBelowSelects(es, was[p].seqNo, p - 1);
    }
    assert es[p] == was[p];
  }

  lemma FirstPage(es: seq<Event>, limit: int)
    requires forall i :: 0 <= i < |es| ==> es[i].seqNo < FAR
    ensures PageBefore(es, 0, limit) == Page(es[PageStart(|es|, limit)..|es|], PageStart(|es|, limit) > 0)
  {
    assert es[..|es|] == es[0..|es|];
  }

  lemma OlderPage(was: seq<Event>, es: seq<Event>, q: nat, limit: int)
    requires Keyed(es) && was <= es && q < |was|
    ensures PageBefore(es, was[q].seqNo, limit) == Page(was[PageStart(q, limit)..q], PageStart(q, limit) > 0)
  {
    CountBelowOld(was, es, q);
    assert es[q] == was[q];
    assert es[PageStart(q, limit)..q] == was[PageStart(q, limit)..q];
  }

  lemma Joined(es: seq<Event>, p: nat, q: nat)
    requires p <= q <= |es|
    ensures es[p..q] + es[q..] == es[p..]
  {
  }

  /** The next page is the slice of the first page's ledger that ends where the previous page began. */
  lemma PageAt(ledgers: seq<seq<Event>>, limits: seq<int>, pages: seq<Page>, k: nat, q: nat)
    requires IsPaging(ledgers, limits, pages) && k < |pages|
    requires if k == 0 then q == |ledgers[0]| else q < |ledgers[0]| && NextBound(pages, k) == ledgers[0][q].seqNo
    ensures var p := PageStart(q, limits[k]); pages[k] == Page(ledgers[0][p..q], p > 0)
  {
    assert IsPage(ledgers, limits, pages, k);
    if k == 0 {
      FirstPage(ledgers[0], limits[0]);
    } else {
      OlderPage(ledgers[0], ledgers[k], q, limits[k]);
    }
  }

  lemma FirstBelow(was: seq<Event>, p: nat, q: nat)
    requires p < q <= |was|
    ensures was[p..q] != [] && was[p..q][0] == was[p]
  {
  }

  /** The pages so far are the ledger's end, as it was at the first page; more remain exactly when hasMore says so. */
  lemma {:induction false} PagesCollect(ledgers: seq<seq<Event>>, limits: seq<int>, pages: seq<Page>, k: nat)
    returns (p: nat)
    requires IsPaging(ledgers, limits, pages) && 0 < k <= |pages|
    ensures p <= |ledgers[0]| && Collected(pages, k) == ledgers[0][p..]
    ensures pages[k - 1].hasMore <==> p > 0
    ensures p > 0 ==> p == |ledgers[0]| - Total(limits, k)
    ensures p > 0 ==> pages[k - 1].events != [] && pages[k - 1].events[0] == ledgers[0][p]
  {
    var was, q := ledgers[0], |ledgers[0]|;
    if k > 1 {
      q := PagesCollect(ledgers, limits, pages, k - 1);
      assert pages[k - 2].hasMore;
    }
    PageAt(ledgers, limits, pages, k - 1, q);
    p := PageStart(q, limits[k - 1]);
    if p > 0 {
      FirstBelow(was, p, q);
    }
    Joined(was, p, q);
    if k == 1 {
      assert Collected(pages, 0) == [] == was[q..] && Total(limits, 0) == 0;
    }
  }

  /** Pages taken to exhaustion are exactly the ledger as of the first page, whatever the limits and later appends. */
  lemma PagingIsExact(ledgers: seq<seq<Event>>, limits: seq<int>, pages: seq<Page>)
    requires IsPaging(ledgers, limits, pages) && !pages[|pages| - 1].hasMore
    ensures Collected(pages, |pages|) == ledgers[0]
  {
    var p := PagesCollect(ledgers, limits, pages, |pages|);
  }

  /** Paging ends: the full pages before the last never reach the size of the ledger as of the first page. */
  lemma PagingEnds(ledgers: seq<seq<Event>>, limits: seq<int>, pages: seq<Page>)
    requires IsPaging(ledgers, limits, pages) && |pages| > 1
    ensures |pages| - 1 <= Total(limits, |pages| - 1) < |ledgers[0]|
  {
    var p := PagesCollect(ledgers, limits, pages, |pages| - 1);
  }
}
