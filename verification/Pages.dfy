/** Paging the admin's code list: each page is its own query, `ORDER BY received_at DESC` with an
    offset, and rows received at the same time may come back in a different order every time. */
module Pages {
  import opened Common
  import opened CodeTable

  /** Newest first; ties in any order. */
  ghost predicate NewestFirst(rows: seq<CodeRow>) {
    forall i, j :: 0 <= i < j < |rows| ==> rows[i].content.receivedAt >= rows[j].content.receivedAt
  }

  /** One correct evaluation of the ordered query: the selected rows, newest first. */
  ghost predicate Evaluation(selected: multiset<CodeRow>, rows: seq<CodeRow>) {
    multiset(rows) == selected && NewestFirst(rows)
  }

  /** What the page query at each offset evaluates its ordering to. */
  type Answers = int -> seq<CodeRow>

  /** `LIMIT size OFFSET lo`. */
  function Page(rows: seq<CodeRow>, lo: nat, size: nat): seq<CodeRow> {
    if lo >= |rows| then [] else rows[lo..Min(lo + size, |rows|)]
  }

  /** All pages from offset `lo` on, one after another. */
  function Browse(answer: Answers, lo: nat, size: nat, total: nat): seq<CodeRow>
    requires size > 0
    decreases total - lo
  {
    if lo >= total then [] else Page(answer(lo), lo, size) + Browse(answer, lo + size, size, total)
  }

  /** Every page query is answered by some correct evaluation. */
  ghost predicate Honest(selected: multiset<CodeRow>, answer: Answers) {
    forall lo :: Evaluation(selected, answer(lo))
  }

  /** From offset `lo` on, no two neighbouring pages meet in the middle of a tie. */
  predicate NoTieAcrossPages(rows: seq<CodeRow>, lo: nat, size: nat)
    requires size > 0
    decreases |rows| - lo
  {
    lo + size >= |rows| ||
    (rows[lo + size - 1].content.receivedAt != rows[lo + size].content.receivedAt && NoTieAcrossPages(rows, lo + size, size))
  }

  // ---- a fixed order ---------------------------------------------------------------------------

  /** When every page is cut from one fixed order, the pages put together are that order. */
  lemma {:induction false} FixedOrderPagesConcatenate(rows: seq<CodeRow>, lo: nat, size: nat)
    requires size > 0
    ensures Browse(_ => rows, lo, size, |rows|) == if lo >= |rows| then [] else rows[lo..]
    decreases |rows| - lo
  {
    if lo < |rows| {
      FixedOrderPagesConcatenate(rows, lo + size, size);
    }
  }

  // ---- cuts that all evaluations share ----------------------------------------------------------

  lemma TailIsNotNewer(rows: seq<CodeRow>, b: nat, time: int, x: CodeRow)
    requires NewestFirst(rows) && b <= |rows|
    requires b > 0 ==> rows[b - 1].content.receivedAt > time
    requires b < |rows| ==> rows[b].content.receivedAt <= time
    ensures multiset(rows[..b])[x] == if x.content.receivedAt > time then multiset(rows)[x] else 0
  {
    assert rows == rows[..b] + rows[b..];
    assert multiset(rows)[x] == multiset(rows[..b])[x] + multiset(rows[b..])[x];
    if x.content.receivedAt > time {
      assert x !in rows[b..];
    } else {
      assert x !in rows[..b];
    }
  }

  /** Where the rows newer than `time` end. */
  function NewerThan(rows: seq<CodeRow>, time: int): (c: nat)
    ensures c <= |rows|
    ensures c > 0 ==> rows[c - 1].content.receivedAt > time
    ensures c < |rows| ==> rows[c].content.receivedAt <= time
  {
    if rows == [] || rows[0].content.receivedAt <= time then 0 else 1 + NewerThan(rows[1..], time)
  }

  lemma SameLength(r: seq<CodeRow>, s: seq<CodeRow>)
    requires multiset(r) == multiset(s)
    ensures |r| == |s|
  {
    assert |multiset(s)| == |s| && |multiset(r)| == |r|;
  }

  /** A cut between two different times separates the same rows in every evaluation. */
  lemma CutIsShared(r: seq<CodeRow>, s: seq<CodeRow>, b: nat)
    requires multiset(r) == multiset(s) && NewestFirst(r) && NewestFirst(s)
    requires b <= |r| && (0 < b < |r| ==> r[b - 1].content.receivedAt != r[b].content.receivedAt)
    ensures b <= |s| && multiset(s[..b]) == multiset(r[..b])
  {
    SameLength(r, s);
    if b == 0 {
      assert r[..0] == [] && s[..0] == [];
    } else if b == |r| {
      assert r[..b] == r && s[..b] == s;
    } else {
      var time := r[b].content.receivedAt;
      var c := NewerThan(s, time);
      forall x ensures multiset(r[..b])[x] == multiset(s[..c])[x] {
        TailIsNotNewer(r, b, time, x);
        TailIsNotNewer(s, c, time, x);
      }
      assert multiset(r[..b]) == multiset(s[..c]);
      assert |multiset(r[..b])| == b && |multiset(s[..c])| == c;
    }
  }

  // ---- honest pages ------------------------------------------------------------------------------

  /** So does the stretch between two such cuts. */
  lemma StretchIsShared(r: seq<CodeRow>, s: seq<CodeRow>, lo: nat, hi: nat)
    requires multiset(r) == multiset(s) && NewestFirst(r) && NewestFirst(s)
    requires lo <= hi <= |r|
    requires 0 < lo < |r| ==> r[lo - 1].content.receivedAt != r[lo].content.receivedAt
    requires 0 < hi < |r| ==> r[hi - 1].content.receivedAt != r[hi].content.receivedAt
    ensures hi <= |s| && multiset(s[lo..hi]) == multiset(r[lo..hi])
  {
    CutIsShared(r, s, lo);
    CutIsShared(r, s, hi);
    StretchIsDifference(r, lo, hi);
    StretchIsDifference(s, lo, hi);
  }

  lemma StretchIsDifference(s: seq<CodeRow>, lo: nat, hi: nat)
    requires lo <= hi <= |s|
    ensures multiset(s[lo..hi]) == multiset(s[..hi]) - multiset(s[..lo])
  {
    assert s[..hi] == s[..lo] + s[lo..hi];
  }

  lemma {:induction false} HonestPagesAreComplete(rows: seq<CodeRow>, answer: Answers, lo: nat, size: nat)
    requires size > 0 && lo < |rows|
    requires NewestFirst(rows) && Honest(multiset(rows), answer)
    requires lo > 0 ==> rows[lo - 1].content.receivedAt != rows[lo].content.receivedAt
    requires NoTieAcrossPages(rows, lo, size)
    ensures multiset(Browse(answer, lo, size, |rows|)) == multiset(rows[lo..])
    decreases |rows| - lo
  {
    FirstPageIsShared(rows, answer(lo), lo, size);
    if lo + size < |rows| {
      HonestPagesAreComplete(rows, answer, lo + size, size);
    }
    PutTogether(rows, answer, lo, size);
  }

  lemma PutTogether(rows: seq<CodeRow>, answer: Answers, lo: nat, size: nat)
    requires size > 0 && lo < |rows|
    requires multiset(Page(answer(lo), lo, size)) == multiset(rows[lo..Min(lo + size, |rows|)])
    requires lo + size < |rows| ==> multiset(Browse(answer, lo + size, size, |rows|)) == multiset(rows[lo + size..])
    ensures multiset(Browse(answer, lo, size, |rows|)) == multiset(rows[lo..])
  {
    var hi := Min(lo + size, |rows|);
    var page, rest := Page(answer(lo), lo, size), Browse(answer, lo + size, size, |rows|);
    assert Browse(answer, lo, size, |rows|) == page + rest;
    assert rows[lo..] == rows[lo..hi] + rows[hi..];
    assert multiset(page + rest) == multiset(page) + multiset(rest);
    assert multiset(rows[lo..hi] + rows[hi..]) == multiset(rows[lo..hi]) + multiset(rows[hi..]);
  }

  lemma FirstPageIsShared(rows: seq<CodeRow>, s: seq<CodeRow>, lo: nat, size: nat)
    requires size > 0 && lo < |rows|
    requires NewestFirst(rows) && Evaluation(multiset(rows), s)
    requires lo > 0 ==> rows[lo - 1].content.receivedAt != rows[lo].content.receivedAt
    requires NoTieAcrossPages(rows, lo, size)
    ensures multiset(Page(s, lo, size)) == multiset(rows[lo..Min(lo + size, |rows|)])
  {
    SameLength(rows, s);
    BreakAfterPage(rows, lo, size);
    var hi := Min(lo + size, |rows|);
    assert Page(s, lo, size) == s[lo..hi];
    StretchIsShared(rows, s, lo, hi);
  }

  lemma BreakAfterPage(rows: seq<CodeRow>, lo: nat, size: nat)
    requires size > 0 && NoTieAcrossPages(rows, lo, size)
    ensures lo + size < |rows| ==>
      rows[lo + size - 1].content.receivedAt != rows[lo + size].content.receivedAt
  {
  }

  function Swapped(rows: seq<CodeRow>, b: nat): seq<CodeRow>
    requires 0 < b < |rows|
  {
    rows[b - 1 := rows[b]][b := rows[b - 1]]
  }

  lemma SwapIsEvaluation(rows: seq<CodeRow>, b: nat)
    requires NewestFirst(rows) && 0 < b < |rows|
    requires rows[b - 1].content.receivedAt == rows[b].content.receivedAt
    ensures Evaluation(multiset(rows), Swapped(rows, b))
  {
    SwapKeepsRows(rows, b);
    SwapKeepsTimes(rows, Swapped(rows, b), b);
  }

  lemma SwapKeepsTimes(rows: seq<CodeRow>, s: seq<CodeRow>, b: nat)
    requires NewestFirst(rows) && 0 < b < |rows| && s == Swapped(rows, b)
    requires rows[b - 1].content.receivedAt == rows[b].content.receivedAt
    ensures NewestFirst(s)
  {
    assert forall i :: 0 <= i < |rows| ==> s[i].content.receivedAt == rows[i].content.receivedAt;
  }

  lemma SwapKeepsRows(rows: seq<CodeRow>, b: nat)
    requires 0 < b < |rows|
    ensures multiset(Swapped(rows, b)) == multiset(rows)
  {
    var pre, post := rows[..b - 1], rows[b + 1..];
    assert rows == pre + ([rows[b - 1]] + ([rows[b]] + post));
    assert Swapped(rows, b) == pre + ([rows[b]] + ([rows[b - 1]] + post));
    SwappedCounts(pre, rows[b - 1], rows[b], post);
  }

  lemma SwappedCounts(pre: seq<CodeRow>, x: CodeRow, y: CodeRow, post: seq<CodeRow>)
    ensures multiset(pre + ([x] + ([y] + post))) == multiset(pre + ([y] + ([x] + post)))
  {
    assert multiset(pre + ([x] + ([y] + post))) == multiset(pre) + multiset{x} + multiset{y} + multiset(post);
    assert multiset(pre + ([y] + ([x] + post))) == multiset(pre) + multiset{y} + multiset{x} + multiset(post);
  }

  lemma {:induction false} BrowseDependsOnLater(f: Answers, g: Answers, lo: nat, size: nat, total: nat)
    requires size > 0 && forall o :: o >= lo ==> f(o) == g(o)
    ensures Browse(f, lo, size, total) == Browse(g, lo, size, total)
    decreases total - lo
  {
    if lo < total {
      BrowseDependsOnLater(f, g, lo + size, size, total);
    }
  }

  /** A tie across the first page break: swap it on the second page, and a row is shown twice. */
  lemma TieShowsARowTwice(rows: seq<CodeRow>, lo: nat, size: nat) returns (answer: Answers)
    requires size > 0 && NewestFirst(rows) && lo + size < |rows|
    requires rows[lo + size - 1].content.receivedAt == rows[lo + size].content.receivedAt
    ensures Honest(multiset(rows), answer)
    ensures multiset(Browse(answer, lo, size, |rows|))[rows[lo + size - 1]] >= 2
  {
    var b := lo + size;
    var x := rows[b - 1];
    var swapped := Swapped(rows, b);
    answer := (o: int) => if o == b then swapped else rows;
    SwapIsEvaluation(rows, b);
    assert Evaluation(multiset(rows), rows);
    OnPage(rows, lo, size, b - 1);
    OnPage(swapped, b, size, b);
    TwiceShown(answer, lo, size, |rows|, x);
  }

  lemma TwiceShown(answer: Answers, lo: nat, size: nat, total: nat, x: CodeRow)
    requires size > 0 && lo + size < total
    requires x in Page(answer(lo), lo, size) && x in Page(answer(lo + size), lo + size, size)
    ensures multiset(Browse(answer, lo, size, total))[x] >= 2
  {
    TwoPages(answer, lo, size, total);
    CountAdds(Browse(answer, lo, size, total), Page(answer(lo), lo, size), Page(answer(lo + size), lo + size, size),
              Browse(answer, lo + size + size, size, total), x);
  }

  lemma OnPage(rows: seq<CodeRow>, lo: nat, size: nat, i: nat)
    requires lo <= i < |rows| && i < lo + size
    ensures rows[i] in Page(rows, lo, size)
  {
    assert Page(rows, lo, size)[i - lo] == rows[i];
  }

  lemma TwoPages(answer: Answers, lo: nat, size: nat, total: nat)
    requires size > 0 && lo + size < total
    ensures Browse(answer, lo, size, total)
      == Page(answer(lo), lo, size) + (Page(answer(lo + size), lo + size, size) + Browse(answer, lo + size + size, size, total))
  {
  }

  lemma CountAdds(all: seq<CodeRow>, first: seq<CodeRow>, second: seq<CodeRow>, rest: seq<CodeRow>, x: CodeRow)
    requires all == first + (second + rest) && x in first && x in second
    ensures multiset(all)[x] >= 2
  {
    assert multiset(first)[x] >= 1 && multiset(second)[x] >= 1;
  }

  ghost predicate AlwaysComplete(rows: seq<CodeRow>, lo: nat, size: nat)
    requires size > 0
  {
    forall answer: Answers :: Honest(multiset(rows), answer) ==>
      multiset(Browse(answer, lo, size, |rows|)) == multiset(rows[Min(lo, |rows|)..])
  }

  lemma OnceAtMost(rows: seq<CodeRow>, lo: nat, x: CodeRow)
    requires Distinct(rows) && lo <= |rows|
    ensures multiset(rows[lo..])[x] <= 1
    decreases |rows| - lo
  {
    if lo < |rows| {
      assert rows[lo..] == [rows[lo]] + rows[lo + 1..];
      OnceAtMost(rows, lo + 1, x);
      if x == rows[lo] {
        assert x !in rows[lo + 1..];
      }
    }
  }

  lemma LaterPagesComplete(rows: seq<CodeRow>, lo: nat, size: nat)
    requires size > 0 && lo + size < |rows| && NewestFirst(rows)
    requires AlwaysComplete(rows, lo, size)
    ensures AlwaysComplete(rows, lo + size, size)
  {
    var b := lo + size;
    forall answer: Answers | Honest(multiset(rows), answer)
      ensures multiset(Browse(answer, b, size, |rows|)) == multiset(rows[b..])
    {
      var fixed := WithFixedStart(rows, answer, b);
      BrowseDependsOnLater(answer, fixed, b, size, |rows|);
      TakePageAway(rows, fixed, lo, size);
    }
  }

  lemma WithFixedStart(rows: seq<CodeRow>, answer: Answers, b: nat) returns (fixed: Answers)
    requires NewestFirst(rows) && Honest(multiset(rows), answer)
    ensures Honest(multiset(rows), fixed)
    ensures forall o :: fixed(o) == if o < b then rows else answer(o)
  {
    fixed := (o: int) => if o < b then rows else answer(o);
    assert Evaluation(multiset(rows), rows);
  }

  lemma TakePageAway(rows: seq<CodeRow>, fixed: Answers, lo: nat, size: nat)
    requires size > 0 && lo + size < |rows| && fixed(lo) == rows
    requires multiset(Browse(fixed, lo, size, |rows|)) == multiset(rows[lo..])
    ensures multiset(Browse(fixed, lo + size, size, |rows|)) == multiset(rows[lo + size..])
  {
    var page, rest := rows[lo..lo + size], Browse(fixed, lo + size, size, |rows|);
    assert Browse(fixed, lo, size, |rows|) == page + rest;
    assert rows[lo..] == page + rows[lo + size..];
    WithoutPrefix(Browse(fixed, lo, size, |rows|), rows[lo..], page, rest, rows[lo + size..]);
  }

  lemma WithoutPrefix(p: seq<CodeRow>, q: seq<CodeRow>, a: seq<CodeRow>, b: seq<CodeRow>, c: seq<CodeRow>)
    requires p == a + b && q == a + c && multiset(p) == multiset(q)
    ensures multiset(b) == multiset(c)
  {
    assert multiset(a + b) - multiset(a) == multiset(b);
    assert multiset(a + c) - multiset(a) == multiset(c);
  }

  lemma {:induction false} CompleteOnlyWithoutTies(rows: seq<CodeRow>, lo: nat, size: nat)
    requires size > 0 && NewestFirst(rows) && Distinct(rows)
    requires AlwaysComplete(rows, lo, size)
    ensures NoTieAcrossPages(rows, lo, size)
    decreases |rows| - lo
  {
    var b := lo + size;
    if b < |rows| {
      if rows[b - 1].content.receivedAt == rows[b].content.receivedAt {
        var answer := TieShowsARowTwice(rows, lo, size);
        OnceAtMost(rows, lo, rows[b - 1]);
        assert false;
      }
      LaterPagesComplete(rows, lo, size);
      CompleteOnlyWithoutTies(rows, b, size);
    }
  }

  /** Browsing all pages shows every selected code exactly once, whatever order the server gives ties
      in, if and only if no two pages meet in the middle of a tie. */
  lemma PagesCompleteIffNoTieAcross(rows: seq<CodeRow>, size: nat)
    requires size > 0 && NewestFirst(rows) && Distinct(rows)
    ensures AlwaysComplete(rows, 0, size) <==> NoTieAcrossPages(rows, 0, size)
  {
    if NoTieAcrossPages(rows, 0, size) {
      forall answer: Answers | Honest(multiset(rows), answer)
        ensures multiset(Browse(answer, 0, size, |rows|)) == multiset(rows[0..])
      {
        if rows != [] {
          HonestPagesAreComplete(rows, answer, 0, size);
        }
      }
    }
    if AlwaysComplete(rows, 0, size) {
      CompleteOnlyWithoutTies(rows, 0, size);
    }
  }
}
