/** The seeded shape `(?<![\d])(\d{m,n})(?![\d])` under backtracking search, against a one-pass scan.

    Which characters are digits is the regular-expression engine's business (`\d` covers every
    Unicode decimal digit), so it is a parameter throughout. */
module DigitRuns {
  import opened Common

  type Digit = char -> bool
  datatype Span = Span(lo: nat, hi: nat)

  // ---- the backtracking search ------------------------------------------------

  /** How many digits stand at position `i`. */
  function RunLength(d: Digit, s: string, i: nat): (k: nat)
    requires i <= |s|
    ensures i + k <= |s|
    ensures forall x :: i <= x < i + k ==> d(s[x])
    ensures i + k < |s| ==> !d(s[i + k])
    decreases |s| - i
  {
    if i < |s| && d(s[i]) then 1 + RunLength(d, s, i + 1) else 0
  }

  /** The greedy `\d{m,n}` has taken `k` digits from `i`; test `(?![\d])`, and give one digit
      back each time it fails, down to `m`. */
  function GiveBack(d: Digit, s: string, i: nat, k: nat, m: nat): Option<nat>
    requires i + k <= |s|
    decreases k
  {
    if k < m then None
    else if i + k == |s| || !d(s[i + k]) then Some(k)
    else if k == 0 then None
    else GiveBack(d, s, i, k - 1, m)
  }

  function MatchAt(d: Digit, s: string, i: nat, m: nat, n: nat): Option<nat>
    requires i <= |s|
  {
    if i > 0 && d(s[i - 1]) then None
    else GiveBack(d, s, i, Min(n, RunLength(d, s, i)), m)
  }

  /** `re.search` tries every start position from the left and keeps the first that matches. */
  function SearchFrom(d: Digit, s: string, i: nat, m: nat, n: nat): Option<Span>
    requires i <= |s|
    decreases |s| - i
  {
    match MatchAt(d, s, i, m, n)
    case Some(k) => Some(Span(i, i + k))
    case None => if i == |s| then None else SearchFrom(d, s, i + 1, m, n)
  }

  function Search(d: Digit, s: string, m: nat, n: nat): Option<Span> {
    SearchFrom(d, s, 0, m, n)
  }

  // ---- the one-pass scan --------------------------------------------------------

  /** Reads each character once; `run` digits stand immediately before position `i`. */
  function ScanFrom(d: Digit, s: string, i: nat, run: nat, m: nat, n: nat): Option<Span>
    requires run <= i <= |s|
    decreases |s| - i
  {
    if i < |s| && d(s[i]) then ScanFrom(d, s, i + 1, run + 1, m, n)
    else if run > 0 && m <= run <= n then Some(Span(i - run, i))
    else if i < |s| then ScanFrom(d, s, i + 1, 0, m, n)
    else None
  }

  function Scan(d: Digit, s: string, m: nat, n: nat): Option<Span> {
    ScanFrom(d, s, 0, 0, m, n)
  }

  // ---- what both compute --------------------------------------------------------

  /** A maximal run of digits. */
  ghost predicate IsRun(d: Digit, s: string, p: Span) {
    && p.lo < p.hi <= |s|
    && (forall x :: p.lo <= x < p.hi ==> d(s[x]))
    && (p.lo == 0 || !d(s[p.lo - 1]))
    && (p.hi == |s| || !d(s[p.hi]))
  }

  ghost predicate Fits(d: Digit, s: string, m: nat, n: nat, p: Span) {
    IsRun(d, s, p) && m <= p.hi - p.lo <= n
  }

  /** `r` is the leftmost maximal digit run, at or after `from`, of length `m` to `n`. */
  ghost predicate LeftmostFit(d: Digit, s: string, from: nat, m: nat, n: nat, r: Option<Span>) {
    match r
    case None => forall p :: Fits(d, s, m, n, p) ==> p.lo < from
    case Some(q) =>
      && from <= q.lo
      && Fits(d, s, m, n, q)
      && forall p :: Fits(d, s, m, n, p) && from <= p.lo ==> q.lo <= p.lo
  }

  lemma RunsStartingTogetherAgree(d: Digit, s: string, p: Span, q: Span)
    requires IsRun(d, s, p) && IsRun(d, s, q) && p.lo == q.lo
    ensures p == q
  {
    assert p.hi >= q.hi;
  }

  lemma LeftmostFitUnique(d: Digit, s: string, from: nat, m: nat, n: nat, a: Option<Span>, b: Option<Span>)
    requires LeftmostFit(d, s, from, m, n, a) && LeftmostFit(d, s, from, m, n, b)
    ensures a == b
  {
    if a.Some? && b.Some? {
      RunsStartingTogetherAgree(d, s, a.value, b.value);
    }
  }

  lemma {:induction false} GiveBackOnDigits(d: Digit, s: string, i: nat, k: nat, m: nat)
    requires 1 <= m && i + k < |s|
    requires forall x :: i <= x <= i + k ==> d(s[x])
    ensures GiveBack(d, s, i, k, m) == None
    decreases k
  {
    if k > 0 {
      GiveBackOnDigits(d, s, i, k - 1, m);
    }
  }

  /** Giving digits back never helps: a start position matches exactly when a maximal run of a
      permitted length begins there, and then the whole run is taken. */
  lemma MatchAtIsRun(d: Digit, s: string, i: nat, m: nat, n: nat)
    requires 1 <= m <= n && i <= |s|
    ensures forall k :: MatchAt(d, s, i, m, n) == Some(k) ==> Fits(d, s, m, n, Span(i, i + k))
    ensures forall p :: Fits(d, s, m, n, p) && p.lo == i ==> MatchAt(d, s, i, m, n) == Some(p.hi - i)
  {
    var len := RunLength(d, s, i);
    if !(i > 0 && d(s[i - 1])) && len > n {
      GiveBackOnDigits(d, s, i, n, m);
    }
    forall p | Fits(d, s, m, n, p) && p.lo == i
      ensures MatchAt(d, s, i, m, n) == Some(p.hi - i)
    {
      RunsStartingTogetherAgree(d, s, p, Span(i, i + len));
    }
  }

  lemma {:induction false} SearchFromFindsLeftmost(d: Digit, s: string, i: nat, m: nat, n: nat)
    requires 1 <= m <= n && i <= |s|
    ensures LeftmostFit(d, s, i, m, n, SearchFrom(d, s, i, m, n))
    decreases |s| - i
  {
    MatchAtIsRun(d, s, i, m, n);
    if MatchAt(d, s, i, m, n).None? && i < |s| {
      SearchFromFindsLeftmost(d, s, i + 1, m, n);
    }
  }

  /** The digits immediately before position `i` are exactly those from `from` on. */
  ghost predicate RunBefore(d: Digit, s: string, from: nat, i: nat) {
    && from <= i <= |s|
    && (forall x :: from <= x < i ==> d(s[x]))
    && (from == 0 || !d(s[from - 1]))
  }

  lemma RunUpToHere(d: Digit, s: string, from: nat, i: nat, p: Span)
    requires RunBefore(d, s, from, i) && (i == |s| || !d(s[i]))
    requires IsRun(d, s, p) && from <= p.lo <= i
    ensures from < i && p == Span(from, i)
  {
    assert d(s[p.lo]);
    assert p.lo == from;
    RunsStartingTogetherAgree(d, s, p, Span(from, i));
  }

  /** A run that is too short or too long can be skipped. */
  lemma NothingUpToHere(d: Digit, s: string, from: nat, i: nat, m: nat, n: nat, r: Option<Span>)
    requires RunBefore(d, s, from, i) && (i == |s| || !d(s[i]))
    requires !(from < i && m <= i - from <= n)
    requires if i < |s| then LeftmostFit(d, s, i + 1, m, n, r) else r == None
    ensures LeftmostFit(d, s, from, m, n, r)
  {
    forall p | Fits(d, s, m, n, p) && from <= p.lo ensures p.lo > i && i < |s| {
      if p.lo <= i {
        RunUpToHere(d, s, from, i, p);
        assert false;
      }
    }
  }

  lemma RunEndsHere(d: Digit, s: string, from: nat, i: nat, m: nat, n: nat)
    requires RunBefore(d, s, from, i) && (i == |s| || !d(s[i]))
    requires from < i && m <= i - from <= n
    ensures LeftmostFit(d, s, from, m, n, Some(Span(from, i)))
  {
  }

  lemma {:induction false} ScanFromFindsLeftmost(d: Digit, s: string, from: nat, i: nat, m: nat, n: nat)
    requires 1 <= m <= n && RunBefore(d, s, from, i)
    ensures LeftmostFit(d, s, from, m, n, ScanFrom(d, s, i, i - from, m, n))
    decreases |s| - i
  {
    if i < |s| && d(s[i]) {
      ScanFromFindsLeftmost(d, s, from, i + 1, m, n);
    } else if from < i && m <= i - from <= n {
      RunEndsHere(d, s, from, i, m, n);
    } else {
      if i < |s| {
        ScanFromFindsLeftmost(d, s, i + 1, i + 1, m, n);
      }
      NothingUpToHere(d, s, from, i, m, n, ScanFrom(d, s, i, i - from, m, n));
    }
  }

  /** The backtracking search returns the leftmost maximal run of a permitted length, or nothing
      when there is none. */
  lemma SearchFindsLeftmostRun(d: Digit, s: string, m: nat, n: nat)
    requires 1 <= m <= n
    ensures LeftmostFit(d, s, 0, m, n, Search(d, s, m, n))
  {
    SearchFromFindsLeftmost(d, s, 0, m, n);
  }

  /** Backtracking search and one-pass scan agree on every text. */
  lemma SearchEqualsScan(d: Digit, s: string, m: nat, n: nat)
    requires 1 <= m <= n
    ensures Search(d, s, m, n) == Scan(d, s, m, n)
  {
    SearchFromFindsLeftmost(d, s, 0, m, n);
    ScanFromFindsLeftmost(d, s, 0, 0, m, n);
    LeftmostFitUnique(d, s, 0, m, n, Search(d, s, m, n), Scan(d, s, m, n));
  }

  // ---- the captured text ----------------------------------------------------------

  function Captured(d: Digit, s: string, m: nat, n: nat): Option<string>
    requires 1 <= m <= n
  {
    SearchFindsLeftmostRun(d, s, m, n);
    match Search(d, s, m, n)
    case None => None
    case Some(p) => Some(s[p.lo..p.hi])
  }

  /** What is captured is the leftmost maximal run itself, whole, of `m` to `n` digits; nothing is exactly
      when the text has none. */
  lemma CapturedIsTheRun(d: Digit, s: string, m: nat, n: nat)
    requires 1 <= m <= n
    ensures var c := Captured(d, s, m, n);
      if c.Some? then
        && m <= |c.value| <= n && (forall i :: 0 <= i < |c.value| ==> d(c.value[i]))
        && exists p :: LeftmostFit(d, s, 0, m, n, Some(p)) && c.value == s[p.lo..p.hi]
      else forall p :: !Fits(d, s, m, n, p)
  {
    SearchFindsLeftmostRun(d, s, m, n);
  }

  /** Runs that end inside `a` are not disturbed by a continuation that starts with no digit. */
  lemma RunsOfPrefix(d: Digit, a: string, t: string, p: Span)
    requires t == "" || !d(t[0])
    requires p.hi <= |a|
    ensures IsRun(d, a + t, p) <==> IsRun(d, a, p)
  {
    assert forall x :: 0 <= x < |a| ==> (a + t)[x] == a[x];
    assert t != "" ==> (a + t)[|a|] == t[0];
  }

  /** Runs of `b` are shifted, and not disturbed, by a text before it that ends with no digit. */
  lemma RunsOfSuffix(d: Digit, h: string, b: string, q: Span)
    requires h != "" && !d(h[|h| - 1])
    ensures IsRun(d, h + b, Span(q.lo + |h|, q.hi + |h|)) <==> IsRun(d, b, q)
  {
    var s := h + b;
    assert s[|h| - 1] == h[|h| - 1];
    assert forall y :: 0 <= y < |b| ==> s[y + |h|] == b[y];
    if IsRun(d, s, Span(q.lo + |h|, q.hi + |h|)) {
      forall y | q.lo <= y < q.hi ensures d(b[y]) { assert d(s[y + |h|]); }
    }
    if IsRun(d, b, q) {
      forall x | q.lo + |h| <= x < q.hi + |h| ensures d(s[x]) { assert d(b[x - |h|]); }
    }
  }

  /** Fits of `a + [c] + b`, for a separator that is no digit, are the fits of `a` and those of `b`. */
  lemma FitsSplitAtSeparator(d: Digit, a: string, c: char, b: string, m: nat, n: nat, p: Span)
    requires !d(c)
    ensures Fits(d, a + [c] + b, m, n, p) <==>
      || (p.hi <= |a| && Fits(d, a, m, n, p))
      || (p.lo > |a| && p.hi > |a| && Fits(d, b, m, n, Span(p.lo - |a| - 1, p.hi - |a| - 1)))
  {
    var s := a + [c] + b;
    if p.hi <= |a| {
      assert s == a + ([c] + b);
      RunsOfPrefix(d, a, [c] + b, p);
    } else if p.lo > |a| {
      RunsOfSuffix(d, a + [c], b, Span(p.lo - |a| - 1, p.hi - |a| - 1));
    } else {
      assert s[|a|] == c;
    }
  }

  /** On the 'both' haystack (subject, newline, body) the search is subject first, then body. */
  lemma BothIsSubjectThenBody(d: Digit, subject: string, body: string, m: nat, n: nat)
    requires 1 <= m <= n && !d('\n')
    ensures Captured(d, subject + "\n" + body, m, n)
         == (if Captured(d, subject, m, n).Some? then Captured(d, subject, m, n) else Captured(d, body, m, n))
  {
    var s := subject + ['\n'] + body;
    assert s == subject + "\n" + body;
    SearchFindsLeftmostRun(d, subject, m, n);
    SearchFindsLeftmostRun(d, body, m, n);
    SearchFindsLeftmostRun(d, s, m, n);
    var r := BothSpan(d, subject, body, m, n);
    LeftmostFitUnique(d, s, 0, m, n, Search(d, s, m, n), r);
    if r.Some? {
      if Search(d, subject, m, n).None? {
        SliceOfSecond(subject + ['\n'], body, Search(d, body, m, n).value);
      } else {
        SliceOfFirst(subject, ['\n'] + body, r.value);
        assert subject + (['\n'] + body) == s;
      }
    }
  }

  lemma SliceOfFirst(a: string, b: string, p: Span)
    requires p.lo <= p.hi <= |a|
    ensures (a + b)[p.lo..p.hi] == a[p.lo..p.hi]
  {
  }

  lemma SliceOfSecond(a: string, b: string, p: Span)
    requires p.lo <= p.hi <= |b|
    ensures (a + b)[p.lo + |a|..p.hi + |a|] == b[p.lo..p.hi]
  {
  }

  lemma BothSpan(d: Digit, subject: string, body: string, m: nat, n: nat) returns (r: Option<Span>)
    requires 1 <= m <= n && !d('\n')
    requires LeftmostFit(d, subject, 0, m, n, Search(d, subject, m, n))
    requires LeftmostFit(d, body, 0, m, n, Search(d, body, m, n))
    ensures LeftmostFit(d, subject + ['\n'] + body, 0, m, n, r)
    ensures var rs, rb := Search(d, subject, m, n), Search(d, body, m, n);
      if rs.Some? then r == rs
      else if rb.Some? then r == Some(Span(rb.value.lo + |subject| + 1, rb.value.hi + |subject| + 1))
      else r == None
  {
    var rs, rb := Search(d, subject, m, n), Search(d, body, m, n);
    var off := |subject| + 1;
    if rs.Some? {
      r := rs;
      FitsSplitAtSeparator(d, subject, '\n', body, m, n, rs.value);
    } else if rb.Some? {
      r := Some(Span(rb.value.lo + off, rb.value.hi + off));
      FitsSplitAtSeparator(d, subject, '\n', body, m, n, r.value);
    } else {
      r := None;
    }
    forall p | Fits(d, subject + ['\n'] + body, m, n, p)
      ensures r.Some? && r.value.lo <= p.lo
    {
      NoFitBefore(d, subject, body, m, n, p);
    }
  }

  lemma NoFitBefore(d: Digit, subject: string, body: string, m: nat, n: nat, p: Span)
    requires 1 <= m <= n && !d('\n')
    requires LeftmostFit(d, subject, 0, m, n, Search(d, subject, m, n))
    requires LeftmostFit(d, body, 0, m, n, Search(d, body, m, n))
    requires Fits(d, subject + ['\n'] + body, m, n, p)
    ensures var rs, rb := Search(d, subject, m, n), Search(d, body, m, n);
      if rs.Some? then rs.value.lo <= p.lo else rb.Some? && rb.value.lo + |subject| + 1 <= p.lo
  {
    FitsSplitAtSeparator(d, subject, '\n', body, m, n, p);
  }
}
