/** `run_migrations`: apply the files that are not recorded yet, each in a transaction that also
    records its version. A run may stop anywhere: the process dies, or a file's SQL fails. */
module Migrations {
  import opened Common

  datatype File = File(name: string, sql: string)

  /** The recorded versions, and the scripts whose transactions committed, in order. */
  datatype Db = Db(versions: set<string>, journal: seq<string>)

  // ---- the directory ----------------------------------------------------------------------------

  predicate IsDigit(c: char) {
    '0' <= c <= '9'
  }

  function DigitPrefix(name: string): (k: nat)
    ensures k <= |name|
    ensures forall i :: 0 <= i < k ==> IsDigit(name[i])
    ensures k < |name| ==> !IsDigit(name[k])
  {
    if name == "" || !IsDigit(name[0]) then 0 else 1 + DigitPrefix(name[1..])
  }

  predicate Digits(s: string) {
    forall i :: 0 <= i < |s| ==> IsDigit(s[i])
  }

  /** `^(\d+)_` */
  function Version(name: string): (v: Option<string>)
    ensures v.Some? ==> v.value != "" && Digits(v.value) && v.value <= name
  {
    var k := DigitPrefix(name);
    if k > 0 && k < |name| && name[k] == '_' then Some(name[..k]) else None
  }

  /** Text order, as `sorted` compares paths of one directory. */
  predicate TextLe(a: string, b: string) {
    if a == "" then true
    else if b == "" then false
    else if a[0] != b[0] then a[0] < b[0]
    else TextLe(a[1..], b[1..])
  }

  ghost predicate InTextOrder(files: seq<File>) {
    forall i, j :: 0 <= i < j < |files| ==> TextLe(files[i].name, files[j].name)
  }

  lemma {:induction false} TextLeTotal(a: string, b: string)
    ensures TextLe(a, b) || TextLe(b, a)
  {
    if a != "" && b != "" && a[0] == b[0] {
      TextLeTotal(a[1..], b[1..]);
    }
  }

  lemma {:induction false} TextLeTransitive(a: string, b: string, c: string)
    requires TextLe(a, b) && TextLe(b, c)
    ensures TextLe(a, c)
  {
    if a != "" && b != "" && c != "" && a[0] == b[0] == c[0] {
      TextLeTransitive(a[1..], b[1..], c[1..]);
    }
  }

  function Place(f: File, files: seq<File>): seq<File> {
    if files == [] || TextLe(f.name, files[0].name) then [f] + files
    else [files[0]] + Place(f, files[1..])
  }

  /** `sorted(...)` over the directory listing. */
  function Sorted(files: seq<File>): seq<File> {
    if files == [] then [] else Place(files[0], Sorted(files[1..]))
  }

  lemma {:induction false} PlaceKeepsOrder(f: File, files: seq<File>)
    requires InTextOrder(files)
    ensures InTextOrder(Place(f, files)) && multiset(Place(f, files)) == multiset(files) + multiset{f}
  {
    if files == [] {
    } else if TextLe(f.name, files[0].name) {
      forall j | 0 <= j < |files| ensures TextLe(f.name, files[j].name) {
        if j > 0 {
          TextLeTransitive(f.name, files[0].name, files[j].name);
        }
      }
    } else {
      assert files == [files[0]] + files[1..];
      PlaceKeepsOrder(f, files[1..]);
      TextLeTotal(f.name, files[0].name);
      HeadStaysFirst(f, files, Place(f, files[1..]));
    }
  }

  lemma HeadStaysFirst(f: File, files: seq<File>, rest: seq<File>)
    requires files != [] && InTextOrder(files) && TextLe(files[0].name, f.name)
    requires InTextOrder(rest) && multiset(rest) == multiset(files[1..]) + multiset{f}
    ensures InTextOrder([files[0]] + rest)
  {
    forall x | x in rest ensures TextLe(files[0].name, x.name) {
      assert x in multiset(rest);
      if x != f {
        assert x in files[1..];
        var j :| 0 <= j < |files[1..]| && files[1..][j] == x;
        assert files[j + 1] == x;
      }
    }
  }

  /** The run takes exactly the files of the directory, in text order of their names. */
  lemma {:induction false} SortedIsOrdered(files: seq<File>)
    ensures InTextOrder(Sorted(files)) && multiset(Sorted(files)) == multiset(files)
  {
    if files != [] {
      SortedIsOrdered(files[1..]);
      PlaceKeepsOrder(files[0], Sorted(files[1..]));
      assert files == [files[0]] + files[1..];
    }
  }

  // ---- when text order is numeric order --------------------------------------------------------

  /** The number a digit text writes, read from the left, after `before`. */
  function Value(digits: string, before: nat): nat
    requires Digits(digits)
  {
    if digits == "" then before
    else
      assert IsDigit(digits[0]);
      Value(digits[1..], before * 10 + (digits[0] as int - '0' as int) as nat)
  }

  function Number(f: File): Option<nat> {
    match Version(f.name) case Some(v) => Some(Value(v, 0)) case None => None
  }

  ghost predicate InNumericOrder(files: seq<File>) {
    forall i, j :: 0 <= i < j < |files| && Number(files[i]).Some? && Number(files[j]).Some? ==>
      Number(files[i]).value <= Number(files[j]).value
  }

  /** A lead taken early is never made up for. */
  lemma {:induction false} LeadIsKept(v: string, w: string, p: nat, q: nat)
    requires Digits(v) && Digits(w) && |v| == |w| && p < q
    ensures Value(v, p) < Value(w, q)
    decreases |v|
  {
    if v != "" {
      assert IsDigit(v[0]) && IsDigit(w[0]);
      LeadIsKept(v[1..], w[1..], p * 10 + (v[0] as int - '0' as int) as nat, q * 10 + (w[0] as int - '0' as int) as nat);
    }
  }

  /** Versions of one width: text order is numeric order, whatever follows them in the name. */
  lemma {:induction false} EqualWidthsCompareAsNumbers(v: string, w: string, x: string, y: string, p: nat)
    requires Digits(v) && Digits(w) && |v| == |w| && v != w
    ensures TextLe(v + x, w + y) <==> Value(v, p) < Value(w, p)
    decreases |v|
  {
    assert IsDigit(v[0]) && IsDigit(w[0]);
    var a, b := (v[0] as int - '0' as int) as nat, (w[0] as int - '0' as int) as nat;
    assert (v + x)[0] == v[0] && (w + y)[0] == w[0];
    if a < b {
      LeadIsKept(v[1..], w[1..], p * 10 + a, p * 10 + b);
    } else if b < a {
      LeadIsKept(w[1..], v[1..], p * 10 + b, p * 10 + a);
    } else {
      assert v == [v[0]] + v[1..] && w == [w[0]] + w[1..];
      assert (v + x)[1..] == v[1..] + x && (w + y)[1..] == w[1..] + y;
      EqualWidthsCompareAsNumbers(v[1..], w[1..], x, y, p * 10 + a);
    }
  }

  lemma {:induction false} ValueOfConcat(v: string, w: string, p: nat)
    requires Digits(v) && Digits(w)
    ensures Digits(v + w) && Value(v + w, p) == Value(w, Value(v, p))
    decreases |v|
  {
    if v == "" {
      assert v + w == w;
    } else {
      assert IsDigit(v[0]) && (v + w)[0] == v[0] && (v + w)[1..] == v[1..] + w;
      ValueOfConcat(v[1..], w, p * 10 + (v[0] as int - '0' as int) as nat);
    }
  }

  lemma {:induction false} ValueGrows(v: string, p: nat)
    requires Digits(v)
    ensures Value(v, p) >= p
    decreases |v|
  {
    if v != "" {
      assert IsDigit(v[0]);
      ValueGrows(v[1..], p * 10 + (v[0] as int - '0' as int) as nat);
    }
  }

  /** A longer version without a leading zero is the larger number. */
  lemma LongerIsLarger(v: string, w: string)
    requires Digits(v) && Digits(w) && |v| < |w| && w[0] != '0'
    ensures Value(v, 0) < Value(w, 0)
  {
    var front, back := w[..|w| - |v|], w[|w| - |v|..];
    assert IsDigit(w[0]) && front[0] == w[0];
    ValueGrows(front[1..], (front[0] as int - '0' as int) as nat);
    assert w == front + back;
    ValueOfConcat(front, back, 0);
    LeadIsKept(v, back, 0, Value(front, 0));
  }

  function Zeros(n: nat): string {
    seq(n, _ => '0')
  }

  lemma {:induction false} VersionOfName(v: string, rest: string)
    requires v != "" && Digits(v)
    ensures Version(v + "_" + rest) == Some(v)
  {
    var name := v + "_" + rest;
    assert name[|v|] == '_' && forall i :: 0 <= i < |v| ==> name[i] == v[i];
    assert DigitPrefix(name) == |v|;
    assert name[..|v|] == v;
  }

  /** For any two widths there are two files, one of each, that come out misordered: 20..0 is a smaller
      number than the longer 10..0 and yet a later text. */
  lemma UnequalWidthsMisorder(m: nat, n: nat) returns (small: File, large: File)
    requires 0 < m < n
    ensures Version(small.name).Some? && |Version(small.name).value| == m
    ensures Version(large.name).Some? && |Version(large.name).value| == n
    ensures Number(small).value < Number(large).value
    ensures TextLe(large.name, small.name) && !TextLe(small.name, large.name)
  {
    var v, w := "2" + Zeros(m - 1), "1" + Zeros(n - 1);
    small, large := File(v + "_" + "a.sql", ""), File(w + "_" + "b.sql", "");
    VersionOfName(v, "a.sql");
    VersionOfName(w, "b.sql");
    LongerIsLarger(v, w);
    assert small.name[0] == '2' && large.name[0] == '1';
  }

  /** So version 10 runs before version 9. */
  lemma TextOrderIsNotNumeric()
    ensures var a, b := "10_b.sql", "9_a.sql";
      && Version(a) == Some("10") && Version(b) == Some("9")
      && TextLe(a, b) && !TextLe(b, a)
      && Value("10", 0) > Value("9", 0)
  {
    var a, b := "10_b.sql", "9_a.sql";
    assert DigitPrefix(a) == 2 && DigitPrefix(b) == 1;
    assert a[..2] == "10" && b[..1] == "9";
    LongerIsLarger("9", "10");
  }

  /** All recognised versions have a width in `widths`. */
  ghost predicate WidthsIn(files: seq<File>, widths: set<nat>) {
    forall f :: f in files && Version(f.name).Some? ==> |Version(f.name).value| in widths
  }

  lemma OneWidthIsNumeric(files: seq<File>, n: nat)
    requires WidthsIn(files, {n}) && InTextOrder(files)
    ensures InNumericOrder(files)
  {
    forall i, j | 0 <= i < j < |files| && Number(files[i]).Some? && Number(files[j]).Some?
      ensures Number(files[i]).value <= Number(files[j]).value
    {
      var a, b := files[i].name, files[j].name;
      var v, w := Version(a).value, Version(b).value;
      assert files[i] in files && files[j] in files;
      assert a == v + a[|v|..] && b == w + b[|w|..];
      if v != w {
        EqualWidthsCompareAsNumbers(v, w, a[|v|..], b[|w|..], 0);
      }
    }
  }

  lemma SortedKeepsFiles(files: seq<File>, f: File)
    ensures f in Sorted(files) <==> f in files
  {
    SortedIsOrdered(files);
    assert f in files <==> f in multiset(files);
    assert f in Sorted(files) <==> f in multiset(Sorted(files));
  }

  /** The documentation's numeric order: the directories whose versions have widths in a given set all
      run in numeric order if and only if the set has at most one width. */
  lemma NumericOrderIffOneWidth(widths: set<nat>)
    requires 0 !in widths
    ensures (forall files :: WidthsIn(files, widths) ==> InNumericOrder(Sorted(files))) <==> |widths| <= 1
  {
    if |widths| <= 1 {
      forall files | WidthsIn(files, widths) ensures InNumericOrder(Sorted(files)) {
        AtMostOneWidth(files, widths);
      }
    } else {
      var m, n := TwoWidths(widths);
      var small, large := UnequalWidthsMisorder(m, n);
      MisorderedPair(small, large);
      assert WidthsIn([small, large], widths);
    }
  }

  lemma AtMostOneWidth(files: seq<File>, widths: set<nat>)
    requires |widths| <= 1 && WidthsIn(files, widths)
    ensures InNumericOrder(Sorted(files))
  {
    SortedIsOrdered(files);
    forall f | f in Sorted(files) ensures f in files { SortedKeepsFiles(files, f); }
    var n: nat := if widths == {} then 0 else var k :| k in widths; k;
    forall k | k in widths ensures k == n {
      if k != n {
        SubsetIsNoLarger({k, n}, widths);
      }
    }
    OneWidthIsNumeric(Sorted(files), n);
  }

  lemma TwoWidths(widths: set<nat>) returns (m: nat, n: nat)
    requires |widths| > 1
    ensures m in widths && n in widths && m < n
  {
    var a :| a in widths;
    var rest := widths - {a};
    assert |rest| == |widths| - 1;
    var b :| b in rest;
    m, n := if a < b then a else b, if a < b then b else a;
  }

  lemma MisorderedPair(small: File, large: File)
    requires Number(small).Some? && Number(large).Some? && Number(small).value < Number(large).value
    requires TextLe(large.name, small.name) && !TextLe(small.name, large.name)
    ensures !InNumericOrder(Sorted([small, large]))
  {
    assert [small, large][1..] == [large] && [large][1..] == [];
    assert Sorted([large]) == Place(large, Sorted([])) == [large];
    assert Sorted([small, large]) == Place(small, [large]);
    assert [large][1..] == [];
    assert Place(small, []) == [small];
    var run := Sorted([small, large]);
    assert run == [large, small];
    assert Number(run[0]).value > Number(run[1]).value;
  }

  // ---- one run ------------------------------------------------------------------------------------

  /** A file the runner recognises: its version and its SQL. */
  datatype Step = Step(version: string, sql: string)

  function Parsed(files: seq<File>): seq<Step> {
    if files == [] then []
    else
      var v := Version(files[0].name);
      (if v.Some? then [Step(v.value, files[0].sql)] else []) + Parsed(files[1..])
  }

  function Pending(steps: seq<Step>, applied: set<string>): seq<Step> {
    if steps == [] then []
    else if steps[0].version in applied then Pending(steps[1..], applied)
    else [steps[0]] + Pending(steps[1..], applied)
  }

  function Commit(db: Db, s: Step): Db {
    Db(db.versions + {s.version}, db.journal + [s.sql])
  }

  /** The transactions over the pending files; the run dies before the `cut`-th, and a version that is
      recorded already violates the primary key and ends the run too. */
  function Execute(db: Db, pending: seq<Step>, cut: nat): (Db, bool)
    decreases |pending|
  {
    if pending == [] then (db, true)
    else if cut == 0 || pending[0].version in db.versions then (db, false)
    else Execute(Commit(db, pending[0]), pending[1..], cut - 1)
  }

  function RunOnce(steps: seq<Step>, db: Db, cut: nat): (Db, bool) {
    Execute(db, Pending(steps, db.versions), cut)
  }

  class MigrationRunner {
    var versions: set<string>
    var journal: seq<string>

    constructor (db: Db)
      ensures View() == db
    {
      versions, journal := db.versions, db.journal;
    }

    function View(): Db
      reads this
    {
      Db(versions, journal)
    }

    /** One startup over the sorted directory; `cut` is how many transactions it lives to commit. */
    method RunMigrations(listing: seq<File>, cut: nat) returns (finished: bool)
      modifies this
      ensures (View(), finished) == RunOnce(Parsed(Sorted(listing)), old(View()), cut)
    {
      var applied := versions;
      var files := Sorted(listing);
      var done := 0;
      ghost var whole := Execute(View(), Pending(Parsed(files), applied), cut);
      assert files[0..] == files;
      for i := 0 to |files|
        invariant done <= cut
        invariant Execute(View(), Pending(Parsed(files[i..]), applied), cut - done) == whole
      {
        var f := files[i];
        ExecuteStep(View(), files, i, applied, cut - done);
        var version := Version(f.name);
        if version.None? {
          continue;
        }
        if version.value in applied {
          continue;
        }
        if done == cut {
          return false;
        }
        if version.value in versions {
          return false;
        }
        versions, journal := versions + {version.value}, journal + [f.sql];
        done := done + 1;
      }
      assert files[|files|..] == [];
      finished := true;
    }
  }

  lemma ParsedStep(files: seq<File>, i: nat, applied: set<string>)
    requires i < |files|
    ensures var rest := Pending(Parsed(files[i + 1..]), applied);
      var v := Version(files[i].name);
      Pending(Parsed(files[i..]), applied)
      == if v.Some? && v.value !in applied then [Step(v.value, files[i].sql)] + rest else rest
  {
    assert files[i..][1..] == files[i + 1..];
    var v := Version(files[i].name);
    var later := Parsed(files[i + 1..]);
    if v.Some? {
      assert ([Step(v.value, files[i].sql)] + later)[1..] == later;
    } else {
      assert [] + later == later;
    }
  }

  lemma ExecuteStep(db: Db, files: seq<File>, i: nat, applied: set<string>, cut: nat)
    requires i < |files|
    ensures var rest := Pending(Parsed(files[i + 1..]), applied);
      var v := Version(files[i].name);
      Execute(db, Pending(Parsed(files[i..]), applied), cut)
      == if v.None? || v.value in applied then Execute(db, rest, cut)
         else if cut == 0 || v.value in db.versions then (db, false)
         else Execute(Commit(db, Step(v.value, files[i].sql)), rest, cut - 1)
  {
    ParsedStep(files, i, applied);
    var v := Version(files[i].name);
    var rest := Pending(Parsed(files[i + 1..]), applied);
    if v.Some? {
      assert ([Step(v.value, files[i].sql)] + rest)[1..] == rest;
    }
  }

  // ---- any number of runs ---------------------------------------------------------------------------

  /** Restart after restart, each cut short somewhere. */
  function Restarts(steps: seq<Step>, db: Db, cuts: seq<nat>): Db
    decreases |cuts|
  {
    if cuts == [] then db else Restarts(steps, RunOnce(steps, db, cuts[0]).0, cuts[1..])
  }

  ghost predicate DistinctVersions(steps: seq<Step>) {
    forall i, j :: 0 <= i < j < |steps| ==> steps[i].version != steps[j].version
  }

  function Scripts(steps: seq<Step>): seq<string> {
    seq(|steps|, i requires 0 <= i < |steps| => steps[i].sql)
  }

  function VersionsOf(steps: seq<Step>): set<string> {
    set s | s in steps :: s.version
  }

  function After(db: Db, done: seq<Step>): Db {
    Db(db.versions + VersionsOf(done), db.journal + Scripts(done))
  }

  lemma {:induction false} PendingAreNew(steps: seq<Step>, applied: set<string>)
    ensures forall s :: s in Pending(steps, applied) ==> s in steps && s.version !in applied
  {
    if steps != [] {
      PendingAreNew(steps[1..], applied);
      assert steps == [steps[0]] + steps[1..];
    }
  }

  lemma VersionsOfCons(s: Step, steps: seq<Step>)
    ensures VersionsOf([s] + steps) == {s.version} + VersionsOf(steps)
  {
  }

  /** Recording some of the pending files leaves exactly the others pending. */
  lemma {:induction false} PendingFilters(steps: seq<Step>, applied: set<string>, more: set<string>)
    ensures Pending(steps, applied + more) == Pending(Pending(steps, applied), more)
    decreases |steps|
  {
    if steps != [] {
      PendingFilters(steps[1..], applied, more);
      var rest := Pending(steps[1..], applied);
      assert ([steps[0]] + rest)[1..] == rest;
    }
  }

  lemma {:induction false} PendingOfPrefix(p: seq<Step>, k: nat)
    requires DistinctVersions(p) && k <= |p|
    ensures Pending(p, VersionsOf(p[..k])) == p[k..]
    decreases |p|
  {
    if k == 0 {
      assert p[..0] == [] && VersionsOf([]) == {};
      PendingOfNothing(p);
    } else {
      var head, rest := p[0], p[1..];
      assert p[..k] == [head] + rest[..k - 1];
      VersionsOfCons(head, rest[..k - 1]);
      assert forall i :: 0 <= i < |rest| ==> rest[i] == p[i + 1];
      PendingOfPrefix(rest, k - 1);
      PendingIgnores(rest, VersionsOf(rest[..k - 1]), head.version);
      assert VersionsOf(p[..k]) == VersionsOf(rest[..k - 1]) + {head.version};
    }
  }

  lemma {:induction false} PendingOfNothing(p: seq<Step>)
    ensures Pending(p, {}) == p
  {
    if p != [] {
      PendingOfNothing(p[1..]);
    }
  }

  /** A version none of the files has does not matter. */
  lemma {:induction false} PendingIgnores(p: seq<Step>, applied: set<string>, v: string)
    requires forall i :: 0 <= i < |p| ==> p[i].version != v
    ensures Pending(p, applied + {v}) == Pending(p, applied)
  {
    if p != [] {
      assert forall i :: 0 <= i < |p[1..]| ==> p[1..][i] == p[i + 1];
      PendingIgnores(p[1..], applied, v);
    }
  }

  /** With distinct versions a run commits as many pending files as it lives for, and finishes exactly
      when it lives for all. */
  lemma {:induction false} ExecuteDistinct(db: Db, pending: seq<Step>, cut: nat)
    requires forall i :: 0 <= i < |pending| ==> pending[i].version !in db.versions
    requires DistinctVersions(pending)
    ensures Execute(db, pending, cut) == (After(db, pending[..Min(cut, |pending|)]), cut >= |pending|)
    decreases |pending|
  {
    var k := Min(cut, |pending|);
    if k == 0 {
      assert pending[..0] == [] && VersionsOf([]) == {} && Scripts([]) == [];
      assert After(db, []) == db;
    } else {
      var head, rest := pending[0], pending[1..];
      var db1 := Commit(db, head);
      assert forall i :: 0 <= i < |rest| ==> rest[i] == pending[i + 1];
      ExecuteDistinct(db1, rest, cut - 1);
      assert pending[..k] == [head] + rest[..k - 1];
      AfterHead(db, head, rest[..k - 1]);
    }
  }

  lemma AfterHead(db: Db, head: Step, rest: seq<Step>)
    ensures After(Commit(db, head), rest) == After(db, [head] + rest)
  {
    VersionsOfCons(head, rest);
    assert Scripts([head] + rest) == [head.sql] + Scripts(rest);
    assert db.journal + [head.sql] + Scripts(rest) == db.journal + ([head.sql] + Scripts(rest));
  }

  lemma AfterAfter(db: Db, a: seq<Step>, b: seq<Step>)
    ensures After(After(db, a), b) == After(db, a + b)
  {
    assert VersionsOf(a + b) == VersionsOf(a) + VersionsOf(b);
    assert Scripts(a + b) == Scripts(a) + Scripts(b);
    assert db.journal + Scripts(a) + Scripts(b) == db.journal + (Scripts(a) + Scripts(b));
  }

  /** After a prefix of the pending files, exactly the rest is pending. */
  lemma RestIsPending(steps: seq<Step>, db: Db, k: nat)
    requires DistinctVersions(Pending(steps, db.versions)) && k <= |Pending(steps, db.versions)|
    ensures var rest := Pending(steps, db.versions)[k..];
      var now := After(db, Pending(steps, db.versions)[..k]);
      && Pending(steps, now.versions) == rest
      && DistinctVersions(rest)
      && forall i :: 0 <= i < |rest| ==> rest[i].version !in now.versions
  {
    var p := Pending(steps, db.versions);
    var now := After(db, p[..k]);
    PendingFilters(steps, db.versions, VersionsOf(p[..k]));
    PendingOfPrefix(p, k);
    PendingAreNew(steps, now.versions);
    var rest := p[k..];
    forall i | 0 <= i < |rest| ensures rest[i] == p[k + i] && rest[i].version !in now.versions {
      assert rest[i] in Pending(steps, now.versions);
    }
  }

  lemma OneMoreRun(steps: seq<Step>, db: Db, k: nat, cut: nat) returns (m: nat)
    requires DistinctVersions(Pending(steps, db.versions)) && k <= |Pending(steps, db.versions)|
    ensures var p := Pending(steps, db.versions);
      && m == Min(k + cut, |p|)
      && RunOnce(steps, After(db, p[..k]), cut) == (After(db, p[..m]), cut >= |p| - k)
  {
    var p := Pending(steps, db.versions);
    m := Min(k + cut, |p|);
    RestIsPending(steps, db, k);
    RunRest(steps, After(db, p[..k]), p[k..], cut);
    PrefixThenPrefix(db, p, k, m);
  }

  lemma RunRest(steps: seq<Step>, now: Db, rest: seq<Step>, cut: nat)
    requires Pending(steps, now.versions) == rest && DistinctVersions(rest)
    ensures RunOnce(steps, now, cut) == (After(now, rest[..Min(cut, |rest|)]), cut >= |rest|)
  {
    PendingAreNew(steps, now.versions);
    ExecuteDistinct(now, rest, cut);
  }

  lemma PrefixThenPrefix(db: Db, p: seq<Step>, k: nat, m: nat)
    requires k <= m <= |p|
    ensures After(After(db, p[..k]), p[k..][..m - k]) == After(db, p[..m])
  {
    assert p[..k] + p[k..][..m - k] == p[..m];
    AfterAfter(db, p[..k], p[k..][..m - k]);
  }

  /** However often and wherever the runs are cut short, a prefix of the pending files is recorded. */
  lemma {:induction false} RestartsKeepPrefix(steps: seq<Step>, db: Db, cuts: seq<nat>, k: nat) returns (n: nat)
    requires DistinctVersions(Pending(steps, db.versions)) && k <= |Pending(steps, db.versions)|
    ensures var p := Pending(steps, db.versions);
      n <= |p| && Restarts(steps, After(db, p[..k]), cuts) == After(db, p[..n])
    decreases |cuts|
  {
    if cuts == [] {
      n := k;
    } else {
      var m := OneMoreRun(steps, db, k, cuts[0]);
      n := RestartsKeepPrefix(steps, db, cuts[1..], m);
    }
  }

  /** Crash recovery: with distinct pending versions, any runs cut short at arbitrary points followed
      by one complete run apply each pending file exactly once, in order; the result is that of one
      uninterrupted run, and a further run changes nothing. */
  lemma CrashRecovery(steps: seq<Step>, db: Db, cuts: seq<nat>, cut: nat, again: nat)
    requires DistinctVersions(Pending(steps, db.versions))
    requires cut >= |Pending(steps, db.versions)|
    ensures var p := Pending(steps, db.versions);
      && RunOnce(steps, Restarts(steps, db, cuts), cut) == (After(db, p), true)
      && RunOnce(steps, db, cut) == (After(db, p), true)
      && RunOnce(steps, After(db, p), again) == (After(db, p), true)
  {
    var p := Pending(steps, db.versions);
    assert p[..0] == [] && VersionsOf([]) == {} && Scripts([]) == [];
    assert After(db, p[..0]) == db;
    var n := RestartsKeepPrefix(steps, db, cuts, 0);
    var m1 := OneMoreRun(steps, db, n, cut);
    var m2 := OneMoreRun(steps, db, 0, cut);
    var m3 := OneMoreRun(steps, db, |p|, again);
    assert p[..|p|] == p;
  }

  // ---- when versions collide -----------------------------------------------------------------------

  /** What any stretch of runs adds: new versions of pending files, one script for each. */
  ghost predicate Grew(db: Db, db': Db, within: set<string>) {
    && db.versions <= db'.versions <= db.versions + within
    && |db'.journal| == |db.journal| + |db'.versions - db.versions|
  }

  lemma GrewTwice(a: Db, b: Db, c: Db, within: set<string>)
    requires Grew(a, b, within) && Grew(b, c, within)
    ensures Grew(a, c, within)
  {
    assert c.versions - a.versions == (c.versions - b.versions) + (b.versions - a.versions);
  }

  lemma {:induction false} ExecuteGrows(db: Db, pending: seq<Step>, cut: nat, within: set<string>)
    requires VersionsOf(pending) <= within
    ensures Grew(db, Execute(db, pending, cut).0, within)
    decreases |pending|
  {
    if pending == [] || cut == 0 || pending[0].version in db.versions {
      assert db.versions - db.versions == {};
    } else {
      var head, rest := pending[0], pending[1..];
      assert pending == [head] + rest;
      VersionsOfCons(head, rest);
      var db1 := Commit(db, head);
      assert db1.versions - db.versions == {head.version};
      ExecuteGrows(db1, rest, cut - 1, within);
      GrewTwice(db, db1, Execute(db1, rest, cut - 1).0, within);
    }
  }

  lemma {:induction false} PendingShrinks(steps: seq<Step>, applied: set<string>, more: set<string>)
    requires applied <= more
    ensures VersionsOf(Pending(steps, more)) <= VersionsOf(Pending(steps, applied))
  {
    PendingFilters(steps, applied, more);
    assert applied + more == more;
    PendingAreNew(Pending(steps, applied), more);
  }

  lemma {:induction false} RestartsGrow(steps: seq<Step>, db: Db, cuts: seq<nat>, within: set<string>)
    requires VersionsOf(Pending(steps, db.versions)) <= within
    ensures Grew(db, Restarts(steps, db, cuts), within)
    decreases |cuts|
  {
    if cuts == [] {
      assert db.versions - db.versions == {};
    } else {
      var db1 := RunOnce(steps, db, cuts[0]).0;
      ExecuteGrows(db, Pending(steps, db.versions), cuts[0], within);
      PendingShrinks(steps, db.versions, db1.versions);
      RestartsGrow(steps, db1, cuts[1..], within);
      GrewTwice(db, db1, Restarts(steps, db1, cuts[1..]), within);
    }
  }

  lemma {:induction false} CollidingVersionsAreFewer(p: seq<Step>)
    ensures |VersionsOf(p)| <= |p|
    ensures !DistinctVersions(p) ==> |VersionsOf(p)| < |p|
    decreases |p|
  {
    if p != [] {
      var head, rest := p[0], p[1..];
      assert p == [head] + rest;
      VersionsOfCons(head, rest);
      CollidingVersionsAreFewer(rest);
      if head.version in VersionsOf(rest) {
        assert VersionsOf(p) == VersionsOf(rest);
      } else if DistinctVersions(rest) {
        forall i, j | 0 <= i < j < |p| ensures p[i].version != p[j].version {
          assert p[j] == rest[j - 1] && rest[j - 1] in rest;
          assert i > 0 ==> p[i] == rest[i - 1];
        }
      }
    }
  }

  /** Some sequence of starts applies every pending file if and only if their versions are distinct:
      of two files with one version the second is never applied, however often the program starts. */
  lemma EveryFileAppliedIffDistinct(steps: seq<Step>, db: Db)
    ensures (exists cuts :: |Restarts(steps, db, cuts).journal| - |db.journal| == |Pending(steps, db.versions)|)
       <==> DistinctVersions(Pending(steps, db.versions))
  {
    var p := Pending(steps, db.versions);
    if DistinctVersions(p) {
      CrashRecovery(steps, db, [], |p|, 0);
      var cuts: seq<nat> := [|p|];
      assert cuts[1..] == [];
      assert Restarts(steps, db, cuts) == RunOnce(steps, db, |p|).0;
      assert |Restarts(steps, db, cuts).journal| - |db.journal| == |p|;
    } else {
      forall cuts ensures |Restarts(steps, db, cuts).journal| - |db.journal| != |p| {
        RestartsGrow(steps, db, cuts, VersionsOf(p));
        CollidingVersionsAreFewer(p);
        SubsetIsNoLarger(Restarts(steps, db, cuts).versions - db.versions, VersionsOf(p));
      }
    }
  }

  /** Two files with version 001: whatever the starts, the second script never runs. */
  lemma {:induction false} SecondOfTwoNeverRuns(db: Db, cuts: seq<nat>)
    requires db == Db({}, []) || db == Db({"001"}, ["a"])
    ensures var db' := Restarts([Step("001", "a"), Step("001", "b")], db, cuts);
      db' == Db({}, []) || db' == Db({"001"}, ["a"])
    decreases |cuts|
  {
    if cuts != [] {
      var steps := [Step("001", "a"), Step("001", "b")];
      OneStartOfTwo(db, cuts[0]);
      SecondOfTwoNeverRuns(RunOnce(steps, db, cuts[0]).0, cuts[1..]);
    }
  }

  lemma OneStartOfTwo(db: Db, cut: nat)
    requires db == Db({}, []) || db == Db({"001"}, ["a"])
    ensures var db' := RunOnce([Step("001", "a"), Step("001", "b")], db, cut).0;
      db' == Db({}, []) || db' == Db({"001"}, ["a"])
  {
    var a, b := Step("001", "a"), Step("001", "b");
    assert [a, b][1..] == [b] && [b][1..] == [];
    assert Pending([b], db.versions) == if db.versions == {} then [b] else [];
    assert Pending([a, b], db.versions) == if db.versions == {} then [a, b] else [];
  }
}
