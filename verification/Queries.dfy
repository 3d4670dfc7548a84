/** The lock-step `where`/`args` builders: conditions with numbered placeholders, and the values bound
    to them. */
module Queries {
  import opened Common
  import opened CodeTable
  import Extractor
  import LongPoll

  const PAGE_SIZE: nat := 50

  datatype Value = Number(n: int) | Text(s: string) | Time(t: int)

  /** `$k`, or the `${n}` that `_q` is still to number. */
  datatype Slot = Dollar(k: nat) | Hole

  datatype Clause =
    | Always
    | TenantIs(slot: Slot)
    | TargetIs(slot: Slot)
    | TargetLike(slot: Slot)
    | PlatformIs(slot: Slot)
    | ReceivedFrom(slot: Slot)
    | IsConsumed
    | NotConsumed

  datatype Query = Query(wheres: seq<Clause>, args: seq<Value>)

  // ---- what the database makes of it --------------------------------------------------------

  /** `LIKE` with `%`, `_` and the default escape. */
  predicate Like(p: string, t: string)
    decreases |p| + |t|
  {
    if p == "" then t == ""
    else if p[0] == '%' then Like(p[1..], t) || (t != "" && Like(p, t[1..]))
    else if p[0] == '_' then t != "" && Like(p[1..], t[1..])
    else if p[0] == '\\' then |p| > 1 && t != "" && t[0] == p[1] && Like(p[2..], t[1..])
    else t != "" && t[0] == p[0] && Like(p[1..], t[1..])
  }

  /** The placeholder of a clause, if it has one. */
  function SlotOf(c: Clause): Option<Slot> {
    match c
    case Always => None
    case IsConsumed => None
    case NotConsumed => None
    case TenantIs(s) => Some(s)
    case TargetIs(s) => Some(s)
    case TargetLike(s) => Some(s)
    case PlatformIs(s) => Some(s)
    case ReceivedFrom(s) => Some(s)
  }

  /** The placeholder is numbered, in range, and its value has the column's type. */
  predicate Bound(c: Clause, args: seq<Value>) {
    SlotOf(c).Some? ==>
      var s := SlotOf(c).value;
      && s.Dollar? && 1 <= s.k <= |args|
      && match c
         case TenantIs(_) => args[s.k - 1].Number?
         case ReceivedFrom(_) => args[s.k - 1].Time?
         case _ => args[s.k - 1].Text?
  }

  predicate WellBound(q: Query) {
    forall i :: 0 <= i < |q.wheres| ==> Bound(q.wheres[i], q.args)
  }

  predicate Holds(c: Clause, args: seq<Value>, row: CodeRow)
    requires Bound(c, args)
  {
    match c
    case Always => true
    case IsConsumed => row.consumed.Some?
    case NotConsumed => row.consumed.None?
    case TenantIs(s) => row.content.tenant == args[s.k - 1].n
    case TargetIs(s) => row.content.target == args[s.k - 1].s
    case TargetLike(s) => Like(args[s.k - 1].s, Extractor.Lower(row.content.target))
    case PlatformIs(s) => row.content.platform == Some(args[s.k - 1].s)
    case ReceivedFrom(s) => row.content.receivedAt >= args[s.k - 1].t
  }

  /** The conjunction. */
  predicate Selects(q: Query, row: CodeRow)
    requires WellBound(q)
  {
    forall i :: 0 <= i < |q.wheres| ==> Holds(q.wheres[i], q.args, row)
  }

  /** Appending values never changes what is already there. */
  lemma LaterArgsDisturbNothing(q: Query, more: seq<Value>, row: CodeRow)
    requires WellBound(q)
    ensures WellBound(q.(args := q.args + more))
    ensures Selects(q.(args := q.args + more), row) <==> Selects(q, row)
  {
    var q' := q.(args := q.args + more);
    forall i | 0 <= i < |q.wheres|
      ensures Bound(q'.wheres[i], q'.args) && Holds(q'.wheres[i], q'.args, row) == Holds(q.wheres[i], q.args, row)
    {
      assert Bound(q.wheres[i], q.args);
      var s := SlotOf(q.wheres[i]);
      assert s.Some? ==> q'.args[s.value.k - 1] == q.args[s.value.k - 1];
    }
  }

  /** A condition appended together with its value narrows the selection by exactly that condition. */
  lemma Appended(q: Query, more: seq<Value>, c: Clause)
    requires WellBound(q) && Bound(c, q.args + more)
    ensures WellBound(Query(q.wheres + [c], q.args + more))
    ensures forall row :: Selects(Query(q.wheres + [c], q.args + more), row)
                     <==> Selects(q, row) && Holds(c, q.args + more, row)
  {
    var q1, q2 := q.(args := q.args + more), Query(q.wheres + [c], q.args + more);
    forall row
      ensures WellBound(q1) && WellBound(q2) && (Selects(q2, row) <==> Selects(q, row) && Holds(c, q2.args, row))
    {
      LaterArgsDisturbNothing(q, more, row);
      NarrowedBy(q1, c, row);
    }
  }

  lemma NarrowedBy(q: Query, c: Clause, row: CodeRow)
    requires WellBound(q) && Bound(c, q.args)
    ensures var q2 := q.(wheres := q.wheres + [c]);
      WellBound(q2) && (Selects(q2, row) <==> Selects(q, row) && Holds(c, q.args, row))
  {
    var q2 := q.(wheres := q.wheres + [c]);
    forall i | 0 <= i < |q2.wheres| ensures Bound(q2.wheres[i], q2.args) {
      assert i < |q.wheres| ==> Bound(q.wheres[i], q.args);
    }
    if Selects(q2, row) {
      forall i | 0 <= i < |q.wheres| ensures Holds(q.wheres[i], q.args, row) {
        assert q2.wheres[i] == q.wheres[i];
      }
      assert q2.wheres[|q.wheres|] == c;
    }
  }

  // ---- the builders ---------------------------------------------------------------------------

  /** `if x:` on an optional text. */
  predicate GivenText(x: Option<string>) {
    x.Some? && x.value != ""
  }

  /** The filter the API's list endpoint means. */
  predicate ApiFilter(
    tenant: int, address: Option<string>, platform: Option<string>, since: Option<int>, consumed: Option<string>, row: CodeRow)
  {
    && row.content.tenant == tenant
    && (GivenText(address) ==> row.content.target == Extractor.Lower(address.value))
    && (GivenText(platform) ==> row.content.platform == platform)
    && (since.Some? ==> row.content.receivedAt >= since.value)
    && (consumed == Some("yes") ==> row.consumed.Some?)
    && (consumed == Some("no") ==> row.consumed.None?)
  }

  /** `if given: args.append(v); where.append(f"... ${len(args)}")` */
  function AndIf(q: Query, given: bool, v: Value, c: Slot -> Clause): Query {
    if given then Query(q.wheres + [c(Dollar(|q.args| + 1))], q.args + [v]) else q
  }

  /** The 'yes' and 'no' of the consumed filter; any other text filters nothing. */
  function AndConsumed(q: Query, consumed: Option<string>): Query {
    if consumed == Some("yes") then q.(wheres := q.wheres + [IsConsumed])
    else if consumed == Some("no") then q.(wheres := q.wheres + [NotConsumed])
    else q
  }

  lemma AndIfNarrows(q: Query, given: bool, v: Value, c: Slot -> Clause)
    requires WellBound(q) && Bound(c(Dollar(|q.args| + 1)), q.args + [v])
    ensures WellBound(AndIf(q, given, v, c))
    ensures forall row :: Selects(AndIf(q, given, v, c), row)
                     <==> Selects(q, row) && (given ==> Holds(c(Dollar(|q.args| + 1)), q.args + [v], row))
  {
    if given {
      Appended(q, [v], c(Dollar(|q.args| + 1)));
    }
  }

  lemma AndConsumedNarrows(q: Query, consumed: Option<string>)
    requires WellBound(q)
    ensures WellBound(AndConsumed(q, consumed))
    ensures forall row :: Selects(AndConsumed(q, consumed), row)
                     <==> Selects(q, row) && (consumed == Some("yes") ==> row.consumed.Some?)
                          && (consumed == Some("no") ==> row.consumed.None?)
  {
    if consumed == Some("yes") {
      NoArgs(q, IsConsumed);
    } else if consumed == Some("no") {
      NoArgs(q, NotConsumed);
    }
  }

  function TextOf(x: Option<string>): string {
    if x.Some? then x.value else ""
  }

  function ApiAddressed(tenant: int, address: Option<string>): Query {
    AndIf(Query([TenantIs(Dollar(1))], [Number(tenant)]),
          GivenText(address), Text(Extractor.Lower(TextOf(address))), s => TargetIs(s))
  }

  function ApiPlatformed(tenant: int, address: Option<string>, platform: Option<string>): Query {
    AndIf(ApiAddressed(tenant, address), GivenText(platform), Text(TextOf(platform)), s => PlatformIs(s))
  }

  function ApiConditions(
    tenant: int, address: Option<string>, platform: Option<string>, since: Option<int>, consumed: Option<string>): Query
  {
    AndConsumed(
      AndIf(ApiPlatformed(tenant, address, platform),
            since.Some?, Time(if since.Some? then since.value else 0), s => ReceivedFrom(s)),
      consumed)
  }

  lemma ApiPlatformedMeans(tenant: int, address: Option<string>, platform: Option<string>)
    ensures WellBound(ApiPlatformed(tenant, address, platform))
    ensures forall row :: Selects(ApiPlatformed(tenant, address, platform), row)
                     <==> ApiFilter(tenant, address, platform, None, None, row)
  {
    var q0 := Query([TenantIs(Dollar(1))], [Number(tenant)]);
    assert forall row :: Selects(q0, row) <==> Holds(q0.wheres[0], q0.args, row);
    AndIfNarrows(q0, GivenText(address), Text(Extractor.Lower(TextOf(address))), s => TargetIs(s));
    var q1 := ApiAddressed(tenant, address);
    AndIfNarrows(q1, GivenText(platform), Text(TextOf(platform)), s => PlatformIs(s));
  }

  /** The API's conditions with their values select exactly the rows the filter means, for every
      combination of filters, and whatever is appended to the values afterwards. */
  lemma ApiConditionsMeanFilter(
    tenant: int, address: Option<string>, platform: Option<string>, since: Option<int>, consumed: Option<string>,
    more: seq<Value>)
    ensures var q := ApiConditions(tenant, address, platform, since, consumed);
      var q' := q.(args := q.args + more);
      && WellBound(q')
      && forall row :: Selects(q', row) <==> ApiFilter(tenant, address, platform, since, consumed, row)
  {
    ApiPlatformedMeans(tenant, address, platform);
    var q2 := ApiPlatformed(tenant, address, platform);
    AndIfNarrows(q2, since.Some?, Time(if since.Some? then since.value else 0), s => ReceivedFrom(s));
    var q3 := AndIf(q2, since.Some?, Time(if since.Some? then since.value else 0), s => ReceivedFrom(s));
    AndConsumedNarrows(q3, consumed);
    WithLimit(AndConsumed(q3, consumed), more);
  }

  /** `GET /api/v1/codes`: the conditions, their values, and last the LIMIT's. */
  method BuildApiList(
    tenant: int, address: Option<string>, platform: Option<string>, since: Option<int>, consumed: Option<string>, limit: nat)
    returns (wheres: seq<Clause>, args: seq<Value>, limitSlot: nat)
    ensures var q := ApiConditions(tenant, address, platform, since, consumed);
      wheres == q.wheres && args == q.args + [Number(limit)] && limitSlot == |args|
  {
    wheres, args := [TenantIs(Dollar(1))], [Number(tenant)];
    if GivenText(address) {
      args := args + [Text(Extractor.Lower(address.value))];
      wheres := wheres + [TargetIs(Dollar(|args|))];
    }
    assert Query(wheres, args) == ApiAddressed(tenant, address);
    if GivenText(platform) {
      args := args + [Text(platform.value)];
      wheres := wheres + [PlatformIs(Dollar(|args|))];
    }
    if since.Some? {
      args := args + [Time(since.value)];
      wheres := wheres + [ReceivedFrom(Dollar(|args|))];
    }
    if consumed == Some("yes") {
      wheres := wheres + [IsConsumed];
    } else if consumed == Some("no") {
      wheres := wheres + [NotConsumed];
    }
    args := args + [Number(limit)];
    limitSlot := |args|;
  }

  lemma NoArgs(q: Query, c: Clause)
    requires WellBound(q) && Bound(c, q.args)
    ensures WellBound(q.(wheres := q.wheres + [c]))
    ensures forall row :: Selects(q.(wheres := q.wheres + [c]), row) <==> Selects(q, row) && Holds(c, q.args, row)
  {
    forall row
      ensures WellBound(q.(wheres := q.wheres + [c]))
        && (Selects(q.(wheres := q.wheres + [c]), row) <==> Selects(q, row) && Holds(c, q.args, row))
    {
      NarrowedBy(q, c, row);
    }
  }

  /** LIMIT and OFFSET values appended at the end do not touch the conditions. */
  lemma WithLimit(q: Query, more: seq<Value>)
    requires WellBound(q)
    ensures WellBound(q.(args := q.args + more))
    ensures forall row :: Selects(q.(args := q.args + more), row) <==> Selects(q, row)
  {
    forall row
      ensures WellBound(q.(args := q.args + more)) && (Selects(q.(args := q.args + more), row) <==> Selects(q, row))
    {
      LaterArgsDisturbNothing(q, more, row);
    }
  }

  function UnconsumedConditions(tenant: int, address: string, platform: Option<string>, since: int): Query {
    AndIf(Query([TenantIs(Dollar(1)), TargetIs(Dollar(2)), ReceivedFrom(Dollar(3)), NotConsumed],
                [Number(tenant), Text(address), Time(since)]),
          GivenText(platform), Text(TextOf(platform)), s => PlatformIs(s))
  }

  /** The long poll's query selects exactly the matches it is documented to wait for. */
  lemma UnconsumedConditionsMeanMatches(tenant: int, address: string, platform: Option<string>, since: int)
    ensures var q := UnconsumedConditions(tenant, address, platform, since);
      && WellBound(q)
      && forall row :: Selects(q, row) <==> LongPoll.Matches(row, LongPoll.Want(tenant, address, platform, since))
  {
    var q := Query([TenantIs(Dollar(1)), TargetIs(Dollar(2)), ReceivedFrom(Dollar(3)), NotConsumed],
                   [Number(tenant), Text(address), Time(since)]);
    assert forall row :: Selects(q, row) <==>
      && Holds(q.wheres[0], q.args, row) && Holds(q.wheres[1], q.args, row)
      && Holds(q.wheres[2], q.args, row) && Holds(q.wheres[3], q.args, row);
    AndIfNarrows(q, GivenText(platform), Text(TextOf(platform)), s => PlatformIs(s));
  }

  /** `_find_unconsumed_code`: four fixed conditions and an optional fifth. */
  method BuildFindUnconsumed(tenant: int, address: string, platform: Option<string>, since: int) returns (q: Query)
    ensures q == UnconsumedConditions(tenant, address, platform, since)
  {
    var wheres := [TenantIs(Dollar(1)), TargetIs(Dollar(2)), ReceivedFrom(Dollar(3)), NotConsumed];
    var args := [Number(tenant), Text(address), Time(since)];
    if GivenText(platform) {
      args := args + [Text(platform.value)];
      wheres := wheres + [PlatformIs(Dollar(|args|))];
    }
    q := Query(wheres, args);
  }

  datatype Admin = Admin(username: string, isSuper: bool, tenant: int)

  predicate InScope(admin: Admin, row: CodeRow) {
    admin.isSuper || row.content.tenant == admin.tenant
  }

  /** The filter the admin's code list means. */
  predicate AdminFilter(
    admin: Admin, target: Option<string>, platform: Option<string>, consumed: Option<string>, row: CodeRow)
  {
    && (GivenText(target) ==> Like("%" + Extractor.Lower(target.value) + "%", Extractor.Lower(row.content.target)))
    && (GivenText(platform) ==> row.content.platform == platform)
    && (consumed == Some("yes") ==> row.consumed.Some?)
    && (consumed == Some("no") ==> row.consumed.None?)
    && InScope(admin, row)
  }

  function TargetPattern(target: Option<string>): string {
    "%" + Extractor.Lower(TextOf(target)) + "%"
  }

  function AdminPlatformed(target: Option<string>, platform: Option<string>): Query {
    AndIf(AndIf(Query([Always], []), GivenText(target), Text(TargetPattern(target)), s => TargetLike(s)),
          GivenText(platform), Text(TextOf(platform)), s => PlatformIs(s))
  }

  function AdminConditions(
    admin: Admin, target: Option<string>, platform: Option<string>, consumed: Option<string>): Query
  {
    AndIf(AndConsumed(AdminPlatformed(target, platform), consumed),
          !admin.isSuper, Number(admin.tenant), s => TenantIs(s))
  }

  lemma AdminPlatformedMeans(target: Option<string>, platform: Option<string>)
    ensures WellBound(AdminPlatformed(target, platform))
    ensures forall row :: Selects(AdminPlatformed(target, platform), row)
                     <==> (GivenText(target) ==> Like(TargetPattern(target), Extractor.Lower(row.content.target)))
                          && (GivenText(platform) ==> row.content.platform == platform)
  {
    var q0 := Query([Always], []);
    AndIfNarrows(q0, GivenText(target), Text(TargetPattern(target)), s => TargetLike(s));
    var q1 := AndIf(q0, GivenText(target), Text(TargetPattern(target)), s => TargetLike(s));
    AndIfNarrows(q1, GivenText(platform), Text(TextOf(platform)), s => PlatformIs(s));
  }

  lemma AdminScoped(admin: Admin, q: Query)
    requires WellBound(q)
    ensures var q' := AndIf(q, !admin.isSuper, Number(admin.tenant), s => TenantIs(s));
      WellBound(q') && forall row :: Selects(q', row) <==> Selects(q, row) && InScope(admin, row)
  {
    AndIfNarrows(q, !admin.isSuper, Number(admin.tenant), s => TenantIs(s));
  }

  /** The admin's conditions select exactly the rows its filter means, tenant scope included, both in
      the count and in the page query, which has two more values. */
  lemma AdminConditionsMeanFilter(
    admin: Admin, target: Option<string>, platform: Option<string>, consumed: Option<string>, more: seq<Value>)
    ensures var q := AdminConditions(admin, target, platform, consumed);
      var q' := q.(args := q.args + more);
      && WellBound(q')
      && forall row :: Selects(q', row) <==> AdminFilter(admin, target, platform, consumed, row)
  {
    AdminPlatformedMeans(target, platform);
    var q2 := AdminPlatformed(target, platform);
    AndConsumedNarrows(q2, consumed);
    AdminScoped(admin, AndConsumed(q2, consumed));
    WithLimit(AdminConditions(admin, target, platform, consumed), more);
  }

  /** `GET /admin/codes`: one condition text serves the count and the page; page size and offset take
      the two placeholders after the last. */
  method BuildAdminList(
    admin: Admin, target: Option<string>, platform: Option<string>, consumed: Option<string>, page: nat)
    returns (wheres: seq<Clause>, args: seq<Value>, args2: seq<Value>, limitSlot: nat, offsetSlot: nat)
    requires page >= 1
    ensures var q := AdminConditions(admin, target, platform, consumed);
      && wheres == q.wheres && args == q.args
      && args2 == args + [Number(50), Number((page - 1) * 50)]
    ensures limitSlot == |args| + 1 && offsetSlot == |args| + 2
  {
    var offset := (page - 1) * PAGE_SIZE;
    wheres, args := [Always], [];
    if GivenText(target) {
      args := args + [Text("%" + Extractor.Lower(target.value) + "%")];
      wheres := wheres + [TargetLike(Dollar(|args|))];
    }
    if GivenText(platform) {
      args := args + [Text(platform.value)];
      wheres := wheres + [PlatformIs(Dollar(|args|))];
    }
    assert Query(wheres, args) == AdminPlatformed(target, platform);
    if consumed == Some("yes") {
      wheres := wheres + [IsConsumed];
    } else if consumed == Some("no") {
      wheres := wheres + [NotConsumed];
    }
    if !admin.isSuper {
      args := args + [Number(admin.tenant)];
      wheres := wheres + [TenantIs(Dollar(|args|))];
    }
    args2 := args + [Number(PAGE_SIZE), Number(offset)];
    limitSlot, offsetSlot := |args| + 1, |args| + 2;
  }

  // ---- tenant scoping of ready-made queries ------------------------------------------------------

  /** A condition with a hole still to be numbered, and the value it will take. */
  function TenantFilter(admin: Admin): (Option<Clause>, seq<Value>) {
    if admin.isSuper then (None, []) else (Some(TenantIs(Hole)), [Number(admin.tenant)])
  }

  function FillHole(c: Clause, k: nat): Clause {
    match c
    case TenantIs(Hole) => TenantIs(Dollar(k))
    case TargetIs(Hole) => TargetIs(Dollar(k))
    case TargetLike(Hole) => TargetLike(Dollar(k))
    case PlatformIs(Hole) => PlatformIs(Dollar(k))
    case ReceivedFrom(Hole) => ReceivedFrom(Dollar(k))
    case _ => c
  }

  /** `_q`: number the hole with the first free placeholder and append the values. */
  function Splice(q: Query, extra: Option<Clause>, extraArgs: seq<Value>): Query {
    match extra
    case None => Query(q.wheres, q.args + extraArgs)
    case Some(c) => Query(q.wheres + [FillHole(c, |q.args| + 1)], q.args + extraArgs)
  }

  /** Splicing the tenant filter into any well-bound query adds exactly the admin's scope. */
  lemma SpliceScopes(q: Query, admin: Admin)
    requires WellBound(q)
    ensures var (extra, extraArgs) := TenantFilter(admin);
      var q' := Splice(q, extra, extraArgs);
      && WellBound(q')
      && forall row :: Selects(q', row) <==> Selects(q, row) && InScope(admin, row)
  {
    if admin.isSuper {
      WithLimit(q, []);
    } else {
      Appended(q, [Number(admin.tenant)], TenantIs(Dollar(|q.args| + 1)));
    }
  }

  // ---- what the target search finds ----------------------------------------------------------------

  ghost predicate Contains(t: string, s: string) {
    exists i :: 0 <= i <= |t| && s <= t[i..]
  }

  predicate Plain(s: string) {
    '%' !in s && '_' !in s && '\\' !in s
  }

  lemma {:induction false} LikePrefix(s: string, t: string)
    requires Plain(s)
    ensures Like(s + "%", t) <==> s <= t
    decreases |s|
  {
    if s == "" {
      assert s + "%" == "%";
      LikeAnything(t);
    } else {
      assert (s + "%")[1..] == s[1..] + "%";
      assert s == [s[0]] + s[1..];
      if t != "" {
        LikePrefix(s[1..], t[1..]);
        assert t == [t[0]] + t[1..];
        if s[0] == t[0] && s[1..] <= t[1..] {
          assert s <= t;
        }
      }
    }
  }

  lemma {:induction false} LikeAnything(t: string)
    ensures Like("%", t)
    decreases |t|
  {
    if t == "" {
      assert Like("", t);
    } else {
      LikeAnything(t[1..]);
    }
  }

  lemma {:induction false} LikeAnywhere(q: string, t: string)
    ensures Like("%" + q, t) <==> exists i :: 0 <= i <= |t| && Like(q, t[i..])
    decreases |t|
  {
    assert ("%" + q)[1..] == q;
    if t == "" {
      assert t[0..] == t;
    } else {
      LikeAnywhere(q, t[1..]);
      assert t[0..] == t;
      if Like("%" + q, t[1..]) {
        var i :| 0 <= i <= |t[1..]| && Like(q, t[1..][i..]);
        assert t[i + 1..] == t[1..][i..];
      }
      if i :| 0 < i <= |t| && Like(q, t[i..]) {
        assert t[1..][i - 1..] == t[i..];
      }
    }
  }

  lemma LikeIsContainment(s: string, t: string)
    requires Plain(s)
    ensures Like("%" + s + "%", t) <==> Contains(t, s)
  {
    assert "%" + s + "%" == "%" + (s + "%");
    LikeAnywhere(s + "%", t);
    forall i | 0 <= i <= |t| ensures Like(s + "%", t[i..]) <==> s <= t[i..] {
      LikePrefix(s, t[i..]);
    }
  }

  /** A shortest text a pattern matches: wildcards are dropped or replaced, escapes undone. */
  function Sample(p: string): string {
    if p == "" then ""
    else if p[0] == '%' then Sample(p[1..])
    else if p[0] == '_' then "z" + Sample(p[1..])
    else if p[0] == '\\' then if |p| > 1 then [p[1]] + Sample(p[2..]) else ""
    else [p[0]] + Sample(p[1..])
  }

  lemma {:induction false} SampleMatches(s: string)
    ensures Like(s + "%", Sample(s + "%"))
    ensures |Sample(s + "%")| <= |s|
    ensures Sample(s + "%") == s ==> Plain(s)
    decreases |s|
  {
    var p := s + "%";
    if s == "" {
      assert p == "%" && p[1..] == "";
      LikeAnything("");
    } else {
      assert p[1..] == s[1..] + "%";
      assert s == [s[0]] + s[1..];
      if s[0] == '\\' {
        if |s| > 1 {
          assert p[2..] == s[2..] + "%";
          SampleMatches(s[2..]);
        } else {
          assert p[2..] == "";
        }
        assert Sample(p)[1..] == Sample(p[2..]);
      } else {
        SampleMatches(s[1..]);
        assert s[0] != '%' ==> Sample(p)[1..] == Sample(p[1..]);
      }
    }
  }

  /** The admin's target search is a substring search exactly for targets without `%`, `_` and
      backslash; for any other target some address is found that does not contain it. */
  lemma TargetSearchIsSubstringIff(s: string)
    ensures (forall t :: Like("%" + s + "%", t) <==> Contains(t, s)) <==> Plain(s)
  {
    if Plain(s) {
      forall t ensures Like("%" + s + "%", t) <==> Contains(t, s) {
        LikeIsContainment(s, t);
      }
    } else {
      var t := Sample(s + "%");
      SampleMatches(s);
      assert "%" + s + "%" == "%" + (s + "%");
      LikeAnywhere(s + "%", t);
      assert t[0..] == t;
      assert Like("%" + (s + "%"), t);
      forall i | 0 <= i <= |t| ensures !(s <= t[i..]) {
        assert |t[i..]| == |t| - i;
        assert s <= t ==> |s| == |t| ==> s == t;
      }
    }
  }
}
