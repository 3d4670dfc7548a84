/** The periodic refresh of access tokens: due selection, expiry arithmetic, token rotation. */
module OAuthRefresh {
  import opened Common
  import opened Mailboxes
  import OAuthLifecycle

  const MIN_LIFETIME: int := 600
  const BATCH_LIMIT: nat := 100
  const DEFAULT_EXPIRES_IN: int := 3600

  /** The token endpoint's answer and the instant it is processed, or no usable answer. */
  datatype Answer = Granted(at: int, access: string, expiresIn: Option<int>, rotated: Option<string>) | Refused

  predicate Due(m: Mailbox, now: int) {
    && m.status == OAuthActive && m.active && m.refresh.Some?
    && (m.access.None? || m.accessExpires.None? || m.accessExpires.value < now + MIN_LIFETIME)
  }

  function DueRows(t: Tables, now: int): set<string> {
    set a | a in t.mailboxes && Due(t.mailboxes[a], now)
  }

  /** What `LIMIT 100` without an order may return. */
  ghost predicate Selection(t: Tables, now: int, rows: seq<string>) {
    && Distinct(rows)
    && (forall a :: a in rows ==> a in DueRows(t, now))
    && |rows| == Min(BATCH_LIMIT, |DueRows(t, now)|)
  }

  function ExpiresIn(answer: Answer): int
    requires answer.Granted?
  {
    if answer.expiresIn.Some? then answer.expiresIn.value else DEFAULT_EXPIRES_IN
  }

  /** One row, with the refresh token read when the row was selected. */
  function RefreshOne(t: Tables, a: string, refresh: Option<Cipher>, answer: Answer): Tables {
    if refresh.None? || Decrypt(refresh.value).None? || answer.Refused? then t
    else OAuthLifecycle.StoreTokens(t, a, answer.access, answer.at + ExpiresIn(answer), answer.rotated)
  }

  /** What other connections do while the request for a row is under way, before its UPDATE: anything,
      to any row. */
  type Others = string -> Tables -> Tables

  function RefreshAll(t: Tables, selected: Tables, rows: seq<string>, answers: string -> Answer, others: Others): Tables {
    if rows == [] then t
    else
      var last := rows[|rows| - 1];
      RefreshOne(others(last)(RefreshAll(t, selected, rows[..|rows| - 1], answers, others)),
                 last, RefreshOf(selected, last), answers(last))
  }

  function RefreshOf(t: Tables, a: string): Option<Cipher> {
    if a in t.mailboxes then t.mailboxes[a].refresh else None
  }

  class OAuthRefresher {
    var t: Tables

    constructor (t: Tables)
      ensures this.t == t
    {
      this.t := t;
    }

    /** One tick over the rows the server returned, interleaved with other connections. */
    method Tick(now: int, rows: seq<string>, answers: string -> Answer, others: Others)
      requires Selection(t, now, rows)
      modifies this
      ensures t == RefreshAll(old(t), old(t), rows, answers, others)
    {
      var selected := t;
      for i := 0 to |rows|
        invariant t == RefreshAll(selected, selected, rows[..i], answers, others)
      {
        assert rows[..i + 1][..i] == rows[..i];
        t := others(rows[i])(t);
        t := RefreshOne(t, rows[i], RefreshOf(selected, rows[i]), answers(rows[i]));
      }
      assert rows[..|rows|] == rows;
    }
  }

  // ---- one row through one tick -----------------------------------------------------------------

  predicate SameTokens(m: Mailbox, n: Mailbox) {
    m.refresh == n.refresh && m.access == n.access && m.accessExpires == n.accessExpires
  }

  /** The other connections may do anything but write the tokens of mailbox `a`, or take it away. */
  ghost predicate LeaveTokens(others: Others, a: string) {
    forall b, t: Tables :: KeepsTokens(t, others(b)(t), a, b)
  }

  /** Nobody wrote the tokens of `a` during the request for row `b`. */
  predicate KeepsTokens(t: Tables, t': Tables, a: string, b: string) {
    a in t.mailboxes ==> a in t'.mailboxes && SameTokens(t'.mailboxes[a], t.mailboxes[a])
  }

  /** The other connections never leave mailbox `a` without a refresh token, or take it away. */
  ghost predicate LeaveSomeToken(others: Others, a: string) {
    forall b, t: Tables :: KeepsSomeToken(t, others(b)(t), a, b)
  }

  predicate KeepsSomeToken(t: Tables, t': Tables, a: string, b: string) {
    a in t.mailboxes && t.mailboxes[a].refresh.Some? ==> a in t'.mailboxes && t'.mailboxes[a].refresh.Some?
  }

  /** As long as the others leave a row's tokens alone they are written at most by the row's own answer,
      whatever happens to the other rows. */
  lemma {:induction false} RefreshAllOnRow(t: Tables, rows: seq<string>, answers: string -> Answer, others: Others, a: string)
    requires Distinct(rows) && a in t.mailboxes && LeaveTokens(others, a)
    ensures var t' := RefreshAll(t, t, rows, answers, others);
      && a in t'.mailboxes
      && SameTokens(t'.mailboxes[a],
           if a in rows then RefreshOne(t, a, RefreshOf(t, a), answers(a)).mailboxes[a] else t.mailboxes[a])
    decreases |rows|
  {
    if rows != [] {
      var front, last := rows[..|rows| - 1], rows[|rows| - 1];
      assert rows == front + [last];
      RefreshAllOnRow(t, front, answers, others, a);
      assert a in rows <==> a in front || a == last;
      assert last !in front by {
        assert forall i :: 0 <= i < |front| ==> front[i] == rows[i];
      }
      LastRow(RefreshAll(t, t, front, answers, others), last, RefreshOf(t, last), answers(last), others, a);
    }
  }

  lemma LastRow(t: Tables, last: string, refresh: Option<Cipher>, answer: Answer, others: Others, a: string)
    requires a in t.mailboxes && LeaveTokens(others, a)
    ensures var t' := RefreshOne(others(last)(t), last, refresh, answer);
      a in t'.mailboxes
      && SameTokens(t'.mailboxes[a], if a == last then RefreshOne(t, a, refresh, answer).mailboxes[a] else t.mailboxes[a])
  {
    assert KeepsTokens(t, others(last)(t), a, last);
  }

  /** A tick leaves a refresh token where there was one, whatever the others do short of deleting it. If
      they leave it alone, it is the stored one, or the non-empty one the provider sent for that row. */
  lemma RotationNeverLoses(t: Tables, rows: seq<string>, answers: string -> Answer, others: Others, a: string)
    requires Distinct(rows) && a in t.mailboxes && t.mailboxes[a].refresh.Some?
    ensures LeaveSomeToken(others, a) ==>
      var t' := RefreshAll(t, t, rows, answers, others);
      a in t'.mailboxes && t'.mailboxes[a].refresh.Some?
    ensures LeaveTokens(others, a) ==>
      var t' := RefreshAll(t, t, rows, answers, others);
      && a in t'.mailboxes
      && (t'.mailboxes[a].refresh == t.mailboxes[a].refresh
          || (a in rows && answers(a).Granted? && answers(a).rotated.Some? && answers(a).rotated.value != ""
              && t'.mailboxes[a].refresh == Some(Encrypt(answers(a).rotated.value))))
  {
    if LeaveSomeToken(others, a) {
      SomeTokenStays(t, t, rows, answers, others, a);
    }
    if LeaveTokens(others, a) {
      RefreshAllOnRow(t, rows, answers, others, a);
    }
  }

  lemma {:induction false} SomeTokenStays(
    t: Tables, selected: Tables, rows: seq<string>, answers: string -> Answer, others: Others, a: string)
    requires a in t.mailboxes && t.mailboxes[a].refresh.Some? && LeaveSomeToken(others, a)
    ensures var t' := RefreshAll(t, selected, rows, answers, others);
      a in t'.mailboxes && t'.mailboxes[a].refresh.Some?
    decreases |rows|
  {
    if rows != [] {
      var last := rows[|rows| - 1];
      var t1 := RefreshAll(t, selected, rows[..|rows| - 1], answers, others);
      SomeTokenStays(t, selected, rows[..|rows| - 1], answers, others, a);
      assert KeepsSomeToken(t1, others(last)(t1), a, last);
    }
  }

  /** At most a batch of rows is due, so all of them are selected. */
  lemma EveryDueRowIsSelected(t: Tables, now: int, rows: seq<string>, a: string)
    requires Selection(t, now, rows) && |DueRows(t, now)| <= 100
    ensures a in rows <==> a in DueRows(t, now)
  {
    DistinctCoversSet(rows, DueRows(t, now));
  }

  lemma {:induction false} DistinctCoversSet(rows: seq<string>, s: set<string>)
    requires Distinct(rows) && |rows| == |s| && forall a :: a in rows ==> a in s
    ensures forall a :: a in s ==> a in rows
    decreases |rows|
  {
    if rows != [] {
      var front, last := rows[..|rows| - 1], rows[|rows| - 1];
      assert rows == front + [last];
      forall a | a in front ensures a in s - {last} {
        assert a in rows;
      }
      DistinctCoversSet(front, s - {last});
    }
  }

  /** No row is refreshed that should not be: a selected row is OAuth-active, switched on, has a refresh
      token, and its access token is missing, of unknown expiry, or within ten minutes of it; and with at
      most a hundred such rows every one of them is selected. */
  lemma SelectedIff(t: Tables, now: int, rows: seq<string>, a: string)
    requires Selection(t, now, rows)
    ensures a in rows ==> NeedsRefresh(t, now, a)
    ensures |rows| < 100 && NeedsRefresh(t, now, a) ==> a in rows
    ensures |rows| <= 100
  {
    if |rows| < 100 {
      DistinctCoversSet(rows, DueRows(t, now));
    }
  }

  ghost predicate NeedsRefresh(t: Tables, now: int, a: string) {
    a in t.mailboxes &&
    var m := t.mailboxes[a];
    && m.status == OAuthActive && m.active && m.refresh.Some?
    && (m.access == None || m.accessExpires == None || m.accessExpires.value - now < 600)
  }

  /** What a tick writes to a row whose tokens the others leave alone: for a selected row with a token that
      opens and a granted answer the new access token, its expiry (an hour from the answer where the
      provider does not say) and the rotated refresh token, if any; for any other row nothing. */
  lemma TickWrites(t: Tables, now: int, rows: seq<string>, answers: string -> Answer, others: Others, a: string)
    requires Selection(t, now, rows) && a in t.mailboxes && LeaveTokens(others, a)
    ensures var t' := RefreshAll(t, t, rows, answers, others);
      a in t'.mailboxes &&
      var m, m' := t.mailboxes[a], t'.mailboxes[a];
      if a in rows && m.refresh.Some? && m.refresh.value.Sealed? && answers(a).Granted? then
        && m'.access == Some(Encrypt(answers(a).access))
        && m'.accessExpires == Some(answers(a).at + if answers(a).expiresIn.Some? then answers(a).expiresIn.value else 3600)
        && m'.refresh == if answers(a).rotated.Some? && answers(a).rotated.value != ""
                         then Some(Encrypt(answers(a).rotated.value)) else m.refresh
      else SameTokens(m', m)
  {
    RefreshAllOnRow(t, rows, answers, others, a);
  }

  // ---- freshness over whole runs ----------------------------------------------------------------

  /** A tick with its start, its end, the table it selects from, the rows and answers it gets, and what
      others do meanwhile. */
  datatype Tick = Tick(
    start: int, end: int, before: Tables, rows: seq<string>, answers: string -> Answer, others: Others)

  function After(k: Tick): Tables {
    RefreshAll(k.before, k.before, k.rows, k.answers, k.others)
  }

  /** The provider grants every refresh of this tick, during the tick, for at least ten minutes, and
      no more rows are due than a batch holds. */
  ghost predicate Healthy(k: Tick) {
    && k.start <= k.end
    && Selection(k.before, k.start, k.rows)
    && |DueRows(k.before, k.start)| <= BATCH_LIMIT
    && forall a :: a in k.rows ==>
         && k.answers(a).Granted?
         && k.start <= k.answers(a).at <= k.end
         && ExpiresIn(k.answers(a)) >= MIN_LIFETIME
  }

  /** The row stays in use, with a refresh token that opens. */
  ghost predicate InUse(t: Tables, a: string) {
    && a in t.mailboxes && t.mailboxes[a].status == OAuthActive && t.mailboxes[a].active
    && t.mailboxes[a].refresh.Some? && Decrypt(t.mailboxes[a].refresh.value).Some?
  }

  /** Between two ticks other writers leave the row in use and its access token alone, and the next
      tick is over within ten minutes of the start of this one. */
  ghost predicate Follows(k: Tick, next: Tick, a: string) {
    && k.end <= next.start && next.end <= k.start + MIN_LIFETIME
    && a in After(k).mailboxes
    && InUse(next.before, a)
    && next.before.mailboxes[a].access == After(k).mailboxes[a].access
    && next.before.mailboxes[a].accessExpires == After(k).mailboxes[a].accessExpires
  }

  ghost predicate IsRun(ticks: seq<Tick>, a: string) {
    && (forall i :: 0 <= i < |ticks| ==> Healthy(ticks[i]) && InUse(ticks[i].before, a) && LeaveTokens(ticks[i].others, a))
    && forall i :: 0 <= i < |ticks| - 1 ==> Follows(ticks[i], ticks[i + 1], a)
  }

  /** The expiry stored for the row at instant `now`, not after the end of tick `k`. */
  function ExpiryAt(k: Tick, a: string, now: int): Option<int>
    requires a in k.before.mailboxes
  {
    if a in k.rows && k.answers(a).Granted? && k.answers(a).at <= now && a in After(k).mailboxes
    then After(k).mailboxes[a].accessExpires else k.before.mailboxes[a].accessExpires
  }

  /** After a healthy tick the row's token outlives the start of the tick by ten minutes. */
  lemma HealthyTickLeavesTenMinutes(k: Tick, a: string)
    requires Healthy(k) && InUse(k.before, a) && LeaveTokens(k.others, a)
    ensures a in After(k).mailboxes
    ensures var m := After(k).mailboxes[a];
      m.access.Some? && m.accessExpires.Some? && m.accessExpires.value >= k.start + 600
    ensures a in k.rows ==> After(k).mailboxes[a].accessExpires.value >= k.answers(a).at + MIN_LIFETIME
  {
    RefreshAllOnRow(k.before, k.rows, k.answers, k.others, a);
    EveryDueRowIsSelected(k.before, k.start, k.rows, a);
  }

  /** Freshness: from the end of its first tick on, at every instant up to the end of the last tick,
      the access token stored for the row has not expired. */
  lemma StoredTokenIsNeverExpired(ticks: seq<Tick>, a: string, i: nat, now: int)
    requires IsRun(ticks, a) && 0 < i < |ticks|
    requires ticks[i - 1].end <= now <= ticks[i].end
    ensures ExpiryAt(ticks[i], a, now).Some? && ExpiryAt(ticks[i], a, now).value >= now
  {
    var k, next := ticks[i - 1], ticks[i];
    assert Follows(k, next, a);
    assert Healthy(k) && Healthy(next);
    HealthyTickLeavesTenMinutes(k, a);
    HealthyTickLeavesTenMinutes(next, a);
  }

  /** Within its first tick the row has a fresh token from the instant of its refresh on. */
  lemma FirstRefreshIsFresh(ticks: seq<Tick>, a: string, now: int)
    requires IsRun(ticks, a) && ticks != [] && a in ticks[0].rows
    requires ticks[0].answers(a).at <= now <= ticks[0].end && ticks[0].end <= ticks[0].start + MIN_LIFETIME
    ensures ExpiryAt(ticks[0], a, now).Some? && ExpiryAt(ticks[0], a, now).value >= now
  {
    assert Healthy(ticks[0]);
    HealthyTickLeavesTenMinutes(ticks[0], a);
  }

  /** The ten minutes cannot be stretched: for every lateness of more than a second there are two
      healthy ticks that late, between which the granted token is found expired. */
  lemma LateTickFindsExpiredToken(late: int, a: string, box: Mailbox)
    requires late > 1
    requires box.status == OAuthActive && box.active && box.refresh == Some(Encrypt("r")) && box.access.None?
    ensures exists k, next ::
      && Healthy(k) && Healthy(next) && InUse(k.before, a) && InUse(next.before, a)
      && k.end <= next.start && next.before == After(k)
      && next.end == k.start + MIN_LIFETIME + late
      && ExpiryAt(next, a, next.end - 1).Some? && ExpiryAt(next, a, next.end - 1).value < next.end - 1
  {
    var k := OneRowTick(0, box, a, "x");
    OneRowTickIsHealthy(0, box, a, "x");
    var end := MIN_LIFETIME + late;
    var next := OneRowTick(end, Refreshed(box, "x", MIN_LIFETIME), a, "y");
    OneRowTickIsHealthy(end, Refreshed(box, "x", MIN_LIFETIME), a, "y");
    assert Healthy(k) && Healthy(next) && next.before == After(k);
  }

  function Refreshed(box: Mailbox, access: string, expires: int): Mailbox {
    box.(access := Some(Encrypt(access)), accessExpires := Some(expires))
  }

  /** A tick at one instant over a single row, which is granted the least lifetime. */
  function OneRowTick(at: int, box: Mailbox, a: string, access: string): Tick {
    Tick(at, at, Tables(map[a := box], map[]), [a], b => Granted(at, access, Some(MIN_LIFETIME), None), b => t => t)
  }

  lemma OneRowTickIsHealthy(at: int, box: Mailbox, a: string, access: string)
    requires Due(box, at) && box.refresh == Some(Encrypt("r"))
    ensures var k := OneRowTick(at, box, a, access);
      Healthy(k) && After(k) == Tables(map[a := Refreshed(box, access, at + MIN_LIFETIME)], map[])
  {
    var k := OneRowTick(at, box, a, access);
    var t := k.before;
    assert DueRows(t, at) == {a};
    assert [a][..0] == [];
    assert RefreshAll(t, t, [], k.answers, k.others) == t;
    assert After(k) == RefreshOne(t, a, Some(Encrypt("r")), k.answers(a));
  }
}
