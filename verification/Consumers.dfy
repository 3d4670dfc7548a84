/** Consuming a code: the API's update-then-classify, racing with itself and with the admin page. */
module Consumers {
  import opened Common
  import opened CodeTable

  /** A call that found nothing to update and has yet to look at the row again; `rowsThen` is
      history: how many rows there were when it tried. */
  datatype Call =
    | Unclassified(codeId: nat, tenant: int, rowsThen: nat)
    | Consumed(codeId: nat, tenant: int, at: int, keyId: nat, note: Option<string>)
    | Gone(codeId: nat, tenant: int)
    | NotFound(codeId: nat, tenant: int, rowsThen: nat)

  datatype State = State(rows: seq<CodeRow>, calls: map<nat, Call>)

  datatype Event =
    | Commit(content: Draft)
    | Update(call: nat, codeId: nat, tenant: int, keyId: nat, note: Option<string>, at: int)
    | Classify(call: nat)
    | AdminConsume(codeId: nat, username: string, scope: Option<int>, at: int)

  // ---- the statements ----------------------------------------------------------------------

  /** The index of the row with this id; ids are the row numbers of an append-only table. */
  function Find(rows: seq<CodeRow>, codeId: nat): (r: Option<nat>)
    ensures r.Some? ==> r.value < |rows| && rows[r.value].id == codeId
    ensures r.None? ==> forall i :: 0 <= i < |rows| ==> rows[i].id != codeId
  {
    if rows == [] then None
    else if rows[|rows| - 1].id == codeId then Some(|rows| - 1)
    else Find(rows[..|rows| - 1], codeId)
  }

  predicate InScope(row: CodeRow, scope: Option<int>) {
    scope.None? || row.content.tenant == scope.value
  }

  /** `UPDATE codes SET ... WHERE id = $1 AND consumed_at IS NULL [AND tenant_id = $n]`, and whether
      it touched a row. */
  function Take(rows: seq<CodeRow>, codeId: nat, scope: Option<int>, c: Consumption): (seq<CodeRow>, bool) {
    match Find(rows, codeId)
    case Some(i) =>
      if rows[i].consumed.None? && InScope(rows[i], scope) then (rows[i := rows[i].(consumed := Some(c))], true)
      else (rows, false)
    case None => (rows, false)
  }

  /** `SELECT consumed_at FROM codes WHERE id = $1 AND tenant_id = $2` as `fetchval` reports it: a row
      with a NULL is indistinguishable from no row. */
  function ConsumedAt(rows: seq<CodeRow>, codeId: nat, tenant: int): Option<int> {
    match Find(rows, codeId)
    case Some(i) =>
      if rows[i].content.tenant == tenant && rows[i].consumed.Some? then Some(rows[i].consumed.value.at) else None
    case None => None
  }

  /** The note of an unconsumed row is NULL, so the COALESCE starts from the empty text. */
  function AdminNote(username: string): Option<string> {
    Some("" + " (manual via admin " + username + ")")
  }

  function Apply(s: State, e: Event): State {
    match e
    case Commit(content) => s.(rows := s.rows + [CodeRow(|s.rows|, content, None)])
    case Update(call, codeId, tenant, keyId, note, at) =>
      if call in s.calls then s
      else
        var (rows, touched) := Take(s.rows, codeId, Some(tenant), Consumption(at, Some(keyId), note));
        State(rows, s.calls[call := if touched then Consumed(codeId, tenant, at, keyId, note)
                                    else Unclassified(codeId, tenant, |s.rows|)])
    case Classify(call) =>
      if call in s.calls && s.calls[call].Unclassified? then
        var c := s.calls[call];
        s.(calls := s.calls[call := if ConsumedAt(s.rows, c.codeId, c.tenant).None?
                                    then NotFound(c.codeId, c.tenant, c.rowsThen) else Gone(c.codeId, c.tenant)])
      else s
    case AdminConsume(codeId, username, scope, at) =>
      s.(rows := Take(s.rows, codeId, scope, Consumption(at, None, AdminNote(username))).0)
  }

  function Run(s: State, es: seq<Event>): State
    decreases |es|
  {
    if es == [] then s else Run(Apply(s, es[0]), es[1..])
  }

  const Empty: State := State([], map[])

  // ---- what holds throughout ---------------------------------------------------------------

  ghost predicate Row(s: State, codeId: nat, tenant: int) {
    codeId < |s.rows| && s.rows[codeId].content.tenant == tenant
  }

  ghost predicate CallOk(s: State, c: Call) {
    match c
    case Consumed(codeId, tenant, at, keyId, note) =>
      && Row(s, codeId, tenant) && s.rows[codeId].consumed.Some?
      && s.rows[codeId].consumed.value.at == at && s.rows[codeId].consumed.value.keyId == Some(keyId)
      && s.rows[codeId].consumed.value.note == note
    case Gone(codeId, tenant) => Row(s, codeId, tenant) && s.rows[codeId].consumed.Some?
    case Unclassified(codeId, tenant, n) =>
      n <= |s.rows| && (codeId < n && Row(s, codeId, tenant) ==> s.rows[codeId].consumed.Some?)
    case NotFound(codeId, tenant, n) => n <= |s.rows| && (codeId < n ==> !Row(s, codeId, tenant))
  }

  ghost predicate Inv(s: State) {
    && (forall i :: 0 <= i < |s.rows| ==> s.rows[i].id == i)
    && (forall k :: k in s.calls ==> CallOk(s, s.calls[k]))
    && (forall j, k :: j in s.calls && k in s.calls && j != k && s.calls[j].Consumed? && s.calls[k].Consumed? ==>
          s.calls[j].codeId != s.calls[k].codeId)
  }

  /** Rows are append-only, and a consumption, once written, is never changed. */
  ghost predicate RowsSettled(rows: seq<CodeRow>, rows': seq<CodeRow>) {
    && |rows| <= |rows'|
    && forall i :: 0 <= i < |rows| ==>
         rows'[i].id == rows[i].id && rows'[i].content == rows[i].content && (rows[i].consumed.Some? ==> rows'[i] == rows[i])
  }

  /** The same, and answers given stay given. */
  ghost predicate Settled(s: State, s': State) {
    && RowsSettled(s.rows, s'.rows)
    && forall k :: k in s.calls ==> k in s'.calls && (!s.calls[k].Unclassified? ==> s'.calls[k] == s.calls[k])
  }

  lemma FindById(s: State, codeId: nat)
    requires Inv(s)
    ensures Find(s.rows, codeId) == if codeId < |s.rows| then Some(codeId) else None
  {
    var f := Find(s.rows, codeId);
    assert codeId < |s.rows| ==> s.rows[codeId].id == codeId;
  }

  lemma SettledKeepsCalls(s: State, s': State)
    requires Inv(s) && RowsSettled(s.rows, s'.rows) && s'.calls == s.calls
    requires forall i :: |s.rows| <= i < |s'.rows| ==> s'.rows[i].id == i
    ensures Inv(s')
  {
    forall k | k in s.calls ensures CallOk(s', s.calls[k]) {
      assert CallOk(s, s.calls[k]);
    }
  }

  /** The one call that wins a code was preceded by nobody: the row was unconsumed until then. */
  lemma UpdateKeepsInv(s: State, e: Event)
    requires Inv(s) && e.Update?
    ensures Inv(Apply(s, e)) && Settled(s, Apply(s, e))
  {
    FindById(s, e.codeId);
    if e.call !in s.calls {
      var (rows, touched) := Take(s.rows, e.codeId, Some(e.tenant), Consumption(e.at, Some(e.keyId), e.note));
      var s1 := s.(rows := rows);
      SettledKeepsCalls(s, s1);
      if touched {
        WinnerIsFirst(s, s1, e.call, Consumed(e.codeId, e.tenant, e.at, e.keyId, e.note));
      }
    }
  }

  lemma WinnerIsFirst(s: State, s1: State, call: nat, c: Call)
    requires Inv(s) && Inv(s1) && s1.calls == s.calls && RowsSettled(s.rows, s1.rows)
    requires c.Consumed? && CallOk(s1, c) && c.codeId < |s.rows| && s.rows[c.codeId].consumed.None?
    requires call !in s.calls
    ensures Inv(s1.(calls := s.calls[call := c]))
  {
    forall k | k in s.calls && s.calls[k].Consumed? ensures s.calls[k].codeId != c.codeId {
      assert CallOk(s, s.calls[k]);
    }
  }

  lemma ApplyKeepsInv(s: State, e: Event)
    requires Inv(s)
    ensures Inv(Apply(s, e)) && Settled(s, Apply(s, e))
  {
    match e {
      case Commit(_) => SettledKeepsCalls(s, Apply(s, e));
      case Update(_, _, _, _, _, _) => UpdateKeepsInv(s, e);
      case Classify(call) =>
        if call in s.calls {
          FindById(s, s.calls[call].codeId);
          assert CallOk(s, s.calls[call]);
        }
      case AdminConsume(codeId, _, _, _) =>
        FindById(s, codeId);
        SettledKeepsCalls(s, Apply(s, e));
    }
  }

  lemma {:induction false} RunKeepsInv(s: State, es: seq<Event>)
    requires Inv(s)
    ensures Inv(Run(s, es)) && Settled(s, Run(s, es))
    decreases |es|
  {
    if es != [] {
      ApplyKeepsInv(s, es[0]);
      RunKeepsInv(Apply(s, es[0]), es[1..]);
    }
  }

  /** In any race a code is consumed at most once: no two API calls are both told they consumed it,
      and what the winner wrote stays there whatever else runs. */
  lemma ConsumedAtMostOnce(before: seq<Event>, after: seq<Event>, j: nat, k: nat)
    requires var s := Run(Empty, before); j in s.calls && s.calls[j].Consumed?
    ensures var s, s' := Run(Empty, before), Run(Run(Empty, before), after);
      && j in s'.calls && s'.calls[j] == s.calls[j]
      && s.calls[j].codeId < |s.rows| <= |s'.rows| && s'.rows[s.calls[j].codeId] == s.rows[s.calls[j].codeId]
      && s.rows[s.calls[j].codeId].consumed.Some?
      && s.rows[s.calls[j].codeId].consumed.value.at == s.calls[j].at
      && s.rows[s.calls[j].codeId].consumed.value.keyId == Some(s.calls[j].keyId)
      && s.rows[s.calls[j].codeId].consumed.value.note == s.calls[j].note
      && (k in s'.calls && k != j && s'.calls[k].Consumed? ==> s'.calls[k].codeId != s.calls[j].codeId)
  {
    RunKeepsInv(Empty, before);
    RunKeepsInv(Run(Empty, before), after);
    assert CallOk(Run(Empty, before), Run(Empty, before).calls[j]);
  }

  /** "Already consumed" (410) is always true. "Not found" (404) is true unless the row was committed
      after the call tried to update it: the SELECT cannot tell an unconsumed row from none. */
  lemma ClassificationIsSound(es: seq<Event>, k: nat)
    requires k in Run(Empty, es).calls
    ensures var s := Run(Empty, es);
      var c := s.calls[k];
      && (c.Gone? ==> Row(s, c.codeId, c.tenant) && s.rows[c.codeId].consumed.Some?)
      && (c.NotFound? && Row(s, c.codeId, c.tenant) ==> c.codeId >= c.rowsThen)
  {
    RunKeepsInv(Empty, es);
    assert CallOk(Run(Empty, es), Run(Empty, es).calls[k]);
  }

  /** Exactly when a classification says "not found" although the tenant's row is there: the row
      appeared after the failed update, and nobody has consumed it yet. */
  lemma FalseNotFoundIff(es: seq<Event>, k: nat)
    requires k in Run(Empty, es).calls && Run(Empty, es).calls[k].Unclassified?
    ensures var s := Run(Empty, es);
      var c := s.calls[k];
      Apply(s, Classify(k)).calls[k].NotFound? && Row(s, c.codeId, c.tenant)
      <==> c.codeId >= c.rowsThen && Row(s, c.codeId, c.tenant) && s.rows[c.codeId].consumed.None?
  {
    RunKeepsInv(Empty, es);
    var s := Run(Empty, es);
    assert CallOk(s, s.calls[k]);
    FindById(s, s.calls[k].codeId);
  }

  /** The false "not found" does occur: the row is committed between the two statements. */
  lemma FalseNotFoundHappens(content: Draft)
    ensures var s := Run(Empty, [Update(7, 0, content.tenant, 1, None, 0), Commit(content), Classify(7)]);
      7 in s.calls && s.calls[7].NotFound? && Row(s, 0, content.tenant) && s.rows[0].consumed.None?
  {
    var e1, e2, e3 := Update(7, 0, content.tenant, 1, None, 0), Commit(content), Classify(7);
    assert [e1, e2, e3][1..] == [e2, e3] && [e2, e3][1..] == [e3] && [e3][1..] == [];
    var s1 := Apply(Empty, e1);
    var s2 := Apply(s1, e2);
    var s3 := Apply(s2, e3);
    assert Run(s2, [e3]) == Run(s3, []) == s3;
    assert Run(s1, [e2, e3]) == Run(s2, [e3]);
  }

  // ---- the handlers ---------------------------------------------------------------------------

  datatype Response = Ok(codeId: nat, at: int) | NotFound404 | Gone410

  function ResponseOf(c: Call): Response
    requires !c.Unclassified?
  {
    match c
    case Consumed(codeId, _, at, _, _) => Ok(codeId, at)
    case Gone(_, _) => Gone410
    case NotFound(_, _, _) => NotFound404
  }

  lemma {:induction false} UnclassifiedStays(s: State, es: seq<Event>, call: nat)
    requires call in s.calls && Classify(call) !in es
    ensures call in Run(s, es).calls && Run(s, es).calls[call] == s.calls[call]
    decreases |es|
  {
    if es != [] {
      assert es[0] in es && Classify(call) !in es[1..];
      UnclassifiedStays(Apply(s, es[0]), es[1..], call);
    }
  }

  class CodesEndpoint {
    var state: State

    constructor ()
      ensures state == Empty
    {
      state := Empty;
    }

    /** Two statements; `between` is whatever other connections do after the first. */
    method CodeConsume(call: nat, codeId: nat, tenant: int, keyId: nat, note: Option<string>, now: int, between: seq<Event>)
      returns (response: Response)
      requires call !in state.calls && Classify(call) !in between
      modifies this
      ensures var updated := Apply(old(state), Update(call, codeId, tenant, keyId, note, now));
        && state == (if updated.calls[call].Consumed? then updated else Apply(Run(updated, between), Classify(call)))
        && call in state.calls && !state.calls[call].Unclassified?
        && response == ResponseOf(state.calls[call])
        && (response.Ok? ==> state.calls[call] == Consumed(codeId, tenant, now, keyId, note))
    {
      var (taken, touched) := Take(state.rows, codeId, Some(tenant), Consumption(now, Some(keyId), note));
      if touched {
        state := State(taken, state.calls[call := Consumed(codeId, tenant, now, keyId, note)]);
        return Ok(codeId, now);
      }
      state := state.(calls := state.calls[call := Unclassified(codeId, tenant, |state.rows|)]);
      UnclassifiedStays(state, between, call);
      state := Run(state, between);
      var consumedAt := ConsumedAt(state.rows, codeId, tenant);
      if consumedAt.None? {
        state := state.(calls := state.calls[call := NotFound(codeId, tenant, state.calls[call].rowsThen)]);
        return NotFound404;
      }
      state := state.(calls := state.calls[call := Gone(codeId, tenant)]);
      return Gone410;
    }

    /** The admin button redirects back whether or not it consumed anything. */
    method AdminCodeConsume(codeId: nat, username: string, scope: Option<int>, now: int)
      requires Inv(state)
      modifies this
      ensures state == Apply(old(state), AdminConsume(codeId, username, scope, now))
      ensures Inv(state) && Settled(old(state), state) && state.calls == old(state).calls
      ensures |state.rows| == |old(state).rows|
      ensures forall i :: 0 <= i < |state.rows| ==>
        var row := old(state).rows[i];
        state.rows[i] == if row.id == codeId && row.consumed.None? && InScope(row, scope)
                         then row.(consumed := Some(Consumption(now, None, Some(" (manual via admin " + username + ")"))))
                         else row
    {
      assert AdminNote(username) == Some(" (manual via admin " + username + ")") by {
        assert "" + " (manual via admin " == " (manual via admin ";
      }
      ApplyKeepsInv(state, AdminConsume(codeId, username, scope, now));
      FindById(state, codeId);
      var (taken, _) := Take(state.rows, codeId, scope, Consumption(now, None, AdminNote(username)));
      state := state.(rows := taken);
    }
  }
}
