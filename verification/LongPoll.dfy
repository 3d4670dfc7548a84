/** `POST /codes/wait`: query, subscribe, then wait-clear-query until a code or the deadline.

    The outside world (other connections, the server's notifications, the clock) is a finite script
    of happenings in a fixed but unknown order; a suspended coroutine lets some of it happen. */
module LongPoll {
  import opened Common
  import opened CodeTable

  const RECHECK_SEC: int := 5

  datatype Want = Want(tenant: int, address: string, platform: Option<string>, since: int)

  predicate Matches(row: CodeRow, want: Want) {
    && row.content.tenant == want.tenant
    && row.content.target == want.address
    && row.content.receivedAt >= want.since
    && row.consumed.None?
    && (want.platform.Some? && want.platform.value != "" ==> row.content.platform == want.platform)
  }

  /** `ORDER BY received_at ASC LIMIT 1` over the matching rows. */
  function Earliest(rows: seq<CodeRow>, want: Want): Option<CodeRow> {
    if rows == [] then None
    else
      var rest := Earliest(rows[1..], want);
      if Matches(rows[0], want) && (rest.None? || rows[0].content.receivedAt <= rest.value.content.receivedAt)
      then Some(rows[0]) else rest
  }

  /** `r` is an earliest-received unconsumed match among `rows`, or there is none. */
  ghost predicate Answers(rows: seq<CodeRow>, want: Want, r: Option<CodeRow>) {
    match r
    case None => forall row :: row in rows ==> !Matches(row, want)
    case Some(best) =>
      && best in rows && Matches(best, want)
      && forall row :: row in rows && Matches(row, want) ==> best.content.receivedAt <= row.content.receivedAt
  }

  lemma {:induction false} EarliestAnswers(rows: seq<CodeRow>, want: Want)
    ensures Answers(rows, want, Earliest(rows, want))
  {
    if rows != [] {
      EarliestAnswers(rows[1..], want);
      assert rows == [rows[0]] + rows[1..];
    }
  }

  // ---- the outside world -------------------------------------------------------------------

  /** A row is committed, one is consumed, a notice for a committed row reaches the listener or is
      lost, or time passes. */
  datatype Happening =
    | Commit(row: CodeRow)
    | Consume(index: nat, consumption: Consumption)
    | Notice(codeId: nat, heard: bool)
    | Pass(seconds: nat)

  ghost predicate HasId(rows: seq<CodeRow>, id: nat) {
    exists i :: 0 <= i < |rows| && rows[i].id == id
  }

  function HeardIn(script: seq<Happening>): nat {
    if script == [] then 0
    else (if script[0].Notice? && script[0].heard then 1 else 0) + HeardIn(script[1..])
  }

  function CeilDiv(a: nat, b: nat): nat
    requires b > 0
  {
    (a + b - 1) / b
  }

  class Poll {
    var codes: seq<CodeRow>
    var event: bool            // notify_event
    var subscribed: bool       // the channel is listened to
    var now: real              // the event loop's clock
    var script: seq<Happening>

    ghost var seen: seq<CodeRow>   // the table at the instant of the last query
    ghost var unseen: set<nat>      // rows heard about that the last query could not see
    ghost var delivered: nat       // notices heard so far
    ghost var waits: nat           // waits begun so far
    ghost var waitsAtQuery: nat    // waits begun before the last query
    ghost var patience: real       // the longest timeout of any wait
    ghost var blind: bool          // some wait began with the event clear and news outstanding

    constructor (codes: seq<CodeRow>, now: real, script: seq<Happening>)
      ensures this.codes == codes && this.now == now && this.script == script && !event && !subscribed
      ensures waits == 0 && delivered == 0 && !blind && unseen == {} && patience == 0.0
    {
      this.codes, this.now, this.script, event, subscribed := codes, now, script, false, false;
      seen, unseen, delivered, waits, waitsAtQuery, patience, blind := [], {}, 0, 0, 0, 0.0, false;
    }

    /** What may have changed while other things happened. */
    twostate predicate Meanwhile()
      reads this
    {
      && now >= old(now)
      && |script| <= |old(script)|
      && delivered >= old(delivered)
      && delivered + HeardIn(script) <= old(delivered + HeardIn(script))
      && subscribed == old(subscribed)
      && (!subscribed ==> delivered == old(delivered))
      && (old(event) ==> event)
      && (event && !old(event) ==> delivered > old(delivered))
      && (delivered > old(delivered) ==> event)
      && (unseen != old(unseen) ==> event)
      && seen == old(seen) && waits == old(waits) && waitsAtQuery == old(waitsAtQuery)
      && patience == old(patience) && blind == old(blind)
    }

    /** The next happening. */
    method Happen()
      requires script != []
      modifies this
      ensures Meanwhile() && |script| < |old(script)|
    {
      var next := script[0];
      script := script[1..];
      match next {
        case Commit(row) => codes := codes + [row];
        case Consume(i, consumption) =>
          if i < |codes| && codes[i].consumed.None? {
            codes := codes[i := codes[i].(consumed := Some(consumption))];
          }
        case Notice(id, heard) =>
          if heard && subscribed {
            event := true;
            delivered := delivered + 1;
            unseen := if HasId(codes, id) && !HasId(seen, id) then unseen + {id} else unseen;
          }
        case Pass(seconds) => now := now + seconds as real;
      }
    }

    /** An `await` lets any number of things happen. */
    method Suspend()
      modifies this
      ensures Meanwhile()
    {
      var n: nat := *;
      while n > 0 && script != []
        invariant Meanwhile()
      {
        Happen();
        n := n - 1;
      }
    }

    /** `asyncio.wait_for(notify_event.wait(), timeout)`. */
    method AwaitEvent(timeout: real)
      requires timeout > 0.0
      modifies this
      ensures now >= old(now) && |script| <= |old(script)| && delivered >= old(delivered) && subscribed == old(subscribed)
      ensures delivered + HeardIn(script) <= old(delivered + HeardIn(script))
      ensures event || now >= old(now) + timeout
      ensures if old(event) then event else event <==> delivered > old(delivered)
      ensures waits == old(waits) + 1 && waitsAtQuery == old(waitsAtQuery) && seen == old(seen)
      ensures blind == (old(blind) || (old(unseen) != {} && !old(event)))
      ensures patience == (if timeout > old(patience) then timeout else old(patience))
    {
      blind := blind || (unseen != {} && !event);
      waits := waits + 1;
      patience := if timeout > patience then timeout else patience;
      var until := now + timeout;
      label waiting:
      while !event && now < until
        invariant Meanwhile@waiting()
        decreases |script|, if now < until then 1 else 0
      {
        if script == [] {
          now := until;
        } else {
          Happen();
        }
      }
    }

    method Clear()
      modifies this`event
      ensures !event
    {
      event := false;
    }

    /** `_find_unconsumed_code`: the server evaluates the query at one instant between the moment
        the coroutine is suspended and the moment it resumes. */
    method FindUnconsumedCode(want: Want) returns (r: Option<CodeRow>)
      modifies this
      ensures Answers(seen, want, r) && waitsAtQuery == old(waits)
      ensures now >= old(now) && |script| <= |old(script)|
      ensures delivered >= old(delivered) && delivered + HeardIn(script) <= old(delivered + HeardIn(script))
      ensures old(event) ==> event
      ensures event && !old(event) ==> delivered > old(delivered)
      ensures delivered > old(delivered) ==> event
      ensures unseen != {} ==> event
      ensures subscribed == old(subscribed) && (!subscribed ==> delivered == old(delivered) && event == old(event))
      ensures waits == old(waits) && blind == old(blind) && patience == old(patience)
    {
      Suspend();
      r := Earliest(codes, want);
      EarliestAnswers(codes, want);
      seen, unseen, waitsAtQuery := codes, {}, waits;
      Suspend();
    }

    /** The endpoint. A code is an earliest unconsumed match at the instant of the last query; no
        content means that query, made after the last wait, saw none and the deadline has passed. No
        wait ever begins with the event clear while a notice was heard for a row the last query could
        not see. No wait is longer than five seconds, so a lost notice costs no more, and the number of
        waits is bounded. */
    method CodeWait(tenant: int, address: string, platform: Option<string>, since: Option<int>, utcNow: int, timeoutSec: nat)
      returns (r: Option<CodeRow>)
      requires !event && !subscribed && unseen == {} && waits == 0 && !blind && patience == 0.0
      modifies this
      ensures var want := Want(tenant, address, platform, if since.Some? then since.value else utcNow - utcNow % 60);
        Answers(seen, want, r) && waitsAtQuery == waits
      ensures r == None ==> now >= old(now) + timeoutSec as real
      ensures !blind
      ensures waits <= (delivered - old(delivered)) + (timeoutSec + 4) / 5
      ensures patience <= 5.0
    {
      var want := Want(tenant, address, platform, if since.Some? then since.value else utcNow - utcNow % 60);
      ghost var start := now;
      var deadline := now + timeoutSec as real;

      r := FindUnconsumedCode(want);
      if r.Some? {
        return;
      }

      // A new asyncio.Event; only now does the listener subscribe.
      event, subscribed := false, true;
      ghost var timeouts: nat := 0;
      while true
        invariant Answers(seen, want, None) && waitsAtQuery == waits
        invariant unseen != {} ==> event
        invariant !blind && patience <= RECHECK_SEC as real
        invariant now >= start && subscribed && delivered >= old(delivered)
        invariant waits + (if event then 1 else 0) <= (delivered - old(delivered)) + timeouts
        invariant timeouts <= CeilDiv(timeoutSec, RECHECK_SEC)
        invariant now < deadline ==> now >= start + (RECHECK_SEC * timeouts) as real
        decreases HeardIn(script) + (if event then 1 else 0), CeilDiv(timeoutSec, RECHECK_SEC) - timeouts
      {
        var remaining := deadline - now;
        if remaining <= 0.0 {
          return None;
        }
        ghost var began := now;
        AwaitEvent(if remaining < RECHECK_SEC as real then remaining else RECHECK_SEC as real);
        if !event {
          assert RECHECK_SEC * timeouts < timeoutSec;
          timeouts := timeouts + 1;
        }
        Clear();
        r := FindUnconsumedCode(want);
        if r.Some? {
          return;
        }
      }
    }
  }
}
