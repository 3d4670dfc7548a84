/** Drain: what completed rounds of one worker leave behind, over every run in which everybody else
    moves freely. */
module Drain {
  import opened Common
  import opened Backlog
  import opened Ingestion

  /** Nothing new arrives in mailbox `a`, and its worker neither crashes nor loses a fetch. Anything
      else may happen at any point: other workers, also on the same mailbox, mail elsewhere, expunges,
      edits of mailboxes and patterns, consumption, swallowed exceptions. */
  predicate CalmEvent(e: Event, a: string, id: nat) {
    !(e.Arrive? && e.address == a) && e != Crash(id) && e != FetchFails(id)
  }

  ghost predicate Calm(es: seq<Event>, a: string, id: nat) {
    forall i :: 0 <= i < |es| ==> CalmEvent(es[i], a, id)
  }

  ghost predicate NoExpunge(es: seq<Event>, a: string) {
    forall i :: 0 <= i < |es| ==> !(es[i].Expunge? && es[i].address == a)
  }

  /** The event brings the worker back to the point where it would search again. */
  predicate Completes(s: Setting, w: World, e: Event, id: nat) {
    var w' := Apply(s, w, e);
    id in w.workers && id in w'.workers && !w.workers[id].phase.Resting? && w'.workers[id].phase.Resting?
  }

  /** The rounds of the worker that end within a run. */
  function Completed(s: Setting, w: World, es: seq<Event>, id: nat): nat
    decreases |es|
  {
    if es == [] then 0
    else (if Completes(s, w, es[0], id) then 1 else 0) + Completed(s, Apply(s, w, es[0]), es[1..], id)
  }

  ghost predicate Serves(w: World, id: nat, a: string) {
    id in w.workers && w.workers[id].address == a && a in w.inboxes
  }

  /** Every message of `a` still present is settled, or among `uids`. */
  ghost predicate Within(w: World, a: string, uids: set<Uid>)
    requires a in w.inboxes
  {
    forall x :: x in w.inboxes[a].items ==> (a, x.uid) in w.settled || x.uid in uids
  }

  ghost predicate AllSettled(w: World, a: string)
    requires a in w.inboxes
  {
    forall x :: x in w.inboxes[a].items ==> (a, x.uid) in w.settled
  }

  // ---- one step -------------------------------------------------------------------------------

  /** In mailbox `a` messages only go, and what is settled stays settled. */
  ghost predicate Shrinks(w: World, w': World, a: string) {
    && a in w.inboxes && a in w'.inboxes
    && w.settled <= w'.settled
    && forall x :: x in w'.inboxes[a].items ==> x in w.inboxes[a].items
  }

  lemma CalmShrinks(s: Setting, w: World, e: Event, a: string, id: nat)
    requires Serves(w, id, a) && CalmEvent(e, a, id)
    ensures Shrinks(w, Apply(s, w, e), a) && Serves(Apply(s, w, e), id, a)
    ensures a in w.marks ==> a in Apply(s, w, e).marks
  {
  }

  lemma WithinPersists(w: World, w': World, a: string, uids: set<Uid>)
    requires Shrinks(w, w', a) && Within(w, a, uids)
    ensures Within(w', a, uids)
  {
  }

  /** An event of somebody else leaves this worker where it is. */
  predicate Own(e: Event, id: nat) {
    (e.Advance? && e.worker == id) || (e.Swallow? && e.worker == id)
  }

  lemma OthersLeave(s: Setting, w: World, e: Event, a: string, id: nat)
    requires Serves(w, id, a) && CalmEvent(e, a, id) && !Own(e, id)
    ensures Apply(s, w, e).workers[id] == w.workers[id]
  {
  }

  // ---- a round from a saved watermark -------------------------------------------------------------

  /** The worker's current round takes every message that is still unsettled. */
  ghost predicate Taking(w: World, id: nat)
    requires id in w.workers && w.workers[id].address in w.inboxes
  {
    var a := w.workers[id].address;
    match w.workers[id].phase
    case Resting => a in w.marks
    case Search(mark) => mark.Some?
    case Fetch(uids) => Within(w, a, uids)
    case Working(queue, _) => Within(w, a, Uids(queue))
  }

  lemma SearchTakesAll(w: World, a: string, mark: Uid)
    requires a in w.inboxes && InboxOk(w.inboxes[a]) && Covered(w, a, mark)
    ensures Within(w, a, Uids(Batch(w.inboxes[a].items, Some(mark))))
  {
    var items := w.inboxes[a].items;
    var batch := Batch(items, Some(mark));
    forall x | x in items ensures (a, x.uid) in w.settled || x.uid in Uids(batch) {
      if x.uid > mark {
        UncappedRoundDrains(items, mark);
        assert x in batch;
      }
    }
  }

  lemma FetchTakesAll(w: World, a: string, uids: set<Uid>)
    requires a in w.inboxes && Within(w, a, uids)
    ensures Within(w, a, Uids(Remaining(w.inboxes[a].items, uids)))
  {
    var queue := Remaining(w.inboxes[a].items, uids);
    forall x | x in w.inboxes[a].items ensures (a, x.uid) in w.settled || x.uid in Uids(queue) {
      assert x.uid in uids ==> x in queue;
    }
  }

  lemma RestTakesAll(w: World, a: string, queue: seq<Item>)
    requires a in w.inboxes && queue != [] && Ascending(queue)
    requires Within(w, a, Uids(queue)) && (a, queue[0].uid) in w.settled
    ensures Within(w, a, Uids(queue[1..]))
  {
    UidsOfQueue(queue);
  }

  /** Either the round goes on taking everything, or it is over and everything is settled. */
  ghost predicate TakingOrDone(s: Setting, w: World, e: Event, id: nat)
    requires id in w.workers && w.workers[id].address in w.inboxes
  {
    var a, w' := w.workers[id].address, Apply(s, w, e);
    Serves(w', id, a) && if Completes(s, w, e, id) then AllSettled(w', a) else Taking(w', id)
  }

  lemma AdvanceTakes(s: Setting, w: World, id: nat, now: int)
    requires s.codec.AsDict? && Coverage(w) && id in w.workers
    requires w.workers[id].address in w.inboxes && Taking(w, id)
    ensures TakingOrDone(s, w, Advance(id, now), id)
  {
    var k := w.workers[id];
    var a := k.address;
    assert WorkerCovers(w, k);
    CalmShrinks(s, w, Advance(id, now), a, id);
    match k.phase {
      case Resting => assert MarkCovers(w, a);
      case Search(mark) => SearchTakesAll(w, a, mark.value);
      case Fetch(uids) => FetchTakesAll(w, a, uids);
      case Working(queue, stage) =>
        if stage.SaveMark? {
          RestTakesAll(w, a, queue);
        } else {
          WithinPersists(w, Apply(s, w, Advance(id, now)), a, Uids(queue));
        }
    }
  }

  lemma OtherTakes(s: Setting, w: World, e: Event, id: nat)
    requires id in w.workers && w.workers[id].address in w.inboxes && Taking(w, id)
    requires CalmEvent(e, w.workers[id].address, id) && !(e.Advance? && e.worker == id)
    ensures TakingOrDone(s, w, e, id)
  {
    var k := w.workers[id];
    var a, w' := k.address, Apply(s, w, e);
    CalmShrinks(s, w, e, a, id);
    if !Own(e, id) {
      OthersLeave(s, w, e, a, id);
    }
    if k.phase.Fetch? {
      WithinPersists(w, w', a, k.phase.uids);
    } else if k.phase.Working? {
      WithinPersists(w, w', a, Uids(k.phase.queue));
    }
  }

  lemma {:induction false} SettledStays(s: Setting, w: World, es: seq<Event>, a: string, id: nat)
    requires Serves(w, id, a) && Calm(es, a, id) && AllSettled(w, a)
    ensures Serves(Run(s, w, es), id, a) && AllSettled(Run(s, w, es), a)
    decreases |es|
  {
    if es != [] {
      CalmShrinks(s, w, es[0], a, id);
      SettledStays(s, Apply(s, w, es[0]), es[1..], a, id);
    }
  }

  lemma {:induction false} TakingSettles(s: Setting, w: World, es: seq<Event>, a: string, id: nat)
    requires s.codec.AsDict? && Coverage(w) && Serves(w, id, a) && Taking(w, id) && Calm(es, a, id)
    ensures Serves(Run(s, w, es), id, a)
    ensures Completed(s, w, es, id) >= 1 ==> AllSettled(Run(s, w, es), a)
    decreases |es|
  {
    if es != [] {
      var w1 := Apply(s, w, es[0]);
      ApplyKeepsCoverage(s, w, es[0]);
      if es[0].Advance? && es[0].worker == id {
        AdvanceTakes(s, w, id, es[0].now);
      } else {
        OtherTakes(s, w, es[0], id);
      }
      if Completes(s, w, es[0], id) {
        SettledStays(s, w1, es[1..], a, id);
      } else {
        TakingSettles(s, w1, es[1..], a, id);
      }
    }
  }

  // ---- the capped first round -----------------------------------------------------------------------

  /** The worker's current round will leave a watermark, unless there is nothing to take. */
  ghost predicate Opening(w: World, id: nat)
    requires id in w.workers && w.workers[id].address in w.inboxes
  {
    var items := w.inboxes[w.workers[id].address].items;
    w.workers[id].phase.Fetch? ==>
      items == [] || exists x :: x in items && x.uid in w.workers[id].phase.uids
  }

  ghost predicate OpeningOrMarked(s: Setting, w: World, e: Event, id: nat)
    requires id in w.workers && w.workers[id].address in w.inboxes
  {
    var a, w' := w.workers[id].address, Apply(s, w, e);
    && Serves(w', id, a) && w'.inboxes[a].items == w.inboxes[a].items
    && if Completes(s, w, e, id) then a in w'.marks || w'.inboxes[a].items == [] else Opening(w', id)
  }

  lemma BatchIsNotEmpty(items: seq<Item>, mark: Option<Uid>)
    requires Ascending(items) && items != []
    ensures exists x :: x in items && x.uid in Uids(Batch(items, mark))
  {
    var batch := Batch(items, mark);
    if mark.Some? {
      UncappedRoundDrains(items, mark.value);
    }
    var x := batch[|batch| - 1];
    assert x in batch;
    BatchIsFromInbox(items, mark);
  }

  lemma CalmKeepsInbox(s: Setting, w: World, e: Event, a: string, id: nat)
    requires Serves(w, id, a) && CalmEvent(e, a, id) && !(e.Expunge? && e.address == a)
    ensures a in Apply(s, w, e).inboxes && Apply(s, w, e).inboxes[a] == w.inboxes[a]
  {
  }

  lemma StepOpens(s: Setting, w: World, e: Event, id: nat)
    requires Coverage(w) && id in w.workers && w.workers[id].address in w.inboxes && Opening(w, id)
    requires var a := w.workers[id].address; CalmEvent(e, a, id) && !(e.Expunge? && e.address == a)
    ensures OpeningOrMarked(s, w, e, id)
  {
    var k := w.workers[id];
    var a := k.address;
    assert WorkerCovers(w, k);
    CalmShrinks(s, w, e, a, id);
    CalmKeepsInbox(s, w, e, a, id);
    if !Own(e, id) {
      OthersLeave(s, w, e, a, id);
    } else if e.Advance? {
      AdvanceOpens(s, w, id, e.now);
    }
  }

  lemma AdvanceOpens(s: Setting, w: World, id: nat, now: int)
    requires Coverage(w) && id in w.workers && w.workers[id].address in w.inboxes && Opening(w, id)
    ensures OpeningOrMarked(s, w, Advance(id, now), id)
  {
    var k := w.workers[id];
    var items := w.inboxes[k.address].items;
    assert WorkerCovers(w, k);
    CalmKeepsInbox(s, w, Advance(id, now), k.address, id);
    if k.phase.Search? && items != [] {
      BatchIsNotEmpty(items, k.phase.mark);
    } else if k.phase.Fetch? && items != [] {
      var x :| x in items && x.uid in k.phase.uids;
      assert x in Remaining(items, k.phase.uids);
    }
  }

  lemma {:induction false} SecondRoundSettles(s: Setting, w: World, es: seq<Event>, a: string, id: nat)
    requires s.codec.AsDict? && Coverage(w) && Serves(w, id, a) && Opening(w, id)
    requires Calm(es, a, id) && NoExpunge(es, a)
    ensures Serves(Run(s, w, es), id, a)
    ensures Completed(s, w, es, id) >= 2 ==> AllSettled(Run(s, w, es), a)
    decreases |es|
  {
    if es != [] {
      var w1 := Apply(s, w, es[0]);
      ApplyKeepsCoverage(s, w, es[0]);
      StepOpens(s, w, es[0], id);
      if !Completes(s, w, es[0], id) {
        SecondRoundSettles(s, w1, es[1..], a, id);
      } else if a in w1.marks {
        TakingSettles(s, w1, es[1..], a, id);
      } else {
        SettledStays(s, w1, es[1..], a, id);
      }
    }
  }

  /** Drain, for every run: while nothing new arrives in its mailbox and it does not crash or lose a
      fetch, a worker that starts with a saved watermark has settled every message still present by the
      end of its first round; without one, and with nothing expunged, by the end of its second. That
      holds from the state any run leaves behind, and whatever everybody else does meanwhile. */
  lemma RoundsSettle(s: Setting, w: World, before: seq<Event>, a: string, id: nat, es: seq<Event>)
    requires Initial(w) && s.codec.AsDict?
    requires Serves(Run(s, w, before), id, a) && Run(s, w, before).workers[id].phase == Resting
    requires Calm(es, a, id)
    ensures var v := Run(s, w, before);
      && Serves(Run(s, v, es), id, a)
      && (a in v.marks && Completed(s, v, es, id) >= 1 ==> AllSettled(Run(s, v, es), a))
      && (NoExpunge(es, a) && Completed(s, v, es, id) >= 2 ==> AllSettled(Run(s, v, es), a))
  {
    var v := Run(s, w, before);
    RunKeepsCoverage(s, w, before);
    ServesThroughout(s, v, es, a, id);
    if a in v.marks {
      TakingSettles(s, v, es, a, id);
    }
    if NoExpunge(es, a) {
      SecondRoundSettles(s, v, es, a, id);
    }
  }

  lemma {:induction false} ServesThroughout(s: Setting, w: World, es: seq<Event>, a: string, id: nat)
    requires Serves(w, id, a) && Calm(es, a, id)
    ensures Serves(Run(s, w, es), id, a)
    decreases |es|
  {
    if es != [] {
      CalmShrinks(s, w, es[0], a, id);
      ServesThroughout(s, Apply(s, w, es[0]), es[1..], a, id);
    }
  }

  // ---- where the watermark ends up -------------------------------------------------------------------

  /** No other worker serves the mailbox, as the pool keeps it. */
  ghost predicate Sole(w: World, id: nat, a: string) {
    Serves(w, id, a) && forall j :: j in w.workers && j != id ==> w.workers[j].address != a
  }

  predicate QuietEvent(e: Event, a: string, id: nat) {
    CalmEvent(e, a, id) && !(e.Expunge? && e.address == a) && !(e.Start? && e.address == a)
  }

  ghost predicate Quiet(es: seq<Event>, a: string, id: nat) {
    forall i :: 0 <= i < |es| ==> QuietEvent(es[i], a, id)
  }

  function Largest(items: seq<Item>): Uid
    requires items != []
  {
    items[|items| - 1].uid
  }

  /** The worker's current round ends at the largest UID; once `done`, so did the last one. */
  ghost predicate Topping(w: World, id: nat, done: bool)
    requires id in w.workers && w.workers[id].address in w.inboxes
  {
    var a := w.workers[id].address;
    var items := w.inboxes[a].items;
    items != [] ==>
      match w.workers[id].phase
      case Resting => a in w.marks && (done ==> w.marks[a] == Largest(items))
      case Search(mark) => mark.Some?
      case Fetch(uids) => Largest(items) in uids
      case Working(queue, _) => queue != [] && Largest(queue) == Largest(items)
  }

  lemma LargestIsLast(items: seq<Item>, x: Item)
    requires Ascending(items) && x in items
    ensures x.uid <= Largest(items)
  {
    var i :| 0 <= i < |items| && items[i] == x;
  }

  lemma FetchKeepsLargest(items: seq<Item>, uids: set<Uid>)
    requires Ascending(items) && items != [] && Largest(items) in uids
    ensures Remaining(items, uids) != [] && Largest(Remaining(items, uids)) == Largest(items)
  {
    var queue := Remaining(items, uids);
    var last := items[|items| - 1];
    assert last in items && last in queue;
    LargestIsLast(queue, last);
    assert queue[|queue| - 1] in queue;
    LargestIsLast(items, queue[|queue| - 1]);
  }

  lemma AdvanceTops(s: Setting, w: World, id: nat, now: int, done: bool)
    requires s.codec.AsDict? && Coverage(w) && id in w.workers
    requires w.workers[id].address in w.inboxes && Topping(w, id, done)
    ensures var w' := Apply(s, w, Advance(id, now));
      && Serves(w', id, w.workers[id].address)
      && Topping(w', id, done || Completes(s, w, Advance(id, now), id))
  {
    var k := w.workers[id];
    var a := k.address;
    var items := w.inboxes[a].items;
    assert WorkerCovers(w, k);
    CalmKeepsInbox(s, w, Advance(id, now), a, id);
    if items != [] {
      match k.phase {
        case Resting => assert MarkCovers(w, a);
        case Search(mark) =>
          UncappedRoundDrains(items, mark.value);
          var batch := Batch(items, mark);
          assert batch[|batch| - 1] in batch;
        case Fetch(uids) => FetchKeepsLargest(items, uids);
        case Working(queue, stage) =>
      }
    }
  }

  lemma OthersKeepMark(s: Setting, w: World, e: Event, a: string, id: nat)
    requires Sole(w, id, a) && QuietEvent(e, a, id) && !(e.Advance? && e.worker == id)
    ensures a in w.marks ==> a in Apply(s, w, e).marks && Apply(s, w, e).marks[a] == w.marks[a]
  {
  }

  lemma SoleStays(s: Setting, w: World, e: Event, a: string, id: nat)
    requires Sole(w, id, a) && QuietEvent(e, a, id)
    ensures Sole(Apply(s, w, e), id, a) && Apply(s, w, e).inboxes[a] == w.inboxes[a]
  {
  }

  lemma StepTops(s: Setting, w: World, e: Event, a: string, id: nat, done: bool)
    requires s.codec.AsDict? && Coverage(w) && Sole(w, id, a) && QuietEvent(e, a, id) && Topping(w, id, done)
    ensures Sole(Apply(s, w, e), id, a) && Apply(s, w, e).inboxes[a] == w.inboxes[a]
    ensures Topping(Apply(s, w, e), id, done || Completes(s, w, e, id))
  {
    SoleStays(s, w, e, a, id);
    if e.Advance? && e.worker == id {
      AdvanceTops(s, w, id, e.now, done);
    } else {
      OthersKeepMark(s, w, e, a, id);
      if !Own(e, id) {
        OthersLeave(s, w, e, a, id);
      }
    }
  }

  lemma {:induction false} RunTops(s: Setting, w: World, es: seq<Event>, a: string, id: nat, done: bool)
    requires s.codec.AsDict? && Coverage(w) && Sole(w, id, a) && Quiet(es, a, id) && Topping(w, id, done)
    ensures Serves(Run(s, w, es), id, a) && Run(s, w, es).inboxes[a] == w.inboxes[a]
    ensures Topping(Run(s, w, es), id, done || Completed(s, w, es, id) >= 1)
    decreases |es|
  {
    if es != [] {
      StepTops(s, w, es[0], a, id, done);
      ApplyKeepsCoverage(s, w, es[0]);
      RunTops(s, Apply(s, w, es[0]), es[1..], a, id, done || Completes(s, w, es[0], id));
    }
  }

  lemma {:induction false} SecondRoundTops(s: Setting, w: World, es: seq<Event>, a: string, id: nat)
    requires s.codec.AsDict? && Coverage(w) && Sole(w, id, a) && Quiet(es, a, id) && Opening(w, id)
    ensures Serves(Run(s, w, es), id, a) && Run(s, w, es).inboxes[a] == w.inboxes[a]
    ensures Completed(s, w, es, id) >= 2 ==> Topping(Run(s, w, es), id, true)
    decreases |es|
  {
    if es != [] {
      var w1 := Apply(s, w, es[0]);
      StepOpens(s, w, es[0], id);
      SoleStays(s, w, es[0], a, id);
      ApplyKeepsCoverage(s, w, es[0]);
      if Completes(s, w, es[0], id) {
        RunTops(s, w1, es[1..], a, id, false);
      } else {
        SecondRoundTops(s, w1, es[1..], a, id);
      }
    }
  }

  /** And the watermark: if moreover the worker is the only one of its mailbox and nothing is expunged
      there, then whenever it rests after its first round (from a saved watermark) or its second, the
      watermark is the largest UID of the inbox. */
  lemma RoundsEndAtLargest(s: Setting, w: World, before: seq<Event>, a: string, id: nat, es: seq<Event>)
    requires Initial(w) && s.codec.AsDict?
    requires Sole(Run(s, w, before), id, a) && Run(s, w, before).workers[id].phase == Resting
    requires Quiet(es, a, id)
    ensures var v := Run(s, w, before);
      var v' := Run(s, v, es);
      && Serves(v', id, a) && v'.inboxes[a] == v.inboxes[a]
      && (v'.workers[id].phase == Resting && v.inboxes[a].items != []
          && Completed(s, v, es, id) >= (if a in v.marks then 1 else 2) ==>
            a in v'.marks && v'.marks[a] == Largest(v.inboxes[a].items))
  {
    var v := Run(s, w, before);
    RunKeepsCoverage(s, w, before);
    if a in v.marks {
      RunTops(s, v, es, a, id, false);
    } else {
      SecondRoundTops(s, v, es, a, id);
    }
  }

  // ---- the quiet case -----------------------------------------------------------------------------------

  /** A worker found in the middle of a round and later at rest has completed one. */
  lemma {:induction false} BackAtRest(s: Setting, w: World, es: seq<Event>, id: nat)
    requires id in w.workers && !w.workers[id].phase.Resting?
    requires id in Run(s, w, es).workers && Run(s, w, es).workers[id].phase.Resting?
    ensures Completed(s, w, es, id) >= 1
    decreases |es|
  {
    if es != [] && !Completes(s, w, es[0], id) {
      assert id in Apply(s, w, es[0]).workers;
      BackAtRest(s, Apply(s, w, es[0]), es[1..], id);
    }
  }

  /** A round with nobody else moving: the worker's own statements, and what `_fetch_backlog` does. */
  lemma QuietRound(s: Setting, w: World, id: nat, now: int) returns (es: seq<Event>)
    requires id in w.workers && w.workers[id].address in w.inboxes && w.workers[id].phase == Resting
    requires InboxOk(w.inboxes[w.workers[id].address])
    ensures Solo(es, id, now) && Completed(s, w, es, id) >= 1
    ensures var a := w.workers[id].address;
      Run(s, w, es) == WorkedOff(s, w, id, Batch(w.inboxes[a].items, LastSeen(s.codec, w.marks, a)), now)
  {
    es := RoundIsBacklog(s, w, id, now);
    BackAtRest(s, Apply(s, w, es[0]), es[1..], id);
  }

  lemma {:induction false} CompletedConcat(s: Setting, w: World, es: seq<Event>, fs: seq<Event>, id: nat)
    ensures Completed(s, w, es + fs, id) == Completed(s, w, es, id) + Completed(s, Run(s, w, es), fs, id)
    decreases |es|
  {
    if es == [] {
      assert es + fs == fs;
    } else {
      assert (es + fs)[1..] == es[1..] + fs;
      CompletedConcat(s, Apply(s, w, es[0]), es[1..], fs, id);
    }
  }

  /** Two rounds are always to be had: from the state any run leaves behind, a resting worker left to
      itself goes through two rounds of `_fetch_backlog`, one after the other. */
  lemma TwoQuietRounds(s: Setting, w: World, before: seq<Event>, id: nat, now: int)
    returns (first: seq<Event>, second: seq<Event>)
    requires Initial(w)
    requires var v := Run(s, w, before); id in v.workers && v.workers[id].phase == Resting
    ensures Solo(first, id, now) && Solo(second, id, now)
    ensures var v := Run(s, w, before);
      var a := v.workers[id].address;
      && a in v.inboxes
      && var b1 := Batch(v.inboxes[a].items, LastSeen(s.codec, v.marks, a));
      var v1 := WorkedOff(s, v, id, b1, now);
      var b2 := Batch(v.inboxes[a].items, LastSeen(s.codec, v1.marks, a));
      && Run(s, v, first) == v1 && Run(s, v1, second) == WorkedOff(s, v1, id, b2, now)
      && Completed(s, v, first + second, id) >= 2
      && Calm(first + second, a, id) && NoExpunge(first + second, a)
  {
    var v := Run(s, w, before);
    RunKeepsCoverage(s, w, before);
    assert WorkerCovers(v, v.workers[id]);
    first := QuietRound(s, v, id, now);
    var v1 := Run(s, v, first);
    second := QuietRound(s, v1, id, now);
    CompletedConcat(s, v, first, second, id);
    SoloIsCalm(first, second, v.workers[id].address, id, now);
  }

  lemma SoloIsCalm(first: seq<Event>, second: seq<Event>, a: string, id: nat, now: int)
    requires Solo(first, id, now) && Solo(second, id, now)
    ensures Calm(first + second, a, id) && NoExpunge(first + second, a)
  {
    var es := first + second;
    forall i | 0 <= i < |es| ensures es[i] == Advance(id, now) {
      assert es[i] == if i < |first| then first[i] else second[i - |first|];
    }
  }
}
