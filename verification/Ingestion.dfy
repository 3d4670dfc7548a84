/** Any number of IMAP workers, direct and group, over shared tables: every statement is one atomic
    step, steps of different workers interleave freely, and workers crash at any point. */
module Ingestion {
  import opened Common
  import opened CodeTable
  import opened CodeWriter
  import opened Backlog
  import Extractor

  datatype Inbox = Inbox(items: seq<Item>, nextUid: Uid)

  /** Where a worker stands inside `_process_message`, by the statement it runs next. */
  datatype Stage =
    | Begin
    | SelectTarget(d: Delivery)
    | SelectSource(d: Delivery, target: Option<int>)
    | SelectPatterns(d: Delivery, tenant: int)
    | InsertRow(d: Delivery, draft: Draft)
    | TouchMailbox(d: Delivery, draft: Draft, id: nat)
    | SendNotice(d: Delivery, draft: Draft, id: nat)
    | SaveMark

  /** Where a worker stands in its session. */
  datatype Phase =
    | Resting
    | Search(mark: Option<Uid>)
    | Fetch(uids: set<Uid>)
    | Working(queue: seq<Item>, stage: Stage)

  datatype Worker = Worker(address: string, phase: Phase)

  /** `settled` is history: the messages some worker's `_process_message` has come back from, with a
      row, without one, or with an exception it swallowed. */
  datatype World = World(
    inboxes: map<string, Inbox>, marks: map<string, nat>, tables: Tables,
    workers: map<nat, Worker>, settled: set<(string, Uid)>)

  datatype Event =
    | Arrive(address: string, message: Message, date: Option<int>)
    | Expunge(address: string, index: nat)
    | Administer(tenants: map<string, int>, patterns: seq<Extractor.Pattern>)
    | Consume(index: nat, consumption: Consumption)
    | Start(worker: nat, address: string)
    | Crash(worker: nat)
    | FetchFails(worker: nat)
    | Swallow(worker: nat)
    | Advance(worker: nat, now: int)

  /** The engine, the way JSONB comes back, and how a UID prints. */
  datatype Setting = Setting(re: Extractor.Engine, codec: JsonCodec, uidText: Uid -> string)

  // ---- steps ----------------------------------------------------------------------------

  function Uids(items: seq<Item>): set<Uid> {
    set x | x in items :: x.uid
  }

  /** The messages found by the search that are still there when they are fetched. */
  function Remaining(items: seq<Item>, uids: set<Uid>): (r: seq<Item>)
    ensures forall x :: x in r <==> x in items && x.uid in uids
    ensures Ascending(items) ==> Ascending(r)
  {
    if items == [] then []
    else
      var rest := Remaining(items[1..], uids);
      assert forall x :: x in items <==> x == items[0] || x in items[1..];
      assert forall i :: 0 <= i < |rest| ==> rest[i] in items[1..];
      if items[0].uid in uids then [items[0]] + rest else rest
  }

  /** `ON DELETE SET NULL` on the source mailbox of stored codes. */
  function ForgetSources(rows: seq<CodeRow>, tenants: map<string, int>): seq<CodeRow> {
    seq(|rows|, i requires 0 <= i < |rows| =>
      var source := rows[i].content.source;
      if source.Some? && source.value !in tenants
      then rows[i].(content := rows[i].content.(source := None))
      else rows[i])
  }

  /** Deleting mailboxes clears the source of exactly the rows read from them, and nothing else. */
  lemma DeletedSourcesAreForgotten(rows: seq<CodeRow>, tenants: map<string, int>, i: nat)
    requires i < |rows|
    ensures |ForgetSources(rows, tenants)| == |rows|
    ensures var row, row' := rows[i], ForgetSources(rows, tenants)[i];
      && row'.id == row.id && row'.consumed == row.consumed
      && row'.content.(source := None) == row.content.(source := None)
      && (row'.content.source == None <==> row.content.source == None || row.content.source.value !in tenants)
      && (row'.content.source.Some? ==> row'.content.source == row.content.source)
  {
  }

  /** What the statement of a stage does to the shared tables. */
  function TablesAfter(t: Tables, stage: Stage): Tables {
    match stage
    case InsertRow(_, draft) => t.(codes := Insert(t.codes, draft, t.tenants.Keys).0)
    case TouchMailbox(d, draft, _) => Stamp(t, draft.target, d.now)
    case SendNotice(_, draft, row) => t.(notices := t.notices + [Notice(draft.tenant, row, draft.target)])
    case _ => t
  }

  /** Where the statement of a stage leads, given the tables it runs on. */
  function StageAfter(s: Setting, t: Tables, address: string, head: Item, now: int, stage: Stage): Stage {
    match stage
    case Begin => SelectTarget(ToDelivery(address, head, s.uidText, now))
    case SelectTarget(d) =>
      if d.message.recipient == "" then SaveMark
      else SelectSource(d, TenantOf(t.tenants, d.message.recipient))
    case SelectSource(d, target) =>
      var owner := Owner(target, TenantOf(t.tenants, d.source));
      if owner.None? then SaveMark else SelectPatterns(d, owner.value)
    case SelectPatterns(d, tenant) =>
      var draft := Compose(s.re, t.patterns, tenant, d);
      if draft.None? then SaveMark else InsertRow(d, draft.value)
    case InsertRow(d, draft) =>
      var inserted := Insert(t.codes, draft, t.tenants.Keys).1;
      if inserted.New? then TouchMailbox(d, draft, inserted.id) else SaveMark
    case TouchMailbox(d, draft, row) => SendNotice(d, draft, row)
    case SendNotice(_, _, _) => SaveMark
    case SaveMark => SaveMark
  }

  /** The next statement of a worker that has messages in hand. */
  function Process(s: Setting, w: World, id: nat, now: int): World
    requires id in w.workers && w.workers[id].phase.Working? && w.workers[id].phase.queue != []
  {
    var address := w.workers[id].address;
    var queue := w.workers[id].phase.queue;
    var stage := w.workers[id].phase.stage;
    if stage.SaveMark? then
      Goto(w.(marks := w.marks[address := queue[0].uid]), id, After(queue[1..]))
    else
      var next := StageAfter(s, w.tables, address, queue[0], now, stage);
      Goto(w.(tables := TablesAfter(w.tables, stage),
              settled := if next.SaveMark? then w.settled + {(address, queue[0].uid)} else w.settled),
           id, Working(queue, next))
  }

  function After(queue: seq<Item>): Phase {
    if queue == [] then Resting else Working(queue, Begin)
  }

  function Goto(w: World, id: nat, phase: Phase): World
    requires id in w.workers
  {
    w.(workers := w.workers[id := w.workers[id].(phase := phase)])
  }

  function Arrived(box: Inbox, message: Message, date: Option<int>): (r: Inbox)
    ensures InboxOk(box) ==> InboxOk(r)
    ensures forall x :: x in r.items ==> x in box.items || x.uid == box.nextUid
  {
    Inbox(box.items + [Item(box.nextUid, message, date)], box.nextUid + 1)
  }

  function Expunged(box: Inbox, i: nat): (r: Inbox)
    ensures InboxOk(box) ==> InboxOk(r)
    ensures forall x :: x in r.items ==> x in box.items
    ensures r.nextUid == box.nextUid
  {
    if i < |box.items| then box.(items := box.items[..i] + box.items[i + 1..]) else box
  }

  /** One event; an event that is not possible changes nothing. */
  function Apply(s: Setting, w: World, e: Event): World {
    match e
    case Arrive(a, message, date) =>
      if a in w.inboxes then w.(inboxes := w.inboxes[a := Arrived(w.inboxes[a], message, date)]) else w
    case Expunge(a, i) =>
      if a in w.inboxes then w.(inboxes := w.inboxes[a := Expunged(w.inboxes[a], i)]) else w
    case Administer(tenants, patterns) =>
      var t := w.tables;
      w.(tables := t.(tenants := tenants, patterns := patterns,
                      codes := t.codes.(rows := ForgetSources(t.codes.rows, tenants))))
    case Consume(i, consumption) =>
      var t := w.tables;
      if i >= |t.codes.rows| || t.codes.rows[i].consumed.Some? then w
      else w.(tables := t.(codes := t.codes.(rows := t.codes.rows[i := t.codes.rows[i].(consumed := Some(consumption))])))
    case Start(id, a) =>
      if id in w.workers || a !in w.inboxes then w
      else w.(workers := w.workers[id := Worker(a, Resting)])
    case Crash(id) =>
      if id in w.workers then Goto(w, id, Resting) else w
    case FetchFails(id) =>
      if id in w.workers && (w.workers[id].phase.Search? || w.workers[id].phase.Fetch?) then Goto(w, id, Resting) else w
    case Swallow(id) =>
      if id in w.workers && w.workers[id].phase.Working? && w.workers[id].phase.queue != []
      then
        var queue := w.workers[id].phase.queue;
        Goto(w.(settled := w.settled + {(w.workers[id].address, queue[0].uid)}), id, Working(queue, SaveMark))
      else w
    case Advance(id, now) =>
      if id !in w.workers || w.workers[id].address !in w.inboxes then w
      else
        var a := w.workers[id].address;
        match w.workers[id].phase
        case Resting => Goto(w, id, Search(LastSeen(s.codec, w.marks, a)))
        case Search(mark) => Goto(w, id, Fetch(Uids(Batch(w.inboxes[a].items, mark))))
        case Fetch(uids) => Goto(w, id, After(Remaining(w.inboxes[a].items, uids)))
        case Working(queue, _) => if queue == [] then w else Process(s, w, id, now)
  }

  function Run(s: Setting, w: World, es: seq<Event>): World
    decreases |es|
  {
    if es == [] then w else Run(s, Apply(s, w, es[0]), es[1..])
  }

  /** Valid inboxes, no watermark saved yet, no worker, nothing stored. */
  ghost predicate Initial(w: World) {
    && (forall a :: a in w.inboxes ==> InboxOk(w.inboxes[a]))
    && w.marks == map[] && w.workers == map[] && w.settled == {}
    && w.tables.codes.rows == [] && w.tables.notices == []
  }

  ghost predicate InboxOk(box: Inbox) {
    && Ascending(box.items)
    && forall x :: x in box.items ==> x.uid < box.nextUid
  }

  // ---- coverage ---------------------------------------------------------------------------

  /** Every message of `a` still present at or below `bound` is settled. */
  ghost predicate Covered(w: World, a: string, bound: nat)
    requires a in w.inboxes
  {
    forall x :: x in w.inboxes[a].items && x.uid <= bound ==> (a, x.uid) in w.settled
  }

  /** Every message of `a` still present at or below one of `uids` is among them or settled. */
  ghost predicate NoGap(w: World, a: string, uids: set<Uid>)
    requires a in w.inboxes
  {
    forall x, u :: x in w.inboxes[a].items && u in uids && x.uid <= u ==>
      x.uid in uids || (a, x.uid) in w.settled
  }

  ghost predicate Below(uids: set<Uid>, bound: Uid) {
    forall u :: u in uids ==> u < bound
  }

  ghost predicate WorkerCovers(w: World, k: Worker) {
    && k.address in w.inboxes
    && var a := k.address;
    match k.phase
    case Resting => true
    case Search(mark) => mark.Some? ==> mark.value < w.inboxes[a].nextUid && Covered(w, a, mark.value)
    case Fetch(uids) => Below(uids, w.inboxes[a].nextUid) && NoGap(w, a, uids)
    case Working(queue, stage) =>
      && queue != [] && Ascending(queue)
      && Below(Uids(queue), w.inboxes[a].nextUid) && NoGap(w, a, Uids(queue))
      && (stage.SaveMark? ==> (a, queue[0].uid) in w.settled)
  }

  ghost predicate MarkCovers(w: World, a: string)
    requires a in w.marks
  {
    a in w.inboxes && 0 < w.marks[a] < w.inboxes[a].nextUid && Covered(w, a, w.marks[a])
  }

  ghost predicate Coverage(w: World) {
    && (forall a :: a in w.inboxes ==> InboxOk(w.inboxes[a]))
    && (forall a :: a in w.marks ==> MarkCovers(w, a))
    && (forall id :: id in w.workers ==> WorkerCovers(w, w.workers[id]))
  }

  /** Inboxes lose messages and gain only ones with fresh UIDs; history only grows. */
  ghost predicate Onward(w: World, w': World) {
    && w.settled <= w'.settled
    && w'.inboxes.Keys == w.inboxes.Keys
    && forall a :: a in w.inboxes ==>
      && w.inboxes[a].nextUid <= w'.inboxes[a].nextUid
      && forall x :: x in w'.inboxes[a].items ==> x in w.inboxes[a].items || x.uid >= w.inboxes[a].nextUid
  }

  lemma OnwardKeepsWorker(w: World, w': World, k: Worker)
    requires Onward(w, w') && WorkerCovers(w, k)
    ensures WorkerCovers(w', k)
  {
    var a := k.address;
    match k.phase {
      case Resting =>
      case Search(mark) =>
      case Fetch(uids) => OnwardKeepsNoGap(w, w', a, uids);
      case Working(queue, stage) => OnwardKeepsNoGap(w, w', a, Uids(queue));
    }
  }

  lemma OnwardKeepsNoGap(w: World, w': World, a: string, uids: set<Uid>)
    requires Onward(w, w') && a in w.inboxes
    requires Below(uids, w.inboxes[a].nextUid) && NoGap(w, a, uids)
    ensures Below(uids, w'.inboxes[a].nextUid) && NoGap(w', a, uids)
  {
  }

  /** Moving on without touching watermarks or phases keeps everything covered. */
  lemma OnwardKeepsCoverage(w: World, w': World)
    requires Coverage(w) && Onward(w, w') && w'.marks == w.marks && w'.workers == w.workers
    requires forall a :: a in w'.inboxes ==> InboxOk(w'.inboxes[a])
    ensures Coverage(w')
  {
    forall id | id in w'.workers ensures WorkerCovers(w', w'.workers[id]) {
      OnwardKeepsWorker(w, w', w.workers[id]);
    }
    forall a | a in w'.marks ensures MarkCovers(w', a) {
      assert MarkCovers(w, a);
    }
  }

  lemma GotoKeepsCoverage(w: World, id: nat, phase: Phase)
    requires Coverage(w) && id in w.workers
    requires WorkerCovers(w, w.workers[id].(phase := phase))
    ensures Coverage(Goto(w, id, phase))
  {
    var w' := Goto(w, id, phase);
    forall j | j in w'.workers ensures WorkerCovers(w', w'.workers[j]) {
      assert j != id ==> WorkerCovers(w, w.workers[j]);
      OnwardKeepsWorker(w, w', w'.workers[j]);
    }
    forall a | a in w'.marks ensures MarkCovers(w', a) {
      assert MarkCovers(w, a);
    }
  }

  lemma SearchLeavesNoGap(w: World, a: string, mark: Option<Uid>)
    requires a in w.inboxes && InboxOk(w.inboxes[a])
    requires mark.Some? ==> Covered(w, a, mark.value)
    ensures var uids := Uids(Batch(w.inboxes[a].items, mark));
      Below(uids, w.inboxes[a].nextUid) && NoGap(w, a, uids)
  {
    var items := w.inboxes[a].items;
    var batch := Batch(items, mark);
    BatchIsFromInbox(items, mark);
    forall x, u | x in items && u in Uids(batch) && x.uid <= u
      ensures x.uid in Uids(batch) || (a, x.uid) in w.settled
    {
      var y :| y in batch && y.uid == u;
      BatchHasNoGap(items, mark, x, y);
    }
  }

  lemma FetchLeavesNoGap(w: World, a: string, uids: set<Uid>)
    requires a in w.inboxes && InboxOk(w.inboxes[a])
    requires NoGap(w, a, uids)
    ensures var queue := Remaining(w.inboxes[a].items, uids);
      Ascending(queue) && Below(Uids(queue), w.inboxes[a].nextUid) && NoGap(w, a, Uids(queue))
  {
  }

  lemma UidsOfQueue(queue: seq<Item>)
    requires queue != [] && Ascending(queue)
    ensures Uids(queue) == {queue[0].uid} + Uids(queue[1..])
    ensures Ascending(queue[1..]) && forall u :: u in Uids(queue[1..]) ==> u > queue[0].uid
  {
    var head, rest := queue[0], queue[1..];
    assert queue == [head] + rest;
    forall y | y in rest ensures y.uid > head.uid {
      var j :| 0 <= j < |rest| && rest[j] == y;
      assert queue[j + 1] == y;
    }
    assert forall y :: y in queue <==> y == head || y in rest;
  }

  /** Saving the watermark is sound: nothing still present at or below it was skipped. */
  lemma HeadIsCovered(w: World, a: string, queue: seq<Item>)
    requires a in w.inboxes && queue != [] && Ascending(queue)
    requires NoGap(w, a, Uids(queue)) && (a, queue[0].uid) in w.settled
    ensures Covered(w, a, queue[0].uid) && NoGap(w, a, Uids(queue[1..]))
  {
    UidsOfQueue(queue);
    var head := queue[0].uid;
    assert head in Uids(queue);
    forall x | x in w.inboxes[a].items && x.uid <= head ensures (a, x.uid) in w.settled {
      assert x.uid in Uids(queue) || (a, x.uid) in w.settled;
    }
  }

  lemma SaveMarkKeepsCoverage(s: Setting, w: World, id: nat, now: int)
    requires Coverage(w) && id in w.workers
    requires w.workers[id].phase.Working? && w.workers[id].phase.stage.SaveMark? && w.workers[id].phase.queue != []
    ensures Coverage(Process(s, w, id, now))
  {
    var k := w.workers[id];
    var a, queue := k.address, k.phase.queue;
    assert WorkerCovers(w, k);
    HeadIsCovered(w, a, queue);
    UidsOfQueue(queue);
    var rest := queue[1..];
    GotoKeepsCoverage(w, id, After(rest));
    var v := Goto(w, id, After(rest));
    var w' := Process(s, w, id, now);
    forall j | j in w'.workers ensures WorkerCovers(w', w'.workers[j]) {
      assert WorkerCovers(v, v.workers[j]);
      OnwardKeepsWorker(v, w', v.workers[j]);
    }
    forall b | b in w'.marks ensures MarkCovers(w', b) {
      assert b != a ==> MarkCovers(w, b);
    }
  }

  lemma ProcessKeepsCoverage(s: Setting, w: World, id: nat, now: int)
    requires Coverage(w) && id in w.workers && w.workers[id].phase.Working? && w.workers[id].phase.queue != []
    ensures Coverage(Process(s, w, id, now))
  {
    var k := w.workers[id];
    assert WorkerCovers(w, k);
    if k.phase.stage.SaveMark? {
      SaveMarkKeepsCoverage(s, w, id, now);
    } else {
      var w' := Process(s, w, id, now);
      var v := w.(tables := w'.tables, settled := w'.settled);
      OnwardKeepsCoverage(w, v);
      assert WorkerCovers(v, k);
      GotoKeepsCoverage(v, id, w'.workers[id].phase);
      assert w' == Goto(v, id, w'.workers[id].phase);
    }
  }

  lemma AdvanceKeepsCoverage(s: Setting, w: World, id: nat, now: int)
    requires Coverage(w)
    ensures Coverage(Apply(s, w, Advance(id, now)))
  {
    if id in w.workers {
      var k := w.workers[id];
      var a := k.address;
      assert WorkerCovers(w, k);
      match k.phase {
        case Resting =>
          assert a in w.marks ==> MarkCovers(w, a);
          GotoKeepsCoverage(w, id, Search(LastSeen(s.codec, w.marks, a)));
        case Search(mark) =>
          SearchLeavesNoGap(w, a, mark);
          GotoKeepsCoverage(w, id, Fetch(Uids(Batch(w.inboxes[a].items, mark))));
        case Fetch(uids) =>
          FetchLeavesNoGap(w, a, uids);
          GotoKeepsCoverage(w, id, After(Remaining(w.inboxes[a].items, uids)));
        case Working(queue, stage) =>
          ProcessKeepsCoverage(s, w, id, now);
      }
    }
  }

  lemma ArriveKeepsCoverage(s: Setting, w: World, a: string, message: Message, date: Option<int>)
    requires Coverage(w)
    ensures Coverage(Apply(s, w, Arrive(a, message, date)))
  {
    OnwardKeepsCoverage(w, Apply(s, w, Arrive(a, message, date)));
  }

  lemma ExpungeKeepsCoverage(s: Setting, w: World, a: string, i: nat)
    requires Coverage(w)
    ensures Coverage(Apply(s, w, Expunge(a, i)))
  {
    OnwardKeepsCoverage(w, Apply(s, w, Expunge(a, i)));
  }

  lemma StartKeepsCoverage(s: Setting, w: World, id: nat, a: string)
    requires Coverage(w)
    ensures Coverage(Apply(s, w, Start(id, a)))
  {
    var w' := Apply(s, w, Start(id, a));
    if w' != w {
      forall j | j in w'.workers ensures WorkerCovers(w', w'.workers[j]) {
        if j != id {
          OnwardKeepsWorker(w, w', w.workers[j]);
        }
      }
      forall b | b in w'.marks ensures MarkCovers(w', b) {
        assert MarkCovers(w, b);
      }
    }
  }

  lemma SwallowKeepsCoverage(s: Setting, w: World, id: nat)
    requires Coverage(w)
    ensures Coverage(Apply(s, w, Swallow(id)))
  {
    var w' := Apply(s, w, Swallow(id));
    if w' != w {
      var v := w.(settled := w'.settled);
      assert WorkerCovers(w, w.workers[id]);
      OnwardKeepsCoverage(w, v);
      assert WorkerCovers(v, v.workers[id]);
      GotoKeepsCoverage(v, id, w'.workers[id].phase);
    }
  }

  lemma ApplyKeepsCoverage(s: Setting, w: World, e: Event)
    requires Coverage(w)
    ensures Coverage(Apply(s, w, e))
  {
    var w' := Apply(s, w, e);
    match e {
      case Advance(id, now) => AdvanceKeepsCoverage(s, w, id, now);
      case Arrive(a, message, date) => ArriveKeepsCoverage(s, w, a, message, date);
      case Expunge(a, i) => ExpungeKeepsCoverage(s, w, a, i);
      case Administer(_, _) => OnwardKeepsCoverage(w, w');
      case Consume(_, _) => OnwardKeepsCoverage(w, w');
      case Start(id, a) => StartKeepsCoverage(s, w, id, a);
      case Crash(id) =>
        if w' != w {
          assert WorkerCovers(w, w.workers[id]);
          GotoKeepsCoverage(w, id, Resting);
        }
      case FetchFails(id) =>
        if w' != w {
          assert WorkerCovers(w, w.workers[id]);
          GotoKeepsCoverage(w, id, Resting);
        }
      case Swallow(id) => SwallowKeepsCoverage(s, w, id);
    }
  }

  lemma {:induction false} RunKeepsCoverage(s: Setting, w: World, es: seq<Event>)
    requires Coverage(w)
    ensures Coverage(Run(s, w, es))
    decreases |es|
  {
    if es != [] {
      ApplyKeepsCoverage(s, w, es[0]);
      RunKeepsCoverage(s, Apply(s, w, es[0]), es[1..]);
    }
  }

  /** Watermark coverage: after any run of arrivals, expunges, administration, rounds by any workers,
      failures and crashes, every message still present at or below a stored watermark has been
      through a completed `_process_message`. */
  lemma WatermarkCoverage(s: Setting, w: World, es: seq<Event>, a: string, x: Item)
    requires Initial(w)
    ensures var w' := Run(s, w, es);
      a in w'.marks ==>
        && a in w'.inboxes
        && (x in w'.inboxes[a].items && x.uid <= w'.marks[a] ==> (a, x.uid) in w'.settled)
  {
    RunKeepsCoverage(s, w, es);
    assert a in Run(s, w, es).marks ==> MarkCovers(Run(s, w, es), a);
  }

  // ---- exactly-once storage -----------------------------------------------------------------

  /** The notice is about a stored row, on the channel of that row's tenant. */
  ghost predicate Names(codes: Codes, n: Notice) {
    exists i :: 0 <= i < |codes.rows| && NamesRow(codes.rows[i], n)
  }

  ghost predicate NamesRow(row: CodeRow, n: Notice) {
    row.id == n.codeId && row.content.tenant == n.channel && row.content.target == n.target
  }

  /** The notice a worker has yet to send for the row it inserted. */
  ghost function Owed(k: Worker): Option<Notice> {
    if k.phase.Working? && (k.phase.stage.TouchMailbox? || k.phase.stage.SendNotice?)
    then Some(Notice(k.phase.stage.draft.tenant, k.phase.stage.id, k.phase.stage.draft.target)) else None
  }

  ghost predicate Apart(a: Option<Notice>, b: Option<Notice>) {
    a.Some? && b.Some? ==> a.value.codeId != b.value.codeId
  }

  /** Codes are valid; every notice, sent or owed, names a stored row, and no two the same one. */
  ghost predicate StoredOk(w: World) {
    var t := w.tables;
    && Valid(t.codes)
    && (forall i :: 0 <= i < |t.notices| ==> Names(t.codes, t.notices[i]))
    && (forall i, j :: 0 <= i < j < |t.notices| ==> t.notices[i].codeId != t.notices[j].codeId)
    && (forall id :: id in w.workers && Owed(w.workers[id]).Some? ==> Names(t.codes, Owed(w.workers[id]).value))
    && (forall id, i :: id in w.workers && 0 <= i < |t.notices| ==> Apart(Owed(w.workers[id]), Some(t.notices[i])))
    && (forall id, jd :: id in w.workers && jd in w.workers && id != jd ==> Apart(Owed(w.workers[id]), Owed(w.workers[jd])))
  }

  lemma NamesPersist(codes: Codes, codes': Codes, n: Notice)
    requires RowsPersist(codes.rows, codes'.rows) && Names(codes, n)
    ensures Names(codes', n)
  {
    var i :| 0 <= i < |codes.rows| && NamesRow(codes.rows[i], n);
    assert FactsOf(codes'.rows[i].content) == FactsOf(codes.rows[i].content);
    assert NamesRow(codes'.rows[i], n);
  }

  /** Ids in use are below the sequence, so the next insert names a fresh one. */
  lemma NamedIsOld(codes: Codes, n: Notice)
    requires Valid(codes) && Names(codes, n)
    ensures n.codeId < codes.nextId
  {
  }

  /** No notice appears, and no worker owes what it did not owe before. */
  lemma NothingNewOwed(w: World, w': World)
    requires StoredOk(w) && Valid(w'.tables.codes)
    requires RowsPersist(w.tables.codes.rows, w'.tables.codes.rows)
    requires w'.tables.notices == w.tables.notices
    requires forall id :: id in w'.workers ==>
      Owed(w'.workers[id]) == None || (id in w.workers && Owed(w'.workers[id]) == Owed(w.workers[id]))
    ensures StoredOk(w')
  {
    var codes, codes' := w.tables.codes, w'.tables.codes;
    forall i | 0 <= i < |w'.tables.notices| ensures Names(codes', w'.tables.notices[i]) {
      NamesPersist(codes, codes', w.tables.notices[i]);
    }
    forall id | id in w'.workers && Owed(w'.workers[id]).Some?
      ensures Names(codes', Owed(w'.workers[id]).value)
    {
      NamesPersist(codes, codes', Owed(w.workers[id]).value);
    }
  }

  /** A worker that owed nothing comes to owe a notice no other notice shares its row with. */
  lemma OweFresh(w: World, id: nat, phase: Phase, n: Notice)
    requires StoredOk(w) && id in w.workers && Owed(w.workers[id]) == None
    requires Owed(w.workers[id].(phase := phase)) == Some(n) && Names(w.tables.codes, n)
    requires forall i :: 0 <= i < |w.tables.notices| ==> w.tables.notices[i].codeId != n.codeId
    requires forall j :: j in w.workers ==> Apart(Owed(w.workers[j]), Some(n))
    ensures StoredOk(Goto(w, id, phase))
  {
    var w' := Goto(w, id, phase);
    forall j | j in w'.workers ensures Owed(w'.workers[j]) == if j == id then Some(n) else Owed(w.workers[j]) {
    }
  }

  /** A notice for the row the next INSERT would add shares its row with no notice sent or owed. */
  lemma NextRowIsFresh(w: World, n: Notice)
    requires StoredOk(w) && n.codeId == w.tables.codes.nextId
    ensures forall i :: 0 <= i < |w.tables.notices| ==> w.tables.notices[i].codeId != n.codeId
    ensures forall j :: j in w.workers ==> Apart(Owed(w.workers[j]), Some(n))
  {
    forall i | 0 <= i < |w.tables.notices| ensures w.tables.notices[i].codeId != n.codeId {
      NamedIsOld(w.tables.codes, w.tables.notices[i]);
    }
    forall j | j in w.workers && Owed(w.workers[j]).Some? ensures Owed(w.workers[j]).value.codeId != n.codeId {
      NamedIsOld(w.tables.codes, Owed(w.workers[j]).value);
    }
  }

  /** The codes after the INSERT, with the worker's business for the row set aside. */
  lemma TableAfterInsert(w: World, id: nat, draft: Draft)
    requires StoredOk(w) && id in w.workers
    ensures StoredOk(Goto(w.(tables := w.tables.(codes := Insert(w.tables.codes, draft, w.tables.tenants.Keys).0)), id, Resting))
  {
    var t := w.tables;
    var codes := Insert(t.codes, draft, t.tenants.Keys).0;
    InsertKeepsValid(t.codes, draft, t.tenants.Keys);
    NothingNewOwed(w, Goto(w.(tables := t.(codes := codes)), id, Resting));
  }

  lemma InsertKeepsStored(w: World, id: nat, draft: Draft, phase: Phase)
    requires StoredOk(w) && id in w.workers
    requires var (codes, inserted) := Insert(w.tables.codes, draft, w.tables.tenants.Keys);
      Owed(w.workers[id].(phase := phase))
      == if inserted.New? then Some(Notice(draft.tenant, inserted.id, draft.target)) else None
    ensures var (codes, inserted) := Insert(w.tables.codes, draft, w.tables.tenants.Keys);
      StoredOk(Goto(w.(tables := w.tables.(codes := codes)), id, phase))
  {
    var t := w.tables;
    var (codes, inserted) := Insert(t.codes, draft, t.tenants.Keys);
    var w1 := w.(tables := t.(codes := codes));
    var v := Goto(w1, id, Resting);
    TableAfterInsert(w, id, draft);
    GotoTwice(w1, id, Resting, phase);
    if inserted.New? {
      var n := Notice(draft.tenant, inserted.id, draft.target);
      assert NamesRow(codes.rows[|t.codes.rows|], n);
      NextRowIsFresh(w, n);
      OweFresh(v, id, phase, n);
    } else {
      NothingNewOwed(v, Goto(v, id, phase));
    }
  }

  /** A notice that names a row of its own may be sent. */
  lemma NoticeKeepsStored(w: World, n: Notice)
    requires StoredOk(w) && Names(w.tables.codes, n)
    requires forall i :: 0 <= i < |w.tables.notices| ==> w.tables.notices[i].codeId != n.codeId
    requires forall j :: j in w.workers ==> Apart(Owed(w.workers[j]), Some(n))
    ensures StoredOk(w.(tables := w.tables.(notices := w.tables.notices + [n])))
  {
  }

  lemma SendKeepsStored(w: World, id: nat, phase: Phase)
    requires StoredOk(w) && id in w.workers && Owed(w.workers[id]).Some?
    requires Owed(w.workers[id].(phase := phase)) == None
    ensures StoredOk(Goto(w.(tables := w.tables.(notices := w.tables.notices + [Owed(w.workers[id]).value])), id, phase))
  {
    var n := Owed(w.workers[id]).value;
    var v := Goto(w, id, phase);
    NothingNewOwed(w, v);
    forall i | 0 <= i < |w.tables.notices| ensures w.tables.notices[i].codeId != n.codeId {
      assert Apart(Owed(w.workers[id]), Some(w.tables.notices[i]));
    }
    forall j | j in v.workers ensures Apart(Owed(v.workers[j]), Some(n)) {
      assert j != id ==> Apart(Owed(w.workers[j]), Owed(w.workers[id]));
    }
    NoticeKeepsStored(v, n);
  }

  lemma ApplyPersists(s: Setting, w: World, e: Event)
    ensures RowsPersist(w.tables.codes.rows, Apply(s, w, e).tables.codes.rows)
  {
  }

  lemma PersistKeepsValid(codes: Codes, codes': Codes)
    requires Valid(codes) && RowsPersist(codes.rows, codes'.rows) && |codes'.rows| == |codes.rows|
    requires codes'.nextId == codes.nextId
    ensures Valid(codes')
  {
    forall i, j | 0 <= i < j < |codes.rows| ensures !SameKey(codes'.rows[i], codes'.rows[j]) {
      assert !SameKey(codes.rows[i], codes.rows[j]);
      assert FactsOf(codes'.rows[i].content) == FactsOf(codes.rows[i].content);
      assert FactsOf(codes'.rows[j].content) == FactsOf(codes.rows[j].content);
    }
  }

  lemma ProcessKeepsStored(s: Setting, w: World, id: nat, now: int)
    requires StoredOk(w) && id in w.workers && w.workers[id].phase.Working? && w.workers[id].phase.queue != []
    ensures StoredOk(Process(s, w, id, now))
  {
    var w' := Process(s, w, id, now);
    match w.workers[id].phase.stage {
      case InsertRow(d, draft) => InsertKeepsStored(w, id, draft, w'.workers[id].phase);
      case SendNotice(d, draft, row) => SendKeepsStored(w, id, w'.workers[id].phase);
      case _ => OtherStatementKeepsStored(s, w, id, now);
    }
  }

  lemma OtherStatementKeepsStored(s: Setting, w: World, id: nat, now: int)
    requires StoredOk(w) && id in w.workers && w.workers[id].phase.Working? && w.workers[id].phase.queue != []
    requires !w.workers[id].phase.stage.InsertRow? && !w.workers[id].phase.stage.SendNotice?
    ensures StoredOk(Process(s, w, id, now))
  {
    NothingNewOwed(w, Process(s, w, id, now));
  }

  lemma AdvanceKeepsStored(s: Setting, w: World, id: nat, now: int)
    requires StoredOk(w)
    ensures StoredOk(Apply(s, w, Advance(id, now)))
  {
    if id in w.workers && w.workers[id].address in w.inboxes {
      if w.workers[id].phase.Working? {
        if w.workers[id].phase.queue != [] {
          ProcessKeepsStored(s, w, id, now);
        }
      } else {
        NothingNewOwed(w, Apply(s, w, Advance(id, now)));
      }
    }
  }

  /** Deleting mailboxes clears source columns, consuming fills consumption columns; neither touches
      a key or a notice. */
  lemma TableUpkeepKeepsStored(s: Setting, w: World, e: Event)
    requires StoredOk(w) && (e.Administer? || e.Consume?)
    ensures StoredOk(Apply(s, w, e))
  {
    var w' := Apply(s, w, e);
    ApplyPersists(s, w, e);
    PersistKeepsValid(w.tables.codes, w'.tables.codes);
    NothingNewOwed(w, w');
  }

  /** Events that touch no table and end no more than a worker's business owe nothing new. */
  lemma BystanderKeepsStored(s: Setting, w: World, e: Event)
    requires StoredOk(w) && !e.Administer? && !e.Consume? && !e.Advance?
    ensures StoredOk(Apply(s, w, e))
  {
    NothingNewOwed(w, Apply(s, w, e));
  }

  lemma ApplyKeepsStored(s: Setting, w: World, e: Event)
    requires StoredOk(w)
    ensures StoredOk(Apply(s, w, e))
  {
    if e.Advance? {
      AdvanceKeepsStored(s, w, e.worker, e.now);
    } else if e.Administer? || e.Consume? {
      TableUpkeepKeepsStored(s, w, e);
    } else {
      BystanderKeepsStored(s, w, e);
    }
  }

  lemma {:induction false} RunKeepsStored(s: Setting, w: World, es: seq<Event>)
    requires StoredOk(w)
    ensures StoredOk(Run(s, w, es)) && RowsPersist(w.tables.codes.rows, Run(s, w, es).tables.codes.rows)
    decreases |es|
  {
    if es != [] {
      var w1 := Apply(s, w, es[0]);
      ApplyPersists(s, w, es[0]);
      ApplyKeepsStored(s, w, es[0]);
      RunKeepsStored(s, w1, es[1..]);
    }
  }

  /** Exactly-once storage: after any run no two rows share a non-null (target, Message-ID), and
      every notice ever sent names a stored row of its own, with that row's tenant as the channel. */
  lemma StoredAtMostOnce(s: Setting, w: World, es: seq<Event>)
    requires Initial(w)
    ensures var t := Run(s, w, es).tables;
      && UniqueKeys(t.codes.rows)
      && (forall i, j :: 0 <= i < j < |t.codes.rows| ==> t.codes.rows[i].id != t.codes.rows[j].id)
      && (forall i, j :: 0 <= i < j < |t.notices| ==> t.notices[i].codeId != t.notices[j].codeId)
      && (forall i :: 0 <= i < |t.notices| ==> Names(t.codes, t.notices[i]))
  {
    RunKeepsStored(s, w, es);
  }

  ghost predicate AboutToInsert(w: World, id: nat, draft: Draft) {
    && id in w.workers && w.workers[id].phase.Working? && w.workers[id].phase.stage.InsertRow?
    && w.workers[id].phase.stage.draft == draft
  }

  /** A worker about to insert, whose source mailbox exists, completes: from then on, whatever else
      happens, its (target, Message-ID) is on exactly one row. */
  lemma StoredExactlyOnceAfterInsert(
    s: Setting, w: World, es: seq<Event>, id: nat, draft: Draft, now: int, later: seq<Event>)
    requires Initial(w) && AboutToInsert(Run(s, w, es), id, draft)
    requires draft.messageId.Some? && draft.source.Some?
    requires draft.source.value in Run(s, w, es).tables.tenants
    ensures var w2 := Run(s, Apply(s, Run(s, w, es), Advance(id, now)), later);
      ExactlyOne(w2.tables.codes.rows, draft.target, draft.messageId)
  {
    RunKeepsStored(s, w, es);
    RunKeepsCoverage(s, w, es);
    var w1 := Run(s, w, es);
    assert WorkerCovers(w1, w1.workers[id]);
    var w1' := Apply(s, w1, Advance(id, now));
    assert w1'.tables.codes == Insert(w1.tables.codes, draft, w1.tables.tenants.Keys).0;
    InsertLeavesExactlyOne(w1.tables.codes, draft, w1.tables.tenants.Keys);
    ApplyKeepsStored(s, w1, Advance(id, now));
    RunKeepsStored(s, w1', later);
    OneRowPersists(w1'.tables.codes.rows, Run(s, w1', later).tables.codes, draft.target, draft.messageId);
  }

  // ---- the steps add up to the procedure ------------------------------------------------------

  /** Only worker `id` moves. */
  ghost predicate Solo(es: seq<Event>, id: nat, now: int) {
    forall i :: 0 <= i < |es| ==> es[i] == Advance(id, now)
  }

  function Advances(id: nat, now: int, n: nat): seq<Event> {
    seq(n, _ => Advance(id, now))
  }

  /** Undisturbed, the statements from the tenant lookup on amount to one call of
      `process_and_store`, whatever branch it takes. */
  lemma StatementsAreDeliver(s: Setting, w: World, id: nat, now: int) returns (n: nat)
    requires id in w.workers && w.workers[id].address in w.inboxes && w.workers[id].phase.Working?
    requires w.workers[id].phase.queue != [] && w.workers[id].phase.stage.SelectTarget?
    ensures n <= 6
    ensures var w' := Run(s, w, Advances(id, now, n));
      && w'.tables == Deliver(s.re, w.tables, w.workers[id].phase.stage.d).0
      && w'.workers == w.workers[id := w.workers[id].(phase := Working(w.workers[id].phase.queue, SaveMark))]
      && w'.marks == w.marks && w'.inboxes == w.inboxes
      && w'.settled == w.settled + {(w.workers[id].address, w.workers[id].phase.queue[0].uid)}
  {
    n := 0;
    var v := w;
    assert Run(s, w, []) == w;
    var bound := 6;
    while !v.workers[id].phase.stage.SaveMark?
      invariant n + bound == 6 && bound >= 0
      invariant Run(s, w, Advances(id, now, n)) == v
      invariant Midway(s, w, v, id, bound)
      decreases bound
    {
      RunAppend(s, w, Advances(id, now, n), Advance(id, now));
      assert Advances(id, now, n + 1) == Advances(id, now, n) + [Advance(id, now)];
      MidwayStep(s, w, v, id, bound, now);
      v := Apply(s, v, Advance(id, now));
      n, bound := n + 1, bound - 1;
    }
  }

  lemma {:induction false} RunAppend(s: Setting, w: World, es: seq<Event>, e: Event)
    ensures Run(s, w, es + [e]) == Apply(s, Run(s, w, es), e)
    decreases |es|
  {
    if es == [] {
      assert [e][1..] == [];
      assert es + [e] == [e];
      assert Run(s, Apply(s, w, e), []) == Apply(s, w, e);
    } else {
      assert (es + [e])[1..] == es[1..] + [e];
      RunAppend(s, Apply(s, w, es[0]), es[1..], e);
    }
  }

  /** Where an undisturbed call stands, measured against what the whole call will do. */
  ghost predicate Midway(s: Setting, w: World, v: World, id: nat, left: int)
    requires id in w.workers && w.workers[id].phase.Working? && w.workers[id].phase.stage.SelectTarget?
    requires w.workers[id].phase.queue != []
  {
    var d := w.workers[id].phase.stage.d;
    var t := w.tables;
    && id in v.workers && v.workers[id].phase.Working?
    && v.workers == w.workers[id := w.workers[id].(phase := Working(w.workers[id].phase.queue, v.workers[id].phase.stage))]
    && v.marks == w.marks && v.inboxes == w.inboxes
    && v.settled == (if v.workers[id].phase.stage.SaveMark?
                     then w.settled + {(w.workers[id].address, w.workers[id].phase.queue[0].uid)} else w.settled)
    && match v.workers[id].phase.stage
       case SelectTarget(e) => left == 6 && e == d && v == w
       case SelectSource(e, target) =>
         left == 5 && e == d && v.tables == t && d.message.recipient != ""
         && target == TenantOf(t.tenants, d.message.recipient)
       case SelectPatterns(e, tenant) =>
         left == 4 && e == d && v.tables == t && d.message.recipient != ""
         && Owner(TenantOf(t.tenants, d.message.recipient), TenantOf(t.tenants, d.source)) == Some(tenant)
       case InsertRow(e, draft) => left == 3 && e == d && v.tables == t && Wanted(s.re, t, d) == Some(draft)
       case TouchMailbox(e, draft, row) =>
         left == 2 && e == d && Wanted(s.re, t, d) == Some(draft)
         && Insert(t.codes, draft, t.tenants.Keys) == (v.tables.codes, New(row))
         && v.tables == t.(codes := v.tables.codes)
       case SendNotice(e, draft, row) =>
         left == 1 && e == d && Wanted(s.re, t, d) == Some(draft)
         && Insert(t.codes, draft, t.tenants.Keys) == (v.tables.codes, New(row))
         && v.tables == Stamp(t.(codes := v.tables.codes), draft.target, d.now)
       case SaveMark => v.tables == Deliver(s.re, t, d).0
       case Begin => false
  }

  lemma MidwayStep(s: Setting, w: World, v: World, id: nat, left: int, now: int)
    requires id in w.workers && w.workers[id].address in w.inboxes && w.workers[id].phase.Working?
    requires w.workers[id].phase.queue != [] && w.workers[id].phase.stage.SelectTarget?
    requires Midway(s, w, v, id, left) && !v.workers[id].phase.stage.SaveMark?
    ensures left > 0 && Midway(s, w, Apply(s, v, Advance(id, now)), id, left - 1)
  {
  }

  lemma {:induction false} RunConcat(s: Setting, w: World, es: seq<Event>, fs: seq<Event>)
    ensures Run(s, w, es + fs) == Run(s, Run(s, w, es), fs)
    decreases |es|
  {
    if es == [] {
      assert es + fs == fs;
    } else {
      assert (es + fs)[1..] == es[1..] + fs;
      RunConcat(s, Apply(s, w, es[0]), es[1..], fs);
    }
  }

  lemma {:induction false} AscendingIsItsElements(p: seq<Item>, q: seq<Item>)
    requires Ascending(p) && Ascending(q)
    requires forall x :: x in p <==> x in q
    ensures p == q
    decreases |p|
  {
    if p == [] {
      assert forall i :: 0 <= i < |q| ==> q[i] in q;
    } else {
      assert p[0] in p && p[0] in q && q[0] in q && q[0] in p;
      SplitAscending(p);
      SplitAscending(q);
      AscendingIsItsElements(p[1..], q[1..]);
    }
  }

  lemma SplitAscending(p: seq<Item>)
    requires p != [] && Ascending(p)
    ensures Ascending(p[1..])
    ensures forall x :: x in p[1..] <==> x in p && x != p[0]
    ensures forall x :: x in p ==> p[0].uid <= x.uid
  {
    assert p == [p[0]] + p[1..];
    forall x | x in p[1..] ensures x.uid > p[0].uid {
      var j :| 0 <= j < |p[1..]| && p[1..][j] == x;
      assert p[j + 1] == x;
    }
  }

  /** Nothing is lost between search and fetch when nothing is expunged in between. */
  lemma FetchedIsSearched(items: seq<Item>, mark: Option<Uid>)
    requires Ascending(items)
    ensures Remaining(items, Uids(Batch(items, mark))) == Batch(items, mark)
  {
    var batch := Batch(items, mark);
    var got := Remaining(items, Uids(batch));
    forall x | x in got ensures x in batch {
      var y :| y in batch && y.uid == x.uid;
      BatchHasNoGap(items, mark, x, y);
      OneItemPerUid(items, x, y);
    }
    forall x | x in batch ensures x in got {
      BatchHasNoGap(items, mark, x, x);
    }
    BatchAscends(items, mark);
    AscendingIsItsElements(got, batch);
  }

  lemma OneItemPerUid(items: seq<Item>, x: Item, y: Item)
    requires Ascending(items) && x in items && y in items && x.uid == y.uid
    ensures x == y
  {
    var i :| 0 <= i < |items| && items[i] == x;
    var j :| 0 <= j < |items| && items[j] == y;
  }

  /** The world after a worker has worked off a queue with nobody else moving. */
  ghost function WorkedOff(s: Setting, w: World, id: nat, queue: seq<Item>, now: int): World
    requires id in w.workers
  {
    var a := w.workers[id].address;
    Goto(w.(tables := DeliverAll(s.re, w.tables, ToDeliveries(a, queue, s.uidText, now)),
            marks := MarkAfter(queue, w.marks, a),
            settled := w.settled + set x | x in queue :: (a, x.uid)),
         id, Resting)
  }

  /** The first message of the queue, worked off with nobody else moving. */
  lemma MessageIsDeliver(s: Setting, w: World, id: nat, now: int) returns (es: seq<Event>)
    requires id in w.workers && w.workers[id].address in w.inboxes
    requires w.workers[id].phase.Working? && w.workers[id].phase.queue != [] && w.workers[id].phase.stage.Begin?
    ensures Solo(es, id, now)
    ensures var a, queue := w.workers[id].address, w.workers[id].phase.queue;
      Run(s, w, es) == w.(tables := Deliver(s.re, w.tables, ToDelivery(a, queue[0], s.uidText, now)).0,
                          marks := w.marks[a := queue[0].uid],
                          settled := w.settled + {(a, queue[0].uid)},
                          workers := w.workers[id := Worker(a, After(queue[1..]))])
  {
    var step := Advance(id, now);
    var w1 := Apply(s, w, step);
    var n := StatementsAreDeliver(s, w1, id, now);
    var w2 := Run(s, w1, Advances(id, now, n));
    es := [step] + (Advances(id, now, n) + [step]);
    assert Run(s, w, es) == Apply(s, w2, step) by {
      assert es[1..] == Advances(id, now, n) + [step];
      RunAppend(s, w1, Advances(id, now, n), step);
    }
  }

  lemma {:induction false} QueueIsDeliverAll(s: Setting, w: World, id: nat, now: int) returns (es: seq<Event>)
    requires id in w.workers && w.workers[id].address in w.inboxes
    requires w.workers[id].phase.Working? && w.workers[id].phase.queue != [] && w.workers[id].phase.stage.Begin?
    ensures Solo(es, id, now)
    ensures Run(s, w, es) == WorkedOff(s, w, id, w.workers[id].phase.queue, now)
    decreases |w.workers[id].phase.queue|
  {
    var a, queue := w.workers[id].address, w.workers[id].phase.queue;
    var head, rest := queue[0], queue[1..];
    es := MessageIsDeliver(s, w, id, now);
    var w3 := Run(s, w, es);
    if rest == [] {
      assert queue == [head];
      DeliveriesSplit(s, w.tables, a, queue, now);
      assert ToDeliveries(a, rest, s.uidText, now) == [];
      assert (set x | x in queue :: (a, x.uid)) == {(a, head.uid)};
    } else {
      var more := QueueIsDeliverAll(s, w3, id, now);
      RunConcat(s, w, es, more);
      es := es + more;
      WorkedOffSplits(s, w, w3, id, queue, now);
    }
  }

  lemma WorkedOffSplits(s: Setting, w: World, v: World, id: nat, queue: seq<Item>, now: int)
    requires id in w.workers && |queue| > 1
    requires var a := w.workers[id].address;
      v == w.(tables := Deliver(s.re, w.tables, ToDelivery(a, queue[0], s.uidText, now)).0,
              marks := w.marks[a := queue[0].uid],
              settled := w.settled + {(a, queue[0].uid)},
              workers := w.workers[id := Worker(a, Working(queue[1..], Begin))])
    ensures WorkedOff(s, v, id, queue[1..], now) == WorkedOff(s, w, id, queue, now)
  {
    var a := w.workers[id].address;
    DeliveriesSplit(s, w.tables, a, queue, now);
    KeysSplit(w.settled, a, queue);
    MarksSplit(w.marks, a, queue);
    Overwritten(w.workers, id, Worker(a, Working(queue[1..], Begin)), Worker(a, Resting));
  }

  lemma MarksSplit(marks: map<string, nat>, a: string, queue: seq<Item>)
    requires |queue| > 1
    ensures MarkAfter(queue[1..], marks[a := queue[0].uid], a) == MarkAfter(queue, marks, a)
  {
  }

  lemma DeliveriesSplit(s: Setting, t: Tables, a: string, queue: seq<Item>, now: int)
    requires queue != []
    ensures DeliverAll(s.re, t, ToDeliveries(a, queue, s.uidText, now))
      == DeliverAll(s.re, Deliver(s.re, t, ToDelivery(a, queue[0], s.uidText, now)).0,
                    ToDeliveries(a, queue[1..], s.uidText, now))
  {
    assert ToDeliveries(a, queue, s.uidText, now)[1..] == ToDeliveries(a, queue[1..], s.uidText, now);
  }

  lemma KeysSplit(settled: set<(string, Uid)>, a: string, queue: seq<Item>)
    requires queue != []
    ensures settled + (set x | x in queue :: (a, x.uid))
         == settled + {(a, queue[0].uid)} + (set x | x in queue[1..] :: (a, x.uid))
  {
    assert queue == [queue[0]] + queue[1..];
  }

  /** An undisturbed round of a worker in the step system is one `_fetch_backlog`: it hands over the
      batch, stores what `process_and_store` stores for it, and saves the batch's last UID. */
  lemma RoundIsBacklog(s: Setting, w: World, id: nat, now: int) returns (es: seq<Event>)
    requires id in w.workers && w.workers[id].address in w.inboxes && w.workers[id].phase == Resting
    requires InboxOk(w.inboxes[w.workers[id].address])
    ensures Solo(es, id, now) && es != []
    ensures var a := w.workers[id].address;
      Run(s, w, es) == WorkedOff(s, w, id, Batch(w.inboxes[a].items, LastSeen(s.codec, w.marks, a)), now)
  {
    var a := w.workers[id].address;
    var batch := Batch(w.inboxes[a].items, LastSeen(s.codec, w.marks, a));
    var step := Advance(id, now);
    es := [step] + [step] + [step];
    var w3 := Run(s, w, es);
    SearchAndFetch(s, w, id, now);
    if batch == [] {
      NothingToWorkOff(s, w, id, now);
    } else {
      var more := QueueIsDeliverAll(s, w3, id, now);
      RunConcat(s, w, es, more);
      es := es + more;
      Overwritten(w.workers, id, Worker(a, After(batch)), Worker(a, Resting));
    }
  }

  lemma NothingToWorkOff(s: Setting, w: World, id: nat, now: int)
    requires id in w.workers
    ensures WorkedOff(s, w, id, [], now) == Goto(w, id, Resting)
  {
    var a := w.workers[id].address;
    assert ToDeliveries(a, [], s.uidText, now) == [];
    assert w.settled + (set x: Item | x in [] :: (a, x.uid)) == w.settled;
  }

  lemma SearchAndFetch(s: Setting, w: World, id: nat, now: int)
    requires id in w.workers && w.workers[id].address in w.inboxes && w.workers[id].phase == Resting
    requires InboxOk(w.inboxes[w.workers[id].address])
    ensures var a := w.workers[id].address;
      var step := Advance(id, now);
      Run(s, w, [step] + [step] + [step])
      == Goto(w, id, After(Batch(w.inboxes[a].items, LastSeen(s.codec, w.marks, a))))
  {
    var a := w.workers[id].address;
    var items, mark := w.inboxes[a].items, LastSeen(s.codec, w.marks, a);
    var step := Advance(id, now);
    var w1, w2 := Goto(w, id, Search(mark)), Goto(w, id, Fetch(Uids(Batch(items, mark))));
    var w3 := Goto(w, id, After(Batch(items, mark)));
    assert Apply(s, w, step) == w1;
    assert Apply(s, w1, step) == w2 by { GotoTwice(w, id, Search(mark), w2.workers[id].phase); }
    assert Apply(s, w2, step) == w3 by {
      FetchedIsSearched(items, mark);
      GotoTwice(w, id, w2.workers[id].phase, w3.workers[id].phase);
    }
    ThreeSteps(s, w, step);
  }

  lemma GotoTwice(w: World, id: nat, first: Phase, second: Phase)
    requires id in w.workers
    ensures Goto(Goto(w, id, first), id, second) == Goto(w, id, second)
  {
    Overwritten(w.workers, id, w.workers[id].(phase := first), w.workers[id].(phase := second));
  }

  lemma Overwritten(workers: map<nat, Worker>, id: nat, first: Worker, second: Worker)
    ensures workers[id := first][id := second] == workers[id := second]
  {
  }

  lemma ThreeSteps(s: Setting, w: World, e: Event)
    ensures Run(s, w, [e] + [e] + [e]) == Apply(s, Apply(s, Apply(s, w, e), e), e)
  {
    RunAppend(s, w, [], e);
    assert [] + [e] == [e];
    RunAppend(s, w, [e], e);
    RunAppend(s, w, [e] + [e], e);
  }
}
