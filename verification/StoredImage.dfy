/** Coverage and exactly-once storage put together: the stored codes are the image of the mail, over
    every run in which nobody edits mailboxes or patterns. */
module StoredImage {
  import opened Common
  import opened CodeTable
  import opened CodeWriter
  import opened Backlog
  import opened Drain
  import opened Ingestion
  import Extractor

  /** Mailboxes and patterns stay as they are. */
  ghost predicate FixedRules(es: seq<Event>) {
    forall i :: 0 <= i < |es| ==> !es[i].Administer?
  }

  /** Messages by mailbox and UID. */
  type Messages = set<(string, Uid)>

  predicate PastInsert(stage: Stage) {
    stage.TouchMailbox? || stage.SendNotice? || stage.SaveMark?
  }

  /** The message a swallowed exception costs its call: the one in hand, if the INSERT was still to
      come. */
  function LostBy(w: World, e: Event): Messages {
    if e.Swallow? && e.worker in w.workers && w.workers[e.worker].phase.Working?
       && w.workers[e.worker].phase.queue != [] && !PastInsert(w.workers[e.worker].phase.stage)
    then {(w.workers[e.worker].address, w.workers[e.worker].phase.queue[0].uid)}
    else {}
  }

  /** The messages that some call lost along a run. */
  function Lost(s: Setting, w: World, es: seq<Event>): Messages
    decreases |es|
  {
    if es == [] then {} else LostBy(w, es[0]) + Lost(s, Apply(s, w, es[0]), es[1..])
  }

  /** The delivery a worker of mailbox `a` makes of message `x`, at whatever time. */
  function About(s: Setting, a: string, x: Item): Delivery {
    ToDelivery(a, x, s.uidText, 0)
  }

  ghost predicate Done(s: Setting, rules: Tables, codes: Codes, a: string, x: Item) {
    Answered(s.re, rules, About(s, a, x), codes)
  }

  // ---- what is settled is stored -----------------------------------------------------------

  ghost predicate OfMessage(d: Delivery, a: string, x: Item) {
    d.source == a && d.message == x.message
  }

  /** What a worker has found out so far is what the rules say. */
  ghost predicate Knows(s: Setting, rules: Tables, a: string, x: Item, stage: Stage) {
    match stage
    case SelectTarget(d) => OfMessage(d, a, x)
    case SelectSource(d, target) =>
      && OfMessage(d, a, x) && d.message.recipient != ""
      && target == TenantOf(rules.tenants, d.message.recipient)
    case SelectPatterns(d, tenant) =>
      && OfMessage(d, a, x) && d.message.recipient != ""
      && Owner(TenantOf(rules.tenants, d.message.recipient), TenantOf(rules.tenants, a)) == Some(tenant)
    case InsertRow(d, draft) => OfMessage(d, a, x) && Wanted(s.re, rules, d) == Some(draft)
    case _ => true
  }

  ghost predicate StageOk(s: Setting, rules: Tables, lost: Messages, codes: Codes, a: string, x: Item, stage: Stage) {
    Knows(s, rules, a, x, stage) && (PastInsert(stage) ==> (a, x.uid) in lost || Done(s, rules, codes, a, x))
  }

  lemma KnowsStep(s: Setting, rules: Tables, t: Tables, a: string, x: Item, now: int, stage: Stage)
    requires SameRules(rules, t) && Knows(s, rules, a, x, stage)
    ensures Knows(s, rules, a, x, StageAfter(s, t, a, x, now, stage))
  {
  }

  /** A call that ends before the INSERT was right to: the message yields nothing. */
  lemma NothingToInsert(s: Setting, rules: Tables, t: Tables, a: string, x: Item, now: int, stage: Stage)
    requires SameRules(rules, t) && Knows(s, rules, a, x, stage)
    requires !PastInsert(stage) && !stage.InsertRow? && StageAfter(s, t, a, x, now, stage).SaveMark?
    ensures Done(s, rules, t.codes, a, x)
  {
    var d := if stage.SelectTarget? || stage.SelectSource? || stage.SelectPatterns? then stage.d else About(s, a, x);
    AnsweredAlike(s.re, rules, d, About(s, a, x), t.codes);
  }

  lemma StageStep(s: Setting, rules: Tables, lost: Messages, t: Tables, a: string, x: Item, now: int, stage: Stage)
    requires SameRules(rules, t) && Valid(t.codes)
    requires StageOk(s, rules, lost, t.codes, a, x, stage)
    ensures StageOk(s, rules, lost, TablesAfter(t, stage).codes, a, x, StageAfter(s, t, a, x, now, stage))
  {
    KnowsStep(s, rules, t, a, x, now, stage);
    if stage.InsertRow? {
      assert Wanted(s.re, t, stage.d) == Wanted(s.re, rules, stage.d);
      InsertAnswers(s.re, t, stage.d);
      AnsweredUnderSameRules(s.re, rules, t, stage.d, TablesAfter(t, stage).codes);
      AnsweredAlike(s.re, rules, stage.d, About(s, a, x), TablesAfter(t, stage).codes);
    } else if !PastInsert(stage) && StageAfter(s, t, a, x, now, stage).SaveMark? {
      NothingToInsert(s, rules, t, a, x, now, stage);
    }
  }

  lemma AnsweredUnderSameRules(re: Extractor.Engine, rules: Tables, t: Tables, d: Delivery, codes: Codes)
    requires SameRules(rules, t) && Answered(re, t, d, codes)
    ensures Answered(re, rules, d, codes)
  {
    assert Yield(re, t, d) == Yield(re, rules, d);
  }

  lemma StagePersists(s: Setting, rules: Tables, lost: Messages, codes: Codes, codes': Codes, a: string, x: Item, stage: Stage)
    requires RowsPersist(codes.rows, codes'.rows) && Valid(codes')
    requires StageOk(s, rules, lost, codes, a, x, stage)
    ensures StageOk(s, rules, lost, codes', a, x, stage)
  {
    if PastInsert(stage) && (a, x.uid) !in lost {
      AnsweredPersists(s.re, rules, About(s, a, x), codes, codes');
    }
  }

  /** A queue holds messages as the inbox holds them: a UID names one message for good. */
  ghost predicate QueueOk(w: World, a: string, queue: seq<Item>)
    requires a in w.inboxes
  {
    && (forall y :: y in queue ==> y.uid < w.inboxes[a].nextUid)
    && forall x, y :: x in w.inboxes[a].items && y in queue && x.uid == y.uid ==> x == y
  }

  ghost predicate OnTrack(s: Setting, rules: Tables, lost: Messages, w: World, k: Worker) {
    k.phase.Working? ==>
      && k.address in w.inboxes && k.phase.queue != [] && QueueOk(w, k.address, k.phase.queue)
      && StageOk(s, rules, lost, w.tables.codes, k.address, k.phase.queue[0], k.phase.stage)
  }

  /** The message was assigned its UID, and if it is still present and was not lost it has its row. */
  ghost predicate SettledOk(s: Setting, rules: Tables, lost: Messages, w: World, a: string, u: Uid) {
    && a in w.inboxes && u < w.inboxes[a].nextUid
    && ((a, u) !in lost ==>
          forall x :: x in w.inboxes[a].items && x.uid == u ==> Done(s, rules, w.tables.codes, a, x))
  }

  ghost predicate Mirrors(s: Setting, rules: Tables, lost: Messages, w: World) {
    && SameRules(rules, w.tables)
    && (forall a, u :: (a, u) in w.settled ==> SettledOk(s, rules, lost, w, a, u))
    && (forall id :: id in w.workers ==> OnTrack(s, rules, lost, w, w.workers[id]))
  }

  lemma OnTrackPersists(s: Setting, rules: Tables, lost: Messages, w: World, w': World, k: Worker)
    requires Onward(w, w') && RowsPersist(w.tables.codes.rows, w'.tables.codes.rows) && Valid(w'.tables.codes)
    requires OnTrack(s, rules, lost, w, k)
    ensures OnTrack(s, rules, lost, w', k)
  {
    if k.phase.Working? {
      StagePersists(s, rules, lost, w.tables.codes, w'.tables.codes, k.address, k.phase.queue[0], k.phase.stage);
    }
  }

  lemma SettledPersists(s: Setting, rules: Tables, lost: Messages, w: World, w': World, a: string, u: Uid)
    requires Onward(w, w') && RowsPersist(w.tables.codes.rows, w'.tables.codes.rows) && Valid(w'.tables.codes)
    requires SettledOk(s, rules, lost, w, a, u)
    ensures SettledOk(s, rules, lost, w', a, u)
  {
    forall x | x in w'.inboxes[a].items && x.uid == u && (a, u) !in lost
      ensures Done(s, rules, w'.tables.codes, a, x)
    {
      AnsweredPersists(s.re, rules, About(s, a, x), w.tables.codes, w'.tables.codes);
    }
  }

  /** Any step mirrors on, provided one worker's new place and one newly settled message are right. */
  lemma StepMirrors(s: Setting, rules: Tables, lost: Messages, w: World, w': World, k: nat, a: string, u: Uid)
    requires Mirrors(s, rules, lost, w) && Onward(w, w') && SameRules(rules, w'.tables)
    requires RowsPersist(w.tables.codes.rows, w'.tables.codes.rows) && Valid(w'.tables.codes)
    requires forall id :: id in w'.workers && id != k ==> id in w.workers && w'.workers[id] == w.workers[id]
    requires k in w'.workers ==> (k in w.workers && w'.workers[k] == w.workers[k]) || OnTrack(s, rules, lost, w', w'.workers[k])
    requires w'.settled <= w.settled + {(a, u)}
    requires (a, u) in w'.settled && (a, u) !in w.settled ==> SettledOk(s, rules, lost, w', a, u)
    ensures Mirrors(s, rules, lost, w')
  {
    forall b, v | (b, v) in w'.settled ensures SettledOk(s, rules, lost, w', b, v) {
      if (b, v) in w.settled {
        SettledPersists(s, rules, lost, w, w', b, v);
      }
    }
    forall id | id in w'.workers ensures OnTrack(s, rules, lost, w', w'.workers[id]) {
      if id in w.workers && w'.workers[id] == w.workers[id] {
        OnTrackPersists(s, rules, lost, w, w', w.workers[id]);
      }
    }
  }

  lemma SaveMarkMirrors(s: Setting, rules: Tables, lost: Messages, w: World, id: nat, now: int)
    requires Mirrors(s, rules, lost, w) && StoredOk(w) && id in w.workers
    requires w.workers[id].phase.Working? && w.workers[id].phase.stage.SaveMark? && w.workers[id].phase.queue != []
    ensures Mirrors(s, rules, lost, Process(s, w, id, now))
  {
    var queue := w.workers[id].phase.queue;
    assert OnTrack(s, rules, lost, w, w.workers[id]);
    assert forall y :: y in queue[1..] ==> y in queue;
    StepMirrors(s, rules, lost, w, Process(s, w, id, now), id, "", 1);
  }

  lemma StatementMirrors(s: Setting, rules: Tables, lost: Messages, w: World, id: nat, now: int)
    requires Mirrors(s, rules, lost, w) && StoredOk(w) && id in w.workers
    requires w.workers[id].phase.Working? && !w.workers[id].phase.stage.SaveMark? && w.workers[id].phase.queue != []
    ensures Mirrors(s, rules, lost, Process(s, w, id, now))
  {
    var k := w.workers[id];
    var a, x := k.address, k.phase.queue[0];
    var w' := Process(s, w, id, now);
    assert OnTrack(s, rules, lost, w, k);
    assert x in k.phase.queue;
    StageStep(s, rules, lost, w.tables, a, x, now, k.phase.stage);
    ProcessKeepsStored(s, w, id, now);
    StatementPersists(w.tables, k.phase.stage);
    StepMirrors(s, rules, lost, w, w', id, a, x.uid);
  }

  lemma StatementPersists(t: Tables, stage: Stage)
    ensures RowsPersist(t.codes.rows, TablesAfter(t, stage).codes.rows)
    ensures SameRules(t, TablesAfter(t, stage))
  {
  }

  lemma FetchedQueueOk(w: World, a: string, uids: set<Uid>)
    requires a in w.inboxes && InboxOk(w.inboxes[a])
    ensures QueueOk(w, a, Remaining(w.inboxes[a].items, uids))
  {
    var items := w.inboxes[a].items;
    var queue := Remaining(items, uids);
    forall x, y | x in items && y in queue && x.uid == y.uid ensures x == y {
      OneItemPerUid(items, x, y);
    }
  }

  lemma FetchMirrors(s: Setting, rules: Tables, lost: Messages, w: World, id: nat, now: int)
    requires Mirrors(s, rules, lost, w) && Coverage(w)
    requires id in w.workers && w.workers[id].address in w.inboxes && w.workers[id].phase.Fetch?
    ensures Mirrors(s, rules, lost, Apply(s, w, Advance(id, now)))
  {
    var a, uids := w.workers[id].address, w.workers[id].phase.uids;
    FetchedQueueOk(w, a, uids);
    WorkerMirrors(s, rules, lost, w, id, w.workers[id].(phase := After(Remaining(w.inboxes[a].items, uids))));
  }

  lemma AdvanceMirrors(s: Setting, rules: Tables, lost: Messages, w: World, id: nat, now: int)
    requires Mirrors(s, rules, lost, w) && Coverage(w) && StoredOk(w)
    ensures Mirrors(s, rules, lost, Apply(s, w, Advance(id, now)))
  {
    if id in w.workers && w.workers[id].address in w.inboxes {
      match w.workers[id].phase {
        case Resting => WorkerMirrors(s, rules, lost, w, id, Apply(s, w, Advance(id, now)).workers[id]);
        case Search(_) => WorkerMirrors(s, rules, lost, w, id, Apply(s, w, Advance(id, now)).workers[id]);
        case Fetch(_) => FetchMirrors(s, rules, lost, w, id, now);
        case Working(queue, stage) =>
          if queue != [] {
            if stage.SaveMark? {
              SaveMarkMirrors(s, rules, lost, w, id, now);
            } else {
              StatementMirrors(s, rules, lost, w, id, now);
            }
          }
      }
    }
  }

  /** Mail comes and goes. */
  lemma MailMirrors(s: Setting, rules: Tables, lost: Messages, w: World, w': World)
    requires Mirrors(s, rules, lost, w) && StoredOk(w) && Onward(w, w')
    requires w'.tables == w.tables && w'.workers == w.workers && w'.settled == w.settled
    ensures Mirrors(s, rules, lost, w')
  {
    StepMirrors(s, rules, lost, w, w', 0, "", 1);
  }

  lemma ArriveMirrors(s: Setting, rules: Tables, lost: Messages, w: World, e: Event)
    requires Mirrors(s, rules, lost, w) && StoredOk(w) && e.Arrive?
    ensures Mirrors(s, rules, lost, Apply(s, w, e))
  {
    MailMirrors(s, rules, lost, w, Apply(s, w, e));
  }

  lemma ExpungeMirrors(s: Setting, rules: Tables, lost: Messages, w: World, e: Event)
    requires Mirrors(s, rules, lost, w) && StoredOk(w) && e.Expunge?
    ensures Mirrors(s, rules, lost, Apply(s, w, e))
  {
    MailMirrors(s, rules, lost, w, Apply(s, w, e));
  }

  lemma ConsumeMirrors(s: Setting, rules: Tables, lost: Messages, w: World, e: Event)
    requires Mirrors(s, rules, lost, w) && Coverage(w) && StoredOk(w) && e.Consume?
    ensures Mirrors(s, rules, lost, Apply(s, w, e))
  {
    ApplyPersists(s, w, e);
    TableUpkeepKeepsStored(s, w, e);
    StepMirrors(s, rules, lost, w, Apply(s, w, e), 0, "", 1);
  }

  /** A worker may start or move on to any place that is on track, as one without messages in hand is. */
  lemma WorkerMirrors(s: Setting, rules: Tables, lost: Messages, w: World, id: nat, k: Worker)
    requires Mirrors(s, rules, lost, w) && OnTrack(s, rules, lost, w, k)
    ensures Mirrors(s, rules, lost, w.(workers := w.workers[id := k]))
  {
    var w' := w.(workers := w.workers[id := k]);
    forall a, u | (a, u) in w'.settled ensures SettledOk(s, rules, lost, w', a, u) {
      assert SettledOk(s, rules, lost, w, a, u);
    }
    forall j | j in w'.workers ensures OnTrack(s, rules, lost, w', w'.workers[j]) {
      assert j != id ==> OnTrack(s, rules, lost, w, w.workers[j]);
    }
  }

  /** A swallowed exception loses at most the message in hand. */
  lemma SwallowMirrors(s: Setting, rules: Tables, lost: Messages, w: World, id: nat)
    requires Mirrors(s, rules, lost, w) && StoredOk(w) && LostBy(w, Swallow(id)) <= lost
    ensures Mirrors(s, rules, lost, Apply(s, w, Swallow(id)))
  {
    if id in w.workers && w.workers[id].phase.Working? && w.workers[id].phase.queue != [] {
      var k := w.workers[id];
      assert OnTrack(s, rules, lost, w, k);
      assert k.phase.queue[0] in k.phase.queue;
      assert !PastInsert(k.phase.stage) ==> (k.address, k.phase.queue[0].uid) in LostBy(w, Swallow(id));
      StepMirrors(s, rules, lost, w, Apply(s, w, Swallow(id)), id, k.address, k.phase.queue[0].uid);
    }
  }

  lemma ApplyMirrors(s: Setting, rules: Tables, lost: Messages, w: World, e: Event)
    requires Mirrors(s, rules, lost, w) && Coverage(w) && StoredOk(w)
    requires !e.Administer? && LostBy(w, e) <= lost
    ensures Mirrors(s, rules, lost, Apply(s, w, e))
  {
    match e {
      case Advance(id, now) => AdvanceMirrors(s, rules, lost, w, id, now);
      case Arrive(_, _, _) => ArriveMirrors(s, rules, lost, w, e);
      case Expunge(_, _) => ExpungeMirrors(s, rules, lost, w, e);
      case Consume(_, _) => ConsumeMirrors(s, rules, lost, w, e);
      case Start(id, a) => WorkerMirrors(s, rules, lost, w, id, Worker(a, Resting));
      case Crash(id) => if id in w.workers { WorkerMirrors(s, rules, lost, w, id, w.workers[id].(phase := Resting)); }
      case Swallow(id) => SwallowMirrors(s, rules, lost, w, id);
      case FetchFails(id) => if id in w.workers { WorkerMirrors(s, rules, lost, w, id, w.workers[id].(phase := Resting)); }
    }
  }

  lemma {:induction false} RunMirrors(s: Setting, rules: Tables, lost: Messages, w: World, es: seq<Event>)
    requires Mirrors(s, rules, lost, w) && Coverage(w) && StoredOk(w)
    requires FixedRules(es) && Lost(s, w, es) <= lost
    ensures Mirrors(s, rules, lost, Run(s, w, es))
    decreases |es|
  {
    if es != [] {
      ApplyMirrors(s, rules, lost, w, es[0]);
      ApplyKeepsCoverage(s, w, es[0]);
      ApplyKeepsStored(s, w, es[0]);
      RunMirrors(s, rules, lost, Apply(s, w, es[0]), es[1..]);
    }
  }

  /** Settled messages that no swallowed exception hit are answered, over every run. */
  lemma SettledMeansStored(s: Setting, w: World, es: seq<Event>, a: string, x: Item)
    requires Initial(w) && FixedRules(es) && (a, x.uid) !in Lost(s, w, es)
    ensures var w' := Run(s, w, es);
      a in w'.inboxes && x in w'.inboxes[a].items && (a, x.uid) in w'.settled ==>
        Answered(s.re, w.tables, About(s, a, x), w'.tables.codes)
  {
    var lost, w' := Lost(s, w, es), Run(s, w, es);
    RunMirrors(s, w.tables, lost, w, es);
    assert (a, x.uid) in w'.settled ==> SettledOk(s, w.tables, lost, w', a, x.uid);
  }

  /** What the watermark is for: after any run of any number of direct and group workers, with
      redeliveries, failed fetches, swallowed exceptions and crashes anywhere, every message still
      present at or below a stored watermark that yields a code has its row, exactly one when it carries
      a Message-ID, unless its own call lost it to a swallowed exception. */
  lemma WatermarkMeansStored(s: Setting, w: World, es: seq<Event>, a: string, x: Item)
    requires Initial(w) && FixedRules(es) && (a, x.uid) !in Lost(s, w, es)
    ensures var w' := Run(s, w, es);
      a in w'.marks && a in w'.inboxes && x in w'.inboxes[a].items && x.uid <= w'.marks[a] ==>
        Answered(s.re, w.tables, About(s, a, x), w'.tables.codes)
  {
    WatermarkCoverage(s, w, es, a, x);
    SettledMeansStored(s, w, es, a, x);
  }

  /** One message that yields a code, a worker that has fetched it, an exception before the INSERT, and
      the watermark saved all the same. */
  const SWALLOWING: seq<Event> :=
    [Start(0, "a@x"), Advance(0, 0), Advance(0, 0), Advance(0, 0), Swallow(0), Advance(0, 0)]

  /** The exception does cost the message its code: the watermark has passed it and nothing is stored. */
  lemma SwallowedMessageIsPassed() returns (s: Setting, w: World, x: Item)
    ensures Initial(w) && FixedRules(SWALLOWING) && s.codec.AsDict?
    ensures var w' := Run(s, w, SWALLOWING);
      && "a@x" in w'.marks && w'.marks["a@x"] == x.uid
      && "a@x" in w'.inboxes && w'.inboxes["a@x"].items == [x]
      && ("a@x", x.uid) in Lost(s, w, SWALLOWING)
      && w'.tables.codes.rows == []
    ensures Yield(s.re, w.tables, About(s, "a@x", x)).Some?
    ensures !Answered(s.re, w.tables, About(s, "a@x", x), Run(s, w, SWALLOWING).tables.codes)
  {
    var rule := Extractor.Pattern(0, "p", "any", 0, None, None, "c", "both");
    x := Item(1, Message("s", "a@x", "", "", Some("id")), None);
    s := Setting((pattern, text) => Extractor.Hit("1", []), AsDict, u => "");
    w := World(map["a@x" := Inbox([x], 2)], map[],
               Tables(map["a@x" := 1], map[], [rule], Codes([], 0), []), map[], {});
    assert Extractor.FirstFit(s.re, [rule], "s", "", "") == 0;
    SwallowingRun(s, w, x);
  }

  lemma SwallowingRun(s: Setting, w: World, x: Item)
    requires s.codec.AsDict? && w.marks == map[] && w.workers == map[]
    requires "a@x" in w.inboxes && w.inboxes["a@x"].items == [x]
    ensures var w' := Run(s, w, SWALLOWING);
      && w'.marks == map["a@x" := x.uid as nat] && w'.inboxes == w.inboxes && w'.tables == w.tables
      && Lost(s, w, SWALLOWING) == {("a@x", x.uid)}
  {
    var a, es := "a@x", SWALLOWING;
    var w1 := Apply(s, w, es[0]);
    var w2 := Apply(s, w1, es[1]);
    var w3 := Apply(s, w2, es[2]);
    assert w3.workers[0].phase == Fetch({x.uid}) by { assert Batch([x], None) == [x]; }
    var w4 := Apply(s, w3, es[3]);
    assert w4.workers[0].phase == Working([x], Begin) by { assert Remaining([x], {x.uid}) == [x]; }
    var w5 := Apply(s, w4, es[4]);
    var w6 := Apply(s, w5, es[5]);
    assert es[5..][1..] == [] && es[4..][1..] == es[5..] && es[3..][1..] == es[4..];
    assert es[2..][1..] == es[3..] && es[1..][1..] == es[2..];
    assert Run(s, w5, es[5..]) == w6 && Lost(s, w5, es[5..]) == {};
    assert Run(s, w4, es[4..]) == w6 && Lost(s, w4, es[4..]) == {(a, x.uid)};
    assert Run(s, w3, es[3..]) == w6 && Lost(s, w3, es[3..]) == {(a, x.uid)};
    assert Run(s, w2, es[2..]) == w6 && Lost(s, w2, es[2..]) == {(a, x.uid)};
    assert Run(s, w1, es[1..]) == w6 && Lost(s, w1, es[1..]) == {(a, x.uid)};
  }

  /** Drain, down to the codes: a worker at rest, in the state any such run leaves behind, completes one
      round from a saved watermark, or two without one and with nothing expunged, while no new mail
      arrives for it and everybody else moves freely. Then every message still in its inbox is
      answered, unless a swallowed exception lost it. */
  lemma DrainedInboxIsStored(
    s: Setting, w: World, before: seq<Event>, a: string, id: nat, es: seq<Event>, x: Item)
    requires Initial(w) && s.codec.AsDict?
    requires FixedRules(before) && FixedRules(es) && (a, x.uid) !in Lost(s, w, before + es)
    requires Serves(Run(s, w, before), id, a) && Run(s, w, before).workers[id].phase == Resting
    requires Calm(es, a, id)
    requires Completed(s, Run(s, w, before), es, id) >= (if a in Run(s, w, before).marks then 1 else 2)
    requires a in Run(s, w, before).marks || NoExpunge(es, a)
    ensures var v' := Run(s, Run(s, w, before), es);
      a in v'.inboxes && (x in v'.inboxes[a].items ==> Answered(s.re, w.tables, About(s, a, x), v'.tables.codes))
  {
    RoundsSettle(s, w, before, a, id, es);
    RunConcat(s, w, before, es);
    SettledMeansStored(s, w, before + es, a, x);
  }

  // ---- nothing else is stored ----------------------------------------------------------------

  /** Source mailbox and message of all mail there ever is. */
  type Mail = iset<(string, Message)>

  /** Some message of that mail should leave exactly these facts. */
  ghost predicate Explained(s: Setting, rules: Tables, mail: Mail, facts: Facts) {
    exists a, m :: (a, m) in mail && YieldedFacts(s.re, rules, a, m) == Some(facts)
  }

  ghost predicate AllMail(mail: Mail, a: string, items: seq<Item>) {
    forall x :: x in items ==> (a, x.message) in mail
  }

  ghost predicate RowsExplained(s: Setting, rules: Tables, mail: Mail, rows: seq<CodeRow>) {
    forall i :: 0 <= i < |rows| ==> Explained(s, rules, mail, FactsOf(rows[i].content))
  }

  ghost predicate WorksOnMail(s: Setting, rules: Tables, mail: Mail, k: Worker) {
    k.phase.Working? && k.phase.queue != [] ==>
      AllMail(mail, k.address, k.phase.queue) && Knows(s, rules, k.address, k.phase.queue[0], k.phase.stage)
  }

  ghost predicate FromMail(s: Setting, rules: Tables, mail: Mail, w: World) {
    && SameRules(rules, w.tables)
    && (forall a :: a in w.inboxes ==> AllMail(mail, a, w.inboxes[a].items))
    && (forall id :: id in w.workers ==> WorksOnMail(s, rules, mail, w.workers[id]))
    && RowsExplained(s, rules, mail, w.tables.codes.rows)
  }

  lemma StatementFromMail(s: Setting, rules: Tables, mail: Mail, t: Tables, a: string, x: Item, stage: Stage)
    requires SameRules(rules, t) && RowsExplained(s, rules, mail, t.codes.rows)
    requires (a, x.message) in mail && Knows(s, rules, a, x, stage)
    ensures RowsExplained(s, rules, mail, TablesAfter(t, stage).codes.rows)
  {
    if stage.InsertRow? && stage.draft.source.value in t.tenants {
      AnsweredAlike(s.re, rules, stage.d, Delivery(a, x.message, None, None, 0), t.codes);
      assert YieldedFacts(s.re, rules, a, x.message) == Some(FactsOf(stage.draft));
    }
  }

  lemma ProcessFromMail(s: Setting, rules: Tables, mail: Mail, w: World, id: nat, now: int)
    requires FromMail(s, rules, mail, w) && id in w.workers
    requires w.workers[id].phase.Working? && w.workers[id].phase.queue != []
    ensures FromMail(s, rules, mail, Process(s, w, id, now))
  {
    var k := w.workers[id];
    var queue, stage := k.phase.queue, k.phase.stage;
    assert WorksOnMail(s, rules, mail, k);
    assert queue[0] in queue && forall y :: y in queue[1..] ==> y in queue;
    if !stage.SaveMark? {
      KnowsStep(s, rules, w.tables, k.address, queue[0], now, stage);
      StatementFromMail(s, rules, mail, w.tables, k.address, queue[0], stage);
    }
  }

  lemma AdvanceFromMail(s: Setting, rules: Tables, mail: Mail, w: World, id: nat, now: int)
    requires FromMail(s, rules, mail, w)
    ensures FromMail(s, rules, mail, Apply(s, w, Advance(id, now)))
  {
    if id in w.workers && w.workers[id].phase.Working? && w.workers[id].phase.queue != [] {
      ProcessFromMail(s, rules, mail, w, id, now);
    }
  }

  lemma ConsumeFromMail(s: Setting, rules: Tables, mail: Mail, w: World, e: Event)
    requires FromMail(s, rules, mail, w) && e.Consume?
    ensures FromMail(s, rules, mail, Apply(s, w, e))
  {
    ConsumedRowsExplained(s, rules, mail, w.tables.codes.rows, Apply(s, w, e).tables.codes.rows);
  }

  lemma ConsumedRowsExplained(s: Setting, rules: Tables, mail: Mail, rows: seq<CodeRow>, rows': seq<CodeRow>)
    requires RowsExplained(s, rules, mail, rows)
    requires |rows'| == |rows| && forall i :: 0 <= i < |rows| ==> rows'[i].content == rows[i].content
    ensures RowsExplained(s, rules, mail, rows')
  {
    forall i | 0 <= i < |rows'| ensures Explained(s, rules, mail, FactsOf(rows'[i].content)) {
      assert Explained(s, rules, mail, FactsOf(rows[i].content));
    }
  }

  lemma ApplyFromMail(s: Setting, rules: Tables, mail: Mail, w: World, e: Event)
    requires FromMail(s, rules, mail, w) && !e.Administer?
    requires e.Arrive? && e.address in w.inboxes ==> (e.address, e.message) in mail
    ensures FromMail(s, rules, mail, Apply(s, w, e))
  {
    match e {
      case Advance(id, now) => AdvanceFromMail(s, rules, mail, w, id, now);
      case Consume(_, _) => ConsumeFromMail(s, rules, mail, w, e);
      case _ =>
    }
  }

  ghost predicate ArrivalsIn(w: World, es: seq<Event>, mail: Mail) {
    forall i :: 0 <= i < |es| && es[i].Arrive? && es[i].address in w.inboxes ==>
      (es[i].address, es[i].message) in mail
  }

  lemma {:induction false} RunFromMail(s: Setting, rules: Tables, mail: Mail, w: World, es: seq<Event>)
    requires FromMail(s, rules, mail, w) && FixedRules(es) && ArrivalsIn(w, es, mail)
    ensures FromMail(s, rules, mail, Run(s, w, es))
    decreases |es|
  {
    if es != [] {
      ApplyFromMail(s, rules, mail, w, es[0]);
      ArrivalsLater(s, w, es, mail);
      RunFromMail(s, rules, mail, Apply(s, w, es[0]), es[1..]);
    }
  }

  /** The message was in the inbox at the start, or arrived there in the run. */
  ghost predicate Posted(w: World, es: seq<Event>, a: string, m: Message) {
    a in w.inboxes && (InInbox(w.inboxes[a], m) || Arrives(es, a, m))
  }

  ghost predicate InInbox(box: Inbox, m: Message) {
    exists x :: x in box.items && x.message == m
  }

  ghost predicate Arrives(es: seq<Event>, a: string, m: Message) {
    exists i :: 0 <= i < |es| && es[i].Arrive? && es[i].address == a && es[i].message == m
  }

  ghost function AllPosted(w: World, es: seq<Event>): Mail {
    iset a, m | Posted(w, es, a, m) :: (a, m)
  }

  lemma StartFromPosted(s: Setting, w: World, es: seq<Event>)
    requires Initial(w)
    ensures FromMail(s, w.tables, AllPosted(w, es), w) && ArrivalsIn(w, es, AllPosted(w, es))
  {
    var mail := AllPosted(w, es);
    forall a | a in w.inboxes ensures AllMail(mail, a, w.inboxes[a].items) {
      forall x | x in w.inboxes[a].items ensures (a, x.message) in mail {
        assert InInbox(w.inboxes[a], x.message);
      }
    }
    forall i | 0 <= i < |es| && es[i].Arrive? && es[i].address in w.inboxes
      ensures (es[i].address, es[i].message) in mail
    {
      assert Arrives(es, es[i].address, es[i].message);
    }
  }

  lemma RunFromPosted(s: Setting, w: World, es: seq<Event>)
    requires Initial(w) && FixedRules(es)
    ensures FromMail(s, w.tables, AllPosted(w, es), Run(s, w, es))
  {
    StartFromPosted(s, w, es);
    RunFromMail(s, w.tables, AllPosted(w, es), w, es);
  }

  /** No code from nowhere: whatever the run, failures included, every stored row is what some message
      that was really there yields, with that message's target, tenant, platform and code. */
  lemma EveryCodeHasItsMessage(s: Setting, w: World, es: seq<Event>, f: Facts)
    requires Initial(w) && FixedRules(es)
    requires f in StoredFacts(Run(s, w, es).tables.codes)
    ensures exists a, m :: Posted(w, es, a, m) && YieldedFacts(s.re, w.tables, a, m) == Some(f)
  {
    var mail := AllPosted(w, es);
    RunFromPosted(s, w, es);
    StoredIsExplained(s, w.tables, mail, Run(s, w, es).tables.codes, f);
    var a, m :| (a, m) in mail && YieldedFacts(s.re, w.tables, a, m) == Some(f);
    assert Posted(w, es, a, m);
  }

  /** Whose codes and notices are: after any run, failures included, every stored row for a mailbox of a
      real tenant is that tenant's, and any other row is the tenant's of a mailbox its message was posted
      to. */
  lemma EveryCodeHasItsTenant(s: Setting, w: World, es: seq<Event>, row: CodeRow)
    requires Initial(w) && FixedRules(es) && row in Run(s, w, es).tables.codes.rows
    ensures var target := row.content.target;
      if target in w.tables.tenants && w.tables.tenants[target] != 0
      then row.content.tenant == w.tables.tenants[target]
      else exists a, m :: Posted(w, es, a, m) && m.recipient == target
             && a in w.tables.tenants && row.content.tenant == w.tables.tenants[a]
  {
    var f := FactsOf(row.content);
    EveryCodeHasItsMessage(s, w, es, f);
    var a, m :| Posted(w, es, a, m) && YieldedFacts(s.re, w.tables, a, m) == Some(f);
    CodeBelongsToTarget(s.re, w.tables, Delivery(a, m, None, None, 0));
  }

  /** And every notice ever sent for such a mailbox is on its tenant's channel. */
  lemma EveryNoticeReachesItsTenant(s: Setting, w: World, es: seq<Event>, i: nat)
    requires Initial(w) && FixedRules(es) && i < |Run(s, w, es).tables.notices|
    ensures var n := Run(s, w, es).tables.notices[i];
      n.target in w.tables.tenants && w.tables.tenants[n.target] != 0 ==> n.channel == w.tables.tenants[n.target]
  {
    StoredAtMostOnce(s, w, es);
    var t := Run(s, w, es).tables;
    assert Names(t.codes, t.notices[i]);
    var j :| 0 <= j < |t.codes.rows| && NamesRow(t.codes.rows[j], t.notices[i]);
    EveryCodeHasItsTenant(s, w, es, t.codes.rows[j]);
  }

  // ---- the image ---------------------------------------------------------------------------------

  /** A recipient's Message-ID names one message, and recipients are mailboxes of real tenants. */
  ghost predicate WellAddressed(rules: Tables, mail: Mail) {
    && (forall a, m :: (a, m) in mail ==> HasRealTenant(rules, m.recipient))
    && forall a, m, b, n :: (a, m) in mail && (b, n) in mail && SameId(m, n) ==> m == n
  }

  predicate SameId(m: Message, n: Message) {
    m.messageId.Some? && m.messageId == n.messageId && m.recipient == n.recipient
  }

  /** The row under a message's key can only be the message's own. */
  lemma AnsweredByItsOwn(s: Setting, rules: Tables, mail: Mail, codes: Codes, a: string, m: Message)
    requires WellAddressed(rules, mail) && RowsExplained(s, rules, mail, codes.rows) && (a, m) in mail
    requires Answered(s.re, rules, Delivery(a, m, None, None, 0), codes)
    requires YieldedFacts(s.re, rules, a, m).Some?
    ensures YieldedFacts(s.re, rules, a, m).value in StoredFacts(codes)
  {
    var d := Delivery(a, m, None, None, 0);
    var y := Yield(s.re, rules, d).value;
    if y.messageId.Some? {
      var i :| 0 <= i < |codes.rows| && Blocks(codes.rows[i], y.target, y.messageId);
      var facts := FactsOf(codes.rows[i].content);
      assert Explained(s, rules, mail, facts);
      var b, n :| (b, n) in mail && YieldedFacts(s.re, rules, b, n) == Some(facts);
      assert SameId(m, n);
      TargetTenantWins(s.re, rules, d, Delivery(b, n, None, None, 0));
      assert codes.rows[i] in codes.rows;
    }
  }

  /** Every settled message that is still present and was not lost has its own facts stored: its target,
      Message-ID, tenant, platform and code. */
  lemma SettledFactsAreStored(s: Setting, w: World, es: seq<Event>, a: string, x: Item)
    requires Initial(w) && FixedRules(es) && (a, x.uid) !in Lost(s, w, es)
    requires WellAddressed(w.tables, AllPosted(w, es))
    requires var w' := Run(s, w, es); a in w'.inboxes && x in w'.inboxes[a].items && (a, x.uid) in w'.settled
    requires YieldedFacts(s.re, w.tables, a, x.message).Some?
    ensures YieldedFacts(s.re, w.tables, a, x.message).value in StoredFacts(Run(s, w, es).tables.codes)
  {
    var w' := Run(s, w, es);
    SettledMeansStored(s, w, es, a, x);
    AnsweredAlike(s.re, w.tables, About(s, a, x), Delivery(a, x.message, None, None, 0), w'.tables.codes);
    RunFromPosted(s, w, es);
    assert AllMail(AllPosted(w, es), a, w'.inboxes[a].items);
    AnsweredByItsOwn(s, w.tables, AllPosted(w, es), w'.tables.codes, a, x.message);
  }

  /** So has every present message at or below a saved watermark. */
  lemma WatermarkFactsAreStored(s: Setting, w: World, es: seq<Event>, a: string, x: Item)
    requires Initial(w) && FixedRules(es) && (a, x.uid) !in Lost(s, w, es)
    requires WellAddressed(w.tables, AllPosted(w, es))
    requires var w' := Run(s, w, es);
      a in w'.marks && a in w'.inboxes && x in w'.inboxes[a].items && x.uid <= w'.marks[a]
    requires YieldedFacts(s.re, w.tables, a, x.message).Some?
    ensures YieldedFacts(s.re, w.tables, a, x.message).value in StoredFacts(Run(s, w, es).tables.codes)
  {
    WatermarkCoverage(s, w, es, a, x);
    SettledFactsAreStored(s, w, es, a, x);
  }

  /** So has every message of a drained inbox. */
  lemma DrainedFactsAreStored(
    s: Setting, w: World, before: seq<Event>, a: string, id: nat, es: seq<Event>, x: Item)
    requires Initial(w) && s.codec.AsDict?
    requires FixedRules(before) && FixedRules(es) && (a, x.uid) !in Lost(s, w, before + es)
    requires WellAddressed(w.tables, AllPosted(w, before + es))
    requires Serves(Run(s, w, before), id, a) && Run(s, w, before).workers[id].phase == Resting
    requires Calm(es, a, id)
    requires Completed(s, Run(s, w, before), es, id) >= (if a in Run(s, w, before).marks then 1 else 2)
    requires a in Run(s, w, before).marks || NoExpunge(es, a)
    requires YieldedFacts(s.re, w.tables, a, x.message).Some?
    ensures var v' := Run(s, Run(s, w, before), es);
      a in v'.inboxes && (x in v'.inboxes[a].items ==>
        YieldedFacts(s.re, w.tables, a, x.message).value in StoredFacts(v'.tables.codes))
  {
    RoundsSettle(s, w, before, a, id, es);
    RunConcat(s, w, before, es);
    if x in Run(s, w, before + es).inboxes[a].items {
      SettledFactsAreStored(s, w, before + es, a, x);
    }
  }

  /** Nothing is ever expunged, in any mailbox. */
  ghost predicate NothingExpunged(es: seq<Event>) {
    forall i :: 0 <= i < |es| ==> !es[i].Expunge?
  }

  lemma StaysInInbox(s: Setting, w: World, e: Event, a: string, m: Message)
    requires a in w.inboxes && !e.Expunge?
    requires InInbox(w.inboxes[a], m) || (e.Arrive? && e.address == a && e.message == m)
    ensures a in Apply(s, w, e).inboxes && InInbox(Apply(s, w, e).inboxes[a], m)
  {
    var box := Apply(s, w, e).inboxes[a];
    if InInbox(w.inboxes[a], m) {
      var x :| x in w.inboxes[a].items && x.message == m;
      assert x in box.items;
    } else {
      assert box.items[|box.items| - 1] in box.items;
    }
  }

  lemma {:induction false} PostedIsPresent(s: Setting, w: World, es: seq<Event>, a: string, m: Message)
    requires Posted(w, es, a, m) && NothingExpunged(es)
    ensures a in Run(s, w, es).inboxes && InInbox(Run(s, w, es).inboxes[a], m)
    decreases |es|
  {
    if es != [] {
      var w1 := Apply(s, w, es[0]);
      assert w1.inboxes.Keys == w.inboxes.Keys;
      if InInbox(w.inboxes[a], m) || (es[0].Arrive? && es[0].address == a && es[0].message == m) {
        StaysInInbox(s, w, es[0], a, m);
      } else {
        var i :| 0 <= i < |es| && es[i].Arrive? && es[i].address == a && es[i].message == m;
        assert es[1..][i - 1] == es[i];
        assert Arrives(es[1..], a, m);
      }
      PostedIsPresent(s, w1, es[1..], a, m);
    }
  }

  /** No message that yields a code was lost. */
  ghost predicate NothingMissed(s: Setting, w: World, es: seq<Event>) {
    forall a, x ::
      a in Run(s, w, es).inboxes && x in Run(s, w, es).inboxes[a].items && (a, x.uid) in Lost(s, w, es) ==>
        YieldedFacts(s.re, w.tables, a, x.message) == None
  }

  /** The stored codes are the image of the mail: after any run in which nothing was expunged, no message
      that yields was lost, and whose inboxes are settled, the stored facts are exactly those that the
      posted messages yield. */
  lemma StoredCodesAreTheImage(s: Setting, w: World, es: seq<Event>, f: Facts)
    requires Initial(w) && FixedRules(es) && NothingMissed(s, w, es) && NothingExpunged(es)
    requires WellAddressed(w.tables, AllPosted(w, es))
    requires var w' := Run(s, w, es); forall a :: a in w'.inboxes ==> AllSettled(w', a)
    ensures f in StoredFacts(Run(s, w, es).tables.codes)
       <==> exists a, m :: Posted(w, es, a, m) && YieldedFacts(s.re, w.tables, a, m) == Some(f)
  {
    if f in StoredFacts(Run(s, w, es).tables.codes) {
      EveryCodeHasItsMessage(s, w, es, f);
    }
    if a, m :| Posted(w, es, a, m) && YieldedFacts(s.re, w.tables, a, m) == Some(f) {
      PostedIsPresent(s, w, es, a, m);
      var w' := Run(s, w, es);
      var x :| x in w'.inboxes[a].items && x.message == m;
      assert AllSettled(w', a);
      SettledFactsAreStored(s, w, es, a, x);
    }
  }

  // ---- exactly what is stored ----------------------------------------------------------------------

  /** The message whose call executes its INSERT in this event, with its mailbox. */
  function InsertedBy(w: World, e: Event): set<(string, Message)> {
    if e.Advance? && e.worker in w.workers && w.workers[e.worker].address in w.inboxes
       && w.workers[e.worker].phase.Working? && w.workers[e.worker].phase.queue != []
       && w.workers[e.worker].phase.stage.InsertRow?
    then {(w.workers[e.worker].address, w.workers[e.worker].phase.queue[0].message)}
    else {}
  }

  /** The messages whose calls got as far as their INSERT along a run. */
  function Inserted(s: Setting, w: World, es: seq<Event>): set<(string, Message)>
    decreases |es|
  {
    if es == [] then {} else InsertedBy(w, es[0]) + Inserted(s, Apply(s, w, es[0]), es[1..])
  }

  /** The INSERT of a message answers it there and then. */
  lemma InsertAnswersItsMessage(s: Setting, rules: Tables, mail: Mail, w: World, e: Event, a: string, m: Message)
    requires FromMail(s, rules, mail, w) && StoredOk(w) && (a, m) in InsertedBy(w, e)
    ensures (a, m) in mail
    ensures Answered(s.re, rules, Delivery(a, m, None, None, 0), Apply(s, w, e).tables.codes)
  {
    var k := w.workers[e.worker];
    var d := k.phase.stage.d;
    var codes := TablesAfter(w.tables, k.phase.stage).codes;
    assert WorksOnMail(s, rules, mail, k) && k.phase.queue[0] in k.phase.queue;
    assert Wanted(s.re, w.tables, d) == Wanted(s.re, rules, d);
    InsertAnswers(s.re, w.tables, d);
    AnsweredUnderSameRules(s.re, rules, w.tables, d, codes);
    AnsweredAlike(s.re, rules, d, Delivery(a, m, None, None, 0), codes);
  }

  lemma StaysAnswered(s: Setting, rules: Tables, w: World, es: seq<Event>, d: Delivery)
    requires StoredOk(w) && Answered(s.re, rules, d, w.tables.codes)
    ensures Answered(s.re, rules, d, Run(s, w, es).tables.codes)
  {
    RunKeepsStored(s, w, es);
    AnsweredPersists(s.re, rules, d, w.tables.codes, Run(s, w, es).tables.codes);
  }

  lemma ArrivalsLater(s: Setting, w: World, es: seq<Event>, mail: Mail)
    requires es != [] && ArrivalsIn(w, es, mail)
    ensures ArrivalsIn(Apply(s, w, es[0]), es[1..], mail)
  {
    assert Apply(s, w, es[0]).inboxes.Keys == w.inboxes.Keys;
  }

  lemma {:induction false} InsertedIsAnswered(
    s: Setting, rules: Tables, mail: Mail, w: World, es: seq<Event>, a: string, m: Message)
    requires FromMail(s, rules, mail, w) && StoredOk(w) && FixedRules(es) && ArrivalsIn(w, es, mail)
    requires (a, m) in Inserted(s, w, es)
    ensures (a, m) in mail
    ensures Answered(s.re, rules, Delivery(a, m, None, None, 0), Run(s, w, es).tables.codes)
    decreases |es|
  {
    var e, w1 := es[0], Apply(s, w, es[0]);
    ApplyKeepsStored(s, w, e);
    if (a, m) in InsertedBy(w, e) {
      InsertAnswersItsMessage(s, rules, mail, w, e, a, m);
      StaysAnswered(s, rules, w1, es[1..], Delivery(a, m, None, None, 0));
    } else {
      ApplyFromMail(s, rules, mail, w, e);
      ArrivalsLater(s, w, es, mail);
      InsertedIsAnswered(s, rules, mail, w1, es[1..], a, m);
    }
  }

  /** Only an INSERT adds a row, and the row has its message's facts. */
  lemma ApplyExplained(s: Setting, rules: Tables, mail: Mail, inserted: Mail, w: World, e: Event)
    requires FromMail(s, rules, mail, w) && !e.Administer? && RowsExplained(s, rules, inserted, w.tables.codes.rows)
    requires forall p :: p in InsertedBy(w, e) ==> p in inserted
    ensures RowsExplained(s, rules, inserted, Apply(s, w, e).tables.codes.rows)
  {
    if InsertedBy(w, e) != {} {
      var k := w.workers[e.worker];
      assert (k.address, k.phase.queue[0].message) in InsertedBy(w, e);
      assert WorksOnMail(s, rules, mail, k);
      StatementFromMail(s, rules, inserted, w.tables, k.address, k.phase.queue[0], k.phase.stage);
    } else {
      NothingInserted(s, w, e);
      ConsumedRowsExplained(s, rules, inserted, w.tables.codes.rows, Apply(s, w, e).tables.codes.rows);
    }
  }

  lemma NothingInserted(s: Setting, w: World, e: Event)
    requires InsertedBy(w, e) == {} && !e.Administer?
    ensures var rows, rows' := w.tables.codes.rows, Apply(s, w, e).tables.codes.rows;
      |rows'| == |rows| && forall i :: 0 <= i < |rows| ==> rows'[i].content == rows[i].content
  {
  }

  lemma {:induction false} RunExplained(
    s: Setting, rules: Tables, mail: Mail, inserted: Mail, w: World, es: seq<Event>)
    requires FromMail(s, rules, mail, w) && FixedRules(es) && ArrivalsIn(w, es, mail)
    requires RowsExplained(s, rules, inserted, w.tables.codes.rows)
    requires forall p :: p in Inserted(s, w, es) ==> p in inserted
    ensures RowsExplained(s, rules, inserted, Run(s, w, es).tables.codes.rows)
    decreases |es|
  {
    if es != [] {
      ApplyExplained(s, rules, mail, inserted, w, es[0]);
      ApplyFromMail(s, rules, mail, w, es[0]);
      ArrivalsLater(s, w, es, mail);
      RunExplained(s, rules, mail, inserted, Apply(s, w, es[0]), es[1..]);
    }
  }

  lemma StoredWasInserted(s: Setting, w: World, es: seq<Event>, f: Facts)
    requires Initial(w) && FixedRules(es) && f in StoredFacts(Run(s, w, es).tables.codes)
    ensures exists a, m :: (a, m) in Inserted(s, w, es) && YieldedFacts(s.re, w.tables, a, m) == Some(f)
  {
    var codes := Run(s, w, es).tables.codes;
    var inserted: Mail := iset p | p in Inserted(s, w, es);
    StartFromPosted(s, w, es);
    RunExplained(s, w.tables, AllPosted(w, es), inserted, w, es);
    StoredIsExplained(s, w.tables, inserted, codes, f);
    var a, m :| (a, m) in inserted && YieldedFacts(s.re, w.tables, a, m) == Some(f);
    assert (a, m) in Inserted(s, w, es);
  }

  lemma StoredIsExplained(s: Setting, rules: Tables, mail: Mail, codes: Codes, f: Facts)
    requires RowsExplained(s, rules, mail, codes.rows) && f in StoredFacts(codes)
    ensures Explained(s, rules, mail, f)
  {
    var row :| row in codes.rows && FactsOf(row.content) == f;
    var i :| 0 <= i < |codes.rows| && codes.rows[i] == row;
    assert Explained(s, rules, mail, FactsOf(codes.rows[i].content));
  }

  lemma InsertedIsStored(s: Setting, w: World, es: seq<Event>, a: string, m: Message)
    requires Initial(w) && FixedRules(es) && WellAddressed(w.tables, AllPosted(w, es))
    requires (a, m) in Inserted(s, w, es) && YieldedFacts(s.re, w.tables, a, m).Some?
    ensures YieldedFacts(s.re, w.tables, a, m).value in StoredFacts(Run(s, w, es).tables.codes)
  {
    var mail := AllPosted(w, es);
    StartFromPosted(s, w, es);
    InsertedIsAnswered(s, w.tables, mail, w, es, a, m);
    RunFromPosted(s, w, es);
    AnsweredByItsOwn(s, w.tables, mail, Run(s, w, es).tables.codes, a, m);
  }

  /** Exactly what is stored, over every run with all its failures, crashes and expunges: facts are in
      the table if and only if some message that yields them got as far as its INSERT. */
  lemma StoredIffInserted(s: Setting, w: World, es: seq<Event>, f: Facts)
    requires Initial(w) && FixedRules(es) && WellAddressed(w.tables, AllPosted(w, es))
    ensures f in StoredFacts(Run(s, w, es).tables.codes)
       <==> exists a, m :: (a, m) in Inserted(s, w, es) && YieldedFacts(s.re, w.tables, a, m) == Some(f)
  {
    if f in StoredFacts(Run(s, w, es).tables.codes) {
      StoredWasInserted(s, w, es, f);
    }
    if a, m :| (a, m) in Inserted(s, w, es) && YieldedFacts(s.re, w.tables, a, m) == Some(f) {
      InsertedIsStored(s, w, es, a, m);
    }
  }
}
