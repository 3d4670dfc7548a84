/** `_fetch_backlog`: pulling an inbox by UID watermark.

    An inbox is its messages in ascending UID order, as section 2.3.1.1 of RFC 3501 has the server
    assign UIDs; UIDVALIDITY does not change. */
module Backlog {
  import opened Common
  import opened CodeTable
  import opened CodeWriter
  import Extractor

  type Uid = n: nat | n > 0 witness 1

  datatype Item = Item(uid: Uid, message: Message, date: Option<int>)

  const FIRST_RUN_LIMIT: nat := 20

  ghost predicate Ascending(items: seq<Item>) {
    forall i, j :: 0 <= i < j < |items| ==> items[i].uid < items[j].uid
  }

  // ---- the watermark ------------------------------------------------------------------

  /** How the driver hands a JSONB value to the program. */
  datatype JsonCodec = AsDict | AsText

  /** `_get_last_seen_uid`: a dict gives its "uid" entry, zero counting as none; a text such as
      `{"uid": 7}` is no integer literal and also gives none. */
  function LastSeen(codec: JsonCodec, marks: map<string, nat>, address: string): Option<Uid> {
    if codec.AsDict? && address in marks && marks[address] != 0 then Some(marks[address]) else None
  }

  // ---- what the server answers ---------------------------------------------------------

  /** Where the UIDs from `n` on begin. */
  function StartOf(items: seq<Item>, n: Uid): (k: nat)
    ensures k <= |items|
    ensures forall i :: 0 <= i < k ==> items[i].uid < n
    ensures k < |items| ==> items[k].uid >= n
  {
    if items == [] || items[0].uid >= n then 0 else 1 + StartOf(items[1..], n)
  }

  /** `UID n:*` over an ascending inbox: everything from `n` on, and the last message when there is
      nothing from `n` on. */
  function Since(items: seq<Item>, n: Uid): seq<Item> {
    if items == [] then [] else items[Min(StartOf(items, n), |items| - 1)..]
  }

  /** `UID n:*` names the range between `n` and the largest UID in either order
      (section 6.4.8 of RFC 3501). */
  predicate InUidRange(uid: Uid, n: Uid, last: Uid) {
    if n <= last then n <= uid <= last else last <= uid <= n
  }

  lemma SinceIsUidRange(items: seq<Item>, n: Uid, i: nat)
    requires Ascending(items) && i < |items|
    ensures i >= |items| - |Since(items, n)| <==> InUidRange(items[i].uid, n, items[|items| - 1].uid)
  {
    var k := StartOf(items, n);
    assert |items| - |Since(items, n)| == Min(k, |items| - 1);
  }

  lemma SinceMembers(items: seq<Item>, n: Uid, i: nat)
    requires |items| - |Since(items, n)| <= i < |items|
    ensures items[i] in Since(items, n)
  {
    assert items[i] == Since(items, n)[i - (|items| - |Since(items, n)|)];
  }

  /** The messages of one round, oldest first: everything since the watermark, or, without one, the
      first twenty of the inbox. */
  function Batch(items: seq<Item>, mark: Option<Uid>): (r: seq<Item>) {
    match mark
    case Some(uid) => Since(items, uid + 1)
    case None => items[..Min(FIRST_RUN_LIMIT, |items|)]
  }

  /** A round makes up no message. */
  lemma BatchIsFromInbox(items: seq<Item>, mark: Option<Uid>)
    ensures forall y :: y in Batch(items, mark) ==> y in items
  {
  }

  /** The messages of one round, exactly: with a watermark those above it and the last of the inbox;
      without one the first twenty. */
  lemma BatchIff(items: seq<Item>, mark: Option<Uid>, i: nat)
    requires Ascending(items) && i < |items|
    ensures items[i] in Batch(items, mark) <==>
      if mark.Some? then items[i].uid > mark.value || i == |items| - 1 else i < 20
  {
    if mark.Some? {
      var n := mark.value + 1;
      SinceIsUidRange(items, n, i);
      assert i < |items| - 1 ==> items[i].uid < items[|items| - 1].uid;
      InSlice(items, |items| - |Since(items, n)|, |items|, i);
    } else {
      InSlice(items, 0, Min(FIRST_RUN_LIMIT, |items|), i);
    }
  }

  lemma InSlice(items: seq<Item>, from: nat, to: nat, i: nat)
    requires Ascending(items) && from <= to <= |items| && i < |items|
    ensures items[i] in items[from..to] <==> from <= i < to
  {
    if from <= i < to {
      assert items[from..to][i - from] == items[i];
    }
  }

  /** A round leaves no gap: what lies at or below a message of the batch is in the batch too, or was
      already at or below the watermark. */
  lemma BatchHasNoGap(items: seq<Item>, mark: Option<Uid>, x: Item, y: Item)
    requires Ascending(items) && x in items && y in Batch(items, mark) && x.uid <= y.uid
    ensures y in items
    ensures x in Batch(items, mark) || (mark.Some? && x.uid <= mark.value)
  {
    var i :| 0 <= i < |items| && items[i] == x;
    if mark.Some? {
      SinceHasNoGap(items, mark.value, i, y);
    } else {
      PrefixHasNoGap(items, Min(FIRST_RUN_LIMIT, |items|), i, y);
    }
  }

  lemma SinceHasNoGap(items: seq<Item>, mark: Uid, i: nat, y: Item)
    requires i < |items| && y in Since(items, mark + 1)
    ensures y in items && (items[i] in Since(items, mark + 1) || items[i].uid <= mark)
  {
    var from := Min(StartOf(items, mark + 1), |items| - 1);
    assert Since(items, mark + 1) == items[from..];
    SuffixHasNoGap(items, from, i, y);
  }

  lemma PrefixHasNoGap(items: seq<Item>, to: nat, i: nat, y: Item)
    requires Ascending(items) && to <= |items| && i < |items|
    requires y in items[..to] && items[i].uid <= y.uid
    ensures y in items && items[i] in items[..to]
  {
    var j :| 0 <= j < to && items[..to][j] == y;
    assert items[j] == y;
    assert i <= j;
    assert items[..to][i] == items[i];
  }

  lemma SuffixHasNoGap(items: seq<Item>, from: nat, i: nat, y: Item)
    requires from <= |items| && i < |items| && y in items[from..]
    ensures y in items && (i >= from ==> items[i] in items[from..])
  {
    var j :| 0 <= j < |items| - from && items[from..][j] == y;
    assert items[from + j] == y;
    if i >= from {
      assert items[from..][i - from] == items[i];
    }
  }

  /** "Newest 20 on first run": the first round takes the oldest messages, so it takes the newest
      exactly when there are no more than twenty in all. */
  lemma FirstRoundIsNewestIff(items: seq<Item>)
    requires Ascending(items)
    ensures Batch(items, None) == items[|items| - Min(FIRST_RUN_LIMIT, |items|)..] <==> |items| <= FIRST_RUN_LIMIT
  {
    if |items| > FIRST_RUN_LIMIT {
      var newest := items[|items| - FIRST_RUN_LIMIT..];
      assert Batch(items, None)[0].uid < newest[0].uid;
    }
  }

  /** `n` copies of a message, under the UIDs 1 to n. */
  function Copies(m: Message, n: nat): (items: seq<Item>)
    ensures |items| == n && Ascending(items)
    ensures forall i :: 0 <= i < n ==> items[i] == Item(i + 1, m, None)
  {
    seq(n, i requires 0 <= i < n => Item(i + 1, m, None))
  }

  /** Of twenty-one messages the first round takes the oldest and leaves out the newest. */
  lemma TwentyOneMessages(m: Message)
    ensures Item(1, m, None) in Batch(Copies(m, 21), None) && |Batch(Copies(m, 21), None)| == 20
    ensures Item(21, m, None) in Copies(m, 21) && Item(21, m, None) !in Batch(Copies(m, 21), None)
  {
    var inbox := Copies(m, 21);
    assert Batch(inbox, None)[0] == Item(1, m, None);
    assert inbox[20] == Item(21, m, None);
  }

  lemma BatchAscends(items: seq<Item>, mark: Option<Uid>)
    requires Ascending(items)
    ensures Ascending(Batch(items, mark))
  {
  }

  /** The watermark after a round: overwritten message by message, so the last one stands. */
  function MarkAfter(batch: seq<Item>, marks: map<string, nat>, address: string): map<string, nat> {
    if batch == [] then marks else marks[address := batch[|batch| - 1].uid]
  }

  // ---- the program ----------------------------------------------------------------------

  function ToDelivery(address: string, x: Item, uidText: Uid -> string, now: int): Delivery {
    Delivery(address, x.message, x.date, Some(uidText(x.uid)), now)
  }

  function ToDeliveries(address: string, batch: seq<Item>, uidText: Uid -> string, now: int): (ds: seq<Delivery>)
    ensures |ds| == |batch|
    ensures forall i :: 0 <= i < |ds| ==> ds[i] == ToDelivery(address, batch[i], uidText, now)
  {
    seq(|batch|, i requires 0 <= i < |batch| => ToDelivery(address, batch[i], uidText, now))
  }

  lemma {:induction false} DeliverAllAppend(re: Extractor.Engine, t: Tables, ds: seq<Delivery>, d: Delivery)
    ensures DeliverAll(re, t, ds + [d]) == Deliver(re, DeliverAll(re, t, ds), d).0
    decreases |ds|
  {
    if ds == [] {
      assert ([d])[1..] == [];
      assert DeliverAll(re, Deliver(re, t, d).0, []) == Deliver(re, t, d).0;
      assert ds + [d] == [d];
    } else {
      assert (ds + [d])[1..] == ds[1..] + [d];
      DeliverAllAppend(re, Deliver(re, t, ds[0]).0, ds[1..], d);
    }
  }

  /** How many of the deliveries raise. */
  function Failures(re: Extractor.Engine, t: Tables, ds: seq<Delivery>): nat
    decreases |ds|
  {
    if ds == [] then 0
    else
      var (after, outcome) := Deliver(re, t, ds[0]);
      (if outcome.Raised? then 1 else 0) + Failures(re, after, ds[1..])
  }

  lemma {:induction false} FailuresAppend(re: Extractor.Engine, t: Tables, ds: seq<Delivery>, d: Delivery)
    ensures Failures(re, t, ds + [d])
         == Failures(re, t, ds) + if Deliver(re, DeliverAll(re, t, ds), d).1.Raised? then 1 else 0
    decreases |ds|
  {
    if ds == [] {
      assert ds + [d] == [d] && [d][1..] == [];
    } else {
      assert (ds + [d])[1..] == ds[1..] + [d];
      FailuresAppend(re, Deliver(re, t, ds[0]).0, ds[1..], d);
    }
  }

  /** What a worker changes. */
  datatype Progress = Progress(tables: Tables, marks: map<string, nat>, failures: nat)

  /** After handing over `handed`, in order. */
  function AfterHanding(
    re: Extractor.Engine, p: Progress, address: string, handed: seq<Item>, uidText: Uid -> string, now: int): Progress
  {
    var ds := ToDeliveries(address, handed, uidText, now);
    Progress(DeliverAll(re, p.tables, ds), MarkAfter(handed, p.marks, address), p.failures + Failures(re, p.tables, ds))
  }

  lemma HandNothing(re: Extractor.Engine, p: Progress, address: string, uidText: Uid -> string, now: int)
    ensures AfterHanding(re, p, address, [], uidText, now) == p
  {
    assert ToDeliveries(address, [], uidText, now) == [];
  }

  lemma HandOneMore(
    re: Extractor.Engine, p: Progress, address: string, handed: seq<Item>, m: Item, uidText: Uid -> string, now: int)
    ensures var q := AfterHanding(re, p, address, handed, uidText, now);
      var (t, outcome) := Deliver(re, q.tables, ToDelivery(address, m, uidText, now));
      AfterHanding(re, p, address, handed + [m], uidText, now)
      == Progress(t, q.marks[address := m.uid], q.failures + if outcome.Raised? then 1 else 0)
  {
    var d := ToDelivery(address, m, uidText, now);
    var ds := ToDeliveries(address, handed, uidText, now);
    assert ToDeliveries(address, handed + [m], uidText, now) == ds + [d];
    FailuresAppend(re, p.tables, ds, d);
    DeliverAllAppend(re, p.tables, ds, d);
    MarkAfterOneMore(handed, m, p.marks, address);
  }

  lemma MarkAfterOneMore(handed: seq<Item>, m: Item, marks: map<string, nat>, address: string)
    ensures MarkAfter(handed + [m], marks, address) == MarkAfter(handed, marks, address)[address := m.uid]
  {
  }

  class ImapWorker {
    const address: string
    const codec: JsonCodec
    const db: Database
    var marks: map<string, nat>
    var failures: nat   // exceptions caught and logged

    constructor (address: string, codec: JsonCodec, db: Database, marks: map<string, nat>)
      ensures this.address == address && this.codec == codec && this.db == db && this.marks == marks && failures == 0
    {
      this.address, this.codec, this.db, this.marks, failures := address, codec, db, marks, 0;
    }

    function View(): Progress
      reads this, db
    {
      Progress(db.View(), marks, failures)
    }

    method UpdateLastSeenUid(uid: Uid)
      modifies this`marks
      ensures marks == old(marks)[address := uid]
    {
      marks := marks[address := uid];
    }

    /** An exception from the writer is logged and swallowed. */
    method ProcessMessage(re: Extractor.Engine, d: Delivery)
      modifies this`failures, db
      ensures db.View() == Deliver(re, old(db.View()), d).0
      ensures failures == old(failures) + if Deliver(re, old(db.View()), d).1.Raised? then 1 else 0
    {
      var outcome := db.ProcessAndStore(re, d);
      if outcome.Raised? {
        failures := failures + 1;
      }
    }

    /** One undisturbed round over the inbox as the server shows it; no answer when the fetch fails. A
        failing message is counted and passed: the watermark moves on all the same. */
    method FetchBacklog(re: Extractor.Engine, answer: Option<seq<Item>>, uidText: Uid -> string, now: int)
      returns (handed: seq<Item>)
      modifies this`marks, this`failures, db
      ensures handed == if answer.None? then [] else Batch(answer.value, LastSeen(codec, old(marks), address))
      ensures View() == AfterHanding(re, old(View()), address, handed, uidText, now)
    {
      var lastUid := LastSeen(codec, marks, address);
      handed := [];
      HandNothing(re, View(), address, uidText, now);
      if answer.None? {
        return;
      }
      var messages := Batch(answer.value, lastUid);
      ghost var start := View();
      for i := 0 to |messages|
        invariant handed == messages[..i]
        invariant View() == AfterHanding(re, start, address, handed, uidText, now)
      {
        var m := messages[i];
        HandOneMore(re, start, address, handed, m, uidText, now);
        ProcessMessage(re, ToDelivery(address, m, uidText, now));
        handed := handed + [m];
        UpdateLastSeenUid(m.uid);
      }
      assert messages[..|messages|] == messages;
    }
  }

  /** Each row a round adds is that of a message it handed over: read from this mailbox, under the
      message's UID, for its recipient, received at the message's date, or at the clock where it has none. */
  lemma NewRowsAreTheMessages(
    re: Extractor.Engine, p: Progress, address: string, handed: seq<Item>, uidText: Uid -> string, now: int, i: nat)
    requires Valid(p.tables.codes)
    requires |p.tables.codes.rows| <= i < |AfterHanding(re, p, address, handed, uidText, now).tables.codes.rows|
    ensures var c := AfterHanding(re, p, address, handed, uidText, now).tables.codes.rows[i].content;
      exists x :: x in handed
        && c.source == Some(address) && c.rawUid == Some(uidText(x.uid))
        && c.target == x.message.recipient && c.messageId == x.message.messageId
        && c.sender == x.message.sender && c.subject == x.message.subject
        && c.receivedAt == (if x.date.Some? then x.date.value else now)
  {
    var ds := ToDeliveries(address, handed, uidText, now);
    DeliverAllImage(re, p.tables, ds);
    var c := DeliverAll(re, p.tables, ds).codes.rows[i].content;
    var d :| d in ds && Yield(re, p.tables, d) == Some(c);
    var j :| 0 <= j < |ds| && ds[j] == d;
    RowTellsTheMessage(re, p.tables, d);
    assert handed[j] in handed;
  }

  /** The watermark is no high-water mark: a round lowers it exactly when everything from it on has
      been expunged and something older is left. */
  lemma RoundLowersMarkIff(inbox: seq<Item>, marks: map<string, nat>, address: string)
    requires Ascending(inbox) && address in marks && marks[address] > 0
    ensures MarkAfter(Batch(inbox, LastSeen(AsDict, marks, address)), marks, address)[address] < marks[address]
       <==> inbox != [] && forall x :: x in inbox ==> x.uid < marks[address]
  {
    if inbox != [] {
      UncappedRoundDrains(inbox, marks[address]);
      var last := inbox[|inbox| - 1];
      assert last in inbox;
      if last.uid < marks[address] {
        forall x | x in inbox ensures x.uid < marks[address] {
          var i :| 0 <= i < |inbox| && inbox[i] == x;
        }
      }
    }
  }

  /** The last message seen was 7, it is expunged, 3 is still there: the watermark falls to 3. */
  lemma MarkFallsFromSevenToThree(m: Message)
    ensures var inbox, marks := [Item(3, m, None)], map["a" := 7];
      Ascending(inbox) && MarkAfter(Batch(inbox, LastSeen(AsDict, marks, "a")), marks, "a")["a"] == 3
  {
  }

  // ---- drain -------------------------------------------------------------------------------

  /** The watermark after `k` quiet rounds over one inbox, and the messages they handed over. */
  function Rounds(codec: JsonCodec, inbox: seq<Item>, marks: map<string, nat>, address: string, k: nat)
    : (map<string, nat>, seq<Item>)
    decreases k
  {
    if k == 0 then (marks, [])
    else
      var batch := Batch(inbox, LastSeen(codec, marks, address));
      var (marks', later) := Rounds(codec, inbox, MarkAfter(batch, marks, address), address, k - 1);
      (marks', batch + later)
  }

  lemma TwoRounds(codec: JsonCodec, inbox: seq<Item>, marks: map<string, nat>, address: string)
    ensures var b1 := Batch(inbox, LastSeen(codec, marks, address));
      var marks1 := MarkAfter(b1, marks, address);
      var b2 := Batch(inbox, LastSeen(codec, marks1, address));
      Rounds(codec, inbox, marks, address, 2) == (MarkAfter(b2, marks1, address), b1 + b2)
  {
    var b1 := Batch(inbox, LastSeen(codec, marks, address));
    var marks1 := MarkAfter(b1, marks, address);
    var b2 := Batch(inbox, LastSeen(codec, marks1, address));
    var marks2 := MarkAfter(b2, marks1, address);
    assert Rounds(codec, inbox, marks2, address, 0) == (marks2, []);
    assert Rounds(codec, inbox, marks1, address, 1) == (marks2, b2 + []);
    assert b2 + [] == b2;
  }

  /** Everything from the watermark on is handed over by one uncapped round. */
  lemma UncappedRoundDrains(inbox: seq<Item>, mark: Uid)
    requires Ascending(inbox) && inbox != []
    ensures var batch := Batch(inbox, Some(mark));
      && batch != [] && batch[|batch| - 1] == inbox[|inbox| - 1]
      && forall x :: x in inbox && x.uid > mark ==> x in batch
  {
    var batch := Since(inbox, mark + 1);
    forall x | x in inbox && x.uid > mark ensures x in batch {
      var i :| 0 <= i < |inbox| && inbox[i] == x;
      SinceIsUidRange(inbox, mark + 1, i);
      SinceMembers(inbox, mark + 1, i);
    }
  }

  /** The watermark after one round over a non-empty inbox, and what the round leaves for the next. */
  lemma OneRound(inbox: seq<Item>, marks: map<string, nat>, address: string)
    requires Ascending(inbox) && inbox != []
    ensures var batch := Batch(inbox, LastSeen(AsDict, marks, address));
      var marks1 := MarkAfter(batch, marks, address);
      && address in marks1 && marks1[address] > 0
      && forall x :: x in inbox && (address in marks ==> x.uid > marks[address]) ==>
           x in batch || x.uid > marks1[address]
  {
    var mark := LastSeen(AsDict, marks, address);
    var batch := Batch(inbox, mark);
    if mark.Some? {
      UncappedRoundDrains(inbox, mark.value);
    } else {
      var last := |batch| - 1;
      assert batch[last] == inbox[last];
      forall x | x in inbox && x.uid <= batch[last].uid ensures x in batch {
        var i :| 0 <= i < |inbox| && inbox[i] == x;
        assert i <= last;
        assert batch[i] == x;
      }
    }
  }

  /** Two quiet rounds hand over every message above the watermark they started from, and leave the
      watermark at the largest UID of the inbox. */
  lemma TwoRoundsDrain(inbox: seq<Item>, marks: map<string, nat>, address: string)
    requires Ascending(inbox)
    ensures var (marks', handed) := Rounds(AsDict, inbox, marks, address, 2);
      && (forall x :: x in inbox && (address in marks ==> x.uid > marks[address]) ==> x in handed)
      && (inbox != [] ==> address in marks' && marks'[address] == inbox[|inbox| - 1].uid)
      && (inbox == [] ==> marks' == marks)
  {
    TwoRounds(AsDict, inbox, marks, address);
    var b1 := Batch(inbox, LastSeen(AsDict, marks, address));
    var marks1 := MarkAfter(b1, marks, address);
    if inbox != [] {
      OneRound(inbox, marks, address);
      UncappedRoundDrains(inbox, marks1[address]);
      var b2 := Batch(inbox, LastSeen(AsDict, marks1, address));
      forall x | x in inbox && (address in marks ==> x.uid > marks[address]) ensures x in b1 + b2 {
        assert x in b1 || x in b2;
      }
    }
  }

  /** Without the decoding the watermark is never read back: every round hands over the same first
      twenty messages, so rounds drain the inbox exactly when it has no more than twenty. */
  lemma {:induction false} UndecodedHandsOverFirstTwenty(inbox: seq<Item>, marks: map<string, nat>, address: string, k: nat)
    requires k > 0
    ensures forall x :: x in Rounds(AsText, inbox, marks, address, k).1
                   <==> x in inbox[..Min(FIRST_RUN_LIMIT, |inbox|)]
    decreases k
  {
    var batch := Batch(inbox, None);
    var marks1 := MarkAfter(batch, marks, address);
    if k > 1 {
      UndecodedHandsOverFirstTwenty(inbox, marks1, address, k - 1);
    } else {
      assert Rounds(AsText, inbox, marks1, address, 0).1 == [];
    }
    assert Rounds(AsText, inbox, marks, address, k).1 == batch + Rounds(AsText, inbox, marks1, address, k - 1).1;
  }

  lemma UndecodedDrainsIffAtMostTwenty(inbox: seq<Item>, marks: map<string, nat>, address: string, k: nat)
    requires Ascending(inbox) && k > 0
    ensures (forall x :: x in inbox ==> x in Rounds(AsText, inbox, marks, address, k).1)
       <==> |inbox| <= FIRST_RUN_LIMIT
  {
    UndecodedHandsOverFirstTwenty(inbox, marks, address, k);
    if |inbox| <= FIRST_RUN_LIMIT {
      assert inbox[..|inbox|] == inbox;
    } else {
      var x := inbox[FIRST_RUN_LIMIT];
      assert x in inbox;
      forall i | 0 <= i < FIRST_RUN_LIMIT ensures inbox[i] != x {
        assert inbox[i].uid < x.uid;
      }
    }
  }
}
