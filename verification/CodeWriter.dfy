/** `process_and_store`: resolve the tenant, extract, insert, stamp the mailbox, notify; and what any
    sequence of deliveries leaves in the `codes` table. */
module CodeWriter {
  import opened Common
  import opened CodeTable
  import Extractor

  const EXCERPT_LIMIT: nat := 2000

  datatype Message = Message(
    sender: string, recipient: string, subject: string, body: string, messageId: Option<string>)

  /** One call: which mailbox the message was read from, the message, its date, its UID, and the
      server's clock at the call. */
  datatype Delivery = Delivery(
    source: string, message: Message, receivedAt: Option<int>, rawUid: Option<string>, now: int)

  datatype Notice = Notice(channel: int, codeId: nat, target: string)

  /** The tables one call reads or writes: tenant and last_code_at per mailbox address, the active
      patterns in priority order, the codes, and the notifications sent so far. */
  datatype Tables = Tables(
    tenants: map<string, int>, lastCodeAt: map<string, int>,
    patterns: seq<Extractor.Pattern>, codes: Codes, notices: seq<Notice>)

  /** `None` for every reason the code has to return None; an exception is told apart, because only
      the caller swallows it. */
  datatype Outcome = Stored(id: nat) | NotStored | Raised

  function TenantOf(tenants: map<string, int>, address: string): Option<int> {
    if address in tenants then Some(tenants[address]) else None
  }

  /** `target_tenant or source_tenant`: a zero on the left is as good as nothing. */
  function Owner(target: Option<int>, source: Option<int>): Option<int> {
    if target.Some? && target.value != 0 then target else source
  }

  /** The row to insert for a resolved tenant, if a pattern yields a code. */
  function Compose(re: Extractor.Engine, patterns: seq<Extractor.Pattern>, tenant: int, d: Delivery): Option<Draft> {
    var m := d.message;
    var (platform, code) := Extractor.Winner(re, patterns, m.sender, m.subject, m.body);
    if code.None? then None
    else Some(Draft(tenant, Some(d.source), m.recipient, m.sender, platform, code.value, m.subject,
                    m.body[..Min(EXCERPT_LIMIT, |m.body|)], m.messageId, d.rawUid,
                    if d.receivedAt.Some? then d.receivedAt.value else d.now))
  }

  /** The row a delivery asks for under given mailboxes and patterns, or None. */
  function Wanted(re: Extractor.Engine, t: Tables, d: Delivery): Option<Draft> {
    if d.message.recipient == "" then None
    else
      var tenant := Owner(TenantOf(t.tenants, d.message.recipient), TenantOf(t.tenants, d.source));
      if tenant.None? then None else Compose(re, t.patterns, tenant.value, d)
  }

  function Stamp(t: Tables, address: string, now: int): Tables {
    if address in t.tenants then t.(lastCodeAt := t.lastCodeAt[address := now]) else t
  }

  /** One whole call, undisturbed. */
  function Deliver(re: Extractor.Engine, t: Tables, d: Delivery): (Tables, Outcome) {
    match Wanted(re, t, d)
    case None => (t, NotStored)
    case Some(draft) =>
      var (codes, inserted) := Insert(t.codes, draft, t.tenants.Keys);
      var t' := t.(codes := codes);
      match inserted
      case MissingSource => (t', Raised)
      case Conflict => (t', NotStored)
      case New(id) =>
        var stamped := Stamp(t', draft.target, d.now);
        (stamped.(notices := t.notices + [Notice(draft.tenant, id, draft.target)]), Stored(id))
  }

  /** The connection: each method is one autocommitted statement. */
  class Database {
    var tenants: map<string, int>
    var lastCodeAt: map<string, int>
    var patterns: seq<Extractor.Pattern>
    var codes: Codes
    var notices: seq<Notice>

    constructor (t: Tables)
      ensures View() == t
    {
      tenants, lastCodeAt, patterns, codes, notices := t.tenants, t.lastCodeAt, t.patterns, t.codes, t.notices;
    }

    function View(): Tables
      reads this
    {
      Tables(tenants, lastCodeAt, patterns, codes, notices)
    }

    method SelectTenant(address: string) returns (tenant: Option<int>)
      ensures tenant == TenantOf(tenants, address)
    {
      tenant := if address in tenants then Some(tenants[address]) else None;
    }

    method InsertCode(draft: Draft) returns (inserted: Inserted)
      modifies this`codes
      ensures (codes, inserted) == Insert(old(codes), draft, tenants.Keys)
    {
      var (after, outcome) := Insert(codes, draft, tenants.Keys);
      codes := after;
      inserted := outcome;
    }

    method TouchLastCode(address: string, now: int)
      modifies this`lastCodeAt
      ensures View() == Stamp(old(View()), address, now)
    {
      if address in tenants {
        lastCodeAt := lastCodeAt[address := now];
      }
    }

    method PgNotify(channel: int, codeId: nat, target: string)
      modifies this`notices
      ensures notices == old(notices) + [Notice(channel, codeId, target)]
    {
      notices := notices + [Notice(channel, codeId, target)];
    }

    /** The statements of `process_and_store` in their order. */
    method ProcessAndStore(re: Extractor.Engine, d: Delivery) returns (outcome: Outcome)
      modifies this
      ensures (View(), outcome) == Deliver(re, old(View()), d)
    {
      var m := d.message;
      if m.recipient == "" {
        return NotStored;
      }
      var targetTenant := SelectTenant(m.recipient);
      var sourceTenant := SelectTenant(d.source);
      var tenantId := Owner(targetTenant, sourceTenant);
      if tenantId.None? {
        return NotStored;
      }

      var result := Extractor.RunExtraction(re, m.sender, m.subject, m.body, patterns);
      if result.code.None? {
        return NotStored;
      }

      var excerpt := m.body[..Min(EXCERPT_LIMIT, |m.body|)];
      var receivedAt := if d.receivedAt.Some? then d.receivedAt.value else d.now;
      var inserted := InsertCode(Draft(
        tenantId.value, Some(d.source), m.recipient, m.sender, result.platform, result.code.value,
        m.subject, excerpt, m.messageId, d.rawUid, receivedAt));
      if inserted.MissingSource? {
        return Raised;
      }
      if inserted.Conflict? {
        return NotStored;
      }

      TouchLastCode(m.recipient, d.now);
      PgNotify(tenantId.value, inserted.id, m.recipient);
      outcome := Stored(inserted.id);
    }
  }

  // ---- any sequence of deliveries ------------------------------------------------------

  /** Every failure is swallowed by the caller, so the next message is always taken. */
  function DeliverAll(re: Extractor.Engine, t: Tables, ds: seq<Delivery>): Tables
    decreases |ds|
  {
    if ds == [] then t else DeliverAll(re, Deliver(re, t, ds[0]).0, ds[1..])
  }

  /** Mailboxes and patterns are the same on both sides. */
  ghost predicate SameRules(t: Tables, t': Tables) {
    t'.tenants == t.tenants && t'.patterns == t.patterns
  }

  /** A row the delivery both asks for and may insert: its source mailbox exists. */
  ghost function Yield(re: Extractor.Engine, t: Tables, d: Delivery): Option<Draft> {
    if d.source in t.tenants then Wanted(re, t, d) else None
  }

  /** When a delivery asks for a row: it has a recipient, its source mailbox is registered, and the first
      pattern whose guards all match captures a code. */
  lemma YieldIff(re: Extractor.Engine, t: Tables, d: Delivery)
    ensures var m := d.message;
      Yield(re, t, d).Some? <==>
        && m.recipient != "" && d.source in t.tenants
        && exists k :: 0 <= k < |t.patterns|
             && Extractor.Fits(re, t.patterns[k], m.sender, m.subject, m.body)
             && (forall j :: 0 <= j < k ==> !Extractor.Fits(re, t.patterns[j], m.sender, m.subject, m.body))
             && Extractor.CodeOf(re, t.patterns[k], m.subject, m.body).Some?
  {
    var m := d.message;
    var k := Extractor.FirstFit(re, t.patterns, m.sender, m.subject, m.body);
    if k < |t.patterns| {
      assert Extractor.Fits(re, t.patterns[k], m.sender, m.subject, m.body);
    }
    forall j | 0 <= j < |t.patterns|
               && Extractor.Fits(re, t.patterns[j], m.sender, m.subject, m.body)
               && (forall i :: 0 <= i < j ==> !Extractor.Fits(re, t.patterns[i], m.sender, m.subject, m.body))
      ensures j == k
    {
      Extractor.FirstFitUnique(re, t.patterns, m.sender, m.subject, m.body, j);
    }
  }

  /** Whose the row is: the tenant of the mailbox the message was sent to, if that is registered under a
      real tenant, else the tenant of the mailbox it was read from. */
  lemma CodeBelongsToTarget(re: Extractor.Engine, t: Tables, d: Delivery)
    requires Yield(re, t, d).Some?
    ensures d.message.recipient in t.tenants && t.tenants[d.message.recipient] != 0 ==>
      Yield(re, t, d).value.tenant == t.tenants[d.message.recipient]
    ensures d.message.recipient !in t.tenants || t.tenants[d.message.recipient] == 0 ==>
      d.source in t.tenants && Yield(re, t, d).value.tenant == t.tenants[d.source]
  {
  }

  /** What else the row says: the message's own headers, at most two thousand characters of its body,
      its UID, and its date, or the clock where it has none. */
  lemma RowTellsTheMessage(re: Extractor.Engine, t: Tables, d: Delivery)
    requires Yield(re, t, d).Some?
    ensures var w, m := Yield(re, t, d).value, d.message;
      && w.source == Some(d.source) && w.target == m.recipient && w.sender == m.sender
      && w.subject == m.subject && w.messageId == m.messageId && w.rawUid == d.rawUid
      && w.excerpt <= m.body && (|w.excerpt| == 2000 || (w.excerpt == m.body && |m.body| < 2000))
      && (d.receivedAt.Some? ==> w.receivedAt == d.receivedAt.value)
      && (d.receivedAt.None? ==> w.receivedAt == d.now)
  {
  }

  /** What a client can tell apart: everything but the mailbox it came through, the headers and times. */
  datatype Facts = Facts(target: string, messageId: Option<string>, tenant: int, platform: Option<string>, code: string)

  function FactsOf(d: Draft): Facts {
    Facts(d.target, d.messageId, d.tenant, d.platform, d.code)
  }

  /** A delivery that stores a row stamps the target mailbox, if it is registered, and sends one notice, on
      the row's tenant's channel, with its id and target; any other stamps nothing and sends none. */
  lemma StoringIsAnnounced(re: Extractor.Engine, t: Tables, d: Delivery)
    requires Valid(t.codes)
    ensures var (t', outcome) := Deliver(re, t, d);
      && (outcome.Stored? <==> |t'.codes.rows| > |t.codes.rows|)
      && if outcome.Stored? then
           && |t'.codes.rows| == |t.codes.rows| + 1
           && var row := t'.codes.rows[|t.codes.rows|];
           && row.id == outcome.id && row.content.target == d.message.recipient
           && t'.notices == t.notices + [Notice(row.content.tenant, row.id, row.content.target)]
           && (forall b :: b != d.message.recipient ==>
                 (b in t'.lastCodeAt <==> b in t.lastCodeAt) && (b in t.lastCodeAt ==> t'.lastCodeAt[b] == t.lastCodeAt[b]))
           && (d.message.recipient in t.tenants ==>
                 d.message.recipient in t'.lastCodeAt && t'.lastCodeAt[d.message.recipient] == d.now)
         else t'.notices == t.notices && t'.lastCodeAt == t.lastCodeAt && t'.codes.rows == t.codes.rows
  {
  }

  /** Facts tell codes apart. */
  lemma SameFactsSameCode(d: Draft, e: Draft)
    requires FactsOf(d) == FactsOf(e)
    ensures d.target == e.target && d.messageId == e.messageId && d.tenant == e.tenant
    ensures d.platform == e.platform && d.code == e.code
  {
  }

  ghost function StoredFacts(codes: Codes): set<Facts> {
    set row | row in codes.rows :: FactsOf(row.content)
  }

  lemma DeliverOnce(re: Extractor.Engine, t: Tables, d: Delivery)
    requires Valid(t.codes)
    ensures var t' := Deliver(re, t, d).0;
      && Valid(t'.codes) && SameRules(t, t')
      && t.codes.rows <= t'.codes.rows
      && (forall e :: Yield(re, t', e) == Yield(re, t, e))
      && (|t'.codes.rows| > |t.codes.rows| ==>
            && |t'.codes.rows| == |t.codes.rows| + 1
            && Yield(re, t, d) == Some(t'.codes.rows[|t.codes.rows|].content))
      && (Yield(re, t, d).Some? ==>
            var w := Yield(re, t, d).value;
            if HasKey(t.codes.rows, w.target, w.messageId) then t'.codes.rows == t.codes.rows
            else |t'.codes.rows| == |t.codes.rows| + 1)
  {
    if Wanted(re, t, d).Some? {
      InsertKeepsValid(t.codes, Wanted(re, t, d).value, t.tenants.Keys);
    }
  }

  /** Nothing already stored is lost, everything new was asked for, and whatever was asked for under
      a key is answered by a row with that key. */
  lemma {:induction false} DeliverAllImage(re: Extractor.Engine, t: Tables, ds: seq<Delivery>)
    requires Valid(t.codes)
    ensures var t' := DeliverAll(re, t, ds);
      && Valid(t'.codes) && SameRules(t, t')
      && t.codes.rows <= t'.codes.rows
      && (forall i :: |t.codes.rows| <= i < |t'.codes.rows| ==>
            && !HasKey(t.codes.rows, t'.codes.rows[i].content.target, t'.codes.rows[i].content.messageId)
            && exists d :: d in ds && Yield(re, t, d) == Some(t'.codes.rows[i].content))
      && (forall d :: d in ds && Yield(re, t, d).Some? ==>
            var w := Yield(re, t, d).value;
            if w.messageId.Some? then HasKey(t'.codes.rows, w.target, w.messageId)
            else FactsOf(w) in StoredFacts(t'.codes))
    decreases |ds|
  {
    if ds != [] {
      var d := ds[0];
      var t1 := Deliver(re, t, d).0;
      var t' := DeliverAll(re, t, ds);
      DeliverOnce(re, t, d);
      DeliverAllImage(re, t1, ds[1..]);
      forall i | |t.codes.rows| <= i < |t'.codes.rows|
        ensures !HasKey(t.codes.rows, t'.codes.rows[i].content.target, t'.codes.rows[i].content.messageId)
        ensures exists e :: e in ds && Yield(re, t, e) == Some(t'.codes.rows[i].content)
      {
        var c := t'.codes.rows[i].content;
        if i < |t1.codes.rows| {
          assert t'.codes.rows[i] == t1.codes.rows[i];
          assert d in ds && Yield(re, t, d) == Some(c);
        } else {
          var e :| e in ds[1..] && Yield(re, t1, e) == Some(c);
          assert e in ds;
        }
        forall k | 0 <= k < |t.codes.rows|
          ensures !Blocks(t.codes.rows[k], c.target, c.messageId)
        {
          assert t1.codes.rows[k] == t.codes.rows[k] && t'.codes.rows[k] == t1.codes.rows[k];
          assert !SameKey(t'.codes.rows[k], t'.codes.rows[i]);
        }
      }
      if Yield(re, t, d).Some? {
        DeliveredIsThere(re, t, d, t');
      }
    }
  }

  /** What one delivery asked for is still answered in any later table. */
  lemma DeliveredIsThere(re: Extractor.Engine, t: Tables, d: Delivery, t': Tables)
    requires Valid(t.codes) && Yield(re, t, d).Some?
    requires Deliver(re, t, d).0.codes.rows <= t'.codes.rows
    ensures var w := Yield(re, t, d).value;
      if w.messageId.Some? then HasKey(t'.codes.rows, w.target, w.messageId)
      else FactsOf(w) in StoredFacts(t'.codes)
  {
    var w := Yield(re, t, d).value;
    var rows, rows1 := t.codes.rows, Deliver(re, t, d).0.codes.rows;
    DeliverOnce(re, t, d);
    if HasKey(rows, w.target, w.messageId) {
      var k :| 0 <= k < |rows| && Blocks(rows[k], w.target, w.messageId);
      assert t'.codes.rows[k] == rows1[k] == rows[k];
    } else {
      assert t'.codes.rows[|rows|] == rows1[|rows|];
      assert rows1[|rows|].content == w;
      assert w.messageId.Some? ==> Blocks(t'.codes.rows[|rows|], w.target, w.messageId);
      assert t'.codes.rows[|rows|] in t'.codes.rows;
    }
  }

  // ---- confluence -----------------------------------------------------------------------

  /** Deliveries that share a non-null key the table does not hold yet ask for the same facts. */
  ghost predicate Agreeing(re: Extractor.Engine, t: Tables, ds: seq<Delivery>) {
    forall d, e :: d in ds && e in ds && SharedNewKey(re, t, d, e) ==>
      FactsOf(Yield(re, t, d).value) == FactsOf(Yield(re, t, e).value)
  }

  ghost predicate SharedNewKey(re: Extractor.Engine, t: Tables, d: Delivery, e: Delivery) {
    && Yield(re, t, d).Some? && Yield(re, t, e).Some?
    && Yield(re, t, d).value.messageId.Some?
    && Yield(re, t, d).value.messageId == Yield(re, t, e).value.messageId
    && Yield(re, t, d).value.target == Yield(re, t, e).value.target
    && !HasKey(t.codes.rows, Yield(re, t, d).value.target, Yield(re, t, d).value.messageId)
  }

  /** Any other order of the same deliveries, with any repetitions, stores the same facts. */
  ghost predicate OrderInsensitive(re: Extractor.Engine, t: Tables, ds: seq<Delivery>) {
    forall es :: Elements(es) == Elements(ds) ==>
      StoredFacts(DeliverAll(re, t, es).codes) == StoredFacts(DeliverAll(re, t, ds).codes)
  }

  ghost function NewFacts(re: Extractor.Engine, t: Tables, ds: set<Delivery>): set<Facts> {
    set d | d in ds && Yield(re, t, d).Some?
            && !HasKey(t.codes.rows, Yield(re, t, d).value.target, Yield(re, t, d).value.messageId)
      :: FactsOf(Yield(re, t, d).value)
  }

  lemma NoFactsFromNowhere(re: Extractor.Engine, t: Tables, ds: seq<Delivery>)
    requires Valid(t.codes)
    ensures StoredFacts(t.codes) <= StoredFacts(DeliverAll(re, t, ds).codes)
    ensures StoredFacts(DeliverAll(re, t, ds).codes) <= StoredFacts(t.codes) + NewFacts(re, t, Elements(ds))
  {
    DeliverAllImage(re, t, ds);
    var rows, rows' := t.codes.rows, DeliverAll(re, t, ds).codes.rows;
    forall row | row in rows'
      ensures row in rows || FactsOf(row.content) in NewFacts(re, t, Elements(ds))
    {
      var i :| 0 <= i < |rows'| && rows'[i] == row;
      if i < |rows| {
        assert rows[i] == row;
      } else {
        var d :| d in ds && Yield(re, t, d) == Some(row.content);
        assert d in Elements(ds);
      }
    }
    forall row | row in rows ensures row in rows' {
      var i :| 0 <= i < |rows| && rows[i] == row;
      assert rows'[i] == row;
    }
  }

  lemma EveryWantedFactIsThere(re: Extractor.Engine, t: Tables, ds: seq<Delivery>, d: Delivery)
    requires Valid(t.codes) && Agreeing(re, t, ds) && d in ds && Yield(re, t, d).Some?
    requires !HasKey(t.codes.rows, Yield(re, t, d).value.target, Yield(re, t, d).value.messageId)
    ensures FactsOf(Yield(re, t, d).value) in StoredFacts(DeliverAll(re, t, ds).codes)
  {
    DeliverAllImage(re, t, ds);
    var w := Yield(re, t, d).value;
    var rows, rows' := t.codes.rows, DeliverAll(re, t, ds).codes.rows;
    assert forall k | 0 <= k < |rows| :: rows'[k] == rows[k];
    if w.messageId.Some? {
      var i :| 0 <= i < |rows'| && Blocks(rows'[i], w.target, w.messageId);
      var e :| e in ds && Yield(re, t, e) == Some(rows'[i].content);
      assert SharedNewKey(re, t, d, e);
      assert rows'[i] in rows';
    }
  }

  /** With agreeing deliveries the final facts depend on the set of deliveries only. */
  lemma AgreeingImage(re: Extractor.Engine, t: Tables, ds: seq<Delivery>)
    requires Valid(t.codes) && Agreeing(re, t, ds)
    ensures StoredFacts(DeliverAll(re, t, ds).codes) == StoredFacts(t.codes) + NewFacts(re, t, Elements(ds))
  {
    NoFactsFromNowhere(re, t, ds);
    forall f | f in NewFacts(re, t, Elements(ds))
      ensures f in StoredFacts(DeliverAll(re, t, ds).codes)
    {
      var d :| d in Elements(ds) && Yield(re, t, d).Some? && FactsOf(Yield(re, t, d).value) == f
        && !HasKey(t.codes.rows, Yield(re, t, d).value.target, Yield(re, t, d).value.messageId);
      EveryWantedFactIsThere(re, t, ds, d);
    }
  }

  /** The first of two deliveries with one key decides the facts stored under it. */
  lemma FirstComerWins(re: Extractor.Engine, t: Tables, d: Delivery, ds: seq<Delivery>)
    requires Valid(t.codes) && Yield(re, t, d).Some? && Yield(re, t, d).value.messageId.Some?
    requires !HasKey(t.codes.rows, Yield(re, t, d).value.target, Yield(re, t, d).value.messageId)
    ensures var w := Yield(re, t, d).value;
      forall f | f in StoredFacts(DeliverAll(re, t, [d] + ds).codes) ::
        f.target == w.target && f.messageId == w.messageId ==> f == FactsOf(w)
    ensures FactsOf(Yield(re, t, d).value) in StoredFacts(DeliverAll(re, t, [d] + ds).codes)
  {
    var w := Yield(re, t, d).value;
    var n := |t.codes.rows|;
    assert ([d] + ds)[1..] == ds;
    var t1 := Deliver(re, t, d).0;
    var t' := DeliverAll(re, t, [d] + ds);
    DeliverOnce(re, t, d);
    DeliverAllImage(re, t1, ds);
    assert t'.codes.rows[n] == t1.codes.rows[n];
    assert Blocks(t'.codes.rows[n], w.target, w.messageId);
    assert t'.codes.rows[n] in t'.codes.rows;
    ValidKeyIsExactlyOne(t'.codes, w.target, w.messageId);
  }

  lemma OrderInsensitiveAgree(re: Extractor.Engine, t: Tables, ds: seq<Delivery>, d: Delivery, e: Delivery)
    requires Valid(t.codes) && OrderInsensitive(re, t, ds)
    requires d in ds && e in ds && SharedNewKey(re, t, d, e)
    ensures FactsOf(Yield(re, t, d).value) == FactsOf(Yield(re, t, e).value)
  {
    FirstComerWins(re, t, d, ds);
    FirstComerWins(re, t, e, ds);
    assert Elements([d] + ds) == Elements(ds);
    assert Elements([e] + ds) == Elements(ds);
  }

  /** Redelivery is harmless exactly when deliveries that share a new key agree: for any table and any
      deliveries, every order with every repetition stores the same facts if and only if no two of them
      ask for different facts under one key that is not stored yet. */
  lemma OrderInsensitiveIffAgreeing(re: Extractor.Engine, t: Tables, ds: seq<Delivery>)
    requires Valid(t.codes)
    ensures OrderInsensitive(re, t, ds) <==> Agreeing(re, t, ds)
  {
    if Agreeing(re, t, ds) {
      AgreeingImage(re, t, ds);
      forall es | Elements(es) == Elements(ds)
        ensures StoredFacts(DeliverAll(re, t, es).codes) == StoredFacts(DeliverAll(re, t, ds).codes)
      {
        SameElementsAgree(re, t, ds, es);
        AgreeingImage(re, t, es);
      }
    }
    if OrderInsensitive(re, t, ds) {
      forall d, e | d in ds && e in ds && SharedNewKey(re, t, d, e)
        ensures FactsOf(Yield(re, t, d).value) == FactsOf(Yield(re, t, e).value)
      {
        OrderInsensitiveAgree(re, t, ds, d, e);
      }
    }
  }

  lemma SameElementsAgree(re: Extractor.Engine, t: Tables, ds: seq<Delivery>, es: seq<Delivery>)
    requires Agreeing(re, t, ds) && Elements(es) == Elements(ds)
    ensures Agreeing(re, t, es)
  {
    forall d | d in es ensures d in ds {
      assert d in Elements(es);
      assert d in Elements(ds);
    }
  }

  /** Same recipient and Message-ID, same message. */
  ghost predicate OneContentPerId(ds: seq<Delivery>) {
    forall d, e | d in ds && e in ds && d.message.messageId.Some? ::
      d.message.recipient == e.message.recipient && d.message.messageId == e.message.messageId ==>
        d.message == e.message
  }

  /** The target's tenant wins: for a registered target it makes no difference through which
      registered mailbox the message is read. */
  lemma TargetTenantWins(re: Extractor.Engine, t: Tables, d: Delivery, e: Delivery)
    requires d.message == e.message && d.source in t.tenants && e.source in t.tenants
    requires HasRealTenant(t, d.message.recipient)
    ensures Yield(re, t, d).Some? == Yield(re, t, e).Some?
    ensures Yield(re, t, d).Some? ==> FactsOf(Yield(re, t, d).value) == FactsOf(Yield(re, t, e).value)
  {
  }

  predicate HasRealTenant(t: Tables, address: string) {
    address in t.tenants && t.tenants[address] >= 1
  }

  ghost predicate TargetsRegistered(t: Tables, ds: seq<Delivery>) {
    forall d :: d in ds ==> HasRealTenant(t, d.message.recipient)
  }

  /** The messages read through some registered mailbox, whichever it is. */
  ghost function MessagesRead(t: Tables, ds: seq<Delivery>): set<Message> {
    set d | d in ds && d.source in t.tenants :: d.message
  }

  lemma NewFactsByMessage(re: Extractor.Engine, t: Tables, ds: seq<Delivery>, es: seq<Delivery>)
    requires TargetsRegistered(t, ds) && MessagesRead(t, ds) <= MessagesRead(t, es)
    ensures NewFacts(re, t, Elements(ds)) <= NewFacts(re, t, Elements(es))
  {
    forall f | f in NewFacts(re, t, Elements(ds)) ensures f in NewFacts(re, t, Elements(es)) {
      var d :| d in Elements(ds) && Yield(re, t, d).Some? && FactsOf(Yield(re, t, d).value) == f
        && !HasKey(t.codes.rows, Yield(re, t, d).value.target, Yield(re, t, d).value.messageId);
      assert d.message in MessagesRead(t, es);
      var e :| e in es && e.source in t.tenants && e.message == d.message;
      TargetTenantWins(re, t, d, e);
      assert e in Elements(es);
    }
  }

  lemma OneContentAgrees(re: Extractor.Engine, t: Tables, ds: seq<Delivery>)
    requires OneContentPerId(ds) && TargetsRegistered(t, ds)
    ensures Agreeing(re, t, ds)
  {
    forall d, e | d in ds && e in ds && SharedNewKey(re, t, d, e)
      ensures FactsOf(Yield(re, t, d).value) == FactsOf(Yield(re, t, e).value)
    {
      assert d.message == e.message;
      TargetTenantWins(re, t, d, e);
    }
  }

  /** Confluence: when targets are registered under real tenants and a Message-ID has one content, all
      that matters is which messages are read. It does not matter through which registered mailboxes,
      in which order, or how often. */
  lemma Confluence(re: Extractor.Engine, t: Tables, ds: seq<Delivery>, es: seq<Delivery>)
    requires Valid(t.codes) && MessagesRead(t, ds) == MessagesRead(t, es)
    requires OneContentPerId(ds) && TargetsRegistered(t, ds)
    requires OneContentPerId(es) && TargetsRegistered(t, es)
    ensures StoredFacts(DeliverAll(re, t, ds).codes) == StoredFacts(DeliverAll(re, t, es).codes)
  {
    OneContentAgrees(re, t, ds);
    OneContentAgrees(re, t, es);
    AgreeingImage(re, t, ds);
    AgreeingImage(re, t, es);
    NewFactsByMessage(re, t, ds, es);
    NewFactsByMessage(re, t, es, ds);
  }

  /** Without a registered target it does matter: one message read through the mailboxes of two
      tenants is stored for whichever comes first. */
  lemma UnregisteredTargetGoesToTheFirst() returns (re: Extractor.Engine, t: Tables, ds: seq<Delivery>)
    ensures Valid(t.codes) && t.codes.rows == []
    ensures |ds| == 2 && ds[0].message == ds[1].message && ds[0].message.recipient !in t.tenants
    ensures !OrderInsensitive(re, t, ds)
  {
    re := (pattern, text) => Extractor.Hit("1", []);
    var rule := Extractor.Pattern(0, "p", "any", 0, None, None, "c", "both");
    t := Tables(map["a@x" := 1, "b@x" := 2], map[], [rule], Codes([], 0), []);
    var m := Message("s", "c@y", "", "", Some("id"));
    var d, e := Delivery("a@x", m, None, None, 0), Delivery("b@x", m, None, None, 0);
    ds := [d, e];
    assert Extractor.FirstFit(re, [rule], m.sender, m.subject, m.body) == 0;
    assert Yield(re, t, d).value.tenant == 1 && Yield(re, t, e).value.tenant == 2;
    assert d in ds && e in ds && SharedNewKey(re, t, d, e);
    OrderInsensitiveIffAgreeing(re, t, ds);
  }

  // ---- what a delivery is owed --------------------------------------------------------------

  /** If the delivery yields a row, the table has it: exactly one under its key, or, without a
      Message-ID, at least one with its facts. */
  ghost predicate Answered(re: Extractor.Engine, rules: Tables, d: Delivery, codes: Codes) {
    Yield(re, rules, d).Some? ==>
      var w := Yield(re, rules, d).value;
      if w.messageId.Some? then ExactlyOne(codes.rows, w.target, w.messageId)
      else FactsOf(w) in StoredFacts(codes)
  }

  /** The facts message `m`, read through mailbox `a`, should leave in the table, if any. */
  ghost function YieldedFacts(re: Extractor.Engine, rules: Tables, a: string, m: Message): Option<Facts> {
    var y := Yield(re, rules, Delivery(a, m, None, None, 0));
    if y.Some? then Some(FactsOf(y.value)) else None
  }

  /** What a delivery is owed depends on its source and its message alone, not on clock or date. */
  lemma AnsweredAlike(re: Extractor.Engine, rules: Tables, d: Delivery, e: Delivery, codes: Codes)
    requires d.source == e.source && d.message == e.message
    ensures Yield(re, rules, d).Some? == Yield(re, rules, e).Some?
    ensures Yield(re, rules, d).Some? ==> FactsOf(Yield(re, rules, d).value) == FactsOf(Yield(re, rules, e).value)
    ensures Answered(re, rules, d, codes) == Answered(re, rules, e, codes)
  {
  }

  /** Rows keep their ids, tenants, targets, keys and codes; new ones are added at the end. */
  ghost predicate RowsPersist(rows: seq<CodeRow>, rows': seq<CodeRow>) {
    && |rows| <= |rows'|
    && forall i :: 0 <= i < |rows| ==>
         rows'[i].id == rows[i].id && FactsOf(rows'[i].content) == FactsOf(rows[i].content)
  }

  lemma OneRowPersists(rows: seq<CodeRow>, codes': Codes, target: string, messageId: Option<string>)
    requires RowsPersist(rows, codes'.rows) && Valid(codes') && ExactlyOne(rows, target, messageId)
    ensures ExactlyOne(codes'.rows, target, messageId)
  {
    var i :| 0 <= i < |rows| && Blocks(rows[i], target, messageId);
    assert FactsOf(codes'.rows[i].content) == FactsOf(rows[i].content);
    assert Blocks(codes'.rows[i], target, messageId);
    ValidKeyIsExactlyOne(codes', target, messageId);
  }

  lemma AnsweredPersists(re: Extractor.Engine, rules: Tables, d: Delivery, codes: Codes, codes': Codes)
    requires RowsPersist(codes.rows, codes'.rows) && Valid(codes') && Answered(re, rules, d, codes)
    ensures Answered(re, rules, d, codes')
  {
    if Yield(re, rules, d).Some? {
      var w := Yield(re, rules, d).value;
      if w.messageId.Some? {
        OneRowPersists(codes.rows, codes', w.target, w.messageId);
      } else {
        var row :| row in codes.rows && FactsOf(row.content) == FactsOf(w);
        var i :| 0 <= i < |codes.rows| && codes.rows[i] == row;
        assert codes'.rows[i] in codes'.rows;
      }
    }
  }

  /** The INSERT of what a delivery asks for leaves it answered. */
  lemma InsertAnswers(re: Extractor.Engine, t: Tables, d: Delivery)
    requires Valid(t.codes) && Wanted(re, t, d).Some?
    ensures Answered(re, t, d, Insert(t.codes, Wanted(re, t, d).value, t.tenants.Keys).0)
  {
    var w := Wanted(re, t, d).value;
    if d.source in t.tenants {
      if w.messageId.Some? {
        InsertLeavesExactlyOne(t.codes, w, t.tenants.Keys);
      } else {
        var rows := Insert(t.codes, w, t.tenants.Keys).0.rows;
        assert rows[|rows| - 1] in rows;
      }
    }
  }
}
