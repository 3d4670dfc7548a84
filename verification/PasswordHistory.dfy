/** The password rows against the last password a client supplied. */
module PasswordHistory {
  import opened Common
  import opened Mailboxes

  datatype Event = Save(q: Request) | Remove(address: string) | Spoil(address: string, index: nat)

  /** What a client remembers: per address, the last password accepted and how often a call reported
      a change, since the mailbox was last created. */
  datatype Ledger = Ledger(last: map<string, string>, changes: map<string, nat>)

  datatype World = World(t: Tables, ledger: Ledger)

  function ChangesOf(ledger: Ledger, address: string): nat {
    if address in ledger.changes then ledger.changes[address] else 0
  }

  function Note(ledger: Ledger, q: Request, r: Response): Ledger {
    if r.Rejected? then ledger
    else Ledger(
      if Given(q.password) then ledger.last[q.address := q.password.value] else ledger.last,
      if r.passwordChanged then ledger.changes[q.address := ChangesOf(ledger, q.address) + 1] else ledger.changes)
  }

  function Apply(providers: Providers, w: World, e: Event): World {
    match e
    case Save(q) =>
      var (t, r) := Upsert(providers, w.t, q);
      World(t, Note(w.ledger, q, r))
    case Remove(a) => World(Delete(w.t, a), Ledger(w.ledger.last - {a}, w.ledger.changes - {a}))
    case Spoil(a, i) =>
      if a in w.t.passwords && i < |w.t.passwords[a]|
      then w.(t := w.t.(passwords := w.t.passwords[a := w.t.passwords[a][i := w.t.passwords[a][i].(cipher := Damaged)]]))
      else w
  }

  function Run(providers: Providers, w: World, es: seq<Event>): World
    decreases |es|
  {
    if es == [] then w else Run(providers, Apply(providers, w, es[0]), es[1..])
  }

  const Start: World := World(Tables(map[], map[]), Ledger(map[], map[]))

  /** One current row, the last; it opens to the remembered password unless it is damaged; neighbours
      that both open are different; as many rows as reported changes. */
  ghost predicate Refines(rows: seq<PasswordRow>, last: Option<string>, changes: nat) {
    && |rows| == changes
    && (rows == [] <==> last == None)
    && (forall i :: 0 <= i < |rows| ==> (rows[i].current <==> i == |rows| - 1))
    && (rows != [] ==> rows[|rows| - 1].cipher == Damaged || Decrypt(rows[|rows| - 1].cipher) == last)
    && (forall i :: 0 <= i < |rows| - 1 ==>
          rows[i].cipher == Damaged || rows[i + 1].cipher == Damaged || rows[i].cipher != rows[i + 1].cipher)
  }

  ghost function Remembered(ledger: Ledger, a: string): Option<string> {
    if a in ledger.last then Some(ledger.last[a]) else None
  }

  ghost predicate Faithful(w: World) {
    && (forall a :: Refines(RowsOf(w.t.passwords, a), Remembered(w.ledger, a), ChangesOf(w.ledger, a)))
    && (forall a :: a in w.t.passwords ==> a in w.t.mailboxes)
  }

  lemma KeepPasswordRefines(rows: seq<PasswordRow>, last: Option<string>, changes: nat, password: string)
    requires Refines(rows, last, changes)
    ensures var (rows', changed) := KeepPassword(rows, password);
      Refines(rows', Some(password), if changed then changes + 1 else changes)
  {
  }

  lemma ApplyKeepsFaithful(providers: Providers, w: World, e: Event)
    requires Faithful(w)
    ensures Faithful(Apply(providers, w, e))
  {
    var w' := Apply(providers, w, e);
    forall a
      ensures Refines(RowsOf(w'.t.passwords, a), Remembered(w'.ledger, a), ChangesOf(w'.ledger, a))
    {
      var rows := RowsOf(w.t.passwords, a);
      assert Refines(rows, Remembered(w.ledger, a), ChangesOf(w.ledger, a));
      if e.Save? && e.q.address == a && CheckRequest(providers, w.t, e.q).None? && Given(e.q.password) {
        KeepPasswordRefines(rows, Remembered(w.ledger, a), ChangesOf(w.ledger, a), e.q.password.value);
      }
    }
  }

  lemma {:induction false} RunKeepsFaithful(providers: Providers, w: World, es: seq<Event>)
    requires Faithful(w)
    ensures Faithful(Run(providers, w, es))
    decreases |es|
  {
    if es != [] {
      ApplyKeepsFaithful(providers, w, es[0]);
      RunKeepsFaithful(providers, Apply(providers, w, es[0]), es[1..]);
    }
  }

  /** The history refines a plain map from address to password: after any requests, deletions and
      damage, an address has a password row exactly when some accepted request gave a non-empty
      password, its one current row is the newest and opens to the last one given, and it has one row
      per reported change. */
  lemma PasswordHistoryRefinesLast(providers: Providers, es: seq<Event>, a: string)
    ensures var w := Run(providers, Start, es);
      Refines(RowsOf(w.t.passwords, a), Remembered(w.ledger, a), ChangesOf(w.ledger, a))
  {
    RunKeepsFaithful(providers, Start, es);
  }

  /** Rows are only appended, a row once invalidated is never current again, and an intact ciphertext
      never changes. */
  ghost predicate Grows(rows: seq<PasswordRow>, rows': seq<PasswordRow>) {
    && |rows| <= |rows'|
    && forall i :: 0 <= i < |rows| ==>
         && (rows'[i].current ==> rows[i].current)
         && (rows'[i].cipher == rows[i].cipher || rows'[i].cipher == Damaged)
  }

  lemma ApplyGrows(providers: Providers, w: World, e: Event, a: string)
    requires e != Remove(a)
    ensures Grows(RowsOf(w.t.passwords, a), RowsOf(Apply(providers, w, e).t.passwords, a))
  {
  }

  lemma {:induction false} HistoryGrows(providers: Providers, w: World, es: seq<Event>, a: string)
    requires Remove(a) !in es
    ensures Grows(RowsOf(w.t.passwords, a), RowsOf(Run(providers, w, es).t.passwords, a))
    decreases |es|
  {
    if es != [] {
      var w1 := Apply(providers, w, es[0]);
      assert es[0] in es;
      assert Remove(a) !in es[1..];
      ApplyGrows(providers, w, es[0], a);
      HistoryGrows(providers, w1, es[1..], a);
    }
  }

  /** Proxy and forwarding target, once given, stay over any requests that do not speak of them. */
  lemma {:induction false} SettingsStay(providers: Providers, w: World, es: seq<Event>, a: string)
    requires a in w.t.mailboxes && Remove(a) !in es
    requires forall i :: 0 <= i < |es| && es[i].Save? && es[i].q.address == a ==>
      es[i].q.proxy == None && es[i].q.forwardingTarget == None
    ensures var t' := Run(providers, w, es).t;
      && a in t'.mailboxes
      && t'.mailboxes[a].proxy == w.t.mailboxes[a].proxy
      && t'.mailboxes[a].forwardingTarget == w.t.mailboxes[a].forwardingTarget
    decreases |es|
  {
    if es != [] {
      assert es[0] in es && Remove(a) !in es[1..];
      ApplyKeepsSettings(providers, w, es[0], a);
      SettingsStay(providers, Apply(providers, w, es[0]), es[1..], a);
    }
  }

  lemma ApplyKeepsSettings(providers: Providers, w: World, e: Event, a: string)
    requires a in w.t.mailboxes && e != Remove(a)
    requires e.Save? && e.q.address == a ==> e.q.proxy == None && e.q.forwardingTarget == None
    ensures var t' := Apply(providers, w, e).t;
      && a in t'.mailboxes
      && t'.mailboxes[a].proxy == w.t.mailboxes[a].proxy
      && t'.mailboxes[a].forwardingTarget == w.t.mailboxes[a].forwardingTarget
  {
    if e.Save? && Upsert(providers, w.t, e.q).1.Upserted? {
      UpsertWritesItsOwn(providers, w.t, e.q);
    }
  }

  /** Deleting a mailbox takes its row and its password rows, and nobody else's. */
  lemma RemoveTakesItsOwn(t: Tables, a: string)
    ensures a !in Delete(t, a).mailboxes && RowsOf(Delete(t, a).passwords, a) == []
    ensures forall b :: b != a ==>
      && (b in Delete(t, a).mailboxes <==> b in t.mailboxes)
      && (b in t.mailboxes ==> Delete(t, a).mailboxes[b] == t.mailboxes[b])
      && RowsOf(Delete(t, a).passwords, b) == RowsOf(t.passwords, b)
  {
  }

  /** The events of a run without the requests that were refused when they were made. */
  function Accepted(providers: Providers, w: World, es: seq<Event>): seq<Event>
    decreases |es|
  {
    if es == [] then []
    else
      var later := Accepted(providers, Apply(providers, w, es[0]), es[1..]);
      if es[0].Save? && Upsert(providers, w.t, es[0].q).1.Rejected? then later else [es[0]] + later
  }

  /** Refused requests leave no trace: any run comes to the same without them. */
  lemma {:induction false} RefusedLeaveNoTrace(providers: Providers, w: World, es: seq<Event>)
    ensures Run(providers, w, Accepted(providers, w, es)) == Run(providers, w, es)
    decreases |es|
  {
    if es != [] {
      var w1 := Apply(providers, w, es[0]);
      var later := Accepted(providers, w1, es[1..]);
      RefusedLeaveNoTrace(providers, w1, es[1..]);
      assert ([es[0]] + later)[1..] == later;
    }
  }
}
