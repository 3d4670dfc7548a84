/** Everything that writes mailbox rows, interleaved statement by statement: upserts and deletions, the
    headless OAuth workers, the consent callback and the token refresher. */
module OAuthLifecycle {
  import opened Common
  import opened Mailboxes

  const MAX_ATTEMPTS: nat := 3

  // ---- the statements -----------------------------------------------------------------------

  predicate Claimable(m: Mailbox) {
    m.status == PendingOAuthHeadless && m.active && m.attempts < MAX_ATTEMPTS
  }

  /** The row the claiming UPDATE selects: eligible, and none eligible is older. */
  predicate Oldest(t: Tables, a: string) {
    && a in t.mailboxes && Claimable(t.mailboxes[a])
    && forall b :: b in t.mailboxes && Claimable(t.mailboxes[b]) ==> t.mailboxes[a].created <= t.mailboxes[b].created
  }

  function MarkClaimed(t: Tables, a: string): Tables {
    if a !in t.mailboxes then t
    else t.(mailboxes := t.mailboxes[a :=
      t.mailboxes[a].(status := PendingOAuthHeadless, attempts := t.mailboxes[a].attempts + 1)])
  }

  function MarkFailed(t: Tables, a: string): Tables {
    if a !in t.mailboxes then t else t.(mailboxes := t.mailboxes[a := t.mailboxes[a].(status := NoPath)])
  }

  function MarkActive(t: Tables, a: string, refresh: string): Tables {
    if a !in t.mailboxes then t
    else t.(mailboxes := t.mailboxes[a :=
      t.mailboxes[a].(status := OAuthActive, refresh := Some(Encrypt(refresh)), consent := None)])
  }

  function MarkManual(t: Tables, a: string, state: string): Tables {
    if a !in t.mailboxes then t
    else t.(mailboxes := t.mailboxes[a := t.mailboxes[a].(status := PendingOAuthManual, consent := Some(state))])
  }

  /** `COALESCE($4, oauth_refresh_token_encrypted)` keeps the old refresh token when none came back. */
  function StoreTokens(t: Tables, a: string, access: string, expires: int, rotated: Option<string>): Tables {
    if a !in t.mailboxes then t
    else
      var m := t.mailboxes[a];
      t.(mailboxes := t.mailboxes[a :=
        m.(access := Some(Encrypt(access)), accessExpires := Some(expires),
           refresh := if rotated.Some? && rotated.value != "" then Some(Encrypt(rotated.value)) else m.refresh)])
  }

  /** The stored current password of a mailbox, if there is one that opens. */
  function UsablePassword(t: Tables, a: string): Option<string> {
    var rows := RowsOf(t.passwords, a);
    match CurrentIndex(rows)
    case None => None
    case Some(i) => Decrypt(rows[i].cipher)
  }

  /** The newest current password row of the mailbox holds an undamaged password. */
  ghost predicate HasOpenPassword(t: Tables, a: string) {
    a in t.passwords && exists i ::
      && 0 <= i < |t.passwords[a]|
      && t.passwords[a][i].current && t.passwords[a][i].cipher.Sealed?
      && forall j :: i < j < |t.passwords[a]| ==> !t.passwords[a][j].current
  }

  lemma {:induction false} CurrentIsLast(rows: seq<PasswordRow>, i: nat)
    requires i < |rows| && rows[i].current && forall j :: i < j < |rows| ==> !rows[j].current
    ensures CurrentIndex(rows) == Some(i)
    decreases |rows|
  {
    if i < |rows| - 1 {
      CurrentIsLast(rows[..|rows| - 1], i);
    }
  }

  lemma {:induction false} CurrentHasNoneAfter(rows: seq<PasswordRow>)
    requires CurrentIndex(rows).Some?
    ensures forall j :: CurrentIndex(rows).value < j < |rows| ==> !rows[j].current
    decreases |rows|
  {
    if !rows[|rows| - 1].current {
      CurrentHasNoneAfter(rows[..|rows| - 1]);
    }
  }

  lemma UsablePasswordIff(t: Tables, a: string)
    ensures UsablePassword(t, a).Some? <==> HasOpenPassword(t, a)
  {
    var rows := RowsOf(t.passwords, a);
    if HasOpenPassword(t, a) {
      var i :| 0 <= i < |rows| && rows[i].current && rows[i].cipher.Sealed?
        && forall j :: i < j < |rows| ==> !rows[j].current;
      CurrentIsLast(rows, i);
    }
    if UsablePassword(t, a).Some? {
      CurrentHasNoneAfter(rows);
      var i := CurrentIndex(rows).value;
      assert rows[i].current && rows[i].cipher.Sealed?;
    }
  }

  /** All mailboxes but `a` are as they were, and `a` in all but attempts, status and tokens. */
  ghost predicate WritesOnly(t: Tables, t': Tables, a: string) {
    && t'.passwords == t.passwords && t'.mailboxes.Keys == t.mailboxes.Keys
    && (forall b :: b in t.mailboxes && b != a ==> t'.mailboxes[b] == t.mailboxes[b])
    && (a in t.mailboxes ==>
          var m, m' := t.mailboxes[a], t'.mailboxes[a];
          && m'.tenant == m.tenant && m'.provider == m.provider && m'.isGroup == m.isGroup
          && m'.purpose == m.purpose && m'.notes == m.notes && m'.proxy == m.proxy && m'.mode == m.mode
          && m'.forwardingTarget == m.forwardingTarget && m'.active == m.active && m'.created == m.created)
  }

  /** What saving the answer to a refresh leaves: the new access token and its expiry, always; the rotated
      refresh token, if one came, else the old one; and nothing else. */
  lemma SavedTokens(t: Tables, a: string, access: string, expires: int, rotated: Option<string>)
    ensures var t' := StoreTokens(t, a, access, expires, rotated);
      && WritesOnly(t, t', a)
      && (a in t.mailboxes ==>
            var m, m' := t.mailboxes[a], t'.mailboxes[a];
            && m'.access == Some(Encrypt(access)) && m'.accessExpires == Some(expires)
            && m'.status == m.status && m'.attempts == m.attempts && m'.consent == m.consent
            && (rotated.Some? && rotated.value != "" ==> m'.refresh == Some(Encrypt(rotated.value)))
            && (rotated == None || rotated == Some("") ==> m'.refresh == m.refresh))
  {
  }

  // ---- the step system ------------------------------------------------------------------------

  /** Where an actor stands between two statements. */
  datatype Actor =
    | Idle
    | Claimed(address: string)                      // the claim came back; look up the password
    | Failing(address: string)                      // no usable password; mark the mailbox
    | Driving(address: string)                      // the browser runs
    | Publishing(address: string, state: string)    // the flow row is saved; update the mailbox
    | Exchanging(address: string, state: string)    // the flow row was read; ask for tokens
    | Activated(address: string, state: string)     // the mailbox is updated; delete the flow row
    | Refreshing(address: string, token: Cipher)    // the row was due, with this refresh token; ask for tokens

  /** Flow rows map a state to its address. `known` is the states that ever were in a published
      consent URL, `issued` every state ever saved with its address: both are history. */
  datatype World = World(
    t: Tables, flows: map<string, string>, known: set<string>, issued: map<string, string>, actors: map<nat, Actor>)

  datatype Event =
    | Save(q: Request)
    | Remove(address: string)
    | Spoil(address: string, index: nat)
    | Claim(actor: nat, address: string)
    | LookUp(actor: nat)
    | GiveUp(actor: nat)
    | Succeed(actor: nat, refresh: string)
    | FallThrough(actor: nat, state: string)
    | Publish(actor: nat)
    | ReadFlow(actor: nat, state: string)
    | Activate(actor: nat, refresh: string)
    | DropFlow(actor: nat)
    | SelectDue(actor: nat, address: string)
    | SaveTokens(actor: nat, access: string, expires: int, rotated: Option<string>)
    | Crash(actor: nat)

  function ActorAt(w: World, k: nat): Actor {
    if k in w.actors then w.actors[k] else Idle
  }

  function Goto(w: World, k: nat, actor: Actor): World {
    w.(actors := w.actors[k := actor])
  }

  /** Whether the event can happen. A state is unguessable: a new one was never issued before, and
      only one that was published can be presented to the callback. */
  predicate Enabled(w: World, e: Event) {
    match e
    case Save(_) => true
    case Remove(_) => true
    case Spoil(a, i) => a in w.t.passwords && i < |w.t.passwords[a]|
    case Claim(k, a) => ActorAt(w, k).Idle? && Oldest(w.t, a)
    case LookUp(k) => ActorAt(w, k).Claimed?
    case GiveUp(k) => ActorAt(w, k).Failing?
    case Succeed(k, _) => ActorAt(w, k).Driving?
    case FallThrough(k, state) => ActorAt(w, k).Driving? && state !in w.issued
    case Publish(k) => ActorAt(w, k).Publishing?
    case ReadFlow(k, state) => ActorAt(w, k).Idle? && state in w.known && state in w.flows
    case Activate(k, _) => ActorAt(w, k).Exchanging?
    case DropFlow(k) => ActorAt(w, k).Activated?
    case SelectDue(k, a) =>
      ActorAt(w, k).Idle? && a in w.t.mailboxes && w.t.mailboxes[a].status == OAuthActive && w.t.mailboxes[a].refresh.Some?
    case SaveTokens(k, _, _, _) => ActorAt(w, k).Refreshing?
    case Crash(_) => true
  }

  function Effect(providers: Providers, w: World, e: Event): World
    requires Enabled(w, e)
  {
    match e
    case Save(q) => w.(t := Upsert(providers, w.t, q).0)
    case Remove(a) => w.(t := Delete(w.t, a))
    case Spoil(a, i) =>
      w.(t := w.t.(passwords := w.t.passwords[a := w.t.passwords[a][i := w.t.passwords[a][i].(cipher := Damaged)]]))
    case Claim(k, a) => Goto(w.(t := MarkClaimed(w.t, a)), k, Claimed(a))
    case LookUp(k) =>
      var a := ActorAt(w, k).address;
      Goto(w, k, if UsablePassword(w.t, a).Some? then Driving(a) else Failing(a))
    case GiveUp(k) => Goto(w.(t := MarkFailed(w.t, ActorAt(w, k).address)), k, Idle)
    case Succeed(k, refresh) => Goto(w.(t := MarkActive(w.t, ActorAt(w, k).address, refresh)), k, Idle)
    case FallThrough(k, state) =>
      var a := ActorAt(w, k).address;
      Goto(w.(flows := w.flows[state := a], issued := w.issued[state := a]), k, Publishing(a, state))
    case Publish(k) =>
      var a, state := ActorAt(w, k).address, ActorAt(w, k).state;
      Goto(w.(t := MarkManual(w.t, a, state), known := if a in w.t.mailboxes then w.known + {state} else w.known), k, Idle)
    case ReadFlow(k, state) => Goto(w, k, Exchanging(w.flows[state], state))
    case Activate(k, refresh) =>
      var a := ActorAt(w, k).address;
      Goto(w.(t := MarkActive(w.t, a, refresh)), k, Activated(a, ActorAt(w, k).state))
    case DropFlow(k) => Goto(w.(flows := w.flows - {ActorAt(w, k).state}), k, Idle)
    case SelectDue(k, a) => Goto(w, k, Refreshing(a, w.t.mailboxes[a].refresh.value))
    case SaveTokens(k, access, expires, rotated) =>
      Goto(w.(t := StoreTokens(w.t, ActorAt(w, k).address, access, expires, rotated)), k, Idle)
    case Crash(k) => Goto(w, k, Idle)
  }

  function Apply(providers: Providers, w: World, e: Event): World {
    if Enabled(w, e) then Effect(providers, w, e) else w
  }

  function Run(providers: Providers, w: World, es: seq<Event>): World
    decreases |es|
  {
    if es == [] then w else Run(providers, Apply(providers, w, es[0]), es[1..])
  }

  const Start: World := World(Tables(map[], map[]), map[], {}, map[], map[])

  // ---- lifecycle invariants ---------------------------------------------------------------------

  ghost predicate MailboxOk(providers: Providers, t: Tables, a: string)
    requires a in t.mailboxes
  {
    var m := t.mailboxes[a];
    && (m.status == OAuthActive ==> m.refresh.Some?)
    && (m.status == DirectActive ==>
          && m.provider in providers && providers[m.provider] == Basic
          && CurrentIndex(RowsOf(t.passwords, a)).Some?)
    && (m.isGroup ==> m.status != RelyOnGroups)
    && m.attempts <= MAX_ATTEMPTS
  }

  ghost predicate LifecycleOk(providers: Providers, t: Tables) {
    forall a :: a in t.mailboxes ==> MailboxOk(providers, t, a)
  }

  lemma KeptPasswordIsCurrent(rows: seq<PasswordRow>, password: string)
    ensures CurrentIndex(KeepPassword(rows, password).0).Some?
  {
    var (kept, changed) := KeepPassword(rows, password);
    assert changed ==> kept[|kept| - 1].current;
  }

  lemma SaveKeepsLifecycle(providers: Providers, t: Tables, q: Request)
    requires LifecycleOk(providers, t)
    ensures LifecycleOk(providers, Upsert(providers, t, q).0)
  {
    var t' := Upsert(providers, t, q).0;
    if Given(q.password) {
      KeptPasswordIsCurrent(RowsOf(t.passwords, q.address), q.password.value);
    }
    forall a | a in t'.mailboxes ensures MailboxOk(providers, t', a) {
      if a != q.address || CheckRequest(providers, t, q).Some? {
        assert MailboxOk(providers, t, a);
      }
      assert q.address in t.mailboxes ==> MailboxOk(providers, t, q.address);
    }
  }

  /** Damage never takes a row's place as the current one. */
  lemma SpoilKeepsCurrent(rows: seq<PasswordRow>, i: nat)
    requires i < |rows| && CurrentIndex(rows).Some?
    ensures CurrentIndex(rows[i := rows[i].(cipher := Damaged)]).Some?
  {
    var c := CurrentIndex(rows).value;
    var rows' := rows[i := rows[i].(cipher := Damaged)];
    assert rows'[c].current;
  }

  lemma SpoilKeepsLifecycle(providers: Providers, w: World, a: string, i: nat)
    requires LifecycleOk(providers, w.t) && Enabled(w, Spoil(a, i))
    ensures LifecycleOk(providers, Effect(providers, w, Spoil(a, i)).t)
  {
    var t' := Effect(providers, w, Spoil(a, i)).t;
    forall b | b in t'.mailboxes ensures MailboxOk(providers, t', b) {
      assert MailboxOk(providers, w.t, b);
      if b == a && CurrentIndex(RowsOf(w.t.passwords, b)).Some? {
        SpoilKeepsCurrent(w.t.passwords[a], i);
      }
    }
  }

  /** The remaining statements rewrite one mailbox and leave its kind, provider and passwords alone. */
  lemma RewriteKeepsLifecycle(providers: Providers, t: Tables, t': Tables, a: string)
    requires LifecycleOk(providers, t) && t'.passwords == t.passwords
    requires t'.mailboxes.Keys <= t.mailboxes.Keys
    requires forall b :: b in t'.mailboxes && b != a ==> t'.mailboxes[b] == t.mailboxes[b]
    requires a in t'.mailboxes ==> MailboxOk(providers, t', a)
    ensures LifecycleOk(providers, t')
  {
    forall b | b in t'.mailboxes ensures MailboxOk(providers, t', b) {
      assert MailboxOk(providers, t, b);
    }
  }

  lemma RemoveKeepsLifecycle(providers: Providers, t: Tables, a: string)
    requires LifecycleOk(providers, t)
    ensures LifecycleOk(providers, Delete(t, a))
  {
    forall b | b in Delete(t, a).mailboxes ensures MailboxOk(providers, Delete(t, a), b) {
      assert MailboxOk(providers, t, b);
    }
  }

  lemma ApplyKeepsLifecycle(providers: Providers, w: World, e: Event)
    requires LifecycleOk(providers, w.t)
    ensures LifecycleOk(providers, Apply(providers, w, e).t)
  {
    if Enabled(w, e) {
      match e {
        case Save(q) => SaveKeepsLifecycle(providers, w.t, q);
        case Remove(a) => RemoveKeepsLifecycle(providers, w.t, a);
        case Spoil(a, i) => SpoilKeepsLifecycle(providers, w, a, i);
        case _ => StatementKeepsLifecycle(providers, w, e);
      }
    }
  }

  lemma StatementKeepsLifecycle(providers: Providers, w: World, e: Event)
    requires LifecycleOk(providers, w.t) && Enabled(w, e)
    requires !e.Save? && !e.Remove? && !e.Spoil?
    ensures LifecycleOk(providers, Effect(providers, w, e).t)
  {
    var a := TargetOf(w, e);
    assert a in w.t.mailboxes ==> MailboxOk(providers, w.t, a);
    RewriteKeepsLifecycle(providers, w.t, Effect(providers, w, e).t, a);
  }

  ghost function TargetOf(w: World, e: Event): string {
    match e
    case Claim(_, a) => a
    case GiveUp(k) => if ActorAt(w, k).Failing? then ActorAt(w, k).address else ""
    case Succeed(k, _) => if ActorAt(w, k).Driving? then ActorAt(w, k).address else ""
    case Publish(k) => if ActorAt(w, k).Publishing? then ActorAt(w, k).address else ""
    case Activate(k, _) => if ActorAt(w, k).Exchanging? then ActorAt(w, k).address else ""
    case SaveTokens(k, _, _, _) => if ActorAt(w, k).Refreshing? then ActorAt(w, k).address else ""
    case _ => ""
  }

  lemma {:induction false} RunKeepsLifecycle(providers: Providers, w: World, es: seq<Event>)
    requires LifecycleOk(providers, w.t)
    ensures LifecycleOk(providers, Run(providers, w, es).t)
    decreases |es|
  {
    if es != [] {
      ApplyKeepsLifecycle(providers, w, es[0]);
      RunKeepsLifecycle(providers, Apply(providers, w, es[0]), es[1..]);
    }
  }

  /** In every reachable state: an OAuth-active mailbox has a refresh token, a direct-active one has a
      basic provider and a current password, a group never relies on groups, and no mailbox was
      claimed more than three times. */
  lemma LifecycleInvariant(providers: Providers, es: seq<Event>, a: string)
    ensures var t := Run(providers, Start, es).t;
      a in t.mailboxes ==> MailboxOk(providers, t, a)
  {
    RunKeepsLifecycle(providers, Start, es);
  }

  // ---- the consent flow -----------------------------------------------------------------------

  ghost predicate Awaiting(t: Tables, a: string) {
    a in t.mailboxes && t.mailboxes[a].status == PendingOAuthManual
  }

  /** A mailbox that awaits consent shows a URL whose state still has its flow row, for that mailbox. */
  ghost predicate ConsentUsable(w: World, a: string) {
    Awaiting(w.t, a) ==>
      && w.t.mailboxes[a].consent.Some?
      && w.t.mailboxes[a].consent.value in w.flows
      && w.flows[w.t.mailboxes[a].consent.value] == a
  }

  ghost predicate NobodyAwaits(t: Tables, state: string) {
    forall a :: Awaiting(t, a) ==> t.mailboxes[a].consent != Some(state)
  }

  ghost predicate ActorOk(w: World, actor: Actor) {
    match actor
    case Publishing(a, state) =>
      state in w.flows && w.flows[state] == a && state !in w.known
    case Exchanging(a, state) => state in w.known && state in w.issued && w.issued[state] == a
    case Activated(a, state) => state in w.known && NobodyAwaits(w.t, state)
    case _ => true
  }

  ghost predicate ConsentOk(w: World) {
    && (forall a :: ConsentUsable(w, a))
    && (forall a :: Awaiting(w.t, a) && w.t.mailboxes[a].consent.Some? ==> w.t.mailboxes[a].consent.value in w.known)
    && (forall state :: state in w.flows ==> state in w.issued && w.issued[state] == w.flows[state])
    && (forall state :: state in w.known ==> state in w.issued)
    && (forall k :: k in w.actors ==> ActorOk(w, w.actors[k]))
    && (forall j, k :: j in w.actors && k in w.actors && j != k && w.actors[j].Publishing? && w.actors[k].Publishing? ==>
          w.actors[j].state != w.actors[k].state)
  }

  /** Fewer or the same mailboxes await, with the same URLs; nothing else about consent moves, except
      that one actor takes a stance already justified. */
  lemma QuietKeepsConsent(w: World, w': World, k: nat)
    requires ConsentOk(w)
    requires forall a :: Awaiting(w'.t, a) ==> Awaiting(w.t, a) && w'.t.mailboxes[a].consent == w.t.mailboxes[a].consent
    requires w'.flows == w.flows && w'.known == w.known && w'.issued == w.issued
    requires forall j :: j in w'.actors ==> (j in w.actors && w'.actors[j] == w.actors[j]) || j == k
    requires k in w'.actors && !(k in w.actors && w'.actors[k] == w.actors[k]) ==>
      ActorOk(w', w'.actors[k]) && !w'.actors[k].Publishing?
    ensures ConsentOk(w')
  {
    forall a ensures ConsentUsable(w', a) {
      assert ConsentUsable(w, a);
    }
    forall j | j in w'.actors ensures ActorOk(w', w'.actors[j]) {
      if j in w.actors && w'.actors[j] == w.actors[j] {
        assert ActorOk(w, w.actors[j]);
      }
    }
  }

  lemma SaveNeverAwaits(providers: Providers, t: Tables, q: Request, a: string)
    requires Awaiting(Upsert(providers, t, q).0, a)
    ensures Awaiting(t, a) && Upsert(providers, t, q).0.mailboxes[a] == t.mailboxes[a]
  {
  }

  lemma FallThroughKeepsConsent(providers: Providers, w: World, k: nat, state: string)
    requires ConsentOk(w) && Enabled(w, FallThrough(k, state))
    ensures ConsentOk(Effect(providers, w, FallThrough(k, state)))
  {
    var w' := Effect(providers, w, FallThrough(k, state));
    forall a ensures ConsentUsable(w', a) {
      assert ConsentUsable(w, a);
    }
    forall j | j in w'.actors ensures ActorOk(w', w'.actors[j]) {
      assert j in w.actors ==> ActorOk(w, w.actors[j]);
    }
  }

  lemma PublishKeepsConsent(providers: Providers, w: World, k: nat)
    requires ConsentOk(w) && Enabled(w, Publish(k))
    ensures ConsentOk(Effect(providers, w, Publish(k)))
  {
    var w' := Effect(providers, w, Publish(k));
    var a, state := ActorAt(w, k).address, ActorAt(w, k).state;
    assert ActorOk(w, w.actors[k]);
    forall b ensures ConsentUsable(w', b) {
      assert ConsentUsable(w, b);
    }
    forall j | j in w'.actors ensures ActorOk(w', w'.actors[j]) {
      assert j in w.actors ==> ActorOk(w, w.actors[j]);
    }
  }

  /** Activating through a flow leaves nobody awaiting that flow, so deleting it is safe. */
  lemma ActivateKeepsConsent(providers: Providers, w: World, k: nat, refresh: string)
    requires ConsentOk(w) && Enabled(w, Activate(k, refresh))
    ensures ConsentOk(Effect(providers, w, Activate(k, refresh)))
  {
    var w' := Effect(providers, w, Activate(k, refresh));
    var a, state := ActorAt(w, k).address, ActorAt(w, k).state;
    assert ActorOk(w, w.actors[k]);
    forall b | Awaiting(w'.t, b) ensures w'.t.mailboxes[b].consent != Some(state) {
      assert ConsentUsable(w, b);
    }
    QuietKeepsConsent(w, w', k);
  }

  lemma DropFlowKeepsConsent(providers: Providers, w: World, k: nat)
    requires ConsentOk(w) && Enabled(w, DropFlow(k))
    ensures ConsentOk(Effect(providers, w, DropFlow(k)))
  {
    var w' := Effect(providers, w, DropFlow(k));
    assert ActorOk(w, w.actors[k]);
    forall a ensures ConsentUsable(w', a) {
      assert ConsentUsable(w, a);
    }
    forall j | j in w'.actors ensures ActorOk(w', w'.actors[j]) {
      assert j in w.actors ==> ActorOk(w, w.actors[j]);
    }
  }

  lemma SaveKeepsConsent(providers: Providers, w: World, q: Request)
    requires ConsentOk(w)
    ensures ConsentOk(Effect(providers, w, Save(q)))
  {
    var w' := Effect(providers, w, Save(q));
    forall a | Awaiting(w'.t, a)
      ensures Awaiting(w.t, a) && w'.t.mailboxes[a].consent == w.t.mailboxes[a].consent
    {
      SaveNeverAwaits(providers, w.t, q, a);
    }
    QuietKeepsConsent(w, w', 0);
  }

  /** The actor whose statement this is. */
  ghost function ActorOf(e: Event): nat {
    match e
    case Claim(k, _) => k
    case LookUp(k) => k
    case GiveUp(k) => k
    case Succeed(k, _) => k
    case FallThrough(k, _) => k
    case Publish(k) => k
    case ReadFlow(k, _) => k
    case Activate(k, _) => k
    case DropFlow(k) => k
    case SelectDue(k, _) => k
    case SaveTokens(k, _, _, _) => k
    case Crash(k) => k
    case _ => 0
  }

  lemma QuietStatementKeepsConsent(providers: Providers, w: World, e: Event)
    requires ConsentOk(w) && Enabled(w, e)
    requires !e.Save? && !e.FallThrough? && !e.Publish? && !e.Activate? && !e.DropFlow?
    ensures ConsentOk(Effect(providers, w, e))
  {
    QuietKeepsConsent(w, Effect(providers, w, e), ActorOf(e));
  }

  lemma ApplyKeepsConsent(providers: Providers, w: World, e: Event)
    requires ConsentOk(w)
    ensures ConsentOk(Apply(providers, w, e))
  {
    if Enabled(w, e) {
      match e {
        case FallThrough(k, state) => FallThroughKeepsConsent(providers, w, k, state);
        case Publish(k) => PublishKeepsConsent(providers, w, k);
        case Activate(k, refresh) => ActivateKeepsConsent(providers, w, k, refresh);
        case DropFlow(k) => DropFlowKeepsConsent(providers, w, k);
        case Save(q) => SaveKeepsConsent(providers, w, q);
        case _ => QuietStatementKeepsConsent(providers, w, e);
      }
    }
  }

  lemma {:induction false} RunKeepsConsent(providers: Providers, w: World, es: seq<Event>)
    requires ConsentOk(w)
    ensures ConsentOk(Run(providers, w, es))
    decreases |es|
  {
    if es != [] {
      ApplyKeepsConsent(providers, w, es[0]);
      RunKeepsConsent(providers, Apply(providers, w, es[0]), es[1..]);
    }
  }

  /** In every reachable state of all interleaved actors, a mailbox that awaits manual consent carries
      a state whose flow row still exists and is bound to that mailbox. */
  lemma ConsentFlowInvariant(providers: Providers, es: seq<Event>, a: string)
    ensures ConsentUsable(Run(providers, Start, es), a)
  {
    RunKeepsConsent(providers, Start, es);
  }

  // ---- refresh tokens ---------------------------------------------------------------------------

  /** The event puts another refresh token in the place of one that is not `token`. */
  ghost predicate ReplacesOther(t: Tables, t': Tables, a: string, token: Cipher) {
    && a in t.mailboxes && a in t'.mailboxes
    && t.mailboxes[a].refresh != Some(token)
    && t'.mailboxes[a].refresh != t.mailboxes[a].refresh
  }

  /** The UPDATE after a refresh asks neither for the status nor for the token it replaces. So it
      replaces a token other than the one it refreshed exactly when the answer rotates, the token stored
      by now is not the one selected, and it is not the rotated one already. */
  lemma RotationOverwritesIff(
    providers: Providers, w: World, k: nat, access: string, expires: int, rotated: Option<string>)
    requires ActorAt(w, k).Refreshing? && ActorAt(w, k).address in w.t.mailboxes
    ensures var a, token := ActorAt(w, k).address, ActorAt(w, k).token;
      var stored := w.t.mailboxes[a].refresh;
      ReplacesOther(w.t, Apply(providers, w, SaveTokens(k, access, expires, rotated)).t, a, token)
      <==> rotated.Some? && rotated.value != "" && stored != Some(token) && stored != Some(Encrypt(rotated.value))
  {
  }

  /** Whether the event writes the refresh token of mailbox `a`, or takes the mailbox away. */
  predicate WritesToken(w: World, e: Event, a: string) {
    match e
    case Succeed(k, _) => ActorAt(w, k).Driving? && ActorAt(w, k).address == a
    case Activate(k, _) => ActorAt(w, k).Exchanging? && ActorAt(w, k).address == a
    case SaveTokens(k, _, _, _) => ActorAt(w, k).Refreshing? && ActorAt(w, k).address == a
    case Remove(b) => b == a
    case _ => false
  }

  ghost predicate TokenLeftAlone(providers: Providers, w: World, es: seq<Event>, a: string)
    decreases |es|
  {
    es != [] ==> !WritesToken(w, es[0], a) && TokenLeftAlone(providers, Apply(providers, w, es[0]), es[1..], a)
  }

  lemma StepLeavesToken(providers: Providers, w: World, e: Event, k: nat, a: string, token: Cipher)
    requires a in w.t.mailboxes && w.t.mailboxes[a].refresh == Some(token)
    requires ActorAt(w, k) == Refreshing(a, token) && !WritesToken(w, e, a) && e != Crash(k)
    ensures var w' := Apply(providers, w, e);
      && a in w'.t.mailboxes && w'.t.mailboxes[a].refresh == Some(token)
      && ActorAt(w', k) == Refreshing(a, token)
  {
    StepLeavesActor(providers, w, e, k, a, token);
    if Enabled(w, e) {
      StepLeavesColumn(providers, w, e, a);
    }
  }

  lemma StepLeavesActor(providers: Providers, w: World, e: Event, k: nat, a: string, token: Cipher)
    requires ActorAt(w, k) == Refreshing(a, token) && !WritesToken(w, e, a) && e != Crash(k)
    ensures ActorAt(Apply(providers, w, e), k) == Refreshing(a, token)
  {
  }

  lemma StepLeavesColumn(providers: Providers, w: World, e: Event, a: string)
    requires Enabled(w, e) && a in w.t.mailboxes && !WritesToken(w, e, a)
    ensures a in Effect(providers, w, e).t.mailboxes
    ensures Effect(providers, w, e).t.mailboxes[a].refresh == w.t.mailboxes[a].refresh
  {
  }

  lemma {:induction false} TokenStays(
    providers: Providers, w: World, es: seq<Event>, k: nat, a: string, token: Cipher)
    requires a in w.t.mailboxes && w.t.mailboxes[a].refresh == Some(token)
    requires ActorAt(w, k) == Refreshing(a, token)
    requires TokenLeftAlone(providers, w, es, a) && Crash(k) !in es
    ensures var w' := Run(providers, w, es);
      && a in w'.t.mailboxes && w'.t.mailboxes[a].refresh == Some(token)
      && ActorAt(w', k) == Refreshing(a, token)
    decreases |es|
  {
    if es != [] {
      assert es[0] in es;
      assert Crash(k) !in es[1..];
      StepLeavesToken(providers, w, es[0], k, a, token);
      TokenStays(providers, Apply(providers, w, es[0]), es[1..], k, a, token);
    }
  }

  /** Unless somebody else activates, rotates or deletes the mailbox between the selection and the
      UPDATE, a refresh replaces no token but the one it refreshed, over every run. */
  lemma UndisturbedRotationReplacesItsOwn(
    providers: Providers, w: World, k: nat, a: string, es: seq<Event>,
    access: string, expires: int, rotated: Option<string>)
    requires Enabled(w, SelectDue(k, a))
    requires TokenLeftAlone(providers, Apply(providers, w, SelectDue(k, a)), es, a) && Crash(k) !in es
    ensures var token := w.t.mailboxes[a].refresh.value;
      var v := Run(providers, Apply(providers, w, SelectDue(k, a)), es);
      var v' := Apply(providers, v, SaveTokens(k, access, expires, rotated));
      && ActorAt(v, k) == Refreshing(a, token) && a in v.t.mailboxes && v.t.mailboxes[a].refresh == Some(token)
      && !ReplacesOther(v.t, v'.t, a, token)
      && a in v'.t.mailboxes && v'.t.mailboxes[a].refresh.Some?
  {
    TokenStays(providers, Apply(providers, w, SelectDue(k, a)), es, k, a, w.t.mailboxes[a].refresh.value);
  }

  /** Disturbed, it happens from every state in which a mailbox is active and an earlier consent flow of
      it is still open: the callback stores a newer token during the refresh, and the rotated older one
      replaces it. */
  lemma ConsentDuringRefreshIsOverwritten(providers: Providers, w: World, a: string, state: string)
    requires ActorAt(w, 0).Idle? && ActorAt(w, 1).Idle?
    requires a in w.t.mailboxes && w.t.mailboxes[a].status == OAuthActive
    requires w.t.mailboxes[a].refresh == Some(Encrypt("R1"))
    requires state in w.known && state in w.flows && w.flows[state] == a
    ensures var v := Run(providers, w, [SelectDue(1, a), ReadFlow(0, state), Activate(0, "R2")]);
      && a in v.t.mailboxes && v.t.mailboxes[a].refresh == Some(Encrypt("R2"))
      && ActorAt(v, 1) == Refreshing(a, Encrypt("R1"))
      && var v' := Apply(providers, v, SaveTokens(1, "x", 3600, Some("R1'")));
      && a in v'.t.mailboxes && v'.t.mailboxes[a].status == OAuthActive
      && v'.t.mailboxes[a].refresh == Some(Encrypt("R1'"))
  {
    var w1 := Goto(w, 1, Refreshing(a, Encrypt("R1")));
    var w2 := Goto(w1, 0, Exchanging(a, state));
    assert Apply(providers, w, SelectDue(1, a)) == w1;
    assert Apply(providers, w1, ReadFlow(0, state)) == w2;
    assert [SelectDue(1, a), ReadFlow(0, state), Activate(0, "R2")][1..] == [ReadFlow(0, state), Activate(0, "R2")];
    RunTwo(providers, w1, ReadFlow(0, state), Activate(0, "R2"));
    CallbackThenRefresh(providers, w2, a, state);
  }

  lemma CallbackThenRefresh(providers: Providers, w: World, a: string, state: string)
    requires ActorAt(w, 0) == Exchanging(a, state) && ActorAt(w, 1) == Refreshing(a, Encrypt("R1"))
    requires a in w.t.mailboxes
    ensures var v := Apply(providers, w, Activate(0, "R2"));
      && a in v.t.mailboxes && v.t.mailboxes[a].refresh == Some(Encrypt("R2"))
      && ActorAt(v, 1) == Refreshing(a, Encrypt("R1"))
      && var v' := Apply(providers, v, SaveTokens(1, "x", 3600, Some("R1'")));
      && a in v'.t.mailboxes && v'.t.mailboxes[a].status == OAuthActive
      && v'.t.mailboxes[a].refresh == Some(Encrypt("R1'"))
  {
  }

  const USER := "u@x"
  const GOOGLE: Providers := map[1 := OAuthGoogle]
  const ASK: Request := Request(USER, 1, Some(1), Some("pw"), false, "", "", None, DirectOnly, None, 0)

  /** One mailbox, with its password. */
  function OneMailbox(status: Status, attempts: nat, refresh: Option<Cipher>, consent: Option<string>): Tables {
    Tables(
      map[USER := Mailbox(1, 1, false, status, "", "", None, DirectOnly, None, refresh, None, None, consent, attempts, true, 0)],
      map[USER := [PasswordRow(Encrypt("pw"), true, None)]])
  }

  lemma AskingFirst()
    ensures Upsert(GOOGLE, Tables(map[], map[]), ASK).0 == OneMailbox(PendingOAuthHeadless, 0, None, None)
  {
    assert KeepPassword([], "pw").0 == [PasswordRow(Encrypt("pw"), true, None)];
  }

  lemma AskingAgain(attempts: nat, consent: Option<string>)
    ensures Upsert(GOOGLE, OneMailbox(PendingOAuthManual, attempts, None, consent), ASK).0
         == OneMailbox(PendingOAuthHeadless, attempts, None, consent)
  {
    var t := OneMailbox(PendingOAuthManual, attempts, None, consent);
    assert KeepPassword(t.passwords[USER], "pw").1 == false;
  }

  /** The world with one actor at work on that mailbox. */
  function OneActor(t: Tables, flows: map<string, string>, known: set<string>, actor: Actor): World {
    World(t, flows, known, flows, map[0 := actor])
  }

  lemma ClaimAndLookUp(w: World, attempts: nat, consent: Option<string>, flows: map<string, string>, known: set<string>)
    requires attempts < MAX_ATTEMPTS && (w.actors == map[] || w.actors == map[0 := Idle])
    requires w.t == OneMailbox(PendingOAuthHeadless, attempts, None, consent)
    requires w.flows == flows && w.known == known && w.issued == flows
    ensures Run(GOOGLE, w, [Claim(0, USER), LookUp(0)])
         == OneActor(OneMailbox(PendingOAuthHeadless, attempts + 1, None, consent), flows, known, Driving(USER))
  {
    var t := OneMailbox(PendingOAuthHeadless, attempts + 1, None, consent);
    ClaimingTheOne(attempts, consent);
    assert w.actors[0 := Claimed(USER)] == map[0 := Claimed(USER)];
    var w1 := OneActor(t, flows, known, Claimed(USER));
    assert Apply(GOOGLE, w, Claim(0, USER)) == w1;
    assert UsablePassword(t, USER) == Some("pw");
    assert map[0 := Claimed(USER)][0 := Driving(USER)] == map[0 := Driving(USER)];
    RunTwo(GOOGLE, w, Claim(0, USER), LookUp(0));
  }

  lemma ClaimingTheOne(attempts: nat, consent: Option<string>)
    requires attempts < MAX_ATTEMPTS
    ensures var t := OneMailbox(PendingOAuthHeadless, attempts, None, consent);
      && Oldest(t, USER)
      && MarkClaimed(t, USER) == OneMailbox(PendingOAuthHeadless, attempts + 1, None, consent)
  {
  }

  lemma FallThroughAndPublish(w: World)
    requires w == OneActor(OneMailbox(PendingOAuthHeadless, 1, None, None), map[], {}, Driving(USER))
    ensures Run(GOOGLE, w, [FallThrough(0, "s1"), Publish(0)])
         == OneActor(OneMailbox(PendingOAuthManual, 1, None, Some("s1")), map["s1" := USER], {"s1"}, Idle)
  {
    var flows := map["s1" := USER];
    var w1 := OneActor(w.t, flows, {}, Publishing(USER, "s1"));
    assert map[0 := Driving(USER)][0 := Publishing(USER, "s1")] == map[0 := Publishing(USER, "s1")];
    assert Apply(GOOGLE, w, FallThrough(0, "s1")) == w1;
    assert MarkManual(w.t, USER, "s1") == OneMailbox(PendingOAuthManual, 1, None, Some("s1"));
    assert map[0 := Publishing(USER, "s1")][0 := Idle] == map[0 := Idle];
    RunTwo(GOOGLE, w, FallThrough(0, "s1"), Publish(0));
  }

  lemma Succeeds(w: World)
    requires w == OneActor(OneMailbox(PendingOAuthHeadless, 2, None, Some("s1")), map["s1" := USER], {"s1"}, Driving(USER))
    ensures Run(GOOGLE, w, [Succeed(0, "R1")])
         == OneActor(OneMailbox(OAuthActive, 2, Some(Encrypt("R1")), None), map["s1" := USER], {"s1"}, Idle)
  {
    assert MarkActive(w.t, USER, "R1") == OneMailbox(OAuthActive, 2, Some(Encrypt("R1")), None);
    assert map[0 := Driving(USER)][0 := Idle] == map[0 := Idle];
    RunOne(GOOGLE, w, Succeed(0, "R1"));
  }

  lemma {:induction false} RunConcat(providers: Providers, w: World, es: seq<Event>, fs: seq<Event>)
    ensures Run(providers, w, es + fs) == Run(providers, Run(providers, w, es), fs)
    decreases |es|
  {
    if es == [] {
      assert es + fs == fs;
    } else {
      assert (es + fs)[1..] == es[1..] + fs;
      RunConcat(providers, Apply(providers, w, es[0]), es[1..], fs);
    }
  }

  /** A first attempt falls through and publishes its flow, the client asks again, and the second attempt
      succeeds: the mailbox is active, and its first flow is still open. */
  lemma ActiveWithOpenFlow() returns (es: seq<Event>)
    ensures es == [Save(ASK)] + [Claim(0, USER), LookUp(0)] + [FallThrough(0, "s1"), Publish(0)]
               + [Save(ASK)] + [Claim(0, USER), LookUp(0)] + [Succeed(0, "R1")]
    ensures Run(GOOGLE, Start, es)
         == OneActor(OneMailbox(OAuthActive, 2, Some(Encrypt("R1")), None), map["s1" := USER], {"s1"}, Idle)
  {
    var flows := map["s1" := USER];
    es := [Save(ASK)];
    RunOne(GOOGLE, Start, Save(ASK));
    AskingFirst();
    var w := Run(GOOGLE, Start, es);
    ClaimAndLookUp(w, 0, None, map[], {});
    RunConcat(GOOGLE, Start, es, [Claim(0, USER), LookUp(0)]);
    es := es + [Claim(0, USER), LookUp(0)];
    FallThroughAndPublish(Run(GOOGLE, Start, es));
    RunConcat(GOOGLE, Start, es, [FallThrough(0, "s1"), Publish(0)]);
    es := es + [FallThrough(0, "s1"), Publish(0)];
    AskingAgain(1, Some("s1"));
    RunOne(GOOGLE, Run(GOOGLE, Start, es), Save(ASK));
    RunConcat(GOOGLE, Start, es, [Save(ASK)]);
    es := es + [Save(ASK)];
    ClaimAndLookUp(Run(GOOGLE, Start, es), 1, Some("s1"), flows, {"s1"});
    RunConcat(GOOGLE, Start, es, [Claim(0, USER), LookUp(0)]);
    es := es + [Claim(0, USER), LookUp(0)];
    Succeeds(Run(GOOGLE, Start, es));
    RunConcat(GOOGLE, Start, es, [Succeed(0, "R1")]);
    es := es + [Succeed(0, "R1")];
  }

  /** So a refresh does lose the token of a newer consent, in a run from the start. */
  lemma NewerConsentIsLost() returns (es: seq<Event>)
    ensures var v := Run(GOOGLE, Start, es);
      && USER in v.t.mailboxes && v.t.mailboxes[USER].refresh == Some(Encrypt("R2"))
      && ActorAt(v, 1) == Refreshing(USER, Encrypt("R1"))
      && var v' := Apply(GOOGLE, v, SaveTokens(1, "x", 3600, Some("R1'")));
      && USER in v'.t.mailboxes && v'.t.mailboxes[USER].status == OAuthActive
      && v'.t.mailboxes[USER].refresh == Some(Encrypt("R1'"))
  {
    var before := ActiveWithOpenFlow();
    var refresh := [SelectDue(1, USER), ReadFlow(0, "s1"), Activate(0, "R2")];
    RunConcat(GOOGLE, Start, before, refresh);
    ConsentDuringRefreshIsOverwritten(GOOGLE, Run(GOOGLE, Start, before), USER, "s1");
    es := before + refresh;
  }

  // ---- the queue of headless attempts --------------------------------------------------------

  /** The attempts still open: one pair per mailbox and attempt number not yet used. */
  ghost function OpenSlots(t: Tables): set<(string, nat)> {
    set a, n: nat | a in t.mailboxes && t.mailboxes[a].attempts <= n < MAX_ATTEMPTS :: (a, n)
  }

  /** The claims that took effect along a run. */
  ghost function Claims(providers: Providers, w: World, es: seq<Event>): nat
    decreases |es|
  {
    if es == [] then 0
    else (if es[0].Claim? && Enabled(w, es[0]) then 1 else 0) + Claims(providers, Apply(providers, w, es[0]), es[1..])
  }

  lemma ApplySpendsSlots(providers: Providers, w: World, e: Event)
    requires !e.Save?
    ensures |OpenSlots(Apply(providers, w, e).t)| + (if e.Claim? && Enabled(w, e) then 1 else 0) <= |OpenSlots(w.t)|
  {
    var t' := Apply(providers, w, e).t;
    if e.Claim? && Enabled(w, e) {
      ClaimSpendsOne(w.t, e.address);
    } else {
      SlotsOnlyClose(w.t, t');
    }
  }

  lemma ClaimSpendsOne(t: Tables, a: string)
    requires a in t.mailboxes && Claimable(t.mailboxes[a])
    ensures |OpenSlots(MarkClaimed(t, a))| + 1 <= |OpenSlots(t)|
  {
    var before, after := OpenSlots(t), OpenSlots(MarkClaimed(t, a));
    var used := (a, t.mailboxes[a].attempts);
    assert used in before && used !in after;
    assert after <= before - {used};
    SubsetIsNoLarger(after, before - {used});
  }

  lemma SlotsOnlyClose(t: Tables, t': Tables)
    requires forall a :: a in t'.mailboxes ==> a in t.mailboxes && t'.mailboxes[a].attempts >= t.mailboxes[a].attempts
    ensures |OpenSlots(t')| <= |OpenSlots(t)|
  {
    forall slot | slot in OpenSlots(t') ensures slot in OpenSlots(t) {
      assert slot.0 in t.mailboxes && t.mailboxes[slot.0].attempts <= slot.1;
    }
    SubsetIsNoLarger(OpenSlots(t'), OpenSlots(t));
  }

  /** Without new requests the number of claims is at most the attempts still open, summed over the
      mailboxes, however the actors interleave. */
  lemma {:induction false} ClaimsAreBounded(providers: Providers, w: World, es: seq<Event>)
    requires forall i :: 0 <= i < |es| ==> !es[i].Save?
    ensures Claims(providers, w, es) + |OpenSlots(Run(providers, w, es).t)| <= |OpenSlots(w.t)|
    decreases |es|
  {
    if es != [] {
      ApplySpendsSlots(providers, w, es[0]);
      ClaimsAreBounded(providers, Apply(providers, w, es[0]), es[1..]);
    }
  }

  lemma {:induction false} OldestExists(t: Tables, candidates: set<string>) returns (a: string)
    requires candidates != {}
    requires forall b :: b in candidates ==> b in t.mailboxes
    ensures a in candidates
    ensures forall b :: b in candidates ==> t.mailboxes[a].created <= t.mailboxes[b].created
    decreases |candidates|
  {
    var first :| first in candidates;
    var rest := candidates - {first};
    assert forall b :: b in candidates ==> b == first || b in rest;
    a := first;
    if rest != {} {
      var b := OldestExists(t, rest);
      a := if t.mailboxes[b].created < t.mailboxes[first].created then b else first;
    }
  }

  ghost predicate NothingClaimable(t: Tables) {
    forall a :: a in t.mailboxes ==> !Claimable(t.mailboxes[a])
  }

  // ---- the programs ---------------------------------------------------------------------------

  /** What driving the browser and exchanging the code comes to: a refresh token, or any failure. */
  datatype Drive = Token(refresh: string) | Failed

  /** What one undisturbed tick that claims mailbox `a` does to the tables. A provider's client secret
      that does not decrypt raises after the claim, and the tick ends there. */
  ghost predicate Ticked(t: Tables, flows: map<string, string>, a: string, secretOpens: bool, drive: Drive, state: string,
                         t': Tables, flows': map<string, string>)
  {
    var t1 := MarkClaimed(t, a);
    if UsablePassword(t1, a).None? then t' == MarkFailed(t1, a) && flows' == flows
    else if !secretOpens then t' == t1 && flows' == flows
    else if drive.Token? && drive.refresh != "" then t' == MarkActive(t1, a, drive.refresh) && flows' == flows
    else t' == MarkManual(t1, a, state) && flows' == flows[state := a]
  }

  lemma ClaimThenLookUp(providers: Providers, w: World, k: nat, a: string, rest: seq<Event>)
    requires ActorAt(w, k).Idle? && Oldest(w.t, a)
    ensures var t1 := MarkClaimed(w.t, a);
      var actor := if UsablePassword(t1, a).Some? then Driving(a) else Failing(a);
      Run(providers, w, [Claim(k, a), LookUp(k)] + rest) == Run(providers, Goto(w.(t := t1), k, actor), rest)
  {
    var es := [Claim(k, a), LookUp(k)] + rest;
    assert es[1..] == [LookUp(k)] + rest && es[1..][1..] == rest;
    var w1 := Apply(providers, w, Claim(k, a));
    assert w1.actors[k := Driving(a)] == w.actors[k := Driving(a)];
    assert w1.actors[k := Failing(a)] == w.actors[k := Failing(a)];
  }

  lemma RunOne(providers: Providers, w: World, e: Event)
    ensures Run(providers, w, [e]) == Apply(providers, w, e)
  {
    assert [e][1..] == [];
  }

  lemma RunTwo(providers: Providers, w: World, e1: Event, e2: Event)
    ensures Run(providers, w, [e1, e2]) == Apply(providers, Apply(providers, w, e1), e2)
  {
    assert [e1, e2][1..] == [e2];
    RunOne(providers, Apply(providers, w, e1), e2);
  }

  /** A tick is a run of the step system: its statements, in this order, by one actor. */
  lemma TickIsRun(providers: Providers, w: World, k: nat, a: string, secretOpens: bool, drive: Drive, state: string)
    returns (es: seq<Event>)
    requires ActorAt(w, k).Idle? && Oldest(w.t, a) && state !in w.issued
    ensures forall i :: 0 <= i < |es| ==> !es[i].Save? && !es[i].Remove? && !es[i].Spoil? && ActorOf(es[i]) == k
    ensures var v := Run(providers, w, es);
      Ticked(w.t, w.flows, a, secretOpens, drive, state, v.t, v.flows) && ActorAt(v, k).Idle?
  {
    var t1 := MarkClaimed(w.t, a);
    var rest := if UsablePassword(t1, a).None? then [GiveUp(k)]
                else if !secretOpens then [Crash(k)]
                else if drive.Token? && drive.refresh != "" then [Succeed(k, drive.refresh)]
                else [FallThrough(k, state), Publish(k)];
    es := [Claim(k, a), LookUp(k)] + rest;
    ClaimThenLookUp(providers, w, k, a, rest);
    if UsablePassword(t1, a).None? {
      GivingUp(providers, Goto(w.(t := t1), k, Failing(a)), k);
    } else if !secretOpens {
      Raising(providers, Goto(w.(t := t1), k, Driving(a)), k);
    } else if drive.Token? && drive.refresh != "" {
      Succeeding(providers, Goto(w.(t := t1), k, Driving(a)), k, drive.refresh);
    } else {
      FallThroughThenPublish(providers, Goto(w.(t := t1), k, Driving(a)), k, state);
    }
  }

  lemma Raising(providers: Providers, w: World, k: nat)
    ensures var v := Run(providers, w, [Crash(k)]); v.t == w.t && v.flows == w.flows && ActorAt(v, k).Idle?
  {
    RunOne(providers, w, Crash(k));
  }

  lemma GivingUp(providers: Providers, w: World, k: nat)
    requires ActorAt(w, k).Failing?
    ensures var v := Run(providers, w, [GiveUp(k)]);
      v.t == MarkFailed(w.t, ActorAt(w, k).address) && v.flows == w.flows && ActorAt(v, k).Idle?
  {
    RunOne(providers, w, GiveUp(k));
  }

  lemma Succeeding(providers: Providers, w: World, k: nat, refresh: string)
    requires ActorAt(w, k).Driving?
    ensures var v := Run(providers, w, [Succeed(k, refresh)]);
      v.t == MarkActive(w.t, ActorAt(w, k).address, refresh) && v.flows == w.flows && ActorAt(v, k).Idle?
  {
    RunOne(providers, w, Succeed(k, refresh));
  }

  lemma FallThroughThenPublish(providers: Providers, w: World, k: nat, state: string)
    requires ActorAt(w, k).Driving? && state !in w.issued
    ensures var v := Run(providers, w, [FallThrough(k, state), Publish(k)]);
      var a := ActorAt(w, k).address;
      v.t == MarkManual(w.t, a, state) && v.flows == w.flows[state := a] && ActorAt(v, k).Idle?
  {
    RunTwo(providers, w, FallThrough(k, state), Publish(k));
  }

  /** What a tick leaves of the mailbox it claims, branch by branch, and that it touches no other: without
      a usable password no path, so it is not claimable again; with a damaged client secret still queued;
      after a success active, with the new refresh token and no consent URL; otherwise awaiting consent
      under a flow of its own. */
  lemma TickLeaves(t: Tables, flows: map<string, string>, a: string, secretOpens: bool, drive: Drive, state: string,
                   t': Tables, flows': map<string, string>)
    requires a in t.mailboxes && Ticked(t, flows, a, secretOpens, drive, state, t', flows')
    ensures WritesOnly(t, t', a)
    ensures var m, m' := t.mailboxes[a], t'.mailboxes[a];
      && m'.attempts == m.attempts + 1 && m'.access == m.access && m'.accessExpires == m.accessExpires
      && if !HasOpenPassword(t, a) then
           m'.status == NoPath && m'.refresh == m.refresh && m'.consent == m.consent && flows' == flows
           && !Claimable(m')
         else if !secretOpens then
           m'.status == PendingOAuthHeadless && m'.refresh == m.refresh && m'.consent == m.consent && flows' == flows
         else if drive.Token? && drive.refresh != "" then
           m'.status == OAuthActive && m'.refresh == Some(Encrypt(drive.refresh)) && m'.consent == None && flows' == flows
         else
           m'.status == PendingOAuthManual && m'.refresh == m.refresh && m'.consent == Some(state)
           && state in flows' && flows'[state] == a
           && forall s :: s != state ==> (s in flows' <==> s in flows) && (s in flows ==> flows'[s] == flows[s])
  {
    UsablePasswordIff(t, a);
    UsablePasswordIff(MarkClaimed(t, a), a);
    assert MarkClaimed(t, a).passwords == t.passwords;
  }

  /** A mailbox that is not queued. */
  ghost predicate NotQueued(t: Tables, a: string) {
    a in t.mailboxes ==> t.mailboxes[a].status != PendingOAuthHeadless
  }

  lemma OnlyARequestQueues(providers: Providers, w: World, e: Event, a: string)
    requires NotQueued(w.t, a) && !(e.Save? && e.q.address == a)
    ensures NotQueued(Apply(providers, w, e).t, a)
    ensures e.Claim? && e.address == a ==> !Enabled(w, e)
  {
    if e.Save? && Upsert(providers, w.t, e.q).1.Upserted? {
      UpsertWritesItsOwn(providers, w.t, e.q);
    }
  }

  /** The claims of mailbox `a` that took effect along a run. */
  ghost function ClaimsOf(providers: Providers, w: World, es: seq<Event>, a: string): nat
    decreases |es|
  {
    if es == [] then 0
    else (if es[0].Claim? && es[0].address == a && Enabled(w, es[0]) then 1 else 0)
         + ClaimsOf(providers, Apply(providers, w, es[0]), es[1..], a)
  }

  lemma {:induction false} NotQueuedIsNotClaimed(providers: Providers, w: World, es: seq<Event>, a: string)
    requires NotQueued(w.t, a)
    requires forall i :: 0 <= i < |es| ==> !(es[i].Save? && es[i].q.address == a)
    ensures NotQueued(Run(providers, w, es).t, a) && ClaimsOf(providers, w, es, a) == 0
    decreases |es|
  {
    if es != [] {
      OnlyARequestQueues(providers, w, es[0], a);
      NotQueuedIsNotClaimed(providers, Apply(providers, w, es[0]), es[1..], a);
    }
  }

  /** A mailbox given up on is never claimed again without a new request for it, whatever everybody else
      does. */
  lemma GivenUpIsNotClaimedAgain(providers: Providers, w: World, k: nat, es: seq<Event>)
    requires ActorAt(w, k).Failing?
    requires forall i :: 0 <= i < |es| ==> !(es[i].Save? && es[i].q.address == ActorAt(w, k).address)
    ensures var a, v := ActorAt(w, k).address, Apply(providers, w, GiveUp(k));
      && (a in w.t.mailboxes ==> a in v.t.mailboxes && v.t.mailboxes[a].status == NoPath)
      && ClaimsOf(providers, v, es, a) == 0
  {
    NotQueuedIsNotClaimed(providers, Apply(providers, w, GiveUp(k)), es, ActorAt(w, k).address);
  }

  /** A tick claims an oldest eligible mailbox and sees it through, or finds none and changes nothing. */
  ghost predicate TickMove(t: Tables, flows: map<string, string>, t': Tables, flows': map<string, string>) {
    if NothingClaimable(t) then t' == t && flows' == flows
    else exists a, secretOpens, drive, state :: Oldest(t, a) && Ticked(t, flows, a, secretOpens, drive, state, t', flows')
  }

  datatype Snapshot = Snapshot(t: Tables, flows: map<string, string>)

  ghost predicate AreTicks(ss: seq<Snapshot>) {
    forall i :: 0 <= i < |ss| - 1 ==> TickMove(ss[i].t, ss[i].flows, ss[i + 1].t, ss[i + 1].flows)
  }

  lemma TickSpendsOne(t: Tables, flows: map<string, string>, t': Tables, flows': map<string, string>)
    requires TickMove(t, flows, t', flows') && !NothingClaimable(t)
    ensures |OpenSlots(t')| < |OpenSlots(t)|
  {
    var a, secretOpens, drive, state :| Oldest(t, a) && Ticked(t, flows, a, secretOpens, drive, state, t', flows');
    ClaimSpendsOne(t, a);
    TickKeepsAttempts(t, flows, a, secretOpens, drive, state, t', flows');
    SlotsOnlyClose(MarkClaimed(t, a), t');
  }

  lemma TickKeepsAttempts(t: Tables, flows: map<string, string>, a: string, secretOpens: bool, drive: Drive, state: string,
                          t': Tables, flows': map<string, string>)
    requires Ticked(t, flows, a, secretOpens, drive, state, t', flows')
    ensures forall b :: b in t'.mailboxes ==>
      b in MarkClaimed(t, a).mailboxes && t'.mailboxes[b].attempts == MarkClaimed(t, a).mailboxes[b].attempts
  {
  }

  /** Repeated ticks empty the queue: in any sequence of ticks, whatever each attempt comes to, nothing
      is claimable once there were as many ticks as attempts were open. */
  lemma {:induction false} TicksDrain(ss: seq<Snapshot>)
    requires AreTicks(ss) && |ss| > 0 && |ss| - 1 >= |OpenSlots(ss[0].t)|
    ensures NothingClaimable(ss[|ss| - 1].t)
    decreases |ss|
  {
    var t := ss[0].t;
    if |ss| == 1 {
      assert OpenSlots(t) == {};
      forall a | a in t.mailboxes ensures !Claimable(t.mailboxes[a]) {
        assert (a, t.mailboxes[a].attempts) !in OpenSlots(t);
      }
    } else {
      var later := ss[1..];
      forall i | 0 <= i < |later| - 1
        ensures TickMove(later[i].t, later[i].flows, later[i + 1].t, later[i + 1].flows)
      {
        assert TickMove(ss[i + 1].t, ss[i + 1].flows, ss[i + 1 + 1].t, ss[i + 1 + 1].flows);
      }
      assert TickMove(ss[0].t, ss[0].flows, ss[0 + 1].t, ss[0 + 1].flows);
      if NothingClaimable(t) {
        IdleTicks(ss, |ss| - 1);
      } else {
        TickSpendsOne(t, ss[0].flows, ss[1].t, ss[1].flows);
        TicksDrain(later);
      }
    }
  }

  /** With nothing to claim, ticks change nothing. */
  lemma {:induction false} IdleTicks(ss: seq<Snapshot>, k: nat)
    requires AreTicks(ss) && k < |ss| && NothingClaimable(ss[0].t)
    ensures ss[k].t == ss[0].t
    decreases k
  {
    if k > 0 {
      IdleTicks(ss, k - 1);
      assert TickMove(ss[k - 1].t, ss[k - 1].flows, ss[k - 1 + 1].t, ss[k - 1 + 1].flows);
    }
  }

  /** Interleaved with anything but new requests: a run that makes as many claims as attempts were open
      leaves nothing claimable. */
  lemma ClaimsExhaust(providers: Providers, w: World, es: seq<Event>)
    requires forall i :: 0 <= i < |es| ==> !es[i].Save?
    requires Claims(providers, w, es) >= |OpenSlots(w.t)|
    ensures NothingClaimable(Run(providers, w, es).t)
  {
    var t := Run(providers, w, es).t;
    ClaimsAreBounded(providers, w, es);
    assert OpenSlots(t) == {};
    forall a | a in t.mailboxes ensures !Claimable(t.mailboxes[a]) {
      assert (a, t.mailboxes[a].attempts) !in OpenSlots(t);
    }
  }

  /** So is a successful callback. */
  lemma ExchangeIsRun(providers: Providers, w: World, k: nat, state: string, refresh: string)
    requires ActorAt(w, k).Idle? && state in w.known && state in w.flows
    ensures var v := Run(providers, w, [ReadFlow(k, state), Activate(k, refresh), DropFlow(k)]);
      v.t == MarkActive(w.t, w.flows[state], refresh) && v.flows == w.flows - {state}
  {
    var w1 := Apply(providers, w, ReadFlow(k, state));
    assert [ReadFlow(k, state), Activate(k, refresh), DropFlow(k)][1..] == [Activate(k, refresh), DropFlow(k)];
    RunTwo(providers, w1, Activate(k, refresh), DropFlow(k));
  }

  class OAuthWorker {
    var t: Tables
    var flows: map<string, string>

    constructor (t: Tables, flows: map<string, string>)
      ensures this.t == t && this.flows == flows
    {
      this.t, this.flows := t, flows;
    }

    /** The claiming UPDATE, the password lookup, giving up on a mailbox without one, and the client
        secret, whose decryption may raise. */
    method ClaimNext(secretOpens: bool) returns (claimed: Option<string>, attempt: Option<string>, raised: bool)
      modifies this`t
      ensures claimed == None <==> forall b :: b in old(t).mailboxes ==>
        !(old(t).mailboxes[b].status == PendingOAuthHeadless && old(t).mailboxes[b].active && old(t).mailboxes[b].attempts < 3)
      ensures claimed.Some? ==>
        && claimed.value in old(t).mailboxes
        && var m := old(t).mailboxes[claimed.value];
        && m.status == PendingOAuthHeadless && m.active && m.attempts < 3
        && forall b :: b in old(t).mailboxes ==>
             var n := old(t).mailboxes[b];
             n.status == PendingOAuthHeadless && n.active && n.attempts < 3 ==> m.created <= n.created
      ensures claimed == None ==> NothingClaimable(old(t)) && t == old(t) && attempt == None && !raised
      ensures claimed.Some? ==>
        && Oldest(old(t), claimed.value)
        && var t1 := MarkClaimed(old(t), claimed.value);
        if UsablePassword(t1, claimed.value).None? then t == MarkFailed(t1, claimed.value) && attempt == None && !raised
        else if !secretOpens then t == t1 && attempt == None && raised
        else t == t1 && attempt == claimed && !raised
    {
      ghost var eligible := set a | a in t.mailboxes && Claimable(t.mailboxes[a]);
      if !exists a :: a in t.mailboxes && Claimable(t.mailboxes[a]) {
        return None, None, false;
      }
      assert exists a :: a in t.mailboxes && Oldest(t, a) by {
        var b :| b in t.mailboxes && Claimable(t.mailboxes[b]);
        assert b in eligible;
        var a := OldestExists(t, eligible);
        forall c | c in t.mailboxes && Claimable(t.mailboxes[c])
          ensures t.mailboxes[a].created <= t.mailboxes[c].created
        {
          assert c in eligible;
        }
        assert Oldest(t, a);
      }
      var address :| address in t.mailboxes && Oldest(t, address);
      t := MarkClaimed(t, address);
      claimed := Some(address);
      if UsablePassword(t, address).None? {
        t := MarkFailed(t, address);
        return claimed, None, false;
      }
      if !secretOpens {
        return claimed, None, true;
      }
      attempt, raised := Some(address), false;
    }

    /** The flow row first, then the mailbox. */
    method FallThroughToManual(address: string, state: string)
      modifies this
      ensures flows == old(flows)[state := address]
      ensures t == MarkManual(old(t), address, state)
    {
      flows := flows[state := address];
      t := MarkManual(t, address, state);
    }

    /** One undisturbed tick; `state` is the fresh token of the fall-through. */
    method Tick(secretOpens: bool, drive: Drive, state: string) returns (claimed: Option<string>, raised: bool)
      modifies this
      ensures TickMove(old(t), old(flows), t, flows)
      ensures claimed == None ==> NothingClaimable(old(t)) && t == old(t) && flows == old(flows)
      ensures claimed.Some? ==>
        && Oldest(old(t), claimed.value)
        && Ticked(old(t), old(flows), claimed.value, secretOpens, drive, state, t, flows)
      ensures raised <==>
        claimed.Some? && UsablePassword(MarkClaimed(old(t), claimed.value), claimed.value).Some? && !secretOpens
    {
      var attempt;
      claimed, attempt, raised := ClaimNext(secretOpens);
      if attempt.None? {
        assert claimed.Some? ==> Ticked(old(t), old(flows), claimed.value, secretOpens, drive, state, t, flows);
        return;
      }
      if drive.Token? && drive.refresh != "" {
        t := MarkActive(t, attempt.value, drive.refresh);
      } else {
        FallThroughToManual(attempt.value, state);
      }
      assert Ticked(old(t), old(flows), claimed.value, secretOpens, drive, state, t, flows);
    }

    /** The callback: an unknown state or a failed exchange changes nothing; otherwise the mailbox is
        activated and the flow row deleted. */
    method DoExchange(state: string, answer: Drive) returns (ok: bool)
      modifies this
      ensures ok <==> state in old(flows) && answer.Token? && answer.refresh != ""
      ensures !ok ==> t == old(t) && flows == old(flows)
      ensures ok ==> t == MarkActive(old(t), old(flows)[state], answer.refresh) && flows == old(flows) - {state}
      ensures ok ==> WritesOnly(old(t), t, old(flows)[state])
      ensures ok && old(flows)[state] in old(t).mailboxes ==>
        var m, m' := old(t).mailboxes[old(flows)[state]], t.mailboxes[old(flows)[state]];
        && m'.status == OAuthActive && m'.refresh == Some(Encrypt(answer.refresh)) && m'.consent == None
        && m'.attempts == m.attempts && m'.access == m.access && m'.accessExpires == m.accessExpires
    {
      if state !in flows {
        return false;
      }
      var address := flows[state];
      if answer.Failed? || answer.refresh == "" {
        return false;
      }
      t := MarkActive(t, address, answer.refresh);
      flows := flows - {state};
      ok := true;
    }
  }
}
