/** `upsert_mailbox`: one transaction that writes a mailbox row, keeps the password history, and
    decides the strategy. */
module Mailboxes {
  import opened Common

  datatype AuthKind = Basic | OAuthGoogle | OAuthMicrosoft | OAuthGeneric

  datatype Status =
    | Pending | RelyOnGroups | DirectActive | PendingOAuthHeadless | PendingOAuthManual
    | OAuthActive | InvalidCredentials | UnknownProvider | NoPath

  datatype Mode = Auto | DirectOnly | GroupOnly | Both

  /** Reversible encryption: what was sealed opens again, unless the ciphertext is damaged or the key
      is the wrong one. */
  datatype Cipher = Sealed(plain: string) | Damaged

  function Encrypt(plain: string): Cipher { Sealed(plain) }

  function Decrypt(c: Cipher): Option<string> {
    match c case Sealed(p) => Some(p) case Damaged => None
  }

  datatype Mailbox = Mailbox(
    tenant: int, provider: nat, isGroup: bool, status: Status,
    purpose: string, notes: string, proxy: Option<string>, mode: Mode, forwardingTarget: Option<string>,
    refresh: Option<Cipher>, access: Option<Cipher>, accessExpires: Option<int>,
    consent: Option<string>, attempts: nat, active: bool, created: int)

  datatype PasswordRow = PasswordRow(cipher: Cipher, current: bool, reason: Option<string>)

  /** Mailboxes by address; password rows by mailbox, oldest first. */
  datatype Tables = Tables(mailboxes: map<string, Mailbox>, passwords: map<string, seq<PasswordRow>>)

  datatype Request = Request(
    address: string, tenant: int, provider: Option<nat>, password: Option<string>, isGroup: bool,
    purpose: string, notes: string, proxy: Option<string>, mode: Mode, forwardingTarget: Option<string>, now: int)

  datatype Reason = InvalidAddress | NoProvider | OtherTenant | ProviderMissing

  datatype Response = Upserted(status: Status, isNew: bool, passwordChanged: bool) | Rejected(reason: Reason)

  type Providers = map<nat, AuthKind>

  // ---- the decision -------------------------------------------------------------------------

  function DecideStatus(auth: AuthKind, isGroup: bool, hasGroups: bool, hasPassword: bool, mode: Mode): (r: Status)
    ensures r == DirectActive <==> auth == Basic && hasPassword && (isGroup || mode != GroupOnly)
    ensures r == PendingOAuthHeadless <==>
      if isGroup then auth == OAuthGoogle || auth == OAuthMicrosoft
      else if mode == Auto then hasPassword && auth != Basic && !hasGroups
      else hasPassword && mode != GroupOnly && (auth == OAuthGoogle || auth == OAuthMicrosoft)
    ensures r == RelyOnGroups <==>
      !isGroup && hasGroups && mode != DirectOnly && r != DirectActive && r != PendingOAuthHeadless
    ensures r == DirectActive || r == PendingOAuthHeadless || r == RelyOnGroups || r == NoPath
  {
    var isOAuth := auth == OAuthGoogle || auth == OAuthMicrosoft;
    if isGroup then
      if hasPassword && auth == Basic then DirectActive
      else if isOAuth then PendingOAuthHeadless
      else NoPath
    else match mode
      case GroupOnly => if hasGroups then RelyOnGroups else NoPath
      case DirectOnly =>
        if auth == Basic && hasPassword then DirectActive
        else if isOAuth && hasPassword then PendingOAuthHeadless
        else NoPath
      case Both =>
        if auth == Basic && hasPassword then DirectActive
        else if isOAuth && hasPassword then PendingOAuthHeadless
        else if hasGroups then RelyOnGroups
        else NoPath
      case Auto =>
        if auth == Basic then
          if hasPassword then DirectActive else if hasGroups then RelyOnGroups else NoPath
        else if hasGroups then RelyOnGroups
        else if hasPassword then PendingOAuthHeadless
        else NoPath
  }

  predicate HasGroups(mailboxes: map<string, Mailbox>, tenant: int) {
    exists a :: a in mailboxes && ServesAsGroup(mailboxes[a], tenant)
  }

  predicate ServesAsGroup(m: Mailbox, tenant: int) {
    m.tenant == tenant && m.isGroup && m.active && (m.status == DirectActive || m.status == OAuthActive)
  }

  // ---- the transaction ------------------------------------------------------------------------

  /** `if password:` */
  predicate Given(password: Option<string>) {
    password.Some? && password.value != ""
  }

  function RowsOf(passwords: map<string, seq<PasswordRow>>, address: string): seq<PasswordRow> {
    if address in passwords then passwords[address] else []
  }

  function CurrentIndex(rows: seq<PasswordRow>): (r: Option<nat>)
    ensures r.Some? ==> r.value < |rows| && rows[r.value].current
    ensures r.None? ==> forall i :: 0 <= i < |rows| ==> !rows[i].current
  {
    if rows == [] then None
    else if rows[|rows| - 1].current then Some(|rows| - 1)
    else CurrentIndex(rows[..|rows| - 1])
  }

  /** The password rows after a request that supplies `password`, and whether they changed. */
  function KeepPassword(rows: seq<PasswordRow>, password: string): (seq<PasswordRow>, bool) {
    var newest := PasswordRow(Encrypt(password), true, None);
    match CurrentIndex(rows)
    case None => (rows + [newest], true)
    case Some(i) =>
      if Decrypt(rows[i].cipher) == Some(password) then (rows, false)
      else (rows[i := rows[i].(current := false, reason := Some("replaced_by_client"))] + [newest], true)
  }

  function CheckRequest(providers: Providers, t: Tables, q: Request): Option<Reason> {
    if '@' !in q.address then Some(InvalidAddress)
    else if q.provider.None? then Some(NoProvider)
    else if q.address in t.mailboxes && t.mailboxes[q.address].tenant != q.tenant then Some(OtherTenant)
    else if q.provider.value !in providers then Some(ProviderMissing)
    else None
  }

  /** The row as the INSERT or UPDATE leaves it, before the status is decided. */
  function Written(t: Tables, q: Request): Mailbox
    requires q.provider.Some?
  {
    if q.address in t.mailboxes then
      var m := t.mailboxes[q.address];
      m.(provider := q.provider.value, isGroup := q.isGroup, purpose := q.purpose, notes := q.notes,
         proxy := if q.proxy.Some? then q.proxy else m.proxy, mode := q.mode,
         forwardingTarget := if q.forwardingTarget.Some? then q.forwardingTarget else m.forwardingTarget)
    else
      Mailbox(q.tenant, q.provider.value, q.isGroup, Pending, q.purpose, q.notes, q.proxy, q.mode,
              q.forwardingTarget, None, None, None, None, 0, true, q.now)
  }

  function Upsert(providers: Providers, t: Tables, q: Request): (Tables, Response) {
    var refusal := CheckRequest(providers, t, q);
    if refusal.Some? then (t, Rejected(refusal.value))
    else
      var mailboxes := t.mailboxes[q.address := Written(t, q)];
      var (rows, changed) := if Given(q.password) then KeepPassword(RowsOf(t.passwords, q.address), q.password.value)
                             else (RowsOf(t.passwords, q.address), false);
      var status := DecideStatus(providers[q.provider.value], q.isGroup, HasGroups(mailboxes, q.tenant),
                                 Given(q.password), q.mode);
      (Tables(mailboxes[q.address := mailboxes[q.address].(status := status)],
              if changed then t.passwords[q.address := rows] else t.passwords),
       Upserted(status, q.address !in t.mailboxes, changed))
  }

  /** A mailbox is told to rely on groups only when another mailbox of its tenant really serves: a
      group, switched on, with credentials that work. */
  lemma ReliesOnARealGroup(providers: Providers, t: Tables, q: Request)
    requires Upsert(providers, t, q).1.Upserted? && Upsert(providers, t, q).1.status == RelyOnGroups
    ensures exists a ::
      && a in t.mailboxes && a != q.address
      && t.mailboxes[a].tenant == q.tenant && t.mailboxes[a].isGroup && t.mailboxes[a].active
      && (t.mailboxes[a].status == DirectActive || t.mailboxes[a].status == OAuthActive)
  {
    var mailboxes := t.mailboxes[q.address := Written(t, q)];
    assert HasGroups(mailboxes, q.tenant);
    var a :| a in mailboxes && ServesAsGroup(mailboxes[a], q.tenant);
    assert a != q.address && a in t.mailboxes;
  }

  /** Another mailbox of the tenant is a group, switched on, with credentials that work. */
  ghost predicate AnotherGroupServes(t: Tables, q: Request) {
    exists a ::
      && a in t.mailboxes && a != q.address
      && t.mailboxes[a].tenant == q.tenant && t.mailboxes[a].isGroup && t.mailboxes[a].active
      && (t.mailboxes[a].status == DirectActive || t.mailboxes[a].status == OAuthActive)
  }

  lemma GroupsAreNoticed(t: Tables, q: Request)
    requires q.provider.Some? && !q.isGroup
    ensures HasGroups(t.mailboxes[q.address := Written(t, q)], q.tenant) <==> AnotherGroupServes(t, q)
  {
    var mailboxes := t.mailboxes[q.address := Written(t, q)];
    if AnotherGroupServes(t, q) {
      var a :|
        && a in t.mailboxes && a != q.address
        && t.mailboxes[a].tenant == q.tenant && t.mailboxes[a].isGroup && t.mailboxes[a].active
        && (t.mailboxes[a].status == DirectActive || t.mailboxes[a].status == OAuthActive);
      assert a in mailboxes && ServesAsGroup(mailboxes[a], q.tenant);
    }
    if HasGroups(mailboxes, q.tenant) {
      var a :| a in mailboxes && ServesAsGroup(mailboxes[a], q.tenant);
      assert a in t.mailboxes && a != q.address;
    }
  }

  /** An accepted request for a single mailbox is told to rely on groups if and only if another group of
      the tenant serves, the mode allows it, and no direct path comes first: basic authentication with a
      password, except in mode 'group only', or, in mode 'both', Google or Microsoft with a password. */
  lemma ReliesOnGroupsIff(providers: Providers, t: Tables, q: Request)
    requires Upsert(providers, t, q).1.Upserted? && !q.isGroup
    ensures var auth := providers[q.provider.value];
      var password := q.password.Some? && q.password.value != "";
      Upsert(providers, t, q).1.status == RelyOnGroups <==>
        && AnotherGroupServes(t, q)
        && q.mode != DirectOnly
        && !(auth == Basic && password && q.mode != GroupOnly)
        && !((auth == OAuthGoogle || auth == OAuthMicrosoft) && password && q.mode == Both)
  {
    GroupsAreNoticed(t, q);
  }

  /** And it is queued for a headless attempt if and only if it has a password and no basic
      authentication, and either the mode asks for a direct path and the provider is Google or Microsoft,
      or the mode is 'auto' and no other group serves. */
  lemma QueuedIff(providers: Providers, t: Tables, q: Request)
    requires Upsert(providers, t, q).1.Upserted? && !q.isGroup
    ensures var auth := providers[q.provider.value];
      var password := q.password.Some? && q.password.value != "";
      Upsert(providers, t, q).1.status == PendingOAuthHeadless <==>
        && password && auth != Basic
        && ((q.mode == Auto && !AnotherGroupServes(t, q))
            || ((q.mode == DirectOnly || q.mode == Both) && (auth == OAuthGoogle || auth == OAuthMicrosoft)))
  {
    GroupsAreNoticed(t, q);
  }

  /** An accepted request is recorded as answered, writes its own mailbox alone, keeps what it does not
      speak of, and leaves everybody else's rows and passwords as they are. */
  lemma UpsertWritesItsOwn(providers: Providers, t: Tables, q: Request)
    requires Upsert(providers, t, q).1.Upserted?
    ensures var (t', r) := Upsert(providers, t, q);
      && t'.mailboxes.Keys == t.mailboxes.Keys + {q.address}
      && (forall b :: b in t.mailboxes && b != q.address ==> t'.mailboxes[b] == t.mailboxes[b])
      && (forall b :: b != q.address ==> RowsOf(t'.passwords, b) == RowsOf(t.passwords, b))
      && r.isNew == (q.address !in t.mailboxes)
      && var m := t'.mailboxes[q.address];
      && m.status == r.status && m.tenant == q.tenant && Some(m.provider) == q.provider
      && m.isGroup == q.isGroup && m.purpose == q.purpose && m.notes == q.notes && m.mode == q.mode
      && (q.proxy.Some? ==> m.proxy == q.proxy)
      && (q.forwardingTarget.Some? ==> m.forwardingTarget == q.forwardingTarget)
      && if q.address in t.mailboxes then
           var before := t.mailboxes[q.address];
           && (q.proxy.None? ==> m.proxy == before.proxy)
           && (q.forwardingTarget.None? ==> m.forwardingTarget == before.forwardingTarget)
           && m.refresh == before.refresh && m.access == before.access && m.accessExpires == before.accessExpires
           && m.consent == before.consent && m.attempts == before.attempts && m.active == before.active
           && m.created == before.created
         else
           && m.proxy == q.proxy && m.forwardingTarget == q.forwardingTarget
           && m.refresh == None && m.access == None && m.accessExpires == None && m.consent == None
           && m.attempts == 0 && m.active && m.created == q.now
  {
  }

  /** An empty password is no password. */
  lemma EmptyPasswordIsNone(providers: Providers, t: Tables, q: Request)
    requires q.password == Some("")
    ensures Upsert(providers, t, q) == Upsert(providers, t, q.(password := None))
  {
  }

  /** A request is refused exactly for an address without '@', without a provider, for a mailbox of
      another tenant, or for a provider that does not exist; then nothing is written. */
  lemma RefusedIff(providers: Providers, t: Tables, q: Request)
    ensures var (t', r) := Upsert(providers, t, q);
      && (r.Rejected? <==>
            || '@' !in q.address
            || q.provider == None
            || (q.address in t.mailboxes && t.mailboxes[q.address].tenant != q.tenant)
            || q.provider.value !in providers)
      && (r.Rejected? ==> t' == t)
  {
  }

  /** `DELETE FROM mailboxes`, cascading to the password rows. */
  function Delete(t: Tables, address: string): Tables {
    Tables(t.mailboxes - {address}, t.passwords - {address})
  }

  class MailboxService {
    const providers: Providers
    var mailboxes: map<string, Mailbox>
    var passwords: map<string, seq<PasswordRow>>

    constructor (providers: Providers, t: Tables)
      ensures this.providers == providers && View() == t
    {
      this.providers, mailboxes, passwords := providers, t.mailboxes, t.passwords;
    }

    function View(): Tables
      reads this
    {
      Tables(mailboxes, passwords)
    }

    method InsertPassword(address: string, password: string, isCurrent: bool)
      modifies this`passwords
      ensures passwords == old(passwords)[address :=
        RowsOf(old(passwords), address) + [PasswordRow(Encrypt(password), isCurrent, None)]]
    {
      passwords := passwords[address := RowsOf(passwords, address) + [PasswordRow(Encrypt(password), isCurrent, None)]];
    }

    method InvalidatePassword(address: string, i: nat)
      requires address in passwords && i < |passwords[address]|
      modifies this`passwords
      ensures passwords == old(passwords)[address := old(passwords)[address][i :=
        old(passwords)[address][i].(current := false, reason := Some("replaced_by_client"))]]
    {
      var rows := passwords[address];
      passwords := passwords[address := rows[i := rows[i].(current := false, reason := Some("replaced_by_client"))]];
    }

    /** INSERT for a new address, UPDATE with its COALESCEs for a known one. */
    method WriteRow(q: Request)
      requires q.provider.Some?
      modifies this`mailboxes
      ensures mailboxes == old(mailboxes)[q.address := Written(old(View()), q)]
    {
      if q.address !in mailboxes {
        mailboxes := mailboxes[q.address :=
          Mailbox(q.tenant, q.provider.value, q.isGroup, Pending, q.purpose, q.notes, q.proxy, q.mode,
                  q.forwardingTarget, None, None, None, None, 0, true, q.now)];
      } else {
        var m := mailboxes[q.address];
        mailboxes := mailboxes[q.address :=
          m.(provider := q.provider.value, isGroup := q.isGroup, purpose := q.purpose, notes := q.notes,
             proxy := if q.proxy.Some? then q.proxy else m.proxy, mode := q.mode,
             forwardingTarget := if q.forwardingTarget.Some? then q.forwardingTarget else m.forwardingTarget)];
      }
    }

    /** The current row is replaced unless it opens to the same password. */
    method StorePassword(address: string, password: string) returns (changed: bool)
      modifies this`passwords
      ensures var (rows, different) := KeepPassword(RowsOf(old(passwords), address), password);
        changed == different && passwords == if changed then old(passwords)[address := rows] else old(passwords)
    {
      var current := CurrentIndex(RowsOf(passwords, address));
      if current.None? {
        InsertPassword(address, password, true);
        return true;
      }
      var plain := Decrypt(passwords[address][current.value].cipher);
      if plain == Some(password) {
        return false;
      }
      InvalidatePassword(address, current.value);
      InsertPassword(address, password, true);
      changed := true;
    }

    /** The statements of the transaction in their order; every refusal comes before any write. */
    method UpsertMailbox(q: Request) returns (r: Response)
      modifies this
      ensures (View(), r) == Upsert(providers, old(View()), q)
    {
      if '@' !in q.address {
        return Rejected(InvalidAddress);
      }
      if q.provider.None? {
        return Rejected(NoProvider);
      }

      var isNew := q.address !in mailboxes;
      if !isNew && mailboxes[q.address].tenant != q.tenant {
        return Rejected(OtherTenant);
      }
      if q.provider.value !in providers {
        return Rejected(ProviderMissing);
      }
      WriteRow(q);
      assert mailboxes[q.address].isGroup == q.isGroup;

      var passwordChanged := false;
      if Given(q.password) {
        passwordChanged := StorePassword(q.address, q.password.value);
      }

      var isGroup := mailboxes[q.address].isGroup;
      var status := DecideStatus(providers[q.provider.value], isGroup, HasGroups(mailboxes, q.tenant),
                                 Given(q.password), q.mode);
      mailboxes := mailboxes[q.address := mailboxes[q.address].(status := status)];
      r := Upserted(status, isNew, passwordChanged);
    }
  }
}
