/** `ImapWorkerManager`: bringing the dictionary of running tasks in line with the database. */
module WorkerPool {
  import opened Common
  import opened Mailboxes
  import OAuthLifecycle

  /** A mailbox row joined with its provider and its current password row. */
  datatype Row = Row(
    address: string, isGroup: bool, active: bool, workerEnabled: bool, status: Status, auth: AuthKind,
    host: string, port: int, ssl: bool, password: Option<Cipher>, access: Option<Cipher>, created: int)

  datatype Config = Config(
    address: string, host: string, port: int, ssl: bool, auth: AuthKind,
    password: Option<string>, accessToken: Option<string>, isGroup: bool)

  datatype WorkerState = WorkerState(config: Config, task: nat)

  datatype Task = Task(address: string, done: bool, cancelled: bool)

  /** The dictionary, and every task ever created by the manager. */
  datatype Pool = Pool(workers: map<string, WorkerState>, tasks: seq<Task>)

  // ---- which mailboxes are wanted -------------------------------------------------------------

  predicate Eligible(r: Row) {
    r.active && r.workerEnabled &&
    ((r.auth == Basic && r.status == DirectActive && r.password.Some?) ||
     ((r.auth == OAuthGoogle || r.auth == OAuthMicrosoft) && r.status == OAuthActive && r.access.Some?))
  }

  /** `ORDER BY is_group DESC, created_at ASC`. */
  predicate NotAfter(a: Row, b: Row) {
    (a.isGroup && !b.isGroup) || (a.isGroup == b.isGroup && a.created <= b.created)
  }

  ghost predicate Ordered(rows: seq<Row>) {
    forall i, j :: 0 <= i < j < |rows| ==> NotAfter(rows[i], rows[j])
  }

  function EligibleRows(table: seq<Row>): seq<Row> {
    if table == [] then []
    else (if Eligible(table[0]) then [table[0]] else []) + EligibleRows(table[1..])
  }

  /** Exactly the table's rows that are switched on and have what their kind of authentication needs. */
  lemma {:induction false} EligibleRowsAre(table: seq<Row>, r: Row)
    ensures r in EligibleRows(table) <==>
      && r in table && r.active && r.workerEnabled
      && ((r.auth == Basic && r.status == DirectActive && r.password.Some?)
          || (r.auth in {OAuthGoogle, OAuthMicrosoft} && r.status == OAuthActive && r.access.Some?))
    decreases |table|
  {
    if table != [] {
      EligibleRowsAre(table[1..], r);
      assert r in table <==> r == table[0] || r in table[1..];
    }
  }

  /** `rows` is what some correct evaluation of the query with this limit may return. */
  ghost predicate Taken(table: seq<Row>, limit: nat, rows: seq<Row>) {
    exists sorted ::
      && multiset(sorted) == multiset(EligibleRows(table))
      && Ordered(sorted)
      && rows == sorted[..Min(limit, |sorted|)]
  }

  /** The take is never more than the limit, groups come first (a single mailbox is taken only when
      every eligible group was), and within a kind older mailboxes come first. */
  lemma GroupsAndElderFirst(table: seq<Row>, limit: nat, rows: seq<Row>, taken: Row, other: Row)
    requires Taken(table, limit, rows)
    requires taken in rows && other in EligibleRows(table)
    ensures |rows| <= limit && taken in EligibleRows(table)
    ensures !taken.isGroup && other.isGroup ==> other in rows
    ensures taken.isGroup == other.isGroup && other.created < taken.created ==> other in rows
  {
    var sorted :| multiset(sorted) == multiset(EligibleRows(table)) && Ordered(sorted)
      && rows == sorted[..Min(limit, |sorted|)];
    assert other in multiset(sorted) && taken in sorted;
    assert taken in multiset(EligibleRows(table));
    var i :| 0 <= i < |rows| && rows[i] == taken;
    var j :| 0 <= j < |sorted| && sorted[j] == other;
    if j < |rows| {
      assert rows[j] == other;
    }
  }

  /** The worker is to connect to the row's own server, for the row's own mailbox. */
  predicate IsEndpointOf(c: Config, r: Row) {
    && c.address == r.address && c.host == r.host && c.port == r.port && c.ssl == r.ssl
    && c.auth == r.auth && c.isGroup == r.isGroup
  }

  /** The config of a row, unless its secret does not decrypt: a password for basic authentication,
      else an access token, and never both. */
  function ConfigOf(r: Row): (c: Option<Config>)
    ensures c.Some? ==> IsEndpointOf(c.value, r)
    ensures c.Some? <==>
      if r.auth == Basic then r.password.Some? && r.password.value.Sealed? else r.access.Some? && r.access.value.Sealed?
    ensures c.Some? && r.auth == Basic ==>
      c.value.password.Some? && r.password == Some(Encrypt(c.value.password.value)) && c.value.accessToken == None
    ensures c.Some? && r.auth != Basic ==>
      c.value.accessToken.Some? && r.access == Some(Encrypt(c.value.accessToken.value)) && c.value.password == None
  {
    var secret := if r.auth == Basic then r.password else r.access;
    var plain := if secret.None? then None else Decrypt(secret.value);
    if plain.None? then None
    else Some(Config(r.address, r.host, r.port, r.ssl, r.auth,
                     if r.auth == Basic then plain else None,
                     if r.auth == Basic then None else plain, r.isGroup))
  }

  function WantedOf(rows: seq<Row>): (m: map<string, Config>)
    ensures |m| <= |rows|
    ensures forall a :: a in m ==> exists r :: r in rows && r.address == a && ConfigOf(r) == Some(m[a])
    ensures forall r :: r in rows && ConfigOf(r).Some? ==> r.address in m
  {
    if rows == [] then map[]
    else
      var front, last := rows[..|rows| - 1], rows[|rows| - 1];
      assert rows == front + [last];
      var before := WantedOf(front);
      assert last in rows && forall r :: r in front ==> r in rows;
      if ConfigOf(last).Some? then before[last.address := ConfigOf(last).value] else before
  }

  /** The row the query joins for a mailbox: its provider's kind and its current password. */
  function Joined(providers: Providers, t: Tables, a: string, enabled: bool, host: string, port: int, ssl: bool): Row
    requires a in t.mailboxes && t.mailboxes[a].provider in providers
  {
    var m := t.mailboxes[a];
    var rows := RowsOf(t.passwords, a);
    var current := CurrentIndex(rows);
    Row(a, m.isGroup, m.active, enabled, m.status, providers[m.provider], host, port, ssl,
        if current.Some? then Some(rows[current.value].cipher) else None, m.access, m.created)
  }

  /** Which mailboxes get workers, in every reachable state: no direct-active one is ever passed over,
      being eligible exactly when it is switched on; an OAuth-active one also needs an access token and a
      provider the workers know; and no other mailbox is eligible. */
  lemma ActiveMailboxesAreEligible(
    providers: Providers, es: seq<OAuthLifecycle.Event>, a: string, enabled: bool, host: string, port: int, ssl: bool)
    requires a in OAuthLifecycle.Run(providers, OAuthLifecycle.Start, es).t.mailboxes
    ensures var t := OAuthLifecycle.Run(providers, OAuthLifecycle.Start, es).t;
      var m := t.mailboxes[a];
      && (m.status == DirectActive ==> m.provider in providers)
      && (m.provider in providers ==>
            (Eligible(Joined(providers, t, a, enabled, host, port, ssl)) <==>
              && m.active && enabled
              && (m.status == DirectActive
                  || (m.status == OAuthActive && m.access.Some?
                      && (providers[m.provider] == OAuthGoogle || providers[m.provider] == OAuthMicrosoft)))))
  {
    OAuthLifecycle.LifecycleInvariant(providers, es, a);
  }

  // ---- what a reconcile does --------------------------------------------------------------------

  predicate Live(t: Task) {
    !t.done && !t.cancelled
  }

  ghost predicate Kept(p: Pool, a: string) {
    a in p.workers && p.workers[a].task < |p.tasks| && !p.tasks[p.workers[a].task].done
  }

  ghost predicate Stopped(p: Pool, wanted: map<string, Config>, t: nat)
    requires t < |p.tasks|
  {
    p.tasks[t].address in p.workers && p.workers[p.tasks[t].address].task == t && p.tasks[t].address !in wanted
  }

  /** Cancelling a finished task does nothing. */
  function Cancel(t: Task): Task {
    if t.done then t else t.(cancelled := true)
  }

  /** From `p` to `q`: unwanted workers are cancelled and dropped, wanted live ones keep their task and
      their old config, every other wanted address gets a new task with the new config. */
  ghost predicate Reconciled(p: Pool, wanted: map<string, Config>, q: Pool) {
    && q.workers.Keys == wanted.Keys
    && |p.tasks| <= |q.tasks|
    && (forall t :: 0 <= t < |p.tasks| ==> q.tasks[t] == if Stopped(p, wanted, t) then Cancel(p.tasks[t]) else p.tasks[t])
    && (forall a :: a in wanted && Kept(p, a) ==> q.workers[a] == p.workers[a])
    && (forall a :: a in wanted && !Kept(p, a) ==> Started(p, wanted, q, a))
    && (forall t :: |p.tasks| <= t < |q.tasks| ==>
          q.tasks[t].address in q.workers && q.workers[q.tasks[t].address].task == t)
  }

  /** A task ends by itself. */
  ghost predicate Ended(p: Pool, t: nat, q: Pool) {
    t < |p.tasks| && q == p.(tasks := p.tasks[t := p.tasks[t].(done := true)])
  }

  /** Every task has ended or is cancelled, and the dictionary is empty. */
  ghost predicate Cleared(p: Pool, q: Pool) {
    && q.workers == map[]
    && |q.tasks| == |p.tasks|
    && forall t :: 0 <= t < |q.tasks| ==>
         (q.tasks[t] == p.tasks[t] || q.tasks[t] == Cancel(p.tasks[t])) && !Live(q.tasks[t])
  }

  /** No orphans: every live task ever created is its address's entry in the dictionary. */
  ghost predicate PoolOk(p: Pool) {
    && (forall a :: a in p.workers ==>
          && p.workers[a].task < |p.tasks|
          && p.tasks[p.workers[a].task].address == a
          && !p.tasks[p.workers[a].task].cancelled)
    && forall t :: 0 <= t < |p.tasks| && Live(p.tasks[t]) ==>
         p.tasks[t].address in p.workers && p.workers[p.tasks[t].address].task == t
  }

  // ---- the two loops --------------------------------------------------------------------------

  /** The first loop has yet to look at `keys`. */
  ghost predicate StoppedSoFar(p: Pool, wanted: map<string, Config>, keys: set<string>, v: Pool) {
    && keys <= p.workers.Keys && v.workers.Keys <= p.workers.Keys
    && (forall a :: a in p.workers ==> (a in v.workers <==> a in keys || a in wanted))
    && (forall a :: a in v.workers ==> v.workers[a] == p.workers[a])
    && |v.tasks| == |p.tasks|
    && forall t :: 0 <= t < |p.tasks| ==>
         v.tasks[t] == if Stopped(p, wanted, t) && p.tasks[t].address !in keys then Cancel(p.tasks[t]) else p.tasks[t]
  }

  lemma StopStep(p: Pool, wanted: map<string, Config>, keys: set<string>, v: Pool, a: string)
    requires PoolOk(p) && StoppedSoFar(p, wanted, keys, v) && a in keys
    ensures a in v.workers && v.workers[a].task < |v.tasks|
    ensures var t := v.workers[a].task;
      StoppedSoFar(p, wanted, keys - {a},
        if a in wanted then v else Pool(v.workers - {a}, v.tasks[t := Cancel(v.tasks[t])]))
    ensures |v.workers - {a}| <= |p.workers|
  {
    SubsetIsNoLarger((v.workers - {a}).Keys, p.workers.Keys);
    if a !in wanted {
      StopOne(p, wanted, keys, v, a);
    }
  }

  lemma StopOne(p: Pool, wanted: map<string, Config>, keys: set<string>, v: Pool, a: string)
    requires PoolOk(p) && StoppedSoFar(p, wanted, keys, v) && a in keys && a !in wanted
    ensures a in v.workers && v.workers[a].task < |v.tasks|
    ensures var t := v.workers[a].task;
      StoppedSoFar(p, wanted, keys - {a}, Pool(v.workers - {a}, v.tasks[t := Cancel(v.tasks[t])]))
  {
  }

  /** The second loop has yet to look at `todo`. */
  ghost predicate StartedSoFar(p: Pool, wanted: map<string, Config>, todo: set<string>, v: Pool) {
    && todo <= wanted.Keys
    && p.workers.Keys <= v.workers.Keys <= wanted.Keys <= v.workers.Keys + todo
    && |p.tasks| <= |v.tasks|
    && (forall t :: 0 <= t < |p.tasks| ==> v.tasks[t] == p.tasks[t])
    && (forall a :: a in todo && a in v.workers ==> a in p.workers && v.workers[a] == p.workers[a])
    && (forall a :: a in wanted && a !in todo && Kept(p, a) ==> v.workers[a] == p.workers[a])
    && (forall a :: a in wanted && a !in todo && !Kept(p, a) ==> Started(p, wanted, v, a))
    && (forall t :: |p.tasks| <= t < |v.tasks| ==>
          v.tasks[t].address in v.workers && v.tasks[t].address !in todo && v.workers[v.tasks[t].address].task == t)
  }

  ghost predicate Started(p: Pool, wanted: map<string, Config>, v: Pool, a: string) {
    && a in v.workers && a in wanted
    && v.workers[a].config == wanted[a]
    && |p.tasks| <= v.workers[a].task < |v.tasks|
    && v.tasks[v.workers[a].task] == Task(a, false, false)
  }

  lemma LaunchFits(wanted: map<string, Config>, workers: map<string, WorkerState>, a: string, w: WorkerState)
    requires workers.Keys <= wanted.Keys && a in wanted
    ensures |workers[a := w]| <= |wanted|
  {
    SubsetIsNoLarger(workers[a := w].Keys, wanted.Keys);
  }

  lemma StartStep(p: Pool, wanted: map<string, Config>, todo: set<string>, v: Pool, a: string)
    requires forall b :: b in p.workers ==> p.workers[b].task < |p.tasks|
    requires StartedSoFar(p, wanted, todo, v) && a in todo
    ensures a in v.workers ==> v.workers[a].task < |v.tasks|
    ensures StartedSoFar(p, wanted, todo - {a},
      if a in v.workers && !v.tasks[v.workers[a].task].done then v
      else Pool(v.workers[a := WorkerState(wanted[a], |v.tasks|)], v.tasks + [Task(a, false, false)]))
  {
    if !(a in v.workers && !v.tasks[v.workers[a].task].done) {
      StartOne(p, wanted, todo, v, a);
    }
  }

  lemma StartOne(p: Pool, wanted: map<string, Config>, todo: set<string>, v: Pool, a: string)
    requires forall b :: b in p.workers ==> p.workers[b].task < |p.tasks|
    requires StartedSoFar(p, wanted, todo, v) && a in todo
    requires a in v.workers ==> v.workers[a].task < |v.tasks| && v.tasks[v.workers[a].task].done
    ensures StartedSoFar(p, wanted, todo - {a},
      Pool(v.workers[a := WorkerState(wanted[a], |v.tasks|)], v.tasks + [Task(a, false, false)]))
  {
    var v' := Pool(v.workers[a := WorkerState(wanted[a], |v.tasks|)], v.tasks + [Task(a, false, false)]);
    forall b | b in wanted && b !in todo - {a} && !Kept(p, b) ensures Started(p, wanted, v', b) {
      assert b != a ==> Started(p, wanted, v, b);
    }
  }

  lemma BothLoopsReconcile(p: Pool, wanted: map<string, Config>, v: Pool, q: Pool)
    requires PoolOk(p) && StoppedSoFar(p, wanted, {}, v) && StartedSoFar(v, wanted, {}, q)
    ensures Reconciled(p, wanted, q)
  {
    forall a | a in wanted ensures Kept(v, a) == Kept(p, a) {
      if a in p.workers {
        assert !Stopped(p, wanted, p.workers[a].task);
      }
    }
    forall a | a in wanted && !Kept(p, a) ensures Started(p, wanted, q, a) {
      assert Started(v, wanted, q, a);
    }
  }

  class ImapWorkerManager {
    const maxWorkers: nat
    var workers: map<string, WorkerState>
    var tasks: seq<Task>
    ghost var peak: nat   // the largest the dictionary has ever been

    constructor (maxWorkers: nat)
      ensures this.maxWorkers == maxWorkers && View() == Pool(map[], []) && peak == 0
    {
      this.maxWorkers, workers, tasks, peak := maxWorkers, map[], [], 0;
    }

    function View(): Pool
      reads this
    {
      Pool(workers, tasks)
    }

    method CancelTask(t: nat)
      requires t < |tasks|
      modifies this`tasks
      ensures tasks == old(tasks)[t := Cancel(old(tasks)[t])]
    {
      tasks := tasks[t := Cancel(tasks[t])];
    }

    method CreateTask(address: string) returns (t: nat)
      modifies this`tasks
      ensures t == |old(tasks)| && tasks == old(tasks) + [Task(address, false, false)]
    {
      t := |tasks|;
      tasks := tasks + [Task(address, false, false)];
    }

    /** Cancel a worker's task and forget the worker. */
    method Drop(a: string)
      requires a in workers && workers[a].task < |tasks|
      modifies this
      ensures View() == Pool(old(workers) - {a},
        old(tasks)[old(workers)[a].task := Cancel(old(tasks)[old(workers)[a].task])])
      ensures peak == if |workers| > old(peak) then |workers| else old(peak)
    {
      CancelTask(workers[a].task);
      workers := workers - {a};
      peak := if |workers| > peak then |workers| else peak;
    }

    /** Start a task and enter it, in place of a finished one if there is one. */
    method Launch(cfg: Config, a: string)
      modifies this
      ensures View() == Pool(old(workers)[a := WorkerState(cfg, |old(tasks)|)], old(tasks) + [Task(a, false, false)])
      ensures peak == if |workers| > old(peak) then |workers| else old(peak)
    {
      var t := CreateTask(a);
      workers := workers[a := WorkerState(cfg, t)];
      peak := if |workers| > peak then |workers| else peak;
    }

    /** First loop: stop workers no longer wanted. */
    method StopUnwanted(wanted: map<string, Config>)
      requires PoolOk(View()) && |workers| <= maxWorkers && peak <= maxWorkers
      modifies this
      ensures StoppedSoFar(old(View()), wanted, {}, View())
      ensures peak <= maxWorkers
    {
      ghost var p := View();
      var keys := workers.Keys;
      while keys != {}
        invariant StoppedSoFar(p, wanted, keys, View())
        invariant peak <= maxWorkers
        decreases keys
      {
        var a :| a in keys;
        ghost var v := View();
        StopStep(p, wanted, keys, v, a);
        keys := keys - {a};
        if a !in wanted {
          Drop(a);
        }
      }
    }

    /** Second loop: start what is wanted and has no live task. */
    method StartWanted(wanted: map<string, Config>)
      requires workers.Keys <= wanted.Keys && |wanted| <= maxWorkers && peak <= maxWorkers
      requires forall a :: a in workers ==> workers[a].task < |tasks|
      modifies this
      ensures StartedSoFar(old(View()), wanted, {}, View())
      ensures peak <= maxWorkers
    {
      ghost var p := View();
      var todo := wanted.Keys;
      while todo != {}
        invariant StartedSoFar(p, wanted, todo, View())
        invariant peak <= maxWorkers
        decreases todo
      {
        var a :| a in todo;
        ghost var v := View();
        StartStep(p, wanted, todo, v, a);
        todo := todo - {a};
        if a in workers && !tasks[workers[a].task].done {
          continue;
        }
        LaunchFits(wanted, workers, a, WorkerState(wanted[a], |tasks|));
        Launch(wanted[a], a);
      }
    }

    /** The rows whose secret decrypts, by address. */
    method DecryptRows(rows: seq<Row>) returns (wanted: map<string, Config>)
      ensures wanted == WantedOf(rows)
    {
      wanted := map[];
      for i := 0 to |rows|
        invariant wanted == WantedOf(rows[..i])
      {
        assert rows[..i + 1][..i] == rows[..i];
        var cfg := ConfigOf(rows[i]);
        if cfg.None? {
          continue;
        }
        wanted := wanted[rows[i].address := cfg.value];
      }
      assert rows[..|rows|] == rows;
    }

    /** One reconcile over the rows the query returned. */
    method ReconcileWorkers(rows: seq<Row>)
      requires PoolOk(View()) && |workers| <= maxWorkers && peak <= maxWorkers
      requires |rows| <= maxWorkers
      modifies this
      ensures Reconciled(old(View()), WantedOf(rows), View())
      ensures |workers| <= maxWorkers && peak <= maxWorkers
    {
      ghost var p := View();
      var wanted := DecryptRows(rows);
      StopUnwanted(wanted);
      ghost var middle := View();
      StartWanted(wanted);
      BothLoopsReconcile(p, wanted, middle, View());
      SubsetIsNoLarger(workers.Keys, wanted.Keys);
    }

    /** Cancel every worker's task, wait for them, forget them. */
    method StopAll()
      requires PoolOk(View())
      modifies this
      ensures Cleared(old(View()), View()) && peak == old(peak)
    {
      ghost var p := View();
      var keys := workers.Keys;
      while keys != {}
        invariant keys <= workers.Keys && workers == p.workers && peak == old(peak)
        invariant |tasks| == |p.tasks|
        invariant forall t :: 0 <= t < |tasks| ==> tasks[t] == p.tasks[t] || tasks[t] == Cancel(p.tasks[t])
        invariant forall t :: 0 <= t < |tasks| && Live(tasks[t]) ==> p.tasks[t].address in keys
        decreases keys
      {
        var a :| a in keys;
        keys := keys - {a};
        CancelTask(workers[a].task);
      }
      workers := map[];
    }
  }

  // ---- every history of the pool ------------------------------------------------------------------

  lemma ReconcileKeepsPoolOk(p: Pool, wanted: map<string, Config>, q: Pool)
    requires PoolOk(p) && Reconciled(p, wanted, q)
    ensures PoolOk(q)
  {
    forall a | a in q.workers
      ensures q.workers[a].task < |q.tasks| && q.tasks[q.workers[a].task].address == a && !q.tasks[q.workers[a].task].cancelled
    {
      assert a in wanted;
      if Kept(p, a) {
        assert q.tasks[p.workers[a].task] == p.tasks[p.workers[a].task];
      }
    }
    forall t | 0 <= t < |q.tasks| && Live(q.tasks[t])
      ensures q.tasks[t].address in q.workers && q.workers[q.tasks[t].address].task == t
    {
      if t < |p.tasks| {
        assert Live(p.tasks[t]) && !Stopped(p, wanted, t);
        assert Kept(p, p.tasks[t].address);
      }
    }
  }

  /** One move in a history: a reconcile, a task that ends, or a shutdown. */
  ghost predicate Move(p: Pool, q: Pool) {
    (exists wanted :: Reconciled(p, wanted, q)) || (exists t :: Ended(p, t, q)) || Cleared(p, q)
  }

  ghost predicate IsHistory(ps: seq<Pool>) {
    && ps != [] && ps[0] == Pool(map[], [])
    && forall i :: 0 <= i < |ps| - 1 ==> Move(ps[i], ps[i + 1])
  }

  lemma {:induction false} HistoryKeepsPoolOk(ps: seq<Pool>)
    requires IsHistory(ps)
    ensures PoolOk(ps[|ps| - 1])
    decreases |ps|
  {
    if |ps| > 1 {
      var front := ps[..|ps| - 1];
      assert IsHistory(front) by {
        forall i | 0 <= i < |front| - 1 ensures Move(front[i], front[i + 1]) {
          assert Move(ps[i], ps[i + 1]);
        }
      }
      HistoryKeepsPoolOk(front);
      var p, q := ps[|ps| - 2], ps[|ps| - 1];
      assert front[|front| - 1] == p;
      assert Move(p, q) by {
        assert Move(ps[|ps| - 2], ps[|ps| - 2 + 1]);
      }
      if wanted :| Reconciled(p, wanted, q) {
        ReconcileKeepsPoolOk(p, wanted, q);
      }
    }
  }

  /** After any history of reconciles, task ends and shutdowns, every live task is in the dictionary under its
      address, so no address ever has two; and a live task whose address is still wanted is left
      untouched by the next reconcile, with the config it was started with. */
  lemma NoOrphansNoTwins(ps: seq<Pool>, s: nat, t: nat, wanted: map<string, Config>, q: Pool)
    requires IsHistory(ps) && Reconciled(ps[|ps| - 1], wanted, q)
    requires var p := ps[|ps| - 1]; s < |p.tasks| && t < |p.tasks| && Live(p.tasks[s]) && Live(p.tasks[t])
    ensures var p := ps[|ps| - 1];
      && p.tasks[t].address in p.workers && p.workers[p.tasks[t].address].task == t
      && (p.tasks[s].address == p.tasks[t].address ==> s == t)
      && t < |q.tasks|
      && (p.tasks[t].address in wanted ==>
            q.tasks[t] == p.tasks[t] && p.tasks[t].address in q.workers
            && q.workers[p.tasks[t].address] == p.workers[p.tasks[t].address])
      && (p.tasks[t].address !in wanted ==> q.tasks[t].cancelled)
  {
    HistoryKeepsPoolOk(ps);
    var p := ps[|ps| - 1];
    assert Kept(p, p.tasks[t].address);
  }

  // ---- where the workers connect ------------------------------------------------------------------

  /** One move in a history whose reconciles go by takes of the table. */
  ghost predicate TakenMove(p: Pool, q: Pool) {
    (exists rows :: Reconciled(p, WantedOf(rows), q)) || (exists t :: Ended(p, t, q)) || Cleared(p, q)
  }

  ghost predicate IsTakenHistory(ps: seq<Pool>) {
    && ps != [] && ps[0] == Pool(map[], [])
    && forall i :: 0 <= i < |ps| - 1 ==> TakenMove(ps[i], ps[i + 1])
  }

  ghost predicate Named(p: Pool) {
    forall a :: a in p.workers ==> p.workers[a].config.address == a
  }

  /** Every wanted config is that of a row of the take. */
  ghost predicate FromTake(rows: seq<Row>, wanted: map<string, Config>) {
    forall a :: a in wanted ==> exists r :: r in rows && r.address == a && ConfigOf(r) == Some(wanted[a])
  }

  /** A reconcile by a take keeps every worker under its own address, and each worker it starts connects
      to the server of a row of the take with that address. */
  lemma ReconcileNames(p: Pool, rows: seq<Row>, wanted: map<string, Config>, q: Pool)
    requires Named(p) && FromTake(rows, wanted) && Reconciled(p, wanted, q)
    ensures Named(q)
    ensures forall a :: a in q.workers && !Kept(p, a) ==>
      exists r :: r in rows && r.address == a && IsEndpointOf(q.workers[a].config, r)
  {
    forall a | a in q.workers && !Kept(p, a)
      ensures exists r :: r in rows && r.address == a && IsEndpointOf(q.workers[a].config, r)
      ensures q.workers[a].config.address == a
    {
      assert Started(p, wanted, q, a);
      var r :| r in rows && r.address == a && ConfigOf(r) == Some(wanted[a]);
      assert IsEndpointOf(q.workers[a].config, r);
    }
  }

  /** After any history every worker in the dictionary logs in as the mailbox it is kept under, and a
      further reconcile starts workers only at the servers of the rows it took. */
  lemma {:induction false} WorkersAreNamed(ps: seq<Pool>)
    requires IsTakenHistory(ps)
    ensures Named(ps[|ps| - 1])
    decreases |ps|
  {
    if |ps| > 1 {
      var front, p, q := ps[..|ps| - 1], ps[|ps| - 2], ps[|ps| - 1];
      assert TakenMove(p, q) by {
        assert TakenMove(ps[|ps| - 2], ps[|ps| - 2 + 1]);
      }
      assert IsTakenHistory(front) by {
        forall i | 0 <= i < |front| - 1 ensures TakenMove(front[i], front[i + 1]) {
          assert TakenMove(ps[i], ps[i + 1]);
        }
      }
      WorkersAreNamed(front);
      assert front[|front| - 1] == p;
      if rows :| Reconciled(p, WantedOf(rows), q) {
        ReconcileNames(p, rows, WantedOf(rows), q);
      }
    }
  }
}
