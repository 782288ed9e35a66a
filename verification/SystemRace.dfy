/** What goes wrong in the control plane when a worker overtakes a Create call, as an actual run; that
    every read which leak freedom excludes can go wrong so; and what never gets put right again. */
module SystemRace {
  import opened Base
  import opened Names
  import opened Store
  import opened Cluster
  import opened Startup
  import opened Deletion
  import opened DeletionRuns
  import opened Reconcile
  import opened System
  import opened SystemCore
  import DeletionFrame
  import SandboxApi
  import SystemSafety

  // ----- Runs -------------------------------------------------------------------------------

  /** The system can go from one state to the other. */
  ghost predicate Leads(s: Sys, s': Sys) {
    exists trace, steps :: IsPath(trace, steps) && trace[0] == s && trace[|steps|] == s'
  }

  ghost predicate Reachable(s: Sys) {
    exists trace, steps :: System.IsRun(trace, steps) && trace[|steps|] == s
  }

  lemma PathNext(trace: seq<Sys>, steps: seq<Step>, e: Step)
    requires IsPath(trace, steps) && Enabled(trace[|steps|], e)
    ensures IsPath(trace + [After(trace[|steps|], e)], steps + [e])
  {
    var s := trace[|steps|];
    var trace', steps' := trace + [After(s, e)], steps + [e];
    forall i | 0 <= i < |steps'| ensures Enabled(trace'[i], steps'[i]) && trace'[i + 1] == After(trace'[i], steps'[i]) {
      if i < |steps| {
        assert steps'[i] == steps[i] && trace'[i] == trace[i] && trace'[i + 1] == trace[i + 1];
      } else {
        assert steps'[i] == e && trace'[i] == s;
      }
    }
  }

  lemma LeadsNowhere(s: Sys)
    ensures Leads(s, s)
  {
    var none: seq<Step> := [];
    assert IsPath([s], none) && [s][0] == s && [s][|none|] == s;
  }

  lemma LeadsNext(s0: Sys, s: Sys, e: Step)
    requires Leads(s0, s) && Enabled(s, e)
    ensures Leads(s0, After(s, e))
  {
    var trace, steps :| IsPath(trace, steps) && trace[0] == s0 && trace[|steps|] == s;
    PathNext(trace, steps, e);
    var trace', steps' := trace + [After(s, e)], steps + [e];
    assert IsPath(trace', steps') && trace'[0] == s0 && trace'[|steps'|] == After(s, e);
  }

  lemma ReachNext(s: Sys, e: Step)
    requires Reachable(s) && Enabled(s, e)
    ensures Reachable(After(s, e))
  {
    var trace, steps :| System.IsRun(trace, steps) && trace[|steps|] == s;
    PathNext(trace, steps, e);
    var trace', steps' := trace + [After(s, e)], steps + [e];
    assert System.IsRun(trace', steps') && trace'[|steps'|] == After(s, e);
  }

  lemma ReachableIsCore(s: Sys)
    requires Reachable(s)
    ensures Core(s)
  {
    var trace, steps :| System.IsRun(trace, steps) && trace[|steps|] == s;
    CoreHolds(trace, steps, |steps|);
  }

  function Empty(): Sys {
    Sys(map[], State(map[], map[], map[], map[], map[]), map[], {}, map[])
  }

  lemma EmptyIsReachable()
    ensures Reachable(Empty())
  {
    var none: seq<Step> := [];
    assert System.IsRun([Empty()], none) && [Empty()][|none|] == Empty();
  }

  /** A task that has only writes of its own row left makes them one after the other. */
  lemma {:induction false} WritesAreMade(s: Sys, t: nat, id: Id, todo: seq<Action>)
    requires Reachable(s) && t in s.tasks && s.tasks[t] == Doing(id, todo) && id in s.rows
    requires forall a :: a in todo ==> a.Db? && DeletionFrame.Concerns(a, id)
    ensures Reachable(s.(rows := s.rows[id := RowAct(todo, s.rows[id])], tasks := s.tasks[t := Doing(id, [])]))
    decreases |todo|
  {
    if todo == [] {
      assert s.rows[id := s.rows[id]] == s.rows && s.tasks[t := Doing(id, [])] == s.tasks;
    } else {
      assert todo[0] in todo;
      var r := RowAfter(todo[0].stmt, s.rows[id]);
      var s1 := s.(rows := s.rows[id := r], tasks := s.tasks[t := Doing(id, todo[1..])]);
      assert AfterDo(s, t) == s1;
      ReachNext(s, Do(t));
      WritesAreMade(s1, t, id, todo[1..]);
      assert s1.rows[id := RowAct(todo[1..], r)] == s.rows[id := RowAct(todo, s.rows[id])];
      assert s1.tasks[t := Doing(id, [])] == s.tasks[t := Doing(id, [])];
    }
  }

  /** No object of the sandbox exists. */
  predicate Bare(c: State, id: Id) {
    RuntimeName(id) !in c.deployments && PodsOf(c, id) == {} && ClaimName(id) !in c.pvcs
  }

  function Nothing(): Snapshot {
    Snapshot(None, [], None, None, [])
  }

  /** A due persistent row of which nothing exists yet. */
  predicate DueAndBare(s: Sys, id: Id, now: Time) {
    && id in s.rows && s.rows[id].id == id && s.rows[id].persistent && WellNamed(s.rows[id])
    && PendingDeletion(s.rows[id], now) && Bare(s.cluster, id)
  }

  function Todo(q: Record, now: Time): seq<Action> {
    Actions(Handle(q, Nothing(), now, now))
  }

  lemma ListAndCountRun(s: Sys, t: nat, id: Id, now: Time)
    requires Reachable(s) && t !in s.tasks && DueAndBare(s, id, now)
    ensures var r := s.rows[id];
            Reachable(s.(rows := s.rows[id := Attempted(r, now)], tasks := s.tasks[t := Counted(r, now, now)]))
  {
    var r := s.rows[id];
    assert RowAfter(AttemptStmt(r, now), r) == Attempted(r, now);
    ReachNext(s, List(t, id, now, now));
    var s1 := WithTask(s, t, Listed(r, now, now));
    ReachNext(s1, Count(t));
    assert s1.tasks[t := Counted(r, now, now)] == s.tasks[t := Counted(r, now, now)];
  }

  lemma SeeRuntimeRuns(s: Sys, t: nat, r: Record, now: Time)
    requires Reachable(s) && t in s.tasks && s.tasks[t] == Counted(r, now, now)
    requires DeploymentKey(r) !in s.cluster.deployments
    ensures Reachable(WithTask(s, t, SawRuntime(r, now, now, None)))
  {
    ReachNext(s, SeeRuntime(t));
  }

  lemma SeePodsRuns(s: Sys, t: nat, r: Record, now: Time)
    requires Reachable(s) && t in s.tasks && s.tasks[t] == SawRuntime(r, now, now, None) &&
        PodsOf(s.cluster, r.id) == {}
    ensures Reachable(WithTask(s, t, SawPods(r, now, now, None, [])))
  {
    ReachNext(s, SeePods(t, []));
  }

  lemma SeeStorageRuns(s: Sys, t: nat, r: Record, now: Time)
    requires Reachable(s) && t in s.tasks && s.tasks[t] == SawPods(r, now, now, None, [])
    requires r.persistent && ClaimKey(r) !in s.cluster.pvcs
    ensures Reachable(WithTask(s, t, Doing(r.id, Todo(Attempted(r, now), now))))
  {
    assert Assembled(s.tasks[t], None, None, []) == Nothing();
    ReachNext(s, SeeStorage(t, None, []));
  }

  lemma BareKeys(r: Record, c: State)
    requires WellNamed(r) && r.persistent && Bare(c, r.id)
    ensures DeploymentKey(r) !in c.deployments && ClaimKey(r) !in c.pvcs
  {
    assert RuntimeName(r.id) != "" && ClaimName(r.id) != "";
  }

  lemma SameSlot(tasks: map<nat, Task>, t: nat, a: Task, b: Task)
    ensures tasks[t := a][t := b] == tasks[t := b]
  {
  }

  /** The worker's reads, one by one, over the bare cluster. */
  lemma ReadsSeeNothing(s: Sys, t: nat, id: Id, now: Time)
    requires Reachable(s) && t !in s.tasks && DueAndBare(s, id, now)
    ensures var q := Attempted(s.rows[id], now);
            Reachable(s.(rows := s.rows[id := q], tasks := s.tasks[t := Doing(id, Todo(q, now))]))
  {
    var r := s.rows[id];
    BareKeys(r, s.cluster);
    ListAndCountRun(s, t, id, now);
    var k1, k2, k3 := Counted(r, now, now), SawRuntime(r, now, now, None), SawPods(r, now, now, None, []);
    var s2 := s.(rows := s.rows[id := Attempted(r, now)], tasks := s.tasks[t := k1]);
    SeeRuntimeRuns(s2, t, r, now);
    SameSlot(s.tasks, t, k1, k2);
    var s3 := s2.(tasks := s.tasks[t := k2]);
    SeePodsRuns(s3, t, r, now);
    SameSlot(s.tasks, t, k2, k3);
    var s4 := s2.(tasks := s.tasks[t := k3]);
    SeeStorageRuns(s4, t, r, now);
    SameSlot(s.tasks, t, k3, Doing(id, Todo(Attempted(r, now), now)));
  }

  function NextPhase(p: Phase): Phase {
    if p == Requested then QuiescingRuntime else if p == QuiescingRuntime then Verifying else Completed
  }

  /** What a pass over the bare cluster makes of the row. */
  lemma BareTodo(q: Record, now: Time)
    requires q.phase in {Requested, QuiescingRuntime, Verifying} && q.persistent
    requires q.desired == WantDeleted && q.lifecycle != Deleted
    ensures forall a :: a in Todo(q, now) ==> a.Db? && DeletionFrame.Concerns(a, q.id)
    ensures var r' := RowAct(Todo(q, now), q);
            && r'.id == q.id && StaticOf(r') == StaticOf(q) && r'.phase == NextPhase(q.phase) &&
                r'.desired == WantDeleted
            && (q.phase != Verifying ==> PendingDeletion(r', now))
  {
    if q.phase == Verifying {
      var a := Db(MarkCompleted(q.id, "delete completed", now));
      assert Todo(q, now) == [a];
      RowActOne(a, q);
    } else {
      var a, b := AdvancePhase(q.id, NextPhase(q.phase), now), ReadyNow(q, now);
      assert Todo(q, now) == [Db(a), Db(b)];
      RowActTwo(a, b, q);
    }
  }

  /** One undisturbed pass of the deletion worker over the bare cluster, as a run. */
  lemma PassRuns(s: Sys, t: nat, id: Id, now: Time) returns (r': Record)
    requires Reachable(s) && t !in s.tasks && DueAndBare(s, id, now)
    requires s.rows[id].phase in {Requested, QuiescingRuntime, Verifying}
    ensures Reachable(s.(rows := s.rows[id := r'], tasks := s.tasks[t := Doing(id, [])]))
    ensures r'.id == id && StaticOf(r') == StaticOf(s.rows[id]) && r'.phase == NextPhase(s.rows[id].phase) &&
        r'.desired == WantDeleted
    ensures s.rows[id].phase != Verifying ==> PendingDeletion(r', now)
  {
    var q := Attempted(s.rows[id], now);
    ReadsSeeNothing(s, t, id, now);
    BareTodo(q, now);
    r' := RowAct(Todo(q, now), q);
    var s5 := s.(rows := s.rows[id := q], tasks := s.tasks[t := Doing(id, Todo(q, now))]);
    WritesAreMade(s5, t, id, Todo(q, now));
    assert s.rows[id := q][id := r'] == s.rows[id := r'];
    SameSlot(s.tasks, t, Doing(id, Todo(q, now)), Doing(id, []));
  }

  // ----- Overtaking -------------------------------------------------------------------------

  /** `n` tasks with nothing left to do. */
  function Finished(id: Id, n: nat): map<nat, Task> {
    if n == 0 then map[] else Finished(id, n - 1)[n - 1 := Doing(id, [])]
  }

  lemma {:induction false} FinishedAt(id: Id, n: nat, t: nat)
    ensures t in Finished(id, n) <==> t < n
    ensures t < n ==> Finished(id, n)[t] == Doing(id, [])
  {
    if n > 0 {
      FinishedAt(id, n - 1, t);
    }
  }

  /** Between the insertion of a row and the creation of its objects: the row `r`, nothing in the
      cluster, and `n` finished tasks. */
  function HalfCreated(r: Record, n: nat): Sys {
    Sys(map[r.id := r], Empty().cluster, map[r.id := StaticOf(r)], {r.id}, Finished(r.id, n))
  }

  lemma AnotherTask(r: Record, r': Record, n: nat)
    requires r'.id == r.id && StaticOf(r') == StaticOf(r)
    ensures HalfCreated(r, n).(rows := HalfCreated(r, n).rows[r.id := r'],
                               tasks := HalfCreated(r, n).tasks[n := Doing(r.id, [])])
         == HalfCreated(r', n + 1)
  {
    assert Finished(r.id, n + 1) == Finished(r.id, n)[n := Doing(r.id, [])];
  }

  lemma InsertRuns(rec: Record)
    requires NewRow(rec)
    ensures Reachable(HalfCreated(rec, 0))
  {
    EmptyIsReachable();
    ReachNext(Empty(), InsertRow(rec));
    assert AfterCreate(Empty(), InsertRow(rec)) == HalfCreated(rec, 0);
  }

  /** A sandbox whose deletion is asked for while it is being created. */
  lemma RequestRuns(rec: Record, now: Time) returns (r: Record)
    requires NewRow(rec)
    ensures Reachable(HalfCreated(r, 1)) && r == RowAfter(MarkDeletionRequested(rec.id, now), rec)
  {
    var id, ask := rec.id, Db(MarkDeletionRequested(rec.id, now));
    r := RowAfter(ask.stmt, rec);
    InsertRuns(rec);
    var s0 := HalfCreated(rec, 0);
    ReachNext(s0, AskDelete(0, id, now, now));
    var s1 := WithTask(s0, 0, Doing(id, [ask]));
    RowActOne(ask, rec);
    WritesAreMade(s1, 0, id, [ask]);
    AnotherTask(rec, r, 0);
    assert s1.tasks[0 := Doing(id, [])] == s0.tasks[0 := Doing(id, [])];
  }

  lemma NextPassRuns(r: Record, n: nat, now: Time) returns (r': Record)
    requires Reachable(HalfCreated(r, n)) && r.persistent && WellNamed(r) && PendingDeletion(r, now)
    requires r.phase in {Requested, QuiescingRuntime, Verifying}
    ensures Reachable(HalfCreated(r', n + 1))
    ensures r'.id == r.id && StaticOf(r') == StaticOf(r) && r'.phase == NextPhase(r.phase) && r'.desired == WantDeleted
    ensures r.phase != Verifying ==> PendingDeletion(r', now)
  {
    FinishedAt(r.id, n, n);
    r' := PassRuns(HalfCreated(r, n), n, r.id, now);
    AnotherTask(r, r', n);
  }

  lemma StaticNames(r: Record, r': Record)
    requires StaticOf(r') == StaticOf(r) && r'.id == r.id && WellNamed(r) && r.persistent
    ensures WellNamed(r') && r'.persistent
  {
    assert StaticOf(r').persistent == r'.persistent && StaticOf(r').runtimeName == r'.runtimeName &&
        StaticOf(r').claim == r'.claim;
  }

  /** Leak freedom without its hypothesis fails in everyday use. In this run the row is inserted, the
      user deletes the sandbox, the worker's three passes find nothing and record it as deleted, and
      only then does Create make the Deployment and write its last status: the table says the sandbox
      is gone, its Deployment is there, and the row is a zombie. */
  lemma OvertakenCreateLeaks(rec: Record, d: Deployment, now: Time) returns (s: Sys)
    requires NewRow(rec) && rec.persistent
    ensures Reachable(s) && Returned(s, rec.id) && SystemSafety.SaidGone(s.rows, rec.id)
    ensures RuntimeName(rec.id) in s.cluster.deployments && !SystemSafety.Gone(s.cluster, rec.id, s.made[rec.id])
    ensures Stuck(s, rec.id)
  {
    var id := rec.id;
    var r0 := RequestRuns(rec, now);
    StaticNames(rec, r0);
    var r1 := NextPassRuns(r0, 1, now);
    StaticNames(rec, r1);
    var r2 := NextPassRuns(r1, 2, now);
    StaticNames(rec, r2);
    var r3 := NextPassRuns(r2, 3, now);
    s := LateCreateRuns(r3, 4, d, now);
  }

  /** Create goes on after its row was completed. */
  lemma LateCreateRuns(r: Record, n: nat, d: Deployment, now: Time) returns (s: Sys)
    requires Reachable(HalfCreated(r, n)) && r.persistent && r.phase == Completed && r.desired == WantDeleted
    ensures Reachable(s) && Returned(s, r.id) && SystemSafety.SaidGone(s.rows, r.id) &&
        RuntimeName(r.id) in s.cluster.deployments
    ensures Stuck(s, r.id)
  {
    var h := HalfCreated(r, n);
    ReachNext(h, MakeDeployment(r.id, d));
    var c := h.cluster.(deployments := h.cluster.deployments[RuntimeName(r.id) := d]);
    s := LastWriteRuns(h.(cluster := c), r, now);
    forall t | t in s.tasks ensures Idle(s.tasks[t]) {
      FinishedAt(r.id, n, t);
    }
  }

  lemma LastWriteRuns(m: Sys, r: Record, now: Time) returns (s: Sys)
    requires Reachable(m) && r.id in m.creating && r.id in m.rows && m.rows[r.id] == r
    requires r.phase == Completed && r.desired == WantDeleted
    ensures Reachable(s) && s.creating == m.creating - {r.id} && s.made == m.made && s.cluster == m.cluster &&
        s.tasks == m.tasks
    ensures r.id in s.rows && Zombie(s.rows[r.id])
  {
    var last := UpdateStatus(r.id, Pending, "", now);
    ReachNext(m, FinishCreate(r.id, last));
    s := AfterCreate(m, FinishCreate(r.id, last));
  }

  // ----- Every hasty read can leak ----------------------------------------------------------

  /** The cluster without any pod or claim of the sandbox. */
  function Cleared(c: State, x: Id): State {
    c.(pods := map n | n in c.pods && n != RuntimeName(x) && n !in PodsOf(c, x) :: c.pods[n],
       pvcs := map n | n in c.pvcs && n != ClaimName(x) :: c.pvcs[n])
  }

  lemma ClearedIsBare(c: State, x: Id)
    requires RuntimeName(x) !in c.deployments
    ensures Evolves(c, Cleared(c, x)) && Bare(Cleared(c, x), x) && RuntimeName(x) !in Cleared(c, x).pods
  {
  }

  /** A task that has read that nothing runs the sandbox, and may record that. */
  predicate Convinced(k: Task) {
    match k
    case SawRuntime(rec, _, _, d) => Verified(rec) && rec.persistent && d.None?
    case SawPods(rec, _, _, _, pods) => Verified(rec) && !rec.persistent && pods == []
    case GlancedRuntime(rec, _, d) => Fading(rec) && d.None?
    case Doing(x, todo) => |todo| == 1 && todo[0].Db? && todo[0].stmt.MarkCompleted? && todo[0].stmt.id == x
    case _ => false
  }

  lemma HasteConvinces(s: Sys, e: Step, x: Id)
    requires Enabled(s, e) && Hasty(s, e, x)
    requires Core(s)
    ensures After(s, e) == WithTask(s, e.t, After(s, e).tasks[e.t])
    ensures Convinced(After(s, e).tasks[e.t]) && Owner(After(s, e).tasks[e.t]) == x
    ensures RuntimeName(x) !in s.cluster.deployments
  {
    var k := s.tasks[e.t];
    assert TaskKnown(s.made, k);
    KeysAreDerived(s, k.rec);
  }

  /** The deletion worker goes on reading and decides to complete. */
  lemma WorkerCompletes(s0: Sys, s: Sys, t: nat, x: Id) returns (stmt: Stmt)
    requires Leads(s0, s) && t in s.tasks && s.tasks[t].SawPods? && Owner(s.tasks[t]) == x
    requires Verified(s.tasks[t].rec) && s.tasks[t].pods == [] &&
        (s.tasks[t].rec.persistent ==> s.tasks[t].deployment.None?)
    requires s.tasks[t].rec.persistent ==> ClaimKey(s.tasks[t].rec) !in s.cluster.pvcs
    ensures stmt.MarkCompleted? && stmt.id == x && Leads(s0, WithTask(s, t, Doing(x, [Db(stmt)])))
  {
    var k := s.tasks[t];
    stmt := MarkCompleted(x, "delete completed", k.now);
    assert Assembled(k, Lookup(s.cluster.pvcs, ClaimKey(k.rec)), None, []) == Nothing();
    assert Actions(Handle(Attempted(k.rec, k.now), Nothing(), k.now, k.later)) == [Db(stmt)];
    LeadsNext(s0, s, SeeStorage(t, None, []));
  }

  lemma ReconcilerCompletes(s0: Sys, s: Sys, t: nat, x: Id) returns (stmt: Stmt)
    requires Leads(s0, s) && t in s.tasks && s.tasks[t].GlancedRuntime? && Convinced(s.tasks[t]) &&
        Owner(s.tasks[t]) == x
    requires s.tasks[t].rec.claim !in s.cluster.pvcs && PodsOf(s.cluster, x) == {}
    ensures stmt.MarkCompleted? && stmt.id == x && Leads(s0, WithTask(s, t, Doing(x, [Db(stmt)])))
  {
    var k := s.tasks[t];
    stmt := MarkCompleted(x, RUNTIME_GONE, k.now);
    var k' := GlancedClaim(k.rec, k.now, None, None);
    LeadsNext(s0, s, GlanceClaim(t));
    assert Remedies(k', None, StartupReady) == [Db(stmt)];
    SameSlot(s.tasks, t, k', Doing(x, [Db(stmt)]));
    LeadsNext(s0, WithTask(s, t, k'), GlancePod(t, None, StartupReady));
  }

  lemma WorkerReadsOn(s0: Sys, s: Sys, t: nat, x: Id) returns (stmt: Stmt)
    requires Leads(s0, s) && t in s.tasks && s.tasks[t].SawRuntime? && Convinced(s.tasks[t]) && Owner(s.tasks[t]) == x
    requires ClaimKey(s.tasks[t].rec) !in s.cluster.pvcs && PodsOf(s.cluster, x) == {}
    ensures stmt.MarkCompleted? && stmt.id == x && Leads(s0, WithTask(s, t, Doing(x, [Db(stmt)])))
  {
    var k := s.tasks[t];
    var k' := SawPods(k.rec, k.now, k.later, k.deployment, []);
    LeadsNext(s0, s, SeePods(t, []));
    stmt := WorkerCompletes(s0, WithTask(s, t, k'), t, x);
    SameSlot(s.tasks, t, k', Doing(x, [Db(stmt)]));
  }

  lemma ClaimKeysAreMissing(s: Sys, t: nat, x: Id)
    requires t in s.tasks && !s.tasks[t].Doing? && Owner(s.tasks[t]) == x
    requires NamesDerived(s) && Identified(s.made, s.tasks[t].rec) && ClaimName(x) !in s.cluster.pvcs
    ensures s.tasks[t].rec.persistent ==>
        ClaimKey(s.tasks[t].rec) !in s.cluster.pvcs && s.tasks[t].rec.claim !in s.cluster.pvcs
  {
    KeysAreDerived(s, s.tasks[t].rec);
  }

  /** Whoever is convinced, in a cluster that looks the part, goes on to record the sandbox as gone. */
  lemma ConvictionCompletes(s0: Sys, s: Sys, t: nat, x: Id) returns (stmt: Stmt)
    requires Leads(s0, s) && t in s.tasks && Convinced(s.tasks[t]) && Owner(s.tasks[t]) == x
    requires NamesDerived(s) && TaskKnown(s.made, s.tasks[t]) && Bare(s.cluster, x)
    ensures stmt.MarkCompleted? && stmt.id == x && Leads(s0, WithTask(s, t, Doing(x, [Db(stmt)])))
  {
    var k := s.tasks[t];
    if k.Doing? {
      stmt := k.todo[0].stmt;
      assert k == Doing(x, [Db(stmt)]) && WithTask(s, t, k) == s;
    } else {
      ClaimKeysAreMissing(s, t, x);
      if k.GlancedRuntime? {
        stmt := ReconcilerCompletes(s0, s, t, x);
      } else if k.SawPods? {
        stmt := WorkerCompletes(s0, s, t, x);
      } else {
        stmt := WorkerReadsOn(s0, s, t, x);
      }
    }
  }

  /** The table says that the sandbox is gone, and it is not. */
  predicate Leaked(s: Sys, x: Id) {
    Returned(s, x) && SystemSafety.SaidGone(s.rows, x) && !SystemSafety.Gone(s.cluster, x, s.made[x])
  }

  /** Create makes the Deployment or pod after the sandbox was recorded as gone, and returns. */
  lemma CreateLeaks(s0: Sys, s: Sys, x: Id, d: Deployment, pod: Pod) returns (s': Sys)
    requires Leads(s0, s) && x in s.creating && x in s.made && SystemSafety.SaidGone(s.rows, x)
    requires RuntimeName(x) !in s.cluster.deployments && RuntimeName(x) !in s.cluster.pods &&
        pod.labels == Labels(true, x, true)
    ensures Leads(s0, s') && Leaked(s', x)
  {
    var c: State;
    if s.made[x].persistent {
      c := s.cluster.(deployments := s.cluster.deployments[RuntimeName(x) := d]);
      LeadsNext(s0, s, MakeDeployment(x, d));
    } else {
      c := s.cluster.(pods := s.cluster.pods[RuntimeName(x) := pod]);
      LeadsNext(s0, s, MakePod(x, pod));
      assert RuntimeName(x) in PodsOf(c, x);
    }
    s' := CreateReturns(s0, s.(cluster := c), x);
  }

  lemma CreateReturns(s0: Sys, s: Sys, x: Id) returns (s': Sys)
    requires Leads(s0, s) && x in s.creating
    ensures Leads(s0, s') && s' == s.(creating := s.creating - {x})
  {
    LeadsNext(s0, s, LeaveCreate(x));
    s' := s.(creating := s.creating - {x});
  }

  /** The hypothesis of leak freedom excludes no harmless read: whatever has happened before, every
      hasty read can be followed by a leak of that very sandbox. */
  lemma EveryHasteCanLeak(s: Sys, e: Step, x: Id, d: Deployment, pod: Pod) returns (s': Sys)
    requires Reachable(s) && Enabled(s, e) && Hasty(s, e, x) && pod.labels == Labels(true, x, true)
    ensures Leads(After(s, e), s') && Leaked(s', x)
  {
    ReachableIsCore(s);
    HasteConvinces(s, e, x);
    StepKeepsCore(s, e);
    s' := ConvictionLeaks(After(s, e), e.t, x, d, pod);
  }

  lemma ConvictionLeaks(s: Sys, t: nat, x: Id, d: Deployment, pod: Pod) returns (s': Sys)
    requires x in s.creating && t in s.tasks && Convinced(s.tasks[t]) && Owner(s.tasks[t]) == x
    requires RuntimeName(x) !in s.cluster.deployments && pod.labels == Labels(true, x, true)
    requires Core(s)
    ensures Leads(s, s') && Leaked(s', x)
  {
    LeadsNowhere(s);
    ClearedIsBare(s.cluster, x);
    LeadsNext(s, s, Env(Cleared(s.cluster, x)));
    var s1 := s.(cluster := Cleared(s.cluster, x));
    assert TaskKnown(s1.made, s1.tasks[t]);
    var stmt := ConvictionCompletes(s, s1, t, x);
    var s2 := WithTask(s1, t, Doing(x, [Db(stmt)]));
    var s3 := CompletionIsWritten(s, s2, t, x, stmt);
    s' := CreateLeaks(s, s3, x, d, pod);
  }

  lemma CompletionIsWritten(s0: Sys, s: Sys, t: nat, x: Id, stmt: Stmt) returns (s': Sys)
    requires Leads(s0, s) && t in s.tasks && s.tasks[t] == Doing(x, [Db(stmt)]) && stmt.MarkCompleted? && stmt.id == x
    ensures Leads(s0, s') && SystemSafety.SaidGone(s'.rows, x)
    ensures s'.cluster == s.cluster && s'.creating == s.creating && s'.made == s.made
  {
    LeadsNext(s0, s, Do(t));
    s' := AfterDo(s, t);
  }

  // ----- Zombies ----------------------------------------------------------------------------

  /** A task that will never make a call. */
  predicate Idle(k: Task) {
    match k
    case Doing(_, todo) => todo == []
    case Glanced(rec, _) => rec.desired == WantDeleted
    case GlancedRuntime(rec, _, _) => rec.desired == WantDeleted
    case GlancedClaim(rec, _, _, _) => rec.desired == WantDeleted
    case _ => false
  }

  /** A row that was completed and then overwritten, with no call for it under way. */
  predicate Stuck(s: Sys, id: Id) {
    && id in s.rows && Zombie(s.rows[id])
    && forall t :: t in s.tasks && Owner(s.tasks[t]) == id ==> Idle(s.tasks[t])
  }

  /** No query but the reconciler's full listing selects the row, and no delete call acts on it. */
  ghost predicate Ignored(r: Record) {
    && (forall now :: !PendingDeletion(r, now) && !ExpiredActive(r, now))
    && (forall cutoff :: !Purgeable(r, cutoff))
    && !SandboxApi.DeleteActs(r)
  }

  lemma WriteKeepsStuck(s: Sys, stmt: Stmt, id: Id)
    requires Stuck(s, id) && !stmt.Insert? && !stmt.Purge? && (stmt.id == id ==> OutsideWrite(stmt))
    ensures Stuck(WithStmt(s, stmt), id)
  {
  }

  lemma TaskKeepsStuck(s: Sys, t: nat, k: Task, id: Id)
    requires Stuck(s, id) && (Owner(k) == id ==> Idle(k))
    ensures Stuck(WithTask(s, t, k), id)
  {
  }

  lemma DoKeepsStuck(s: Sys, t: nat, s': Sys, id: Id)
    requires Enabled(s, Do(t)) && s' == AfterDo(s, t)
    requires TasksKnown(s) && Stuck(s, id)
    ensures Stuck(s', id) && Owner(s.tasks[t]) != id
  {
    var k := s.tasks[t];
    assert TaskKnown(s.made, k) && k.todo[0] in k.todo;
    TaskKeepsStuck(s, t, Doing(k.owner, k.todo[1..]), id);
    if k.todo[0].Db? {
      assert Mine(s.made[k.owner], k.owner, k.todo[0]);
      WriteKeepsStuck(WithTask(s, t, Doing(k.owner, k.todo[1..])), k.todo[0].stmt, id);
    }
  }

  lemma CountKeepsStuck(s: Sys, t: nat, s': Sys, id: Id)
    requires Enabled(s, Count(t)) && s' == AfterDeletion(s, Count(t))
    requires Stuck(s, id)
    ensures Stuck(s', id)
  {
    var k := s.tasks[t];
    TaskKeepsStuck(s, t, Counted(k.rec, k.now, k.later), id);
    WriteKeepsStuck(WithTask(s, t, Counted(k.rec, k.now, k.later)), AttemptStmt(k.rec, k.now), id);
  }

  lemma SightKeepsStuck(s: Sys, e: Step, s': Sys, id: Id)
    requires Enabled(s, e) && (e.SeeRuntime? || e.SeePods? || e.SeeStorage? || e.FailToSee?) &&
        s' == AfterDeletion(s, e)
    requires Stuck(s, id)
    ensures Stuck(s', id)
  {
    assert !Idle(s.tasks[e.t]);
    TaskKeepsStuck(s, e.t, s'.tasks[e.t], id);
  }

  lemma DeletionKeepsStuck(s: Sys, e: Step, s': Sys, id: Id)
    requires Enabled(s, e) && ByDeletion(e) && s' == AfterDeletion(s, e)
    requires RowsKnown(s) && Stuck(s, id)
    ensures Stuck(s', id)
  {
    if e.Count? {
      CountKeepsStuck(s, e.t, s', id);
    } else if e.List? {
      TaskKeepsStuck(s, e.t, Listed(s.rows[e.id], e.now, e.later), id);
    } else {
      SightKeepsStuck(s, e, s', id);
    }
  }

  /** The reconciler leaves a row alone that is wanted deleted. */
  lemma NoRemedyForDeleted(k: Task, seen: Option<NamedPod>, startup: Startup)
    requires (k.GlancedClaim? || k.Glanced?) && k.rec.desired == WantDeleted
    ensures Remedies(k, seen, startup) == []
  {
  }

  lemma GlancePodKeepsStuck(s: Sys, t: nat, seen: Option<NamedPod>, startup: Startup, id: Id)
    requires t in s.tasks && (s.tasks[t].GlancedClaim? || s.tasks[t].Glanced?)
    requires Stuck(s, id)
    ensures Stuck(WithTask(s, t, Doing(s.tasks[t].rec.id, Remedies(s.tasks[t], seen, startup))), id)
  {
    var k := s.tasks[t];
    if Owner(k) == id {
      assert Idle(k);
      NoRemedyForDeleted(k, seen, startup);
    }
    TaskKeepsStuck(s, t, Doing(k.rec.id, Remedies(k, seen, startup)), id);
  }

  lemma ReconcilerKeepsStuck(s: Sys, e: Step, id: Id)
    requires Enabled(s, e) && ByReconciler(e)
    requires RowsKnown(s) && Stuck(s, id)
    ensures Stuck(AfterGlance(s, e), id)
  {
    match e {
      case Glance(t, other, now) => TaskKeepsStuck(s, t, Glanced(s.rows[other], now), id);
      case GlanceRuntime(t) =>
        var k := s.tasks[t];
        TaskKeepsStuck(s, t, GlancedRuntime(k.rec, k.now, Lookup(s.cluster.deployments, k.rec.runtimeName)), id);
      case GlanceClaim(t) =>
        var k := s.tasks[t];
        TaskKeepsStuck(s, t, GlancedClaim(k.rec, k.now, k.deployment, Lookup(s.cluster.pvcs, k.rec.claim)), id);
      case GlancePod(t, seen, startup) => GlancePodKeepsStuck(s, t, seen, startup, id);
    }
  }

  lemma InsertKeepsStuck(s: Sys, rec: Record, id: Id)
    requires rec.id !in s.made
    requires RowsKnown(s) && Stuck(s, id)
    ensures Stuck(AfterCreate(s, InsertRow(rec)), id)
  {
    assert rec.id != id;
  }

  lemma FinishKeepsStuck(s: Sys, other: Id, last: Stmt, id: Id)
    requires CreateWrite(last, other)
    requires Stuck(s, id)
    ensures Stuck(WithStmt(s, last).(creating := s.creating - {other}), id)
  {
    WriteKeepsStuck(s, last, id);
  }

  lemma MakeKeepsStuck(s: Sys, e: Step, s': Sys, id: Id)
    requires ByCreate(e) && !e.InsertRow? && !e.FinishCreate? && s' == AfterCreate(s, e)
    requires Stuck(s, id)
    ensures Stuck(s', id)
  {
    assert s'.rows == s.rows && s'.tasks == s.tasks;
  }

  lemma CreateKeepsStuck(s: Sys, e: Step, id: Id)
    requires Enabled(s, e) && ByCreate(e)
    requires RowsKnown(s) && Stuck(s, id)
    ensures Stuck(AfterCreate(s, e), id)
  {
    if e.InsertRow? {
      InsertKeepsStuck(s, e.rec, id);
    } else if e.FinishCreate? {
      FinishKeepsStuck(s, e.id, e.last, id);
    } else {
      MakeKeepsStuck(s, e, AfterCreate(s, e), id);
    }
  }

  lemma OtherStepKeepsStuck(s: Sys, e: Step, id: Id)
    requires Enabled(s, e) && !ByCreate(e) && !ByDeletion(e) && !ByReconciler(e)
    requires TasksKnown(s) && Stuck(s, id)
    ensures Stuck(After(s, e), id)
  {
    match e {
      case Write(stmt) => WriteKeepsStuck(s, stmt, id);
      case AskDelete(t, other, _, later) =>
          TaskKeepsStuck(s, t, Doing(other, [Db(MarkDeletionRequested(other, later))]), id);
      case Do(t) => DoKeepsStuck(s, t, AfterDo(s, t), id);
      case _ =>
    }
  }

  lemma StepKeepsStuck(s: Sys, e: Step, id: Id)
    requires Enabled(s, e)
    requires RowsKnown(s) && TasksKnown(s) && Stuck(s, id)
    ensures Stuck(After(s, e), id)
  {
    if ByCreate(e) {
      CreateKeepsStuck(s, e, id);
    } else if ByDeletion(e) {
      DeletionKeepsStuck(s, e, AfterDeletion(s, e), id);
    } else if ByReconciler(e) {
      ReconcilerKeepsStuck(s, e, id);
    } else {
      OtherStepKeepsStuck(s, e, id);
    }
  }

  lemma {:induction false} StuckStays(trace: seq<Sys>, steps: seq<Step>, i: nat, j: nat, id: Id)
    requires System.IsRun(trace, steps) && i <= j <= |steps| && Stuck(trace[i], id)
    ensures Stuck(trace[j], id)
    decreases j
  {
    if i < j {
      StuckStays(trace, steps, i, j - 1, id);
      CoreHolds(trace, steps, j - 1);
      StepKeepsStuck(trace[j - 1], steps[j - 1], id);
    }
  }

  /** Nothing ever frees a zombie. In every continuation of every run its row stays, stays a
      zombie, is selected by neither the deletion worker, the TTL cleaner nor the purge, a delete call
      does nothing to it, and no worker makes a call for it. */
  lemma ZombiesStayForever(trace: seq<Sys>, steps: seq<Step>, i: nat, j: nat, id: Id)
    requires System.IsRun(trace, steps) && i <= j <= |steps| && Stuck(trace[i], id)
    ensures Stuck(trace[j], id) && Ignored(trace[j].rows[id])
    ensures j < |steps| && steps[j].Do? ==> Owner(trace[j].tasks[steps[j].t]) != id
  {
    StuckStays(trace, steps, i, j, id);
    if j < |steps| && steps[j].Do? {
      CoreHolds(trace, steps, j);
      DoKeepsStuck(trace[j], steps[j].t, AfterDo(trace[j], steps[j].t), id);
    }
  }
}
