/** Leak freedom, one sandbox at a time: when the table says that a sandbox is gone, nothing of it is
    left, in every run in which no worker about to record this sandbox as deleted missed its Deployment
    or pods only because its Create call had not yet returned. */
module SystemSafety {
  import opened Base
  import opened Names
  import opened Store
  import opened Cluster
  import opened Startup
  import opened Deletion
  import opened DeletionRuns
  import opened Reconcile
  import opened System
  import opened SystemCore
  import SandboxApi

  /** Nothing of the sandbox is left that deleting it should have removed. */
  predicate Gone(c: State, id: Id, st: Static) {
    && RuntimeName(id) !in c.deployments
    && PodsOf(c, id) == {}
    && (st.persistent && st.policy != Retain ==> ClaimName(id) !in c.pvcs)
  }

  /** The table says, by its status, its phase or its silence, that the sandbox is gone. */
  predicate SaidGone(rows: Rows, id: Id) {
    id !in rows || rows[id].lifecycle == Deleted || rows[id].phase == Completed
  }

  // ----- The invariant ----------------------------------------------------------------------

  /** A statement that does not claim more than is true. */
  predicate Honest(s: Sys, stmt: Stmt) {
    match stmt
    case MarkCompleted(id, _, _) => Returned(s, id) && Gone(s.cluster, id, s.made[id])
    case AdvancePhase(_, p, _) => p != Completed
    case RecordAttempt(_, _, _, _, _, _, _) => true
    case EnsureStoppedAt(_, _) => true
    case MarkDeletionRequested(_, _) => true
    case _ => OutsideWrite(stmt)
  }

  /** The Deployment is gone for good. */
  predicate NoRuntime(s: Sys, id: Id) {
    id !in s.creating && RuntimeName(id) !in s.cluster.deployments
  }

  /** What a task of the sandbox relies on: what it has seen to be absent is absent for good, as far as
      it may still decide upon it. */
  predicate Knows(s: Sys, k: Task) {
    match k
    case SawRuntime(rec, _, _, d) => Verified(rec) && rec.persistent && d.None? ==> NoRuntime(s, rec.id)
    case SawPods(rec, _, _, d, pods) =>
      Verified(rec) && (d.None? || !rec.persistent) && pods == [] ==>
          NoRuntime(s, rec.id) && PodsOf(s.cluster, rec.id) == {}
    case GlancedRuntime(rec, _, d) => Fading(rec) && d.None? ==> NoRuntime(s, rec.id)
    case GlancedClaim(rec, _, d, pvc) =>
      Fading(rec) && d.None? && pvc.None? ==> NoRuntime(s, rec.id) && ClaimName(rec.id) !in s.cluster.pvcs
    case Doing(_, todo) => forall a :: a in todo && a.Db? ==> Honest(s, a.stmt)
    case _ => true
  }

  predicate TasksOf(s: Sys, x: Id) {
    forall t :: t in s.tasks && Owner(s.tasks[t]) == x ==> Knows(s, s.tasks[t])
  }

  /** The invariant about one sandbox. */
  predicate NoLeak(s: Sys, x: Id) {
    && (x in s.creating ==> !SaidGone(s.rows, x))
    && (Returned(s, x) && SaidGone(s.rows, x) ==> Gone(s.cluster, x, s.made[x]))
  }

  ghost predicate Inv(s: Sys, x: Id) {
    Core(s) && NoLeak(s, x) && TasksOf(s, x)
  }

  // ----- Absence is stable ------------------------------------------------------------------

  lemma GoneStays(c: State, c': State, id: Id, st: Static)
    requires Evolves(c, c') && Gone(c, id, st)
    ensures Gone(c', id, st)
  {
    NoPodsStay(c, c', id);
  }

  lemma NoPodsStay(c: State, c': State, id: Id)
    requires Evolves(c, c') && RuntimeName(id) !in c.deployments && PodsOf(c, id) == {}
    ensures PodsOf(c', id) == {}
  {
    forall n | n in PodsOf(c', id) ensures n in PodsOf(c, id) {
      assert n !in c.pods ==> RuntimeName(id) in c.deployments;
    }
  }

  lemma HonestStays(s: Sys, c: State, stmt: Stmt)
    requires Evolves(s.cluster, c) && Honest(s, stmt)
    ensures Honest(s.(cluster := c), stmt)
  {
    if stmt.MarkCompleted? {
      GoneStays(s.cluster, c, stmt.id, s.made[stmt.id]);
    }
  }

  lemma KnowledgeStays(s: Sys, c: State, k: Task)
    requires Evolves(s.cluster, c) && Knows(s, k)
    ensures Knows(s.(cluster := c), k)
  {
    var s' := s.(cluster := c);
    match k {
      case SawPods(rec, _, _, d, pods) =>
        if Verified(rec) && (d.None? || !rec.persistent) && pods == [] {
          NoPodsStay(s.cluster, c, rec.id);
        }
      case Doing(owner, todo) =>
        forall a | a in todo && a.Db? ensures Honest(s', a.stmt) {
          HonestStays(s, c, a.stmt);
        }
      case _ =>
    }
  }

  /** Whatever the cluster does on its own, and whatever call is made on it, keeps the invariant. */
  lemma EvolutionKeepsInv(s: Sys, c: State, x: Id)
    requires Inv(s, x) && Evolves(s.cluster, c)
    ensures Inv(s.(cluster := c), x)
  {
    var s' := s.(cluster := c);
    EvolutionKeepsCore(s, c);
    if Returned(s, x) && SaidGone(s.rows, x) {
      GoneStays(s.cluster, c, x, s.made[x]);
    }
    forall t | t in s'.tasks && Owner(s'.tasks[t]) == x ensures Knows(s', s'.tasks[t]) {
      KnowledgeStays(s, c, s.tasks[t]);
    }
  }

  // ----- Writes -----------------------------------------------------------------------------

  lemma KnowledgeIgnoresRows(s: Sys, rows: Rows, k: Task)
    requires Knows(s, k)
    ensures Knows(s.(rows := rows), k)
  {
    if k.Doing? {
      var s' := s.(rows := rows);
      forall a | a in k.todo && a.Db? ensures Honest(s', a.stmt) {
        assert Honest(s, a.stmt);
      }
    }
  }

  lemma TasksIgnoreRows(s: Sys, rows: Rows, x: Id)
    requires TasksOf(s, x)
    ensures TasksOf(s.(rows := rows), x)
  {
    var s' := s.(rows := rows);
    forall t | t in s'.tasks && Owner(s'.tasks[t]) == x ensures Knows(s', s'.tasks[t]) {
      KnowledgeIgnoresRows(s, rows, s.tasks[t]);
    }
  }

  /** An honest statement says a sandbox gone only if it is. */
  lemma HonestRow(s: Sys, stmt: Stmt, r: Record)
    requires Honest(s, stmt)
    ensures var r' := RowAfter(stmt, r);
            r'.lifecycle == Deleted || r'.phase == Completed ==>
                stmt.MarkCompleted? || r.lifecycle == Deleted || r.phase == Completed
  {
  }

  lemma WriteLeaksNothing(s: Sys, stmt: Stmt, x: Id)
    requires NoLeak(s, x) && !stmt.Insert? && !stmt.Purge? && (stmt.id == x ==> Honest(s, stmt))
    ensures NoLeak(WithStmt(s, stmt), x)
  {
    if stmt.id == x && x in s.rows {
      HonestRow(s, stmt, s.rows[x]);
    }
  }

  /** A write about another sandbox, or an honest one about this one, keeps the invariant. */
  lemma WriteKeepsInv(s: Sys, stmt: Stmt, x: Id)
    requires Inv(s, x) && !stmt.Insert? && !stmt.Purge? && (stmt.id == x ==> Honest(s, stmt))
    ensures Inv(WithStmt(s, stmt), x)
  {
    StatementKeepsCore(s, stmt);
    WriteLeaksNothing(s, stmt, x);
    TasksIgnoreRows(s, Apply(stmt, s.rows), x);
  }

  lemma PurgeKeepsInv(s: Sys, cutoff: Time, x: Id)
    requires Inv(s, x)
    ensures Inv(WithStmt(s, Purge(cutoff)), x)
  {
    StatementKeepsCore(s, Purge(cutoff));
    TasksIgnoreRows(s, Apply(Purge(cutoff), s.rows), x);
  }

  // ----- Tasks ------------------------------------------------------------------------------

  /** What a task's knowledge depends on besides the cluster. */
  predicate Extends(s: Sys, s': Sys, x: Id) {
    && s'.cluster == s.cluster && (x in s'.creating ==> x in s.creating)
    && (x in s.made ==> x in s'.made && s'.made[x] == s.made[x])
  }

  lemma KnowledgeCarries(s: Sys, s': Sys, k: Task, x: Id)
    requires Knows(s, k) && Extends(s, s', x) && Owner(k) == x && TaskKnown(s.made, k)
    ensures Knows(s', k)
  {
    if k.Doing? {
      forall a | a in k.todo && a.Db? ensures Honest(s', a.stmt) {
        assert Mine(s.made[x], x, a) && Honest(s, a.stmt);
      }
    }
  }

  lemma TasksCarry(s: Sys, s': Sys, x: Id)
    requires TasksKnown(s) && TasksOf(s, x) && Extends(s, s', x)
    requires forall t :: t in s'.tasks ==> t in s.tasks && s'.tasks[t] == s.tasks[t]
    ensures TasksOf(s', x)
  {
    forall t | t in s'.tasks && Owner(s'.tasks[t]) == x ensures Knows(s', s'.tasks[t]) {
      assert TaskKnown(s.made, s.tasks[t]);
      KnowledgeCarries(s, s', s.tasks[t], x);
    }
  }

  lemma TaskKeepsInv(s: Sys, t: nat, k: Task, x: Id)
    requires Inv(s, x) && TaskKnown(s.made, k) && (Owner(k) == x ==> Knows(s, k))
    ensures Inv(WithTask(s, t, k), x)
  {
    var s' := WithTask(s, t, k);
    TaskKeepsCore(s, t, k);
    forall u | u in s'.tasks && Owner(s'.tasks[u]) == x ensures Knows(s', s'.tasks[u]) {
      assert TaskKnown(s.made, s'.tasks[u]);
      KnowledgeCarries(s, s', s'.tasks[u], x);
    }
  }

  /** A task that has a single harmless write left to make. */
  lemma WriteTaskKeepsInv(s: Sys, t: nat, id: Id, stmt: Stmt, x: Id)
    requires (stmt.RecordAttempt? || stmt.MarkDeletionRequested?) && stmt.id == id && id in s.made
    requires Inv(s, x)
    ensures Inv(WithTask(s, t, Doing(id, [Db(stmt)])), x)
  {
    TaskKeepsInv(s, t, Doing(id, [Db(stmt)]), x);
  }

  lemma DoKeepsInv(s: Sys, t: nat, s': Sys, x: Id)
    requires Enabled(s, Do(t)) && s' == AfterDo(s, t)
    requires Inv(s, x)
    ensures Inv(s', x)
  {
    var k := s.tasks[t];
    assert TaskKnown(s.made, k) && k.todo[0] in k.todo;
    var rest := Doing(k.owner, k.todo[1..]);
    assert forall a :: a in rest.todo ==> a in k.todo;
    TaskKeepsInv(s, t, rest, x);
    var s1 := WithTask(s, t, rest);
    match k.todo[0] {
      case Db(stmt) =>
        assert Mine(s.made[k.owner], k.owner, k.todo[0]);
        assert k.owner == x ==> Honest(s1, stmt);
        WriteKeepsInv(s1, stmt, x);
      case K8s(op) =>
        CallsEvolve(s.cluster, op);
        EvolutionKeepsInv(s1, ApplyOp(s.cluster, op), x);
    }
  }

  // ----- The workers' decisions are honest --------------------------------------------------

  /** A completion is decided only on reads that are still true. */
  lemma DeletionIsHonest(s: Sys, k: Task, pv: Option<Pv>, attachments: seq<string>, snap: Snapshot, q: Record,
      a: Action)
    requires NamesDerived(s) && TaskKnown(s.made, k) && Knows(s, k) && k.SawPods? && q == Attempted(k.rec, k.now)
    requires snap == Assembled(k, Lookup(s.cluster.pvcs, ClaimKey(k.rec)), pv, attachments)
    requires Fair(q, snap, a) && a.Db?
    ensures Honest(s, a.stmt)
  {
    assert StaticOf(q) == s.made[k.rec.id];
    KeysAreDerived(s, k.rec);
  }

  /** A row is recorded as deleted only when nothing of the sandbox was seen, and then nothing is left. */
  lemma ReconcileIsHonest(s: Sys, k: Task, seen: Option<NamedPod>, a: Action)
    requires NamesDerived(s) && TaskKnown(s.made, k) && Knows(s, k) &&
        (k.GlancedClaim? || (k.Glanced? && !k.rec.persistent))
    requires seen.None? ==> PodsOf(s.cluster, k.rec.id) == {}
    requires k.Glanced? && Fading(k.rec) && seen.None? ==> k.rec.id !in s.creating
    requires FairRemedy(k.rec, SawNothing(k, seen), seen, a) && a.Db?
    ensures Honest(s, a.stmt)
  {
    KeysAreDerived(s, k.rec);
  }

  lemma SeeStorageKeepsInv(s: Sys, t: nat, pv: Option<Pv>, attachments: seq<string>, x: Id)
    requires Inv(s, x) && Enabled(s, SeeStorage(t, pv, attachments))
    ensures Inv(AfterDeletion(s, SeeStorage(t, pv, attachments)), x)
  {
    var k := s.tasks[t];
    assert TaskKnown(s.made, k);
    var pvc := Lookup(s.cluster.pvcs, ClaimKey(k.rec));
    var snap := Assembled(k, pvc, pv, attachments);
    var q := Attempted(k.rec, k.now);
    var d := Handle(q, snap, k.now, k.later);
    HandleIsFair(q, snap, k.now, k.later);
    forall a | a in Actions(d)
      ensures Mine(s.made[k.rec.id], k.rec.id, a) && (a.Db? && k.rec.id == x ==> Honest(s, a.stmt))
    {
      FairAction(q, snap, d, a);
      FairIsMine(s, k, pvc, pv, attachments, q, a);
      if a.Db? && k.rec.id == x {
        DeletionIsHonest(s, k, pv, attachments, snap, q, a);
      }
    }
    TaskKeepsInv(s, t, Doing(k.rec.id, Actions(d)), x);
  }

  lemma CountKeepsInv(s: Sys, t: nat, x: Id)
    requires Inv(s, x) && Enabled(s, Count(t))
    ensures Inv(AfterDeletion(s, Count(t)), x)
  {
    var k := s.tasks[t];
    assert TaskKnown(s.made, k);
    TaskKeepsInv(s, t, Counted(k.rec, k.now, k.later), x);
    WriteKeepsInv(WithTask(s, t, Counted(k.rec, k.now, k.later)), AttemptStmt(k.rec, k.now), x);
  }

  lemma SeePodsKeepsInv(s: Sys, t: nat, names: seq<string>, x: Id)
    requires Inv(s, x) && Enabled(s, SeePods(t, names)) && !Hasty(s, SeePods(t, names), x)
    ensures Inv(AfterDeletion(s, SeePods(t, names)), x)
  {
    var k := s.tasks[t];
    assert TaskKnown(s.made, k);
    forall n | n in names ensures IsPodNameOf(n, k.rec.id) {
      assert n in PodsOf(s.cluster, k.rec.id);
    }
    assert names == [] ==> PodsOf(s.cluster, k.rec.id) == {} by {
      if names == [] {
        assert forall n :: n in PodsOf(s.cluster, k.rec.id) ==> n in names;
      }
    }
    KeysAreDerived(s, k.rec);
    TaskKeepsInv(s, t, SawPods(k.rec, k.now, k.later, k.deployment, names), x);
  }

  lemma FailToSeeKeepsInv(s: Sys, t: nat, failure: string, x: Id)
    requires Enabled(s, FailToSee(t, failure))
    requires Inv(s, x)
    ensures Inv(AfterDeletion(s, FailToSee(t, failure)), x)
  {
    var k := s.tasks[t];
    assert TaskKnown(s.made, k);
    var first := AttemptStmt(k.rec, k.now);
    assert first.RecordAttempt?;
    WriteTaskKeepsInv(s, t, k.rec.id, first.(err := failure), x);
  }

  lemma ListKeepsInv(s: Sys, t: nat, id: Id, now: Time, later: Time, x: Id)
    requires id in s.rows
    requires Inv(s, x)
    ensures Inv(WithTask(s, t, Listed(s.rows[id], now, later)), x)
  {
    TaskKeepsInv(s, t, Listed(s.rows[id], now, later), x);
  }

  lemma SeeRuntimeKeepsInv(s: Sys, t: nat, x: Id)
    requires Enabled(s, SeeRuntime(t)) && !Hasty(s, SeeRuntime(t), x)
    requires Inv(s, x)
    ensures Inv(AfterDeletion(s, SeeRuntime(t)), x)
  {
    var k := s.tasks[t];
    assert TaskKnown(s.made, k);
    KeysAreDerived(s, k.rec);
    TaskKeepsInv(s, t, SawRuntime(k.rec, k.now, k.later, Lookup(s.cluster.deployments, DeploymentKey(k.rec))), x);
  }

  lemma DeletionKeepsInv(s: Sys, e: Step, x: Id)
    requires Enabled(s, e) && ByDeletion(e) && !Hasty(s, e, x)
    requires Inv(s, x)
    ensures Inv(AfterDeletion(s, e), x)
  {
    match e {
      case List(t, id, now, later) => ListKeepsInv(s, t, id, now, later, x);
      case Count(t) => CountKeepsInv(s, t, x);
      case SeeRuntime(t) => SeeRuntimeKeepsInv(s, t, x);
      case SeePods(t, names) => SeePodsKeepsInv(s, t, names, x);
      case SeeStorage(t, pv, attachments) => SeeStorageKeepsInv(s, t, pv, attachments, x);
      case FailToSee(t, failure) => FailToSeeKeepsInv(s, t, failure, x);
    }
  }

  lemma GlancePodKeepsInv(s: Sys, t: nat, seen: Option<NamedPod>, startup: Startup, x: Id)
    requires Inv(s, x) && Enabled(s, GlancePod(t, seen, startup)) && !Hasty(s, GlancePod(t, seen, startup), x)
    ensures Inv(AfterGlance(s, GlancePod(t, seen, startup)), x)
  {
    var k := s.tasks[t];
    assert TaskKnown(s.made, k);
    GlancePodKeepsCore(s, t, seen, startup);
    var todo := Remedies(k, seen, startup);
    assert TaskKnown(s.made, Doing(k.rec.id, todo)) by {
      assert TaskKnown(s.made, WithTask(s, t, Doing(k.rec.id, todo)).tasks[t]);
    }
    forall a | a in todo && a.Db? && k.rec.id == x ensures Honest(s, a.stmt) {
      RemediesAreFair(k, seen, startup, a);
      ReconcileIsHonest(s, k, seen, a);
    }
    TaskKeepsInv(s, t, Doing(k.rec.id, todo), x);
  }

  lemma GlanceKeepsInv(s: Sys, t: nat, id: Id, now: Time, x: Id)
    requires id in s.rows
    requires Inv(s, x)
    ensures Inv(WithTask(s, t, Glanced(s.rows[id], now)), x)
  {
    TaskKeepsInv(s, t, Glanced(s.rows[id], now), x);
  }

  lemma GlanceRuntimeKeepsInv(s: Sys, t: nat, x: Id)
    requires Enabled(s, GlanceRuntime(t)) && !Hasty(s, GlanceRuntime(t), x)
    requires Inv(s, x)
    ensures Inv(AfterGlance(s, GlanceRuntime(t)), x)
  {
    var k := s.tasks[t];
    assert TaskKnown(s.made, k);
    KeysAreDerived(s, k.rec);
    TaskKeepsInv(s, t, GlancedRuntime(k.rec, k.now, Lookup(s.cluster.deployments, k.rec.runtimeName)), x);
  }

  lemma GlanceClaimKeepsInv(s: Sys, t: nat, x: Id)
    requires Enabled(s, GlanceClaim(t))
    requires Inv(s, x)
    ensures Inv(AfterGlance(s, GlanceClaim(t)), x)
  {
    var k := s.tasks[t];
    assert TaskKnown(s.made, k);
    KeysAreDerived(s, k.rec);
    TaskKeepsInv(s, t, GlancedClaim(k.rec, k.now, k.deployment, Lookup(s.cluster.pvcs, k.rec.claim)), x);
  }

  lemma ReconcilerKeepsInv(s: Sys, e: Step, x: Id)
    requires Enabled(s, e) && ByReconciler(e) && !Hasty(s, e, x)
    requires Inv(s, x)
    ensures Inv(AfterGlance(s, e), x)
  {
    match e {
      case Glance(t, id, now) => GlanceKeepsInv(s, t, id, now, x);
      case GlanceRuntime(t) => GlanceRuntimeKeepsInv(s, t, x);
      case GlanceClaim(t) => GlanceClaimKeepsInv(s, t, x);
      case GlancePod(t, seen, startup) => GlancePodKeepsInv(s, t, seen, startup, x);
    }
  }

  // ----- Create -----------------------------------------------------------------------------

  /** The cluster gains an object of `id` and is otherwise the same. */
  predicate Gains(c: State, c': State, id: Id) {
    && (forall n :: n in c'.deployments && n != RuntimeName(id) ==> n in c.deployments)
    && (forall n :: n in c'.pvcs && n != ClaimName(id) ==> n in c.pvcs)
    && (forall n :: n in c'.pods && n != RuntimeName(id) ==> n in c.pods && c'.pods[n] == c.pods[n])
    && (RuntimeName(id) in c'.pods && RuntimeName(id) !in c.pods ==> c'.pods[RuntimeName(id)].labels.sandboxId == id)
    && (RuntimeName(id) in c'.pods && RuntimeName(id) in c.pods ==> c'.pods[RuntimeName(id)] == c.pods[RuntimeName(id)])
  }

  lemma GainsSpareOthers(c: State, c': State, id: Id, other: Id)
    requires Gains(c, c', id) && other != id
    ensures RuntimeName(other) !in c.deployments ==> RuntimeName(other) !in c'.deployments
    ensures ClaimName(other) !in c.pvcs ==> ClaimName(other) !in c'.pvcs
    ensures PodsOf(c, other) == {} ==> PodsOf(c', other) == {}
  {
    RuntimeNameInjective(id, other);
    ClaimNameInjective(id, other);
    forall n | n in PodsOf(c', other) ensures n in PodsOf(c, other) {
      assert n == RuntimeName(id) ==> n in c.pods;
    }
  }

  /** While a sandbox is being created its tasks know nothing that a new object could contradict. */
  lemma GainKeepsKnowledge(s: Sys, c: State, id: Id, k: Task)
    requires Gains(s.cluster, c, id) && id in s.creating && TaskKnown(s.made, k) && Knows(s, k)
    ensures Knows(s.(cluster := c), k)
  {
    var s' := s.(cluster := c);
    var x := Owner(k);
    if x != id {
      GainsSpareOthers(s.cluster, c, id, x);
    }
    if k.Doing? {
      forall a | a in k.todo && a.Db? ensures Honest(s', a.stmt) {
        assert Mine(s.made[x], x, a) && Honest(s, a.stmt);
      }
    }
  }

  lemma MakeKeepsInv(s: Sys, e: Step, x: Id)
    requires Inv(s, x) && Enabled(s, e) && (e.MakeClaim? || e.MakeDeployment? || e.MakePod?)
    ensures Inv(AfterCreate(s, e), x)
  {
    var s' := AfterCreate(s, e);
    MakeKeepsCore(s, e, s');
    assert Gains(s.cluster, s'.cluster, e.id);
    if x != e.id {
      GainsSpareOthers(s.cluster, s'.cluster, e.id, x);
    }
    MakeKeepsTasks(s, s'.cluster, e.id, x);
  }

  lemma MakeKeepsTasks(s: Sys, c: State, id: Id, x: Id)
    requires TasksKnown(s) && TasksOf(s, x) && id in s.creating && Gains(s.cluster, c, id)
    ensures TasksOf(s.(cluster := c), x)
  {
    var s' := s.(cluster := c);
    forall t | t in s'.tasks && Owner(s'.tasks[t]) == x ensures Knows(s', s'.tasks[t]) {
      assert TaskKnown(s.made, s.tasks[t]);
      GainKeepsKnowledge(s, c, id, s.tasks[t]);
    }
  }

  lemma InsertKeepsInv(s: Sys, rec: Record, x: Id)
    requires Inv(s, x) && Enabled(s, InsertRow(rec))
    ensures Inv(AfterCreate(s, InsertRow(rec)), x)
  {
    var s' := AfterCreate(s, InsertRow(rec));
    InsertKeepsCore(s, rec, s');
    if x == rec.id {
      FreshHasNoTasks(s, x, s');
    } else {
      TasksCarry(s, s', x);
    }
  }

  lemma FreshHasNoTasks(s: Sys, x: Id, s': Sys)
    requires TasksKnown(s) && x !in s.made && s'.tasks == s.tasks
    ensures TasksOf(s', x)
  {
    forall t | t in s.tasks ensures Owner(s.tasks[t]) != x {
      assert TaskKnown(s.made, s.tasks[t]);
    }
  }

  lemma ReturnKeepsInv(s: Sys, id: Id, x: Id)
    requires Inv(s, x) && id in s.creating
    ensures Inv(s.(creating := s.creating - {id}), x)
  {
    TasksCarry(s, s.(creating := s.creating - {id}), x);
  }

  lemma FinishKeepsInv(s: Sys, id: Id, last: Stmt, x: Id)
    requires id in s.creating && CreateWrite(last, id)
    requires Inv(s, x)
    ensures Inv(WithStmt(s, last).(creating := s.creating - {id}), x)
  {
    WriteKeepsInv(s, last, x);
    ReturnKeepsInv(WithStmt(s, last), id, x);
  }

  lemma CreateKeepsInv(s: Sys, e: Step, x: Id)
    requires Enabled(s, e) && ByCreate(e)
    requires Inv(s, x)
    ensures Inv(AfterCreate(s, e), x)
  {
    match e {
      case InsertRow(rec) => InsertKeepsInv(s, rec, x);
      case UndoClaim(id) =>
        CallsEvolve(s.cluster, DeletePvc(ClaimName(id)));
        EvolutionKeepsInv(s, ApplyOp(s.cluster, DeletePvc(ClaimName(id))), x);
      case FinishCreate(id, last) => FinishKeepsInv(s, id, last, x);
      case LeaveCreate(id) => ReturnKeepsInv(s, id, x);
      case _ => MakeKeepsInv(s, e, x);
    }
  }

  // ----- Main result ------------------------------------------------------------------------

  lemma GiveUpKeepsInv(s: Sys, t: nat, x: Id)
    requires Inv(s, x)
    ensures Inv(s.(tasks := s.tasks - {t}), x)
  {
    TasksCarry(s, s.(tasks := s.tasks - {t}), x);
  }

  lemma OtherStepKeepsInv(s: Sys, e: Step, x: Id)
    requires Inv(s, x) && Enabled(s, e) && !ByCreate(e) && !ByDeletion(e) && !ByReconciler(e)
    ensures Inv(After(s, e), x)
  {
    match e {
      case AskDelete(t, id, _, later) => WriteTaskKeepsInv(s, t, id, MarkDeletionRequested(id, later), x);
      case Write(stmt) => WriteKeepsInv(s, stmt, x);
      case ScaleTo(id, n) => EvolutionKeepsInv(s, SandboxApi.Scaled(s.cluster, id, n), x);
      case DropPod(name) =>
        CallsEvolve(s.cluster, DeletePod(name));
        EvolutionKeepsInv(s, ApplyOp(s.cluster, DeletePod(name)), x);
      case PurgeRows(cutoff) => PurgeKeepsInv(s, cutoff, x);
      case Do(t) => DoKeepsInv(s, t, AfterDo(s, t), x);
      case GiveUp(t) => GiveUpKeepsInv(s, t, x);
      case Env(c) => EvolutionKeepsInv(s, c, x);
    }
  }

  lemma StepKeepsInv(s: Sys, e: Step, x: Id)
    requires Inv(s, x) && Enabled(s, e) && !Hasty(s, e, x)
    ensures Inv(After(s, e), x)
  {
    if ByCreate(e) {
      CreateKeepsInv(s, e, x);
    } else if ByDeletion(e) {
      DeletionKeepsInv(s, e, x);
    } else if ByReconciler(e) {
      ReconcilerKeepsInv(s, e, x);
    } else {
      OtherStepKeepsInv(s, e, x);
    }
  }

  /** No worker was hasty about this sandbox. Other sandboxes may be treated as hastily as it comes. */
  ghost predicate NeverHasty(trace: seq<Sys>, steps: seq<Step>, n: nat, x: Id)
    requires n <= |steps| < |trace|
  {
    forall i {:trigger steps[i]} :: 0 <= i < n ==> !Hasty(trace[i], steps[i], x)
  }

  lemma {:induction false} InvHolds(trace: seq<Sys>, steps: seq<Step>, i: nat, x: Id)
    requires System.IsRun(trace, steps) && i <= |steps| && NeverHasty(trace, steps, i, x)
    ensures Inv(trace[i], x)
  {
    if i > 0 {
      InvHolds(trace, steps, i - 1, x);
      var _ := steps[i - 1];
      StepKeepsInv(trace[i - 1], steps[i - 1], x);
    }
  }

  /** Leak freedom: in every run, whenever the table says by its status, its phase or its silence that
      a sandbox is gone, the cluster holds no Deployment, no pod and, unless it is retained, no claim
      of it, provided that no worker was hasty about this sandbox so far. It stays true after a purge. */
  lemma LeakFreedom(trace: seq<Sys>, steps: seq<Step>, i: nat, x: Id)
    requires System.IsRun(trace, steps) && i <= |steps| && NeverHasty(trace, steps, i, x)
    requires Returned(trace[i], x) && SaidGone(trace[i].rows, x)
    ensures Gone(trace[i].cluster, x, trace[i].made[x])
  {
    InvHolds(trace, steps, i, x);
  }
}
