/** What holds in every run of the control plane, however the workers interleave and whatever they
    overtake: rows and tasks know whose they are, and every queued call is aimed at its owner. From
    this follow Retain safety and the frame between sandboxes. */
module SystemCore {
  import opened Base
  import opened Names
  import opened Store
  import opened Cluster
  import opened Startup
  import opened Deletion
  import opened DeletionRuns
  import opened Reconcile
  import opened System
  import DeletionFrame
  import SandboxApi

  function Owner(k: Task): Id {
    if k.Doing? then k.owner else k.rec.id
  }

  predicate Identified(made: map<Id, Static>, rec: Record) {
    rec.id in made && StaticOf(rec) == made[rec.id]
  }

  /** A call that can only touch what belongs to its owner, and spares a retained claim. */
  predicate AimedAt(st: Static, owner: Id, op: Op) {
    match op
    case DeleteDeployment(n) => n == RuntimeName(owner)
    case StripDeployment(n, _) => n == RuntimeName(owner)
    case DeletePod(n) => IsPodNameOf(n, owner)
    case ForceDeletePod(n) => IsPodNameOf(n, owner)
    case DeletePvc(n) => n == ClaimName(owner) && st.policy != Retain
    case StripPvc(n, _) => n == ClaimName(owner) && st.policy != Retain
    case StripPv(_, claim) => claim == ClaimName(owner)
    case DeletePv(_, claim) => claim == ClaimName(owner)
    case DeleteAttachment(_) => true
  }

  predicate Mine(st: Static, owner: Id, a: Action) {
    DeletionFrame.Concerns(a, owner) && (a.K8s? ==> AimedAt(st, owner, a.op))
  }

  predicate TaskKnown(made: map<Id, Static>, k: Task) {
    match k
    case SawPods(rec, _, _, _, pods) => Identified(made, rec) && forall n :: n in pods ==> IsPodNameOf(n, rec.id)
    case GlancedRuntime(rec, _, _) => Identified(made, rec) && rec.persistent
    case GlancedClaim(rec, _, _, _) => Identified(made, rec) && rec.persistent
    case Doing(owner, todo) => owner in made && forall a :: a in todo ==> Mine(made[owner], owner, a)
    case _ => Identified(made, k.rec)
  }

  predicate RowsKnown(s: Sys) {
    forall id :: id in s.rows ==> id in s.made && StaticOf(s.rows[id]) == s.made[id] && s.rows[id].id == id
  }

  /** Persistent sandboxes have their derived names; ordinary ones have no Deployment. */
  predicate NamesDerived(s: Sys) {
    forall id :: id in s.made ==>
      if s.made[id].persistent then s.made[id].runtimeName == RuntimeName(id) && s.made[id].claim == ClaimName(id)
      else RuntimeName(id) !in s.cluster.deployments
  }

  /** No Deployment carries the name of a sandbox that is yet to come. */
  ghost predicate NothingEarly(s: Sys) {
    forall id: Id :: id !in s.made ==> RuntimeName(id) !in s.cluster.deployments
  }

  predicate TasksKnown(s: Sys) {
    forall t :: t in s.tasks ==> TaskKnown(s.made, s.tasks[t])
  }

  ghost predicate Core(s: Sys) {
    && RowsKnown(s) && s.creating <= s.made.Keys && TasksKnown(s)
    && NamesDerived(s) && NothingEarly(s) && DeletionFrame.PodsWellNamed(s.cluster)
  }

  // ----- Kinds of steps ---------------------------------------------------------------------

  predicate ByCreate(e: Step) {
    e.InsertRow? || e.MakeClaim? || e.MakeDeployment? || e.MakePod? || e.UndoClaim? || e.FinishCreate? || e.LeaveCreate?
  }

  predicate ByDeletion(e: Step) {
    e.List? || e.Count? || e.SeeRuntime? || e.SeePods? || e.SeeStorage? || e.FailToSee?
  }

  predicate ByReconciler(e: Step) {
    e.Glance? || e.GlanceRuntime? || e.GlanceClaim? || e.GlancePod?
  }

  // ----- Parts of the state that change alone -----------------------------------------------

  lemma CallsEvolve(c: State, op: Op)
    ensures Evolves(c, ApplyOp(c, op))
  {
  }

  lemma EvolutionKeepsCore(s: Sys, c: State)
    requires Core(s) && Evolves(s.cluster, c)
    ensures Core(s.(cluster := c))
  {
  }

  lemma RowChangeKeepsRows(s: Sys, id: Id, r: Record)
    requires RowsKnown(s) && id in s.rows && StaticOf(r) == StaticOf(s.rows[id]) && r.id == id
    ensures RowsKnown(s.(rows := s.rows[id := r]))
  {
  }

  lemma StatementKeepsRows(s: Sys, stmt: Stmt)
    requires RowsKnown(s) && !stmt.Insert?
    ensures RowsKnown(WithStmt(s, stmt))
  {
    if !stmt.Purge? && stmt.id in s.rows {
      RowAfterKeepsStatic(stmt, s.rows[stmt.id]);
      RowChangeKeepsRows(s, stmt.id, RowAfter(stmt, s.rows[stmt.id]));
    }
  }

  lemma StatementKeepsCore(s: Sys, stmt: Stmt)
    requires Core(s) && !stmt.Insert?
    ensures Core(WithStmt(s, stmt))
  {
    StatementKeepsRows(s, stmt);
  }

  lemma TaskKeepsCore(s: Sys, t: nat, k: Task)
    requires Core(s) && TaskKnown(s.made, k)
    ensures Core(WithTask(s, t, k))
  {
  }

  lemma DoKeepsCore(s: Sys, t: nat)
    requires Core(s) && Enabled(s, Do(t))
    ensures Core(AfterDo(s, t))
  {
    var k := s.tasks[t];
    assert TaskKnown(s.made, k) && k.todo[0] in k.todo;
    assert forall a :: a in k.todo[1..] ==> a in k.todo;
    var s1 := WithTask(s, t, Doing(k.owner, k.todo[1..]));
    TaskKeepsCore(s, t, Doing(k.owner, k.todo[1..]));
    match k.todo[0] {
      case Db(stmt) => StatementKeepsCore(s1, stmt);
      case K8s(op) =>
        CallsEvolve(s.cluster, op);
        EvolutionKeepsCore(s1, ApplyOp(s.cluster, op));
    }
  }

  // ----- What handlers may queue ------------------------------------------------------------

  /** What any deletion handler may do with a snapshot. */
  predicate Fair(r: Record, s: Snapshot, a: Action) {
    match a
    case Db(MarkCompleted(id, _, _)) => id == r.id && Verified(r) && !Residue(r, s)
    case Db(AdvancePhase(id, p, _)) => id == r.id && p != Completed
    case Db(stmt) => stmt.RecordAttempt? && stmt.id == r.id
    case K8s(DeleteDeployment(n)) => n == RuntimeName(r.id)
    case K8s(StripDeployment(n, _)) => n == DeploymentKey(r) && s.deployment.Some?
    case K8s(DeletePod(n)) => n == RuntimeName(r.id)
    case K8s(ForceDeletePod(n)) => n in s.pods
    case K8s(DeletePvc(n)) => n == ClaimKey(r) && r.policy != Retain && s.pvc.Some?
    case K8s(StripPvc(n, _)) => n == ClaimKey(r) && r.policy != Retain && s.pvc.Some?
    case K8s(StripPv(_, claim)) => claim == r.claim && s.pvc.Some?
    case K8s(DeletePv(_, claim)) => claim == r.claim && s.pvc.Some?
    case K8s(DeleteAttachment(_)) => true
  }

  predicate FairDecision(r: Record, s: Snapshot, d: Decision) {
    && (forall op :: op in d.ops ==> Fair(r, s, K8s(op)))
    && (forall stmt :: stmt in d.stmts ==> Fair(r, s, Db(stmt)))
  }

  lemma QuietDecisionIsFair(r: Record, s: Snapshot, later: Time, p: Phase)
    requires p != Completed
    ensures FairDecision(r, s, Decision([], EnterPhase(r, p, later)))
  {
  }

  lemma QuiesceIsFair(r: Record, s: Snapshot, now: Time, later: Time)
    ensures FairDecision(r, s, Quiesce(r, s, now, later))
  {
  }

  lemma DeleteStorageIsFair(r: Record, s: Snapshot, now: Time, later: Time)
    ensures FairDecision(r, s, DeleteStorage(r, s, now, later))
  {
  }

  lemma ForceCallIsFair(r: Record, s: Snapshot, now: Time, later: Time, op: Op)
    requires op in Force(r, s, now, later).ops
    ensures Fair(r, s, K8s(op))
  {
  }

  lemma ForceIsFair(r: Record, s: Snapshot, now: Time, later: Time)
    ensures FairDecision(r, s, Force(r, s, now, later))
  {
    forall op | op in Force(r, s, now, later).ops ensures Fair(r, s, K8s(op)) {
      ForceCallIsFair(r, s, now, later, op);
    }
  }

  lemma VerifyIsFair(r: Record, s: Snapshot, now: Time, later: Time)
    requires Verified(r)
    ensures FairDecision(r, s, Verify(r, s, now, later))
  {
  }

  lemma HandleIsFair(r: Record, s: Snapshot, now: Time, later: Time)
    ensures FairDecision(r, s, Handle(r, s, now, later))
  {
    QuietDecisionIsFair(r, s, later, QuiescingRuntime);
    QuietDecisionIsFair(r, s, later, Requested);
    QuiesceIsFair(r, s, now, later);
    DeleteStorageIsFair(r, s, now, later);
    ForceIsFair(r, s, now, later);
    if Verified(r) {
      VerifyIsFair(r, s, now, later);
    }
  }

  lemma FairAction(r: Record, s: Snapshot, d: Decision, a: Action)
    requires FairDecision(r, s, d) && a in Actions(d)
    ensures Fair(r, s, a)
  {
    if a.Db? {
      assert a.stmt in d.stmts;
    } else {
      assert a.op in d.ops;
    }
  }

  /** The keys a record is looked up under are the names it was created with. */
  lemma KeysAreDerived(s: Sys, rec: Record)
    requires NamesDerived(s) && Identified(s.made, rec)
    ensures rec.persistent ==> DeploymentKey(rec) == RuntimeName(rec.id) && rec.runtimeName == RuntimeName(rec.id)
    ensures rec.persistent ==> ClaimKey(rec) == ClaimName(rec.id) && rec.claim == ClaimName(rec.id)
    ensures !rec.persistent ==> RuntimeName(rec.id) !in s.cluster.deployments
    ensures rec.policy == s.made[rec.id].policy && rec.persistent == s.made[rec.id].persistent
  {
    assert RuntimeName(rec.id) != "" && ClaimName(rec.id) != "";
    assert StaticOf(rec).persistent == rec.persistent && StaticOf(rec).policy == rec.policy;
    assert StaticOf(rec).runtimeName == rec.runtimeName && StaticOf(rec).claim == rec.claim;
  }

  lemma FairIsMine(s: Sys, k: Task, pvc: Option<Pvc>, pv: Option<Pv>, attachments: seq<string>, q: Record, a: Action)
    requires NamesDerived(s) && k.SawPods? && TaskKnown(s.made, k) && q == Attempted(k.rec, k.now)
    requires Fair(q, Assembled(k, pvc, pv, attachments), a)
    ensures Mine(s.made[k.rec.id], k.rec.id, a)
  {
    assert StaticOf(q) == s.made[k.rec.id];
    KeysAreDerived(s, q);
  }

  lemma SeeStorageKeepsCore(s: Sys, t: nat, pv: Option<Pv>, attachments: seq<string>)
    requires Core(s) && Enabled(s, SeeStorage(t, pv, attachments))
    ensures Core(AfterDeletion(s, SeeStorage(t, pv, attachments)))
  {
    var k := s.tasks[t];
    assert TaskKnown(s.made, k);
    var pvc := Lookup(s.cluster.pvcs, ClaimKey(k.rec));
    var snap := Assembled(k, pvc, pv, attachments);
    var q := Attempted(k.rec, k.now);
    var d := Handle(q, snap, k.now, k.later);
    HandleIsFair(q, snap, k.now, k.later);
    forall a | a in Actions(d) ensures Mine(s.made[k.rec.id], k.rec.id, a) {
      FairAction(q, snap, d, a);
      FairIsMine(s, k, pvc, pv, attachments, q, a);
    }
    TaskKeepsCore(s, t, Doing(k.rec.id, Actions(d)));
  }

  lemma SeePodsKeepsCore(s: Sys, t: nat, names: seq<string>)
    requires Core(s) && Enabled(s, SeePods(t, names))
    ensures Core(AfterDeletion(s, SeePods(t, names)))
  {
    var k := s.tasks[t];
    assert TaskKnown(s.made, k);
    forall n | n in names ensures IsPodNameOf(n, k.rec.id) {
      assert n in PodsOf(s.cluster, k.rec.id);
    }
    TaskKeepsCore(s, t, SawPods(k.rec, k.now, k.later, k.deployment, names));
  }

  lemma CountKeepsCore(s: Sys, t: nat)
    requires Core(s) && Enabled(s, Count(t))
    ensures Core(AfterDeletion(s, Count(t)))
  {
    var k := s.tasks[t];
    assert TaskKnown(s.made, k);
    TaskKeepsCore(s, t, Counted(k.rec, k.now, k.later));
    StatementKeepsCore(WithTask(s, t, Counted(k.rec, k.now, k.later)), AttemptStmt(k.rec, k.now));
  }

  lemma FailToSeeKeepsCore(s: Sys, t: nat, failure: string)
    requires Core(s) && Enabled(s, FailToSee(t, failure))
    ensures Core(AfterDeletion(s, FailToSee(t, failure)))
  {
    var k := s.tasks[t];
    assert TaskKnown(s.made, k);
    var first := AttemptStmt(k.rec, k.now);
    assert first.RecordAttempt?;
    TaskKeepsCore(s, t, Doing(k.rec.id, [Db(first.(err := failure))]));
  }

  lemma DeletionKeepsCore(s: Sys, e: Step)
    requires Core(s) && Enabled(s, e) && ByDeletion(e)
    ensures Core(AfterDeletion(s, e))
  {
    match e {
      case List(t, id, now, later) => TaskKeepsCore(s, t, Listed(s.rows[id], now, later));
      case Count(t) => CountKeepsCore(s, t);
      case SeeRuntime(t) =>
        var k := s.tasks[t];
        assert TaskKnown(s.made, k);
        TaskKeepsCore(s, t, SawRuntime(k.rec, k.now, k.later, Lookup(s.cluster.deployments, DeploymentKey(k.rec))));
      case SeePods(t, names) => SeePodsKeepsCore(s, t, names);
      case SeeStorage(t, pv, attachments) => SeeStorageKeepsCore(s, t, pv, attachments);
      case FailToSee(t, failure) => FailToSeeKeepsCore(s, t, failure);
    }
  }

  // ----- What the reconciler may queue ------------------------------------------------------

  /** What the reconciler may do: claim a fading sandbox gone only when it saw nothing of it, and delete
      no pod but the one it saw. */
  predicate FairRemedy(r: Record, nothing: bool, pod: Option<NamedPod>, a: Action) {
    match a
    case Db(MarkCompleted(id, _, _)) => id == r.id && Fading(r) && nothing
    case Db(EnsureStoppedAt(id, _)) => id == r.id
    case Db(stmt) => OutsideWrite(stmt) && stmt.id == r.id
    case K8s(op) => op.DeletePod? && pod.Some? && op.name == pod.value.name
  }

  lemma OrdinaryRemedyIsFair(r: Record, pod: Option<Pod>, now: Time, a: Action)
    requires a in ReconcileOrdinary(r, pod, now).actions
    ensures FairRemedy(r, pod.None?, None, a)
  {
  }

  lemma StartupRemedyIsFair(r: Record, s: Sighting, now: Time, a: Action)
    requires a in ReconcileStartup(r, s, now).actions
    ensures FairRemedy(r, false, s.pod, a)
  {
  }

  lemma StoppedRemedyIsFair(r: Record, pod: Option<NamedPod>, now: Time, a: Action)
    requires a in ReconcileStopped(r, pod, now).actions
    ensures FairRemedy(r, false, pod, a)
  {
  }

  lemma PersistentRemedyIsFair(r: Record, s: Sighting, now: Time, a: Action)
    requires a in ReconcilePersistent(r, s, now).actions
    ensures FairRemedy(r, Absent(s), s.pod, a)
  {
    if r.desired == WantActive && !Absent(s) {
      if TreatAsStopped(r, s) {
        StoppedRemedyIsFair(r, s.pod, now, a);
      } else {
        StartupRemedyIsFair(r, s, now, a);
      }
    }
  }

  /** Nothing was seen of the sandbox. */
  predicate SawNothing(k: Task, seen: Option<NamedPod>) {
    seen.None? && (k.GlancedClaim? ==> k.deployment.None? && k.pvc.None?)
  }

  lemma RemediesAreFair(k: Task, seen: Option<NamedPod>, startup: Startup, a: Action)
    requires (k.GlancedClaim? || k.Glanced?) && a in Remedies(k, seen, startup)
    ensures FairRemedy(k.rec, SawNothing(k, seen), seen, a)
  {
    if k.GlancedClaim? {
      PersistentRemedyIsFair(k.rec, Sighting(k.deployment, k.pvc, seen, startup), k.now, a);
    } else {
      OrdinaryRemedyIsFair(k.rec, if seen.Some? then Some(seen.value.pod) else None, k.now, a);
    }
  }

  lemma GlancePodKeepsCore(s: Sys, t: nat, seen: Option<NamedPod>, startup: Startup)
    requires Core(s) && Enabled(s, GlancePod(t, seen, startup))
    ensures Core(AfterGlance(s, GlancePod(t, seen, startup)))
  {
    var k := s.tasks[t];
    assert TaskKnown(s.made, k);
    forall a | a in Remedies(k, seen, startup) ensures Mine(s.made[k.rec.id], k.rec.id, a) {
      RemediesAreFair(k, seen, startup, a);
    }
    TaskKeepsCore(s, t, Doing(k.rec.id, Remedies(k, seen, startup)));
  }

  lemma ReconcilerKeepsCore(s: Sys, e: Step)
    requires Core(s) && Enabled(s, e) && ByReconciler(e)
    ensures Core(AfterGlance(s, e))
  {
    match e {
      case Glance(t, id, now) => TaskKeepsCore(s, t, Glanced(s.rows[id], now));
      case GlanceRuntime(t) =>
        var k := s.tasks[t];
        assert TaskKnown(s.made, k);
        TaskKeepsCore(s, t, GlancedRuntime(k.rec, k.now, Lookup(s.cluster.deployments, k.rec.runtimeName)));
      case GlanceClaim(t) =>
        var k := s.tasks[t];
        assert TaskKnown(s.made, k);
        TaskKeepsCore(s, t, GlancedClaim(k.rec, k.now, k.deployment, Lookup(s.cluster.pvcs, k.rec.claim)));
      case GlancePod(t, seen, startup) => GlancePodKeepsCore(s, t, seen, startup);
    }
  }

  // ----- Create -----------------------------------------------------------------------------

  lemma InsertKeepsCore(s: Sys, rec: Record, s': Sys)
    requires Core(s) && Enabled(s, InsertRow(rec)) && s' == AfterCreate(s, InsertRow(rec))
    ensures Core(s')
  {
    forall t | t in s'.tasks ensures TaskKnown(s'.made, s'.tasks[t]) {
      assert TaskKnown(s.made, s.tasks[t]);
    }
  }

  lemma MakeKeepsCore(s: Sys, e: Step, s': Sys)
    requires Core(s) && Enabled(s, e) && (e.MakeClaim? || e.MakeDeployment? || e.MakePod?) && s' == AfterCreate(s, e)
    ensures Core(s')
  {
    forall id: Id | id != e.id ensures RuntimeName(id) != RuntimeName(e.id) {
      RuntimeNameInjective(id, e.id);
    }
  }

  lemma UndoKeepsCore(s: Sys, id: Id)
    requires Core(s)
    ensures Core(s.(cluster := ApplyOp(s.cluster, DeletePvc(ClaimName(id)))))
  {
    CallsEvolve(s.cluster, DeletePvc(ClaimName(id)));
    EvolutionKeepsCore(s, ApplyOp(s.cluster, DeletePvc(ClaimName(id))));
  }

  lemma ReturnKeepsCore(s: Sys, id: Id)
    requires Core(s)
    ensures Core(s.(creating := s.creating - {id}))
  {
  }

  lemma CreateKeepsCore(s: Sys, e: Step)
    requires Enabled(s, e) && ByCreate(e)
    requires Core(s)
    ensures Core(AfterCreate(s, e))
  {
    match e {
      case InsertRow(rec) => InsertKeepsCore(s, rec, AfterCreate(s, e));
      case UndoClaim(id) => UndoKeepsCore(s, id);
      case FinishCreate(id, last) =>
        StatementKeepsCore(s, last);
        ReturnKeepsCore(WithStmt(s, last), id);
      case LeaveCreate(id) => ReturnKeepsCore(s, id);
      case _ => MakeKeepsCore(s, e, AfterCreate(s, e));
    }
  }

  // ----- Every step -------------------------------------------------------------------------

  lemma OtherStepKeepsCore(s: Sys, e: Step)
    requires Core(s) && Enabled(s, e) && !ByCreate(e) && !ByDeletion(e) && !ByReconciler(e)
    ensures Core(After(s, e))
  {
    match e {
      case AskDelete(t, id, _, later) => TaskKeepsCore(s, t, Doing(id, [Db(MarkDeletionRequested(id, later))]));
      case Write(stmt) => StatementKeepsCore(s, stmt);
      case ScaleTo(id, n) => EvolutionKeepsCore(s, SandboxApi.Scaled(s.cluster, id, n));
      case DropPod(name) =>
        CallsEvolve(s.cluster, DeletePod(name));
        EvolutionKeepsCore(s, ApplyOp(s.cluster, DeletePod(name)));
      case PurgeRows(cutoff) => StatementKeepsCore(s, Purge(cutoff));
      case Do(t) => DoKeepsCore(s, t);
      case GiveUp(t) =>
      case Env(c) => EvolutionKeepsCore(s, c);
    }
  }

  lemma StepKeepsCore(s: Sys, e: Step)
    requires Core(s) && Enabled(s, e)
    ensures Core(After(s, e))
  {
    if ByCreate(e) {
      CreateKeepsCore(s, e);
    } else if ByDeletion(e) {
      DeletionKeepsCore(s, e);
    } else if ByReconciler(e) {
      ReconcilerKeepsCore(s, e);
    } else {
      OtherStepKeepsCore(s, e);
    }
  }

  lemma {:induction false} CoreHolds(trace: seq<Sys>, steps: seq<Step>, i: nat)
    requires System.IsRun(trace, steps) && i <= |steps|
    ensures Core(trace[i])
  {
    if i > 0 {
      CoreHolds(trace, steps, i - 1);
      StepKeepsCore(trace[i - 1], steps[i - 1]);
    }
  }

  // ----- Retain safety ----------------------------------------------------------------------

  /** A finished sandbox: its Create call has returned. */
  predicate Returned(s: Sys, id: Id) {
    id in s.made && id !in s.creating
  }

  /** Retain safety, in every run whatsoever: once Create has returned, no step other than the
      cluster's own changes the claim of a retained sandbox, be it present or not, marked or not. */
  lemma RetainSafety(trace: seq<Sys>, steps: seq<Step>, i: nat, id: Id)
    requires System.IsRun(trace, steps) && i < |steps| && !steps[i].Env?
    requires Returned(trace[i], id) && trace[i].made[id].policy == Retain
    ensures Lookup(trace[i + 1].cluster.pvcs, ClaimName(id)) == Lookup(trace[i].cluster.pvcs, ClaimName(id))
    ensures Returned(trace[i + 1], id) && trace[i + 1].made[id] == trace[i].made[id]
  {
    CoreHolds(trace, steps, i);
    StepSparesRetained(trace[i], steps[i], id);
  }

  lemma StepSparesRetained(s: Sys, e: Step, id: Id)
    requires Core(s) && Enabled(s, e) && !e.Env? && Returned(s, id) && s.made[id].policy == Retain
    ensures Lookup(After(s, e).cluster.pvcs, ClaimName(id)) == Lookup(s.cluster.pvcs, ClaimName(id))
    ensures Returned(After(s, e), id) && After(s, e).made[id] == s.made[id]
  {
    if ByCreate(e) {
      CreateSparesSettled(s, e, id);
    } else if e.Do? {
      DoSparesRetained(s, e.t, id);
    }
  }

  lemma CreateSparesSettled(s: Sys, e: Step, id: Id)
    requires Enabled(s, e) && ByCreate(e) && Returned(s, id)
    ensures Lookup(AfterCreate(s, e).cluster.pvcs, ClaimName(id)) == Lookup(s.cluster.pvcs, ClaimName(id))
    ensures Returned(AfterCreate(s, e), id) && AfterCreate(s, e).made[id] == s.made[id]
  {
    if e.MakeClaim? || e.UndoClaim? {
      ClaimNameInjective(e.id, id);
    }
  }

  lemma DoSparesRetained(s: Sys, t: nat, id: Id)
    requires TasksKnown(s) && Enabled(s, Do(t)) && Returned(s, id) && s.made[id].policy == Retain
    ensures Lookup(AfterDo(s, t).cluster.pvcs, ClaimName(id)) == Lookup(s.cluster.pvcs, ClaimName(id))
    ensures Returned(AfterDo(s, t), id) && AfterDo(s, t).made[id] == s.made[id]
  {
    var k := s.tasks[t];
    assert TaskKnown(s.made, k) && k.todo[0] in k.todo;
    ClaimNameInjective(k.owner, id);
  }

  // ----- Frame between sandboxes ------------------------------------------------------------

  /** An aimed call leaves every other sandbox's Deployment, claim, pods and volumes alone, in whatever
      state of the cluster it is finally made. */
  lemma AimedCallSparesOthers(c: State, st: Static, owner: Id, op: Op, other: Id)
    requires DeletionFrame.PodsWellNamed(c) && AimedAt(st, owner, op) && other != owner
    ensures DeletionFrame.SameRuntimeAndClaim(c, ApplyOp(c, op), other)
    ensures DeletionFrame.SameVolumes(c, ApplyOp(c, op), other)
  {
    RuntimeNameInjective(owner, other);
    ClaimNameInjective(owner, other);
    forall n | n in PodsOf(c, other) ensures !IsPodNameOf(n, owner) {
      if IsPodNameOf(n, owner) {
        PodNameHasOneOwner(n, owner, other);
      }
    }
  }

  /** Frame over every run: a call that a deletion worker or the reconciler makes for one sandbox
      leaves the row, Deployment, claim, pods and volumes of every other sandbox as they are at that
      moment, no matter what has happened in the cluster since the worker looked. */
  lemma WorkersSpareOthers(trace: seq<Sys>, steps: seq<Step>, i: nat, other: Id)
    requires System.IsRun(trace, steps) && i < |steps| && steps[i].Do?
    requires Owner(trace[i].tasks[steps[i].t]) != other
    ensures DeletionFrame.SameRuntimeAndClaim(trace[i].cluster, trace[i + 1].cluster, other)
    ensures DeletionFrame.SameVolumes(trace[i].cluster, trace[i + 1].cluster, other)
    ensures other in trace[i].rows <==> other in trace[i + 1].rows
    ensures other in trace[i].rows ==> trace[i + 1].rows[other] == trace[i].rows[other]
  {
    CoreHolds(trace, steps, i);
    DoSparesOthers(trace[i], steps[i].t, other);
  }

  lemma DoSparesOthers(s: Sys, t: nat, other: Id)
    requires Core(s) && Enabled(s, Do(t)) && Owner(s.tasks[t]) != other
    ensures DeletionFrame.SameRuntimeAndClaim(s.cluster, AfterDo(s, t).cluster, other)
    ensures DeletionFrame.SameVolumes(s.cluster, AfterDo(s, t).cluster, other)
    ensures other in s.rows <==> other in AfterDo(s, t).rows
    ensures other in s.rows ==> AfterDo(s, t).rows[other] == s.rows[other]
  {
    var k := s.tasks[t];
    assert TaskKnown(s.made, k) && k.todo[0] in k.todo;
    if k.todo[0].K8s? {
      AimedCallSparesOthers(s.cluster, s.made[k.owner], k.owner, k.todo[0].op, other);
    }
  }
}
