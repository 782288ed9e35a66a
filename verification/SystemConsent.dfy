/** Nothing is deleted unasked: until a delete call or the TTL cleaner has asked for a sandbox's
    deletion, no worker does more to it than write its status and delete pods. */
module SystemConsent {
  import opened Base
  import opened Names
  import opened Store
  import opened Cluster
  import opened Startup
  import opened Deletion
  import opened Reconcile
  import opened System
  import opened SystemCore
  import DeletionFrame

  /** What may be under way for a sandbox that nobody asked to delete. */
  predicate Gentle(a: Action) {
    match a
    case Db(stmt) => OutsideWrite(stmt) || stmt.EnsureStoppedAt? || stmt.MarkCompleted?
    case K8s(op) => op.DeletePod?
  }

  predicate GentleTask(k: Task) {
    match k
    case Glanced(_, _) => true
    case GlancedRuntime(_, _, _) => true
    case GlancedClaim(_, _, _, _) => true
    case Doing(_, todo) => forall a :: a in todo ==> Gentle(a)
    case _ => false
  }

  /** The row is wanted, or its deletion is recorded as complete because the reconciler saw it fade; and
      the deletion service is not at work on it. */
  predicate Unasked(s: Sys, x: Id) {
    && (x in s.rows ==> s.rows[x].desired == WantActive || s.rows[x].phase == Completed)
    && (forall t :: t in s.tasks && Owner(s.tasks[t]) == x ==> GentleTask(s.tasks[t]))
  }

  lemma WriteKeepsUnasked(s: Sys, stmt: Stmt, x: Id)
    requires Unasked(s, x) && !stmt.Insert? && !stmt.Purge? && (stmt.id == x ==> Gentle(Db(stmt)))
    ensures Unasked(WithStmt(s, stmt), x)
  {
  }

  lemma TaskKeepsUnasked(s: Sys, t: nat, k: Task, x: Id)
    requires Unasked(s, x) && (Owner(k) == x ==> GentleTask(k))
    ensures Unasked(WithTask(s, t, k), x)
  {
  }

  lemma DoKeepsUnasked(s: Sys, t: nat, s': Sys, x: Id)
    requires Enabled(s, Do(t)) && s' == AfterDo(s, t)
    requires TasksKnown(s) && Unasked(s, x)
    ensures Unasked(s', x)
    ensures Owner(s.tasks[t]) == x ==> Gentle(s.tasks[t].todo[0])
  {
    var k := s.tasks[t];
    assert TaskKnown(s.made, k) && k.todo[0] in k.todo;
    assert k.owner == x ==> GentleTask(k);
    TaskKeepsUnasked(s, t, Doing(k.owner, k.todo[1..]), x);
    if k.todo[0].Db? {
      assert Mine(s.made[k.owner], k.owner, k.todo[0]);
      WriteKeepsUnasked(WithTask(s, t, Doing(k.owner, k.todo[1..])), k.todo[0].stmt, x);
    }
  }

  lemma CountKeepsUnasked(s: Sys, t: nat, s': Sys, x: Id)
    requires Enabled(s, Count(t)) && s' == AfterDeletion(s, Count(t))
    requires Unasked(s, x)
    ensures Unasked(s', x)
  {
    var k := s.tasks[t];
    assert !GentleTask(k);
    TaskKeepsUnasked(s, t, Counted(k.rec, k.now, k.later), x);
    WriteKeepsUnasked(WithTask(s, t, Counted(k.rec, k.now, k.later)), AttemptStmt(k.rec, k.now), x);
  }

  lemma SightKeepsUnasked(s: Sys, e: Step, s': Sys, x: Id)
    requires Enabled(s, e) && (e.SeeRuntime? || e.SeePods? || e.SeeStorage? || e.FailToSee?)
    requires s' == AfterDeletion(s, e)
    requires Unasked(s, x)
    ensures Unasked(s', x)
  {
    assert !GentleTask(s.tasks[e.t]);
    TaskKeepsUnasked(s, e.t, s'.tasks[e.t], x);
  }

  lemma DeletionKeepsUnasked(s: Sys, e: Step, s': Sys, x: Id)
    requires Enabled(s, e) && ByDeletion(e) && s' == AfterDeletion(s, e)
    requires RowsKnown(s) && Unasked(s, x)
    ensures Unasked(s', x)
  {
    if e.Count? {
      CountKeepsUnasked(s, e.t, s', x);
    } else if e.List? {
      TaskKeepsUnasked(s, e.t, Listed(s.rows[e.id], e.now, e.later), x);
    } else {
      SightKeepsUnasked(s, e, s', x);
    }
  }

  lemma RemediesAreGentle(k: Task, seen: Option<NamedPod>, startup: Startup)
    requires k.GlancedClaim? || k.Glanced?
    ensures forall a :: a in Remedies(k, seen, startup) ==> Gentle(a)
  {
    forall a | a in Remedies(k, seen, startup) ensures Gentle(a) {
      RemediesAreFair(k, seen, startup, a);
    }
  }

  lemma GlancePodKeepsUnasked(s: Sys, t: nat, seen: Option<NamedPod>, startup: Startup, x: Id)
    requires t in s.tasks && (s.tasks[t].GlancedClaim? || s.tasks[t].Glanced?)
    requires Unasked(s, x)
    ensures Unasked(WithTask(s, t, Doing(s.tasks[t].rec.id, Remedies(s.tasks[t], seen, startup))), x)
  {
    var k := s.tasks[t];
    RemediesAreGentle(k, seen, startup);
    TaskKeepsUnasked(s, t, Doing(k.rec.id, Remedies(k, seen, startup)), x);
  }

  lemma ReconcilerKeepsUnasked(s: Sys, e: Step, x: Id)
    requires Enabled(s, e) && ByReconciler(e)
    requires Unasked(s, x)
    ensures Unasked(AfterGlance(s, e), x)
  {
    match e {
      case Glance(t, other, now) => TaskKeepsUnasked(s, t, Glanced(s.rows[other], now), x);
      case GlanceRuntime(t) =>
        var k := s.tasks[t];
        TaskKeepsUnasked(s, t, GlancedRuntime(k.rec, k.now, Lookup(s.cluster.deployments, k.rec.runtimeName)), x);
      case GlanceClaim(t) =>
        var k := s.tasks[t];
        TaskKeepsUnasked(s, t, GlancedClaim(k.rec, k.now, k.deployment, Lookup(s.cluster.pvcs, k.rec.claim)), x);
      case GlancePod(t, seen, startup) => GlancePodKeepsUnasked(s, t, seen, startup, x);
    }
  }

  lemma InsertKeepsUnasked(s: Sys, rec: Record, s': Sys, x: Id)
    requires NewRow(rec) && rec.id !in s.made && s' == AfterCreate(s, InsertRow(rec))
    requires Unasked(s, x)
    ensures Unasked(s', x)
  {
  }

  lemma MakeKeepsUnasked(s: Sys, e: Step, s': Sys, x: Id)
    requires ByCreate(e) && !e.InsertRow? && !e.FinishCreate? && s' == AfterCreate(s, e)
    requires Unasked(s, x)
    ensures Unasked(s', x)
  {
    assert s'.rows == s.rows && s'.tasks == s.tasks;
  }

  lemma FinishKeepsUnasked(s: Sys, other: Id, last: Stmt, x: Id)
    requires CreateWrite(last, other)
    requires Unasked(s, x)
    ensures Unasked(WithStmt(s, last).(creating := s.creating - {other}), x)
  {
    WriteKeepsUnasked(s, last, x);
  }

  lemma CreateKeepsUnasked(s: Sys, e: Step, x: Id)
    requires Enabled(s, e) && ByCreate(e)
    requires Unasked(s, x)
    ensures Unasked(AfterCreate(s, e), x)
  {
    if e.InsertRow? {
      InsertKeepsUnasked(s, e.rec, AfterCreate(s, e), x);
    } else if e.FinishCreate? {
      FinishKeepsUnasked(s, e.id, e.last, x);
    } else {
      MakeKeepsUnasked(s, e, AfterCreate(s, e), x);
    }
  }

  lemma OtherStepKeepsUnasked(s: Sys, e: Step, x: Id)
    requires Enabled(s, e) && !ByCreate(e) && !ByDeletion(e) && !ByReconciler(e)
    requires !(e.AskDelete? && e.id == x)
    requires TasksKnown(s) && Unasked(s, x)
    ensures Unasked(After(s, e), x)
  {
    match e {
      case Write(stmt) => WriteKeepsUnasked(s, stmt, x);
      case AskDelete(t, other, _, later) =>
        TaskKeepsUnasked(s, t, Doing(other, [Db(MarkDeletionRequested(other, later))]), x);
      case Do(t) => DoKeepsUnasked(s, t, AfterDo(s, t), x);
      case _ =>
    }
  }

  lemma StepKeepsUnasked(s: Sys, e: Step, x: Id)
    requires Enabled(s, e) && !(e.AskDelete? && e.id == x)
    requires RowsKnown(s) && TasksKnown(s) && Unasked(s, x)
    ensures Unasked(After(s, e), x)
  {
    if ByCreate(e) {
      CreateKeepsUnasked(s, e, x);
    } else if ByDeletion(e) {
      DeletionKeepsUnasked(s, e, AfterDeletion(s, e), x);
    } else if ByReconciler(e) {
      ReconcilerKeepsUnasked(s, e, x);
    } else {
      OtherStepKeepsUnasked(s, e, x);
    }
  }

  /** Neither a delete call nor the TTL cleaner has asked for the sandbox among the first `n` steps. */
  ghost predicate NeverAsked(steps: seq<Step>, n: nat, x: Id)
    requires n <= |steps|
  {
    forall i {:trigger steps[i]} :: 0 <= i < n ==> !(steps[i].AskDelete? && steps[i].id == x)
  }

  lemma {:induction false} UnaskedHolds(trace: seq<Sys>, steps: seq<Step>, i: nat, x: Id)
    requires System.IsRun(trace, steps) && i <= |steps| && NeverAsked(steps, i, x)
    ensures Unasked(trace[i], x)
  {
    if i > 0 {
      UnaskedHolds(trace, steps, i - 1, x);
      CoreHolds(trace, steps, i - 1);
      var _ := steps[i - 1];
      StepKeepsUnasked(trace[i - 1], steps[i - 1], x);
    }
  }

  /** In every run: as long as nobody has asked for a sandbox's deletion, its row is not selected by the
      pending query, and no worker's call for it touches any Deployment, claim, volume or attachment or
      forces a pod. */
  lemma NothingIsDeletedUnasked(trace: seq<Sys>, steps: seq<Step>, i: nat, x: Id, now: Time)
    requires System.IsRun(trace, steps) && i <= |steps| && NeverAsked(steps, i, x)
    ensures x in trace[i].rows ==> !PendingDeletion(trace[i].rows[x], now)
    ensures i < |steps| && steps[i].Do? && Owner(trace[i].tasks[steps[i].t]) == x ==>
              && Gentle(trace[i].tasks[steps[i].t].todo[0])
              && trace[i + 1].cluster == trace[i].cluster.(pods := trace[i + 1].cluster.pods)
              && trace[i + 1].cluster.pods.Keys == trace[i].cluster.pods.Keys
  {
    UnaskedHolds(trace, steps, i, x);
    if i < |steps| && steps[i].Do? {
      CoreHolds(trace, steps, i);
      DoKeepsUnasked(trace[i], steps[i].t, AfterDo(trace[i], steps[i].t), x);
      GentleDoIsGentle(trace[i], steps[i].t, x);
    }
  }

  lemma GentleDoIsGentle(s: Sys, t: nat, x: Id)
    requires Enabled(s, Do(t)) && (Owner(s.tasks[t]) == x ==> Gentle(s.tasks[t].todo[0]))
    ensures Owner(s.tasks[t]) == x ==>
              && AfterDo(s, t).cluster == s.cluster.(pods := AfterDo(s, t).cluster.pods)
              && AfterDo(s, t).cluster.pods.Keys == s.cluster.pods.Keys
  {
  }
}
