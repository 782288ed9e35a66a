/** The whole control plane as one state machine. Every database statement, every cluster call and
    every cluster read is a step of its own, so all workers interleave freely; any number of
    deletion workers and reconcilers may be at work on the same sandbox. */
module System {
  import opened Base
  import opened Names
  import opened Store
  import opened Cluster
  import opened Startup
  import opened Deletion
  import opened DeletionRuns
  import opened Reconcile
  import DeletionFrame
  import SandboxApi

  /** A worker in the middle of its work on one sandbox: what it has read, in the order it reads,
      and then the calls it still has to make. */
  datatype Task =
    | Listed(rec: Record, now: Time, later: Time)
    | Counted(rec: Record, now: Time, later: Time)
    | SawRuntime(rec: Record, now: Time, later: Time, deployment: Option<Deployment>)
    | SawPods(rec: Record, now: Time, later: Time, deployment: Option<Deployment>, pods: seq<string>)
    | Glanced(rec: Record, now: Time)
    | GlancedRuntime(rec: Record, now: Time, deployment: Option<Deployment>)
    | GlancedClaim(rec: Record, now: Time, deployment: Option<Deployment>, pvc: Option<Pvc>)
    | Doing(owner: Id, todo: seq<Action>)

  /** `made` remembers every sandbox ever inserted, also after its row is purged; `creating` are the
      Create calls that have not returned. */
  datatype Sys = Sys(rows: Rows, cluster: State, made: map<Id, Static>, creating: set<Id>, tasks: map<nat, Task>)

  datatype Step =
    // Create, statement by statement.
    | InsertRow(rec: Record)
    | MakeClaim(id: Id, pvc: Pvc)
    | MakeDeployment(id: Id, deployment: Deployment)
    | MakePod(id: Id, pod: Pod)
    | UndoClaim(id: Id)
    | FinishCreate(id: Id, last: Stmt)
    | LeaveCreate(id: Id)
    // The delete call and the TTL cleaner: what they read, before they write.
    | AskDelete(t: nat, id: Id, now: Time, later: Time)
    // The other API calls, the startup monitor and the post-creation tasks.
    | Write(stmt: Stmt)
    | ScaleTo(id: Id, replicas: int)
    | DropPod(name: string)
    | PurgeRows(cutoff: Time)
    // The deletion service.
    | List(t: nat, id: Id, now: Time, later: Time)
    | Count(t: nat)
    | SeeRuntime(t: nat)
    | SeePods(t: nat, names: seq<string>)
    | SeeStorage(t: nat, pv: Option<Pv>, attachments: seq<string>)
    | FailToSee(t: nat, failure: string)
    // The reconciler.
    | Glance(t: nat, id: Id, now: Time)
    | GlanceRuntime(t: nat)
    | GlanceClaim(t: nat)
    | GlancePod(t: nat, seen: Option<NamedPod>, startup: Startup)
    // Any worker, and the cluster itself.
    | Do(t: nat)
    | GiveUp(t: nat)
    | Env(cluster: State)

  // ----- What may happen --------------------------------------------------------------------

  /** The writes of the remaining API calls, the startup monitor and the post-creation tasks, at any
      time and on any row. None of them can claim that a sandbox is gone. */
  predicate OutsideWrite(s: Stmt) {
    match s
    case UpdateStatus(_, status, _, _) => status != Deleted
    case UpdateStatusIfActive(_, status, _, _) => status != Deleted
    case UpdateObserved(_, _, _, _, status, _, _) => status != Deleted
    case UpdateObservedIfActive(_, _, _, _, status, _, _) => status != Deleted
    case SetStopped(_, _) => true
    case SetStarted(_, _, _) => true
    case _ => false
  }

  /** The last write of a Create call. */
  predicate CreateWrite(s: Stmt, id: Id) {
    (s.UpdateStatus? || s.UpdateObserved?) && s.status != Deleted && s.id == id
  }

  predicate NewRow(r: Record) {
    r.desired == WantActive && r.lifecycle == Creating && r.phase == Unset && WellNamed(r)
  }

  /** The cluster on its own: objects change and go; labelled pods come only from a Deployment, which
      names them after itself, and nothing brings Deployments or claims. */
  ghost predicate Evolves(c: State, c': State) {
    && (forall n :: n in c'.deployments ==> n in c.deployments)
    && (forall n :: n in c'.pvcs ==> n in c.pvcs)
    && (forall n :: n in c'.pods && n in c.pods ==> c'.pods[n].labels == c.pods[n].labels)
    && (forall n :: n in c'.pods && n !in c.pods && c'.pods[n].labels.app ==>
          && |c'.pods[n].labels.sandboxId| == 8 && IsPodNameOf(n, c'.pods[n].labels.sandboxId)
          && RuntimeName(c'.pods[n].labels.sandboxId) in c.deployments)
  }

  predicate At(s: Sys, t: nat) {
    t in s.tasks
  }

  ghost predicate Enabled(s: Sys, e: Step) {
    match e
    case InsertRow(rec) => rec.id !in s.made && NewRow(rec)
    case MakeClaim(id, _) => id in s.creating && id in s.made && s.made[id].persistent &&
        ClaimName(id) !in s.cluster.pvcs
    case MakeDeployment(id, _) =>
      id in s.creating && id in s.made && s.made[id].persistent && RuntimeName(id) !in s.cluster.deployments
    case MakePod(id, pod) =>
      && id in s.creating && id in s.made && !s.made[id].persistent
      && pod.labels == Labels(true, id, true) && RuntimeName(id) !in s.cluster.pods
    case UndoClaim(id) => id in s.creating
    case FinishCreate(id, last) => id in s.creating && CreateWrite(last, id)
    case LeaveCreate(id) => id in s.creating
    case AskDelete(t, id, now, _) =>
      !At(s, t) && id in s.rows && (SandboxApi.DeleteActs(s.rows[id]) || ExpiredActive(s.rows[id], now))
    case Write(stmt) => OutsideWrite(stmt)
    case ScaleTo(_, _) => true
    case DropPod(_) => true
    case PurgeRows(_) => true
    case List(t, id, now, _) => !At(s, t) && id in s.rows && PendingDeletion(s.rows[id], now)
    case Count(t) => At(s, t) && s.tasks[t].Listed?
    case SeeRuntime(t) => At(s, t) && s.tasks[t].Counted?
    case SeePods(t, names) => At(s, t) && s.tasks[t].SawRuntime? &&
        Enumerates(names, PodsOf(s.cluster, s.tasks[t].rec.id))
    case SeeStorage(t, _, _) => At(s, t) && s.tasks[t].SawPods?
    case FailToSee(t, _) => At(s, t) && (s.tasks[t].Counted? || s.tasks[t].SawRuntime? || s.tasks[t].SawPods?)
    case Glance(t, id, _) => !At(s, t) && id in s.rows
    case GlanceRuntime(t) => At(s, t) && s.tasks[t].Glanced? && s.tasks[t].rec.persistent
    case GlanceClaim(t) => At(s, t) && s.tasks[t].GlancedRuntime?
    case GlancePod(t, seen, _) =>
      && At(s, t)
      && (s.tasks[t].GlancedClaim? || (s.tasks[t].Glanced? && !s.tasks[t].rec.persistent))
      && (if seen.None? then PodsOf(s.cluster, s.tasks[t].rec.id) == {}
          else seen.value.name in s.cluster.pods &&
               DeletionFrame.NamesOrLabels(seen.value.name, s.cluster.pods[seen.value.name], s.tasks[t].rec.id))
    case Do(t) => At(s, t) && s.tasks[t].Doing? && s.tasks[t].todo != []
    case GiveUp(t) => At(s, t)
    case Env(c) => Evolves(s.cluster, c)
  }

  // ----- What then happens ------------------------------------------------------------------

  function WithTask(s: Sys, t: nat, task: Task): Sys {
    s.(tasks := s.tasks[t := task])
  }

  function WithStmt(s: Sys, stmt: Stmt): Sys {
    s.(rows := Apply(stmt, s.rows))
  }

  /** A deletion worker's snapshot, put together from its reads. An ordinary sandbox has only pods. */
  function Assembled(task: Task, pvc: Option<Pvc>, pv: Option<Pv>, attachments: seq<string>): Snapshot
    requires task.SawPods?
  {
    if task.rec.persistent then Snapshot(task.deployment, task.pods, pvc, if pvc.Some? then pv else None, attachments)
    else Snapshot(None, task.pods, None, None, [])
  }

  /** The reconciler's calls, from its reads. */
  function Remedies(task: Task, pod: Option<NamedPod>, startup: Startup): seq<Action>
    requires task.GlancedClaim? || task.Glanced?
  {
    if task.GlancedClaim? then
      ReconcilePersistent(task.rec, Sighting(task.deployment, task.pvc, pod, startup), task.now).actions
    else ReconcileOrdinary(task.rec, if pod.Some? then Some(pod.value.pod) else None, task.now).actions
  }

  function AfterDo(s: Sys, t: nat): Sys
    requires At(s, t) && s.tasks[t].Doing? && s.tasks[t].todo != []
  {
    var task := s.tasks[t];
    var s1 := WithTask(s, t, Doing(task.owner, task.todo[1..]));
    match task.todo[0]
    case Db(stmt) => WithStmt(s1, stmt)
    case K8s(op) => s1.(cluster := ApplyOp(s.cluster, op))
  }

  function AfterCreate(s: Sys, e: Step): Sys {
    match e
    case InsertRow(rec) =>
      s.(rows := s.rows[rec.id := rec], made := s.made[rec.id := StaticOf(rec)], creating := s.creating + {rec.id})
    case MakeClaim(id, pvc) => s.(cluster := s.cluster.(pvcs := s.cluster.pvcs[ClaimName(id) := pvc]))
    case MakeDeployment(id, d) => s.(cluster := s.cluster.(deployments := s.cluster.deployments[RuntimeName(id) := d]))
    case MakePod(id, pod) => s.(cluster := s.cluster.(pods := s.cluster.pods[RuntimeName(id) := pod]))
    case UndoClaim(id) => s.(cluster := ApplyOp(s.cluster, DeletePvc(ClaimName(id))))
    case FinishCreate(id, last) => WithStmt(s, last).(creating := s.creating - {id})
    case LeaveCreate(id) => s.(creating := s.creating - {id})
    case _ => s
  }

  function AfterDeletion(s: Sys, e: Step): Sys
    requires (e.List? && e.id in s.rows) || (e.Count? && At(s, e.t) && s.tasks[e.t].Listed?)
          || (e.SeeRuntime? && At(s, e.t) && s.tasks[e.t].Counted?) ||
              (e.SeePods? && At(s, e.t) && s.tasks[e.t].SawRuntime?)
          || (e.SeeStorage? && At(s, e.t) && s.tasks[e.t].SawPods?) ||
              (e.FailToSee? && At(s, e.t) && !s.tasks[e.t].Doing?)
  {
    match e
    case List(t, id, now, later) => WithTask(s, t, Listed(s.rows[id], now, later))
    case Count(t) =>
      var k := s.tasks[t];
      WithStmt(WithTask(s, t, Counted(k.rec, k.now, k.later)), AttemptStmt(k.rec, k.now))
    case SeeRuntime(t) =>
      var k := s.tasks[t];
      WithTask(s, t, SawRuntime(k.rec, k.now, k.later, Lookup(s.cluster.deployments, DeploymentKey(k.rec))))
    case SeePods(t, names) =>
      var k := s.tasks[t];
      WithTask(s, t, SawPods(k.rec, k.now, k.later, k.deployment, names))
    case SeeStorage(t, pv, attachments) =>
      var k := s.tasks[t];
      var snap := Assembled(k, Lookup(s.cluster.pvcs, ClaimKey(k.rec)), pv, attachments);
      WithTask(s, t, Doing(k.rec.id, Actions(Handle(Attempted(k.rec, k.now), snap, k.now, k.later))))
    case FailToSee(t, failure) =>
      var k := s.tasks[t];
      WithTask(s, t, Doing(k.rec.id, [Db(AttemptStmt(k.rec, k.now).(err := failure))]))
  }

  function AfterGlance(s: Sys, e: Step): Sys
    requires (e.Glance? && e.id in s.rows) || (e.GlanceRuntime? && At(s, e.t) && s.tasks[e.t].Glanced?)
          || (e.GlanceClaim? && At(s, e.t) && s.tasks[e.t].GlancedRuntime?)
          || (e.GlancePod? && At(s, e.t) && (s.tasks[e.t].GlancedClaim? || s.tasks[e.t].Glanced?))
  {
    match e
    case Glance(t, id, now) => WithTask(s, t, Glanced(s.rows[id], now))
    case GlanceRuntime(t) =>
      var k := s.tasks[t];
      WithTask(s, t, GlancedRuntime(k.rec, k.now, Lookup(s.cluster.deployments, k.rec.runtimeName)))
    case GlanceClaim(t) =>
      var k := s.tasks[t];
      WithTask(s, t, GlancedClaim(k.rec, k.now, k.deployment, Lookup(s.cluster.pvcs, k.rec.claim)))
    case GlancePod(t, pod, startup) =>
      var k := s.tasks[t];
      WithTask(s, t, Doing(k.rec.id, Remedies(k, pod, startup)))
  }

  ghost function After(s: Sys, e: Step): Sys
    requires Enabled(s, e)
  {
    match e
    case AskDelete(t, id, _, later) => WithTask(s, t, Doing(id, [Db(MarkDeletionRequested(id, later))]))
    case Write(stmt) => WithStmt(s, stmt)
    case ScaleTo(id, n) => s.(cluster := SandboxApi.Scaled(s.cluster, id, n))
    case DropPod(name) => s.(cluster := ApplyOp(s.cluster, DeletePod(name)))
    case PurgeRows(cutoff) => WithStmt(s, Purge(cutoff))
    case Do(t) => AfterDo(s, t)
    case GiveUp(t) => s.(tasks := s.tasks - {t})
    case Env(c) => s.(cluster := c)
    case List(_, _, _, _) => AfterDeletion(s, e)
    case Count(_) => AfterDeletion(s, e)
    case SeeRuntime(_) => AfterDeletion(s, e)
    case SeePods(_, _) => AfterDeletion(s, e)
    case SeeStorage(_, _, _) => AfterDeletion(s, e)
    case FailToSee(_, _) => AfterDeletion(s, e)
    case Glance(_, _, _) => AfterGlance(s, e)
    case GlanceRuntime(_) => AfterGlance(s, e)
    case GlanceClaim(_) => AfterGlance(s, e)
    case GlancePod(_, _, _) => AfterGlance(s, e)
    case _ => AfterCreate(s, e)
  }

  /** The rows that the deletion service, respectively the reconciler, records as deleted when it sees
      nothing of the sandbox. */
  predicate Verified(r: Record) {
    r.phase == Verifying
  }

  predicate Fading(r: Record) {
    r.desired == WantActive && r.lifecycle == Terminating
  }

  /** A worker that may be about to record the sandbox as deleted looks for what runs it, its
      Deployment or an ordinary sandbox's pods, and finds nothing, while Create has not returned. */
  predicate Hasty(s: Sys, e: Step, x: Id) {
    x in s.creating &&
    match e
    case SeeRuntime(t) =>
      && At(s, t) && s.tasks[t].Counted? && s.tasks[t].rec.id == x && Verified(s.tasks[t].rec)
      && s.tasks[t].rec.persistent && DeploymentKey(s.tasks[t].rec) !in s.cluster.deployments
    case SeePods(t, names) =>
      && At(s, t) && s.tasks[t].SawRuntime? && s.tasks[t].rec.id == x && Verified(s.tasks[t].rec)
      && !s.tasks[t].rec.persistent && names == []
    case GlanceRuntime(t) =>
      && At(s, t) && s.tasks[t].Glanced? && s.tasks[t].rec.id == x && Fading(s.tasks[t].rec)
      && s.tasks[t].rec.runtimeName !in s.cluster.deployments
    case GlancePod(t, seen, _) =>
      && At(s, t) && s.tasks[t].Glanced? && s.tasks[t].rec.id == x && Fading(s.tasks[t].rec)
      && seen.None?
    case _ => false
  }

  ghost predicate Initial(s: Sys) {
    s.rows == map[] && s.made == map[] && s.creating == {} && s.tasks == map[] && s.cluster.deployments == map[]
    && DeletionFrame.PodsWellNamed(s.cluster)
  }

  ghost predicate IsPath(trace: seq<Sys>, steps: seq<Step>) {
    && |trace| == |steps| + 1
    && (forall i {:trigger steps[i]} :: 0 <= i < |steps| ==>
          Enabled(trace[i], steps[i]) && trace[i + 1] == After(trace[i], steps[i]))
  }

  ghost predicate IsRun(trace: seq<Sys>, steps: seq<Step>) {
    IsPath(trace, steps) && Initial(trace[0])
  }
}
