/** The deletion service: what one pass over a pending record decides, and the service that
    carries the decision out against the table and the cluster. */
module Deletion {
  import opened Base
  import opened Names
  import opened Store
  import opened Cluster
  import opened Backoff

  const POD_DELETE_TIMEOUT: int := 45 * SECOND
  const PVC_DELETE_TIMEOUT: int := 2 * MINUTE
  const PVC_FORCE_CLEANUP_THRESHOLD: int := 5 * MINUTE
  const STORAGE_ATTACHMENT_CLEANUP_AFTER: int := 15 * MINUTE

  /** A worker acts on the world one call at a time. */
  datatype Action = Db(stmt: Stmt) | K8s(op: Op)

  datatype World = World(rows: Rows, cluster: State)

  function Act(a: Action, w: World): World {
    match a
    case Db(s) => w.(rows := Apply(s, w.rows))
    case K8s(op) => w.(cluster := ApplyOp(w.cluster, op))
  }

  function ActAll(actions: seq<Action>, w: World): World {
    if actions == [] then w else ActAll(actions[1..], Act(actions[0], w))
  }

  /** Every cluster call of the sequence passes its provenance check at the moment it is made. */
  predicate Feasible(actions: seq<Action>, w: World) {
    actions == [] ||
    ((actions[0].K8s? ==> Allowed(w.cluster, actions[0].op)) && Feasible(actions[1..], Act(actions[0], w)))
  }

  lemma {:induction false} ActAllAppend(xs: seq<Action>, ys: seq<Action>, w: World)
    ensures ActAll(xs + ys, w) == ActAll(ys, ActAll(xs, w))
    ensures Feasible(xs + ys, w) <==> Feasible(xs, w) && Feasible(ys, ActAll(xs, w))
  {
    if xs == [] {
      assert xs + ys == ys;
    } else {
      assert (xs + ys)[1..] == xs[1..] + ys;
      ActAllAppend(xs[1..], ys, Act(xs[0], w));
    }
  }

  lemma ActAllSnoc(xs: seq<Action>, a: Action, w: World)
    ensures ActAll(xs + [a], w) == Act(a, ActAll(xs, w))
    ensures Feasible(xs + [a], w) <==> Feasible(xs, w) && (a.K8s? ==> Allowed(ActAll(xs, w).cluster, a.op))
  {
    ActAllAppend(xs, [a], w);
    assert ActAll([a], ActAll(xs, w)) == ActAll([], Act(a, ActAll(xs, w)));
  }

  /** In a feasible sequence the call after a prefix is let through. */
  lemma FeasibleNext(done: seq<Action>, a: Action, all: seq<Action>, w: World)
    requires done + [a] <= all && Feasible(all, w) && a.K8s?
    ensures Allowed(ActAll(done, w).cluster, a.op)
  {
    var rest := all[|done| + 1..];
    assert all == (done + [a]) + rest;
    ActAllAppend(done + [a], rest, w);
    ActAllSnoc(done, a, w);
  }

  // ----- Decisions --------------------------------------------------------------------------

  /** A handler first makes its cluster calls and, if all of them succeed, writes the row. */
  datatype Decision = Decision(ops: seq<Op>, stmts: seq<Stmt>)

  function Calls(ops: seq<Op>): (r: seq<Action>)
    ensures |r| == |ops| && forall i :: 0 <= i < |ops| ==> r[i] == K8s(ops[i])
  {
    seq(|ops|, i requires 0 <= i < |ops| => K8s(ops[i]))
  }

  function Writes(stmts: seq<Stmt>): (r: seq<Action>)
    ensures |r| == |stmts| && forall i :: 0 <= i < |stmts| ==> r[i] == Db(stmts[i])
  {
    seq(|stmts|, i requires 0 <= i < |stmts| => Db(stmts[i]))
  }

  function Actions(d: Decision): seq<Action> {
    Calls(d.ops) + Writes(d.stmts)
  }

  predicate Exceeded(start: Option<Time>, timeout: int, now: Time) {
    start.Some? && Sub(now, start.value) >= timeout
  }

  function EffectivePhase(r: Record): Phase {
    if r.phase == Unset then Requested else r.phase
  }

  /** First write of a pass: count the attempt and schedule the next one. */
  function AttemptStmt(r: Record, now: Time): Stmt {
    RecordAttempt(r.id, r.attempts + 1, r.forceLevel, Some(now), Some(now + RetryDelay(r.attempts)), "", now)
  }

  /** The record as that write leaves it. */
  function Attempted(r: Record, now: Time): Record {
    r.(attempts := r.attempts + 1, lastAttempt := Some(now), nextRetry := Some(now + RetryDelay(r.attempts)),
       lastError := "", updatedAt := now)
  }

  /** Whatever the attempt count, wrapped delays included, a counted record is due again within a
      minute of the attempt. */
  lemma AttemptStaysDueWithinAMinute(r: Record, now: Time, later: Time)
    requires r.desired == WantDeleted && r.lifecycle != Deleted && r.phase != Completed
    requires now + 60 * SECOND <= later
    ensures PendingDeletion(RowAfter(AttemptStmt(r, now), r), later)
    ensures r.attempts >= 54 ==> PendingDeletion(RowAfter(AttemptStmt(r, now), r), now)
  {
    RetryNeverLaterThanAMinute(r.attempts, now);
    if r.attempts >= 54 {
      RetryImmediateFromFiftyFour(r.attempts);
    }
  }

  function ReadyNow(r: Record, later: Time): Stmt {
    RecordAttempt(r.id, r.attempts, r.forceLevel, r.lastAttempt, Some(later), "", later)
  }

  function EnterPhase(r: Record, p: Phase, later: Time): seq<Stmt> {
    [AdvancePhase(r.id, p, later), ReadyNow(r, later)]
  }

  function BumpLevel(r: Record, level: int, now: Time): seq<Stmt> {
    [RecordAttempt(r.id, r.attempts, level, Some(now), Some(now), "", now)]
  }

  function DeleteSandboxOps(id: string, claim: string, policy: Policy): seq<Op> {
    [DeleteDeployment(RuntimeName(id))] +
    (if policy == Retain then [] else [DeletePvc(if claim == "" then ClaimName(id) else claim)])
  }

  function Quiesce(r: Record, s: Snapshot, now: Time, later: Time): Decision {
    if r.persistent && s.deployment.Some? then
      Decision(DeleteSandboxOps(r.id, "", Retain), [ReadyNow(r, later)])
    else if !r.persistent && s.pods != [] then
      Decision([DeletePod(RuntimeName(r.id))], [ReadyNow(r, later)])
    else if s.pods != [] then
      if Exceeded(r.startedAt, POD_DELETE_TIMEOUT, now) then Decision([], EnterPhase(r, ForceCleanup, later))
      else Decision([], [])
    else if r.persistent && r.policy != Retain && r.claim != "" && s.pvc.Some? then
      Decision([], EnterPhase(r, DeletingStorage, later))
    else
      Decision([], EnterPhase(r, Verifying, later))
  }

  function DeleteStorage(r: Record, s: Snapshot, now: Time, later: Time): Decision {
    if s.pvc.None? then Decision([], EnterPhase(r, Verifying, later))
    else if s.pods != [] then Decision([], EnterPhase(r, ForceCleanup, later))
    else if !s.pvc.value.deleting then
      Decision(DeleteSandboxOps(r.id, r.claim, r.policy), [ReadyNow(r, later)])
    else if Exceeded(r.startedAt, PVC_DELETE_TIMEOUT, now) then Decision([], EnterPhase(r, ForceCleanup, later))
    else Decision([], [])
  }

  function ForceDeletePods(names: seq<string>): (r: seq<Op>)
    ensures |r| == |names| && forall i :: 0 <= i < |names| ==> r[i] == ForceDeletePod(names[i])
  {
    seq(|names|, i requires 0 <= i < |names| => ForceDeletePod(names[i]))
  }

  function DeleteAttachments(names: seq<string>): (r: seq<Op>)
    ensures |r| == |names| && forall i :: 0 <= i < |names| ==> r[i] == DeleteAttachment(names[i])
  {
    seq(|names|, i requires 0 <= i < |names| => DeleteAttachment(names[i]))
  }

  function VolumeCalls(volume: string, claim: string, attachments: seq<string>): seq<Action> {
    Calls(DeleteAttachments(attachments) + [StripPv(volume, claim), DeletePv(volume, claim)])
  }

  /** The snapshot's claim is looked up under the record's claim name, so comparing the two names
      can only fail when the record stores none. */
  predicate MayForceDeletePvc(r: Record, s: Snapshot) {
    r.policy != Retain && s.pvc.Some? && s.pods == [] && s.deployment.None? && ClaimKey(r) == r.claim
  }

  function Force(r: Record, s: Snapshot, now: Time, later: Time): Decision {
    if r.forceLevel == 0 then
      Decision(ForceDeletePods(s.pods) +
               (if s.deployment.Some? && s.deployment.value.deleting then [StripDeployment(DeploymentKey(r), r.id)]
                else []),
               BumpLevel(r, 1, now))
    else if r.forceLevel == 1 then
      Decision(if MayForceDeletePvc(r, s) && Exceeded(r.startedAt, PVC_FORCE_CLEANUP_THRESHOLD, now)
               then [StripPvc(ClaimKey(r), r.id)] + DeleteSandboxOps(r.id, r.claim, r.policy) else [],
               BumpLevel(r, 2, now))
    else if r.forceLevel == 2 then
      Decision(if s.pv.Some? && s.pvc.Some? && Exceeded(r.startedAt, STORAGE_ATTACHMENT_CLEANUP_AFTER, now)
               then DeleteAttachments(s.attachments) +
                    [StripPv(s.pvc.value.volume, r.claim), DeletePv(s.pvc.value.volume, r.claim)] else [],
               BumpLevel(r, 3, now))
    else
      Decision([], EnterPhase(r, Verifying, later))
  }

  /** Something of the sandbox is still there. */
  predicate Residue(r: Record, s: Snapshot) {
    if r.persistent then
      || s.deployment.Some? || s.pods != []
      || (r.policy != Retain && s.pvc.Some?)
      || (r.forceLevel >= 3 && (s.pv.Some? || s.attachments != []))
    else s.pods != []
  }

  function Verify(r: Record, s: Snapshot, now: Time, later: Time): Decision {
    if Residue(r, s) then Decision([], EnterPhase(r, ForceCleanup, later))
    else Decision([], [MarkCompleted(r.id, "delete completed", now)])
  }

  /** Dispatch on the phase. `r` already counts the current attempt. */
  function Handle(r: Record, s: Snapshot, now: Time, later: Time): Decision {
    match EffectivePhase(r)
    case Requested => Decision([], EnterPhase(r, QuiescingRuntime, later))
    case QuiescingRuntime => Quiesce(r, s, now, later)
    case DeletingStorage => DeleteStorage(r, s, now, later)
    case ForceCleanup => Force(r, s, now, later)
    case Verifying => Verify(r, s, now, later)
    case Completed => Decision([], [])
    case _ => Decision([], EnterPhase(r, Requested, later))
  }

  /** All the calls one pass makes when nothing fails. */
  function Plan(r: Record, s: Snapshot, now: Time, later: Time): seq<Action> {
    [Db(AttemptStmt(r, now))] + Actions(Handle(Attempted(r, now), s, now, later))
  }

  lemma PrependWrite(a: Action, done: seq<Action>, all: seq<Action>, w: World)
    requires a.Db? && done <= all
    ensures [a] + done <= [a] + all
    ensures ActAll([a] + done, w) == ActAll(done, Act(a, w))
    ensures Feasible([a] + done, w) <==> Feasible(done, Act(a, w))
    ensures Feasible([a] + all, w) <==> Feasible(all, Act(a, w))
  {
    assert ([a] + done)[1..] == done && ([a] + all)[1..] == all;
  }

  /** A pass is its first write followed by the handler's actions. */
  lemma PlanAfterAttempt(r: Record, s: Snapshot, now: Time, later: Time, done: seq<Action>, w: World)
    requires done <= Actions(Handle(Attempted(r, now), s, now, later))
    ensures var a := Db(AttemptStmt(r, now));
            && [a] + done <= Plan(r, s, now, later)
            && (done == Actions(Handle(Attempted(r, now), s, now, later)) ==> [a] + done == Plan(r, s, now, later))
            && ActAll([a] + done, w) == ActAll(done, Act(a, w))
            && (Feasible([a] + done, w) <==> Feasible(done, Act(a, w)))
            && (Feasible(Plan(r, s, now, later), w) <==>
                Feasible(Actions(Handle(Attempted(r, now), s, now, later)), Act(a, w)))
  {
    PrependWrite(Db(AttemptStmt(r, now)), done, Actions(Handle(Attempted(r, now), s, now, later)), w);
  }

  // ----- The service ------------------------------------------------------------------------

  class DeletionService {
    const store: SandboxStore
    const client: Client

    constructor (store: SandboxStore, client: Client)
      ensures this.store == store && this.client == client
    {
      this.store := store;
      this.client := client;
    }

    function Now(): World
      reads this, store, client
    {
      World(store.rows, client.View())
    }

    /** What every handler promises: it performed a prefix of its decision and nothing else, all of
        it when it reports success, and it does succeed when no call fails and none is refused. */
    twostate predicate Performed(d: Decision, done: seq<Action>, ok: bool)
      reads this, store, client
    {
      && done <= Actions(d)
      && (ok ==> done == Actions(d))
      && (store.reliable && client.reliable && Feasible(Actions(d), old(Now())) ==> ok)
      && Feasible(done, old(Now()))
      && Now() == ActAll(done, old(Now()))
    }

    /** `markReadyForImmediateRetry`. */
    method MarkReady(r: Record, later: Time) returns (ok: bool)
      modifies store
      ensures store.rows == if ok then Apply(ReadyNow(r, later), old(store.rows)) else old(store.rows)
      ensures store.reliable ==> ok
    {
      ok := store.Attempt(r.id, r.attempts, r.forceLevel, r.lastAttempt, Some(later), "", later);
    }

    /** `transitionPhase`. */
    method Transition(r: Record, p: Phase, later: Time) returns (ok: bool, ghost done: seq<Action>)
      modifies store
      ensures Performed(Decision([], EnterPhase(r, p, later)), done, ok)
    {
      done := [];
      ok := store.Advance(r.id, p, later);
      if !ok {
        return;
      }
      done := [Db(AdvancePhase(r.id, p, later))];
      ActAllSnoc([], Db(AdvancePhase(r.id, p, later)), old(Now()));
      ok := MarkReady(r, later);
      if ok {
        ActAllSnoc(done, Db(ReadyNow(r, later)), old(Now()));
        done := done + [Db(ReadyNow(r, later))];
      }
    }

    /** `bumpForceLevel`. */
    method Bump(r: Record, level: int, now: Time) returns (ok: bool)
      modifies store
      ensures store.rows == if ok then Apply(BumpLevel(r, level, now)[0], old(store.rows)) else old(store.rows)
      ensures store.reliable ==> ok
    {
      ok := store.Attempt(r.id, r.attempts, level, Some(now), Some(now), "", now);
    }

    /** `DeletePersistentSandbox`, appended to the calls already made by the caller. */
    method DeletePersistent(id: string, claim: string, policy: Policy, ghost before: seq<Action>, ghost w0: World)
      returns (ok: bool, ghost done: seq<Action>)
      requires Feasible(before, w0) && Now() == ActAll(before, w0)
      modifies client
      ensures Feasible(done, w0) && Now() == ActAll(done, w0)
      ensures before <= done <= before + Calls(DeleteSandboxOps(id, claim, policy))
      ensures ok ==> done == before + Calls(DeleteSandboxOps(id, claim, policy))
      ensures client.reliable ==> ok
      ensures store.rows == old(store.rows)
    {
      done := before;
      ok := client.RemoveDeployment(RuntimeName(id));
      if !ok {
        return;
      }
      ActAllSnoc(done, K8s(DeleteDeployment(RuntimeName(id))), w0);
      done := done + [K8s(DeleteDeployment(RuntimeName(id)))];
      if policy == Retain {
        return;
      }
      var name := if claim == "" then ClaimName(id) else claim;
      ok := client.RemovePvc(name);
      if ok {
        ActAllSnoc(done, K8s(DeletePvc(name)), w0);
        done := done + [K8s(DeletePvc(name))];
      }
    }

    method QuiesceRuntime(r: Record, s: Snapshot, now: Time, later: Time) returns (ok: bool, ghost done: seq<Action>)
      modifies store, client
      ensures Performed(Quiesce(r, s, now, later), done, ok)
    {
      ghost var w0 := Now();
      done := [];
      if r.persistent && s.deployment.Some? {
        ok, done := DeletePersistent(r.id, "", Retain, [], w0);
        if ok {
          ok := MarkReady(r, later);
          if ok {
            ActAllSnoc(done, Db(ReadyNow(r, later)), w0);
            done := done + [Db(ReadyNow(r, later))];
          }
        }
        return;
      }
      if !r.persistent && |s.pods| > 0 {
        ok := client.RemovePod(RuntimeName(r.id));
        if ok {
          ActAllSnoc(done, K8s(DeletePod(RuntimeName(r.id))), w0);
          done := [K8s(DeletePod(RuntimeName(r.id)))];
          ok := MarkReady(r, later);
          if ok {
            ActAllSnoc(done, Db(ReadyNow(r, later)), w0);
            done := done + [Db(ReadyNow(r, later))];
          }
        }
        return;
      }
      if |s.pods| > 0 {
        if Exceeded(r.startedAt, POD_DELETE_TIMEOUT, now) {
          ok, done := Transition(r, ForceCleanup, later);
        } else {
          ok := true;
        }
        return;
      }
      if r.persistent && r.policy != Retain && r.claim != "" && s.pvc.Some? {
        ok, done := Transition(r, DeletingStorage, later);
      } else {
        ok, done := Transition(r, Verifying, later);
      }
    }

    method DeleteVolume(r: Record, s: Snapshot, now: Time, later: Time) returns (ok: bool, ghost done: seq<Action>)
      modifies store, client
      ensures Performed(DeleteStorage(r, s, now, later), done, ok)
    {
      done := [];
      if s.pvc.None? {
        ok, done := Transition(r, Verifying, later);
      } else if |s.pods| > 0 {
        ok, done := Transition(r, ForceCleanup, later);
      } else if !s.pvc.value.deleting {
        ghost var w0 := Now();
        ok, done := DeletePersistent(r.id, r.claim, r.policy, [], w0);
        if ok {
          ok := MarkReady(r, later);
          if ok {
            ActAllSnoc(done, Db(ReadyNow(r, later)), w0);
            done := done + [Db(ReadyNow(r, later))];
          }
        }
      } else if Exceeded(r.startedAt, PVC_DELETE_TIMEOUT, now) {
        ok, done := Transition(r, ForceCleanup, later);
      } else {
        ok := true;
      }
    }

    /** Makes the same kind of call for every listed name, after the calls already made. */
    method RemoveAll(names: seq<string>, pods: bool, ghost before: seq<Action>, ghost w0: World)
      returns (ok: bool, ghost done: seq<Action>)
      requires Feasible(before, w0) && Now() == ActAll(before, w0)
      modifies client
      ensures Feasible(done, w0) && Now() == ActAll(done, w0)
      ensures before <= done <= before + Calls(if pods then ForceDeletePods(names) else DeleteAttachments(names))
      ensures ok ==> done == before + Calls(if pods then ForceDeletePods(names) else DeleteAttachments(names))
      ensures client.reliable ==> ok
    {
      ghost var ops := if pods then ForceDeletePods(names) else DeleteAttachments(names);
      done := before;
      ok := true;
      var i := 0;
      while i < |names|
        invariant 0 <= i <= |names|
        invariant done == before + Calls(ops)[..i]
        invariant Feasible(done, w0) && Now() == ActAll(done, w0)
        invariant ok
      {
        if pods {
          ok := client.ForceRemovePod(names[i]);
        } else {
          ok := client.RemoveAttachment(names[i]);
        }
        if !ok {
          return;
        }
        ActAllSnoc(done, K8s(ops[i]), w0);
        done := done + [K8s(ops[i])];
        i := i + 1;
      }
    }

    /** Level 0: force-delete every listed pod, then let go of a Deployment that is stuck deleting. */
    method ForceRuntime(r: Record, s: Snapshot, now: Time, later: Time) returns (ok: bool, ghost done: seq<Action>)
      requires r.forceLevel == 0
      modifies store, client
      ensures Performed(Force(r, s, now, later), done, ok)
    {
      ghost var w0 := Now();
      ghost var d := Force(r, s, now, later);
      ok, done := RemoveAll(s.pods, true, [], w0);
      assert Calls(ForceDeletePods(s.pods)) <= Actions(d);
      if !ok {
        return;
      }
      if s.deployment.Some? && s.deployment.value.deleting {
        ghost var a := K8s(StripDeployment(DeploymentKey(r), r.id));
        ok := client.ClearDeploymentFinalizers(DeploymentKey(r), r.id);
        if !ok {
          if Feasible(Actions(d), w0) {
            FeasibleNext(done, a, Actions(d), w0);
          }
          return;
        }
        ActAllSnoc(done, a, w0);
        done := done + [a];
      }
      ok := Bump(r, 1, now);
      if ok {
        ActAllSnoc(done, Db(BumpLevel(r, 1, now)[0]), w0);
        done := done + [Db(BumpLevel(r, 1, now)[0])];
      }
    }

    /** Level 1: let go of the claim, unless the policy or a remaining runtime forbids it. */
    method ForceClaim(r: Record, s: Snapshot, now: Time, later: Time) returns (ok: bool, ghost done: seq<Action>)
      requires r.forceLevel == 1
      modifies store, client
      ensures Performed(Force(r, s, now, later), done, ok)
    {
      ghost var w0 := Now();
      done := [];
      if MayForceDeletePvc(r, s) && Exceeded(r.startedAt, PVC_FORCE_CLEANUP_THRESHOLD, now) {
        ghost var a := K8s(StripPvc(ClaimKey(r), r.id));
        ok := client.ClearPvcFinalizers(ClaimKey(r), r.id);
        if !ok {
          if Feasible(Actions(Force(r, s, now, later)), w0) {
            FeasibleNext(done, a, Actions(Force(r, s, now, later)), w0);
          }
          return;
        }
        ActAllSnoc(done, a, w0);
        done := [a];
        assert Calls([StripPvc(ClaimKey(r), r.id)] + DeleteSandboxOps(r.id, r.claim, r.policy))
            == done + Calls(DeleteSandboxOps(r.id, r.claim, r.policy));
        ok, done := DeletePersistent(r.id, r.claim, r.policy, done, w0);
        if !ok {
          return;
        }
      }
      ok := Bump(r, 2, now);
      if ok {
        ActAllSnoc(done, Db(BumpLevel(r, 2, now)[0]), w0);
        done := done + [Db(BumpLevel(r, 2, now)[0])];
      }
    }

    /** `cleanupStorageAttachments`: the attachments first, then the volume. */
    method DropVolume(volume: string, claim: string, attachments: seq<string>)
      returns (ok: bool, ghost done: seq<Action>)
      modifies client
      ensures done <= VolumeCalls(volume, claim, attachments) &&
          (ok ==> done == VolumeCalls(volume, claim, attachments))
      ensures Feasible(done, old(Now())) && Now() == ActAll(done, old(Now()))
      ensures client.reliable && Feasible(VolumeCalls(volume, claim, attachments), old(Now())) ==> ok
    {
      ghost var w0 := Now();
      ghost var all := VolumeCalls(volume, claim, attachments);
      ghost var a, b := K8s(StripPv(volume, claim)), K8s(DeletePv(volume, claim));
      assert all == Calls(DeleteAttachments(attachments)) + [a] + [b];
      ok, done := RemoveAll(attachments, false, [], w0);
      if !ok {
        return;
      }
      ok := client.ClearPvFinalizers(volume, claim);
      if !ok {
        if Feasible(all, w0) {
          FeasibleNext(done, a, all, w0);
        }
        return;
      }
      ActAllSnoc(done, a, w0);
      done := done + [a];
      ok := client.RemovePv(volume, claim);
      if !ok {
        if Feasible(all, w0) {
          FeasibleNext(done, b, all, w0);
        }
        return;
      }
      ActAllSnoc(done, b, w0);
      done := done + [b];
    }

    /** Level 2: detach and remove the volume behind the claim. */
    method ForceStorage(r: Record, s: Snapshot, now: Time, later: Time) returns (ok: bool, ghost done: seq<Action>)
      requires r.forceLevel == 2
      requires s.pv.Some? ==> s.pvc.Some?
      modifies store, client
      ensures Performed(Force(r, s, now, later), done, ok)
    {
      ghost var w0 := Now();
      ghost var bump := Db(BumpLevel(r, 3, now)[0]);
      ghost var all := Actions(Force(r, s, now, later));
      done := [];
      if s.pv.Some? && Exceeded(r.startedAt, STORAGE_ATTACHMENT_CLEANUP_AFTER, now) {
        ghost var calls := VolumeCalls(s.pvc.value.volume, r.claim, s.attachments);
        assert all == calls + [bump];
        ActAllSnoc(calls, bump, w0);
        ok, done := DropVolume(s.pvc.value.volume, r.claim, s.attachments);
        if !ok {
          return;
        }
      }
      assert all == done + [bump];
      ok := Bump(r, 3, now);
      if ok {
        ActAllSnoc(done, bump, w0);
        done := done + [bump];
      }
    }

    method VerifyGone(r: Record, s: Snapshot, now: Time, later: Time) returns (ok: bool, ghost done: seq<Action>)
      modifies store, client
      ensures Performed(Verify(r, s, now, later), done, ok)
    {
      done := [];
      var residue: bool;
      if r.persistent {
        residue := s.deployment.Some? || |s.pods| > 0;
        if r.policy != Retain && s.pvc.Some? {
          residue := true;
        }
        if r.forceLevel >= 3 && (s.pv.Some? || |s.attachments| > 0) {
          residue := true;
        }
      } else {
        residue := |s.pods| > 0;
      }
      if residue {
        ok, done := Transition(r, ForceCleanup, later);
      } else {
        ok := store.Complete(r.id, "delete completed", now);
        if ok {
          ActAllSnoc([], Db(MarkCompleted(r.id, "delete completed", now)), old(Now()));
          done := [Db(MarkCompleted(r.id, "delete completed", now))];
        }
      }
    }

    /** Dispatch on the phase of an already counted attempt. */
    method HandlePhase(r: Record, s: Snapshot, now: Time, later: Time) returns (ok: bool, ghost done: seq<Action>)
      requires s.pv.Some? ==> s.pvc.Some?
      modifies store, client
      ensures Performed(Handle(r, s, now, later), done, ok)
    {
      done := [];
      var phase := if r.phase == Unset then Requested else r.phase;
      match phase
      case Requested => ok, done := Transition(r, QuiescingRuntime, later);
      case QuiescingRuntime => ok, done := QuiesceRuntime(r, s, now, later);
      case DeletingStorage => ok, done := DeleteVolume(r, s, now, later);
      case ForceCleanup =>
        if r.forceLevel == 0 {
          ok, done := ForceRuntime(r, s, now, later);
        } else if r.forceLevel == 1 {
          ok, done := ForceClaim(r, s, now, later);
        } else if r.forceLevel == 2 {
          ok, done := ForceStorage(r, s, now, later);
        } else {
          ok, done := Transition(r, Verifying, later);
        }
      case Verifying => ok, done := VerifyGone(r, s, now, later);
      case Completed => ok := true;
      case Other(_) => ok, done := Transition(r, Requested, later);
    }

    /** The rest of a pass once the attempt is counted and the cluster has been read. */
    method Carry(rec: Record, s: Snapshot, now: Time, later: Time, ghost w0: World)
      returns (ok: bool, ghost done: seq<Action>)
      requires s.pv.Some? ==> s.pvc.Some?
      requires Now() == Act(Db(AttemptStmt(rec, now)), w0)
      modifies store, client
      ensures done <= Plan(rec, s, now, later) && (ok ==> done == Plan(rec, s, now, later))
      ensures Feasible(done, w0) && Now() == ActAll(done, w0)
      ensures store.reliable && client.reliable && Feasible(Plan(rec, s, now, later), w0) ==> ok
    {
      var counted := Attempted(rec, now);
      ok, done := HandlePhase(counted, s, now, later);
      PlanAfterAttempt(rec, s, now, later, done, w0);
      done := [Db(AttemptStmt(rec, now))] + done;
    }

    /** `processSandbox`: one pass over a record read from the table. It performs a prefix of the
        plan for a snapshot of the cluster as it was found, and all of it when it succeeds; when no
        snapshot can be taken it only records the attempt, with the error text. */
    method ProcessSandbox(rec: Record, now: Time, later: Time, failure: string)
      returns (ok: bool, ghost snap: Option<Snapshot>, ghost done: seq<Action>)
      modifies store, client
      ensures Now() == ActAll(done, old(Now())) && Feasible(done, old(Now()))
      ensures snap.Some? ==>
          IsSnapshot(old(client.View()), rec, snap.value) && done <= Plan(rec, snap.value, now, later)
      ensures snap.Some? && ok ==> done == Plan(rec, snap.value, now, later)
      ensures snap.None? ==> !ok && done <= [Db(AttemptStmt(rec, now)), Db(AttemptStmt(rec, now).(err := failure))]
      ensures store.reliable && client.reliable ==>
                snap.Some? && (Feasible(Plan(rec, snap.value, now, later), old(Now())) ==> ok)
    {
      ghost var w0 := Now();
      ghost var first := Db(AttemptStmt(rec, now));
      snap := None;
      done := [];
      var retryAt := now + RetryDelay(rec.attempts);
      ok := store.Attempt(rec.id, rec.attempts + 1, rec.forceLevel, Some(now), Some(retryAt), "", now);
      if !ok {
        return;
      }
      ActAllSnoc([], first, w0);
      done := [first];
      var s := client.TakeSnapshot(rec);
      if s.None? {
        ok := store.Attempt(rec.id, rec.attempts + 1, rec.forceLevel, Some(now), Some(retryAt), failure, now);
        if ok {
          ActAllSnoc([first], Db(AttemptStmt(rec, now).(err := failure)), w0);
          done := [first, Db(AttemptStmt(rec, now).(err := failure))];
        }
        ok := false;
        return;
      }
      snap := s;
      ok, done := Carry(rec, s.value, now, later, w0);
    }
  }
}
