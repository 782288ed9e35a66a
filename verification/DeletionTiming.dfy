/** When a deletion pass waits, when it goes on and when it uses force, told in columns, calls and
    instants rather than in handlers. */
module DeletionTiming {
  import opened Base
  import opened Names
  import opened Store
  import opened Cluster
  import opened Deletion
  import opened DeletionRuns

  /** The cluster calls among some actions, in order. */
  function OpsOf(actions: seq<Action>): seq<Op> {
    if actions == [] then []
    else if actions[0].K8s? then [actions[0].op] + OpsOf(actions[1..])
    else OpsOf(actions[1..])
  }

  lemma {:induction false} OpsOfCalls(ops: seq<Op>, rest: seq<Action>)
    requires forall a :: a in rest ==> a.Db?
    ensures OpsOf(Calls(ops) + rest) == ops
  {
    var all := Calls(ops) + rest;
    if ops == [] {
      assert all == rest;
      OpsOfWrites(rest);
    } else {
      assert all[1..] == Calls(ops[1..]) + rest;
      OpsOfCalls(ops[1..], rest);
    }
  }

  lemma {:induction false} OpsOfWrites(xs: seq<Action>)
    requires forall a :: a in xs ==> a.Db?
    ensures OpsOf(xs) == []
  {
    if xs != [] {
      assert xs[0] in xs;
      OpsOfWrites(xs[1..]);
    }
  }

  /** A whole pass makes the handler's calls and leaves its last statement's row. */
  lemma WholePass(r: Record, p: Pass)
    requires Whole(r, p)
    ensures var d := Handle(Attempted(r, p.now), p.snap, p.now, p.later);
            && |d.stmts| <= 2 && OpsOf(Made(r, p)) == d.ops
            && AfterPass(r, p) == AfterStmts(d.stmts, |d.stmts|, Attempted(r, p.now))
  {
    var d := Handle(Attempted(r, p.now), p.snap, p.now, p.later);
    var j := PassOutcome(r, p);
    assert RowAfter(AttemptStmt(r, p.now), r) == Attempted(r, p.now);
    assert Made(r, p) == Intended(r, p);
    assert Intended(r, p)[1..] == Calls(d.ops) + Writes(d.stmts);
    OpsOfCalls(d.ops, Writes(d.stmts));
  }

  /** Before quiescing: a requested deletion, or one without a phase, starts to quiesce; an unknown phase
      is asked again; and a completed one is left alone. No call is made. */
  lemma EarlyOutcome(r: Record, p: Pass)
    requires Whole(r, p) && (r.phase in {Unset, Requested, Completed} || r.phase.Other?)
    ensures OpsOf(Made(r, p)) == []
    ensures AfterPass(r, p).phase ==
            match r.phase
            case Completed => Completed
            case Other(_) => Requested
            case _ => QuiescingRuntime
    ensures r.phase == Completed ==> AfterPass(r, p).lifecycle == r.lifecycle
    ensures r.phase != Completed ==> AfterPass(r, p).nextRetry == Some(p.later)
  {
    WholePass(r, p);
  }

  /** Quiescing. The Deployment goes first, an ordinary sandbox's pod at every pass that still sees
      one; pods left behind by a Deployment are waited for, and forced exactly from 45 seconds after
      the request on; storage comes next if there is any to delete, and checking otherwise. */
  lemma QuiescingOutcome(r: Record, p: Pass)
    requires Whole(r, p) && r.phase == QuiescingRuntime
    ensures var r', s := AfterPass(r, p), p.snap;
            var running := r.persistent && s.deployment.Some?;
            && (r'.phase == ForceCleanup <==>
                  && r.persistent && s.deployment.None? && s.pods != []
                  && r.startedAt.Some? && p.now - r.startedAt.value >= 45 * SECOND)
            && (r'.phase == DeletingStorage <==>
                  && r.persistent && s.deployment.None? && s.pods == []
                  && r.policy != Retain && r.claim != "" && s.pvc.Some?)
            && (r'.phase == Verifying <==>
                  && s.pods == [] && !running
                  && (r.persistent ==> r.policy == Retain || r.claim == "" || s.pvc.None?))
            && r'.phase in {QuiescingRuntime, ForceCleanup, DeletingStorage, Verifying}
            && r'.forceLevel == r.forceLevel && r'.lifecycle == r.lifecycle
    ensures OpsOf(Made(r, p)) ==
            if r.persistent && p.snap.deployment.Some? then [DeleteDeployment("sandbox-" + r.id)]
            else if !r.persistent && p.snap.pods != [] then [DeletePod("sandbox-" + r.id)]
            else []
  {
    QuiescingCalls(r, p);
    WholePass(r, p);
  }

  lemma QuiescingCalls(r: Record, p: Pass)
    requires Whole(r, p) && r.phase == QuiescingRuntime
    ensures OpsOf(Made(r, p)) ==
            if r.persistent && p.snap.deployment.Some? then [DeleteDeployment(RuntimeName(r.id))]
            else if !r.persistent && p.snap.pods != [] then [DeletePod(RuntimeName(r.id))]
            else []
  {
    WholePass(r, p);
  }

  /** Deleting storage. A claim that is not yet marked is deleted, again with the Deployment; a marked
      one is waited for, and forced exactly from 2 minutes after the request on. */
  lemma StorageOutcome(r: Record, p: Pass)
    requires Whole(r, p) && r.phase == DeletingStorage
    ensures var r', s := AfterPass(r, p), p.snap;
            && (r'.phase == Verifying <==> s.pvc.None?)
            && (r'.phase == ForceCleanup <==>
                  && s.pvc.Some?
                  && (s.pods != [] || (s.pvc.value.deleting && r.startedAt.Some? &&
                                       p.now - r.startedAt.value >= 120 * SECOND)))
            && r'.phase in {DeletingStorage, Verifying, ForceCleanup}
            && r'.forceLevel == r.forceLevel && r'.lifecycle == r.lifecycle
            && OpsOf(Made(r, p)) ==
                 if s.pvc.None? || s.pods != [] || s.pvc.value.deleting then []
                 else if r.policy == Retain then [DeleteDeployment("sandbox-" + r.id)]
                 else [DeleteDeployment("sandbox-" + r.id),
                       DeletePvc(if r.claim == "" then "sandbox-data-" + r.id else r.claim)]
  {
    WholePass(r, p);
  }

  /** Level 0 forces every pod that was seen, in the order seen, and then releases a Deployment that is
      stuck in deletion. */
  lemma PodsAreForced(r: Record, p: Pass)
    requires Whole(r, p) && r.phase == ForceCleanup && r.forceLevel == 0
    ensures var r', s, ops := AfterPass(r, p), p.snap, OpsOf(Made(r, p));
            && r'.phase == ForceCleanup && r'.forceLevel == 1
            && |ops| == |s.pods| + (if s.deployment.Some? && s.deployment.value.deleting then 1 else 0)
            && (forall i :: 0 <= i < |s.pods| ==> ops[i] == ForceDeletePod(s.pods[i]))
            && (|ops| > |s.pods| ==>
                  var name := if r.runtimeName == "" then "sandbox-" + r.id else r.runtimeName;
                  ops[|s.pods|] == StripDeployment(name, r.id))
  {
    WholePass(r, p);
  }

  /** Level 1 releases the claim exactly when it is there, is not retained, nothing runs any more, and
      the request is at least 5 minutes old. */
  lemma ClaimIsForced(r: Record, p: Pass)
    requires Whole(r, p) && r.phase == ForceCleanup && r.forceLevel == 1
    ensures var r', s, ops := AfterPass(r, p), p.snap, OpsOf(Made(r, p));
            && r'.phase == ForceCleanup && r'.forceLevel == 2
            && ops == if && s.pvc.Some? && r.claim != "" && r.policy != Retain
                         && s.pods == [] && s.deployment.None?
                         && r.startedAt.Some? && p.now - r.startedAt.value >= 300 * SECOND
                      then [StripPvc(r.claim, r.id), DeleteDeployment("sandbox-" + r.id), DeletePvc(r.claim)]
                      else []
  {
    assert ClaimName(r.id) != "";
    WholePass(r, p);
  }

  /** Level 2 detaches and removes the volume exactly when it is there and the request is at least 15
      minutes old, whatever the policy. */
  lemma VolumeIsForced(r: Record, p: Pass)
    requires Whole(r, p) && r.phase == ForceCleanup && r.forceLevel == 2 && (p.snap.pv.Some? ==> p.snap.pvc.Some?)
    ensures var r', s, ops := AfterPass(r, p), p.snap, OpsOf(Made(r, p));
            && r'.phase == ForceCleanup && r'.forceLevel == 3
            && (ops != [] <==> s.pv.Some? && r.startedAt.Some? && p.now - r.startedAt.value >= 900 * SECOND)
            && (ops != [] ==>
                  && |ops| == |s.attachments| + 2
                  && (forall i :: 0 <= i < |s.attachments| ==> ops[i] == DeleteAttachment(s.attachments[i]))
                  && ops[|s.attachments|] == StripPv(s.pvc.value.volume, r.claim)
                  && ops[|s.attachments| + 1] == DeletePv(s.pvc.value.volume, r.claim))
  {
    WholePass(r, p);
  }

  /** Checking completes the deletion exactly when nothing of the sandbox is seen; the volume and its
      attachments only count from level 3 on. */
  lemma CheckingOutcome(r: Record, p: Pass)
    requires Whole(r, p) && r.phase == Verifying
    ensures var r', s := AfterPass(r, p), p.snap;
            && (r'.phase == Completed <==>
                  && s.pods == []
                  && (r.persistent ==>
                        && s.deployment.None? && (s.pvc.None? || r.policy == Retain)
                        && (r.forceLevel >= 3 ==> s.pv.None? && s.attachments == [])))
            && (r'.phase == Completed ==>
                  r'.lifecycle == Deleted && r'.desired == WantDeleted && r'.deletedAt == Some(p.now))
            && (r'.phase != Completed ==> r'.phase == ForceCleanup && r'.lifecycle == r.lifecycle)
            && r'.forceLevel == r.forceLevel && OpsOf(Made(r, p)) == []
  {
    WholePass(r, p);
  }

  // ----- Over runs --------------------------------------------------------------------------

  lemma PassKeepsStart(r: Record, p: Pass)
    ensures r.startedAt.Some? ==> AfterPass(r, p).startedAt == r.startedAt
    ensures AfterPass(r, p).id == r.id && StaticOf(AfterPass(r, p)) == StaticOf(r)
  {
    if p.Blind? {
      BlindKeepsStatic(r, p);
    } else {
      var j := PassOutcome(r, p);
      HandlersOnlyMove(Attempted(r, p.now), p.snap, p.now, p.later);
    }
  }

  lemma BlindKeepsStatic(r: Record, p: Pass)
    requires p.Blind?
    ensures var r' := AfterPass(r, p); r'.id == r.id && StaticOf(r') == StaticOf(r) && r'.startedAt == r.startedAt
  {
    var a, b := AttemptStmt(r, p.now), AttemptStmt(r, p.now).(err := p.failure);
    if p.made == 0 {
      assert Made(r, p) == [];
    } else if p.made == 1 {
      assert Made(r, p) == [Db(a)];
      RowActOne(Db(a), r);
    } else {
      assert Made(r, p) == [Db(a), Db(b)];
      RowActTwo(a, b, r);
    }
  }

  predicate KeepsStart(r: Record, r': Record) {
    && (r.startedAt.Some? ==> r'.startedAt == r.startedAt)
    && r'.id == r.id && StaticOf(r') == StaticOf(r)
  }

  lemma {:induction false} KeptAlong(trace: seq<Record>, k: nat)
    requires k < |trace| && forall i :: 0 <= i < |trace| - 1 ==> KeepsStart(trace[i], trace[i + 1])
    ensures KeepsStart(trace[0], trace[k])
  {
    if k > 0 {
      KeptAlong(trace, k - 1);
      assert KeepsStart(trace[k - 1], trace[k - 1 + 1]);
    }
  }

  lemma StepKeepsStart(trace: seq<Record>, ps: seq<Pass>, i: nat)
    requires IsRun(trace, ps) && i < |ps|
    ensures KeepsStart(trace[i], trace[i + 1])
  {
    var _ := ps[i];
    PassKeepsStart(trace[i], ps[i]);
  }

  lemma StartIsKept(trace: seq<Record>, ps: seq<Pass>, k: nat)
    requires IsRun(trace, ps) && k <= |ps|
    ensures KeepsStart(trace[0], trace[k])
  {
    forall i | 0 <= i < |trace| - 1 ensures KeepsStart(trace[i], trace[i + 1]) {
      StepKeepsStart(trace, ps, i);
    }
    KeptAlong(trace, k);
  }

  /** A call that takes something away by force. */
  predicate Forceful(op: Op) {
    op.ForceDeletePod? || op.StripDeployment? || op.StripPvc? || op.StripPv? || op.DeletePv? || op.DeleteAttachment?
  }

  /** What must have passed since the request, and what must not be there any more, before a call of
      this kind may be made. */
  predicate Timely(op: Op, age: int, policy: Policy, s: Snapshot) {
    match op
    case StripPvc(_, _) => age >= 300 * SECOND && policy != Retain && s.pods == [] && s.deployment.None?
    case StripPv(_, _) => age >= 900 * SECOND
    case DeletePv(_, _) => age >= 900 * SECOND
    case DeleteAttachment(_) => age >= 900 * SECOND
    case _ => true
  }

  lemma {:induction false} OpsAreActions(actions: seq<Action>, op: Op)
    ensures op in OpsOf(actions) <==> K8s(op) in actions
  {
    if actions != [] {
      OpsAreActions(actions[1..], op);
      assert K8s(op) in actions <==> actions[0] == K8s(op) || K8s(op) in actions[1..];
    }
  }

  lemma HandlerIsTimely(r: Record, s: Snapshot, now: Time, later: Time, op: Op)
    requires op in Handle(r, s, now, later).ops && Forceful(op) && r.startedAt.Some?
    ensures r.phase == ForceCleanup && Timely(op, now - r.startedAt.value, r.policy, s)
  {
  }

  lemma MadeIsTimely(r: Record, p: Pass, op: Op)
    requires K8s(op) in Made(r, p) && Forceful(op) && r.startedAt.Some?
    ensures p.Sighted? && r.phase == ForceCleanup && Timely(op, p.now - r.startedAt.value, r.policy, p.snap)
  {
    assert K8s(op) in Intended(r, p);
    assert p.Sighted?;
    assert op in Handle(Attempted(r, p.now), p.snap, p.now, p.later).ops;
    HandlerIsTimely(Attempted(r, p.now), p.snap, p.now, p.later, op);
  }

  /** No force before its time: in every sequence of passes, broken off anywhere and over arbitrary
      views, a forceful call is made only in force cleanup; a claim is released only 5 minutes after
      the deletion was requested, unless retained, and with nothing running; and a volume or its
      attachments are touched only after 15 minutes. */
  lemma NoForceBeforeItsTime(trace: seq<Record>, ps: seq<Pass>, k: nat, op: Op)
    requires IsRun(trace, ps) && k < |ps| && trace[0].startedAt.Some?
    requires K8s(op) in Made(trace[k], ps[k]) && Forceful(op)
    ensures ps[k].Sighted? && trace[k].phase == ForceCleanup
    ensures Timely(op, ps[k].now - trace[0].startedAt.value, trace[0].policy, ps[k].snap)
  {
    StartIsKept(trace, ps, k);
    assert StaticOf(trace[k]).policy == trace[k].policy && StaticOf(trace[0]).policy == trace[0].policy;
    MadeIsTimely(trace[k], ps[k], op);
  }

  /** Force cleanup is entered from quiescing only 45 seconds, and from storage with no pod left only 2
      minutes, after the request, wherever the pass breaks off. */
  lemma NoEscalationBeforeItsTime(trace: seq<Record>, ps: seq<Pass>, k: nat)
    requires IsRun(trace, ps) && k < |ps| && trace[0].startedAt.Some?
    requires trace[k].phase in {QuiescingRuntime, DeletingStorage} && trace[k + 1].phase == ForceCleanup
    ensures ps[k].Sighted?
    ensures trace[k].phase == QuiescingRuntime ==> ps[k].now - trace[0].startedAt.value >= 45 * SECOND
    ensures trace[k].phase == DeletingStorage && ps[k].snap.pods == [] ==>
            ps[k].now - trace[0].startedAt.value >= 120 * SECOND
  {
    var _ := ps[k];
    StartIsKept(trace, ps, k);
    EscalationIsTimely(trace[k], ps[k]);
  }

  lemma EscalationIsTimely(r: Record, p: Pass)
    requires r.startedAt.Some? && r.phase in {QuiescingRuntime, DeletingStorage}
    requires AfterPass(r, p).phase == ForceCleanup
    ensures p.Sighted?
    ensures r.phase == QuiescingRuntime ==> p.now - r.startedAt.value >= 45 * SECOND
    ensures r.phase == DeletingStorage && p.snap.pods == [] ==> p.now - r.startedAt.value >= 120 * SECOND
  {
    if p.Blind? {
      BlindOutcome(r, p);
    } else {
      var j := PassOutcome(r, p);
    }
  }

  /** Pods that outlive their Deployment are gone for: from 45 seconds after the request on, two whole
      passes that see the same pods force-delete every one of them. */
  lemma StuckPodsAreForced(r: Record, p: Pass, q: Pass)
    requires r.phase == QuiescingRuntime && r.forceLevel == 0 && r.persistent
    requires r.startedAt.Some? && p.Sighted? && p.now - r.startedAt.value >= 45 * SECOND
    requires p.snap.deployment.None? && p.snap.pods != [] && q.Sighted? && q.snap.pods == p.snap.pods
    requires Whole(r, p) && Whole(AfterPass(r, p), q)
    ensures forall n :: n in p.snap.pods ==> K8s(ForceDeletePod(n)) in Made(AfterPass(r, p), q)
  {
    QuiescingOutcome(r, p);
    var r1 := AfterPass(r, p);
    PodsAreForced(r1, q);
    forall n | n in p.snap.pods ensures K8s(ForceDeletePod(n)) in Made(r1, q) {
      var i :| 0 <= i < |q.snap.pods| && q.snap.pods[i] == n;
      assert OpsOf(Made(r1, q))[i] == ForceDeletePod(n);
      OpsAreActions(Made(r1, q), ForceDeletePod(n));
    }
  }
}
