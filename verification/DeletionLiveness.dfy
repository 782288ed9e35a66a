/** In a cooperative cluster a deletion needs no force and no waiting. */
module DeletionLiveness {
  import opened Base
  import opened Names
  import opened Store
  import opened Cluster
  import opened Deletion
  import opened DeletionRuns
  import opened DeletionFrame

  function ApplyOps(ops: seq<Op>, c: State): State {
    if ops == [] then c else ApplyOps(ops[1..], ApplyOp(c, ops[0]))
  }

  lemma {:induction false} ClusterOfCalls(ops: seq<Op>, rest: seq<Action>, c: State)
    requires forall a :: a in rest ==> a.Db?
    ensures ClusterAct(Calls(ops) + rest, c) == ApplyOps(ops, c)
  {
    var all := Calls(ops) + rest;
    if ops == [] {
      assert all == rest;
      ClusterOfWrites(rest, c);
    } else {
      assert all[1..] == Calls(ops[1..]) + rest;
      ClusterOfCalls(ops[1..], rest, ApplyOp(c, ops[0]));
    }
  }

  lemma {:induction false} ClusterOfWrites(xs: seq<Action>, c: State)
    requires forall a :: a in xs ==> a.Db?
    ensures ClusterAct(xs, c) == c
  {
    if xs != [] {
      assert xs[0] in xs;
      ClusterOfWrites(xs[1..], c);
    }
  }

  /** The world one undisturbed pass leaves. */
  lemma PassResult(w: World, id: Id, s: Snapshot, now: Time, later: Time)
    requires id in w.rows && w.rows[id].id == id
    ensures var r := w.rows[id];
            var d := Handle(Attempted(r, now), s, now, later);
            && |d.stmts| <= 2
            && ActAll(Plan(r, s, now, later), w)
               == World(w.rows[id := AfterStmts(d.stmts, |d.stmts|, RowAfter(AttemptStmt(r, now), r))],
                   ApplyOps(d.ops, w.cluster))
  {
    var r := w.rows[id];
    var d := Handle(Attempted(r, now), s, now, later);
    var plan := Plan(r, s, now, later);
    PlanConcernsItsRow(r, s, now, later);
    PassSplits(plan, w, id);
    var p := Sighted(s, now, later, |plan|);
    assert Made(r, p) == plan;
    var j := PassOutcome(r, p);
    assert plan[1..] == Calls(d.ops) + Writes(d.stmts);
    ClusterOfCalls(d.ops, Writes(d.stmts), w.cluster);
  }

  // ----- A cooperative cluster --------------------------------------------------------------

  /** No Deployment, no pods: a Deployment's pods go with it. An ordinary sandbox has at most the
      pod that carries its own name. */
  predicate Tidy(c: State, r: Record) {
    if r.persistent then RuntimeName(r.id) !in c.deployments ==> PodsOf(c, r.id) == {}
    else PodsOf(c, r.id) <= {RuntimeName(r.id)}
  }

  predicate RuntimeLeaving(c: State, id: string) {
    RuntimeName(id) in c.deployments ==> c.deployments[RuntimeName(id)].deleting
  }

  predicate ClaimLeaving(c: State, id: string) {
    ClaimName(id) in c.pvcs ==> c.pvcs[ClaimName(id)].deleting
  }

  /** Between two passes: nothing of this sandbox comes back, and whatever was being deleted at the
      end of the pass is gone before the next one. The rest of the cluster is free. */
  predicate Cooperates(c: State, c': State, r: Record) {
    && Tidy(c', r)
    && (RuntimeLeaving(c, r.id) ==> RuntimeName(r.id) !in c'.deployments)
    && (ClaimLeaving(c, r.id) ==> ClaimName(r.id) !in c'.pvcs)
    && ClaimSettled(c', r.id)
    && (!r.persistent ==> forall n :: n in PodsOf(c', r.id) ==> n in PodsOf(c, r.id) && !c.pods[n].deleting)
  }

  /** Passes that are still needed. */
  function Left(r: Record, c: State): (n: nat)
    ensures n <= if r.persistent then 6 else 4
  {
    var pods := PodsOf(c, r.id) != {};
    var dep := RuntimeName(r.id) in c.deployments;
    var pvc := r.policy != Retain && ClaimName(r.id) in c.pvcs;
    match r.phase
    case Requested => if r.persistent then 6 else 4
    case QuiescingRuntime =>
      if r.persistent then (if dep then 5 else if pvc then 4 else 2)
      else if pods then 3 else 2
    case DeletingStorage => if ClaimName(r.id) in c.pvcs then 3 else 2
    case Verifying => 1
    case _ => 0
  }

  predicate ClaimSettled(c: State, id: string) {
    ClaimName(id) in c.pvcs ==> !c.pvcs[ClaimName(id)].deleting
  }

  /** Invariant of a cooperative deletion at the start of a pass. */
  predicate OnTrack(r: Record, c: State) {
    && WellNamed(r) && Tidy(c, r) && r.desired == WantDeleted && r.lifecycle != Deleted
    && r.forceLevel == 0
    && r.phase in {Requested, QuiescingRuntime, DeletingStorage, Verifying}
    && (r.phase == DeletingStorage ==> r.persistent && r.policy != Retain && ClaimSettled(c, r.id))
    && (r.phase in {DeletingStorage, Verifying} ==> (r.persistent ==> RuntimeName(r.id) !in c.deployments))
    && (r.phase == Verifying ==>
          if r.persistent then r.policy != Retain ==> ClaimName(r.id) !in c.pvcs else PodsOf(c, r.id) == {})
  }

  predicate Finished(r: Record) {
    r.phase == Completed && r.lifecycle == Deleted && r.forceLevel == 0
  }

  lemma PodsEmpty(c: State, r: Record, s: Snapshot)
    requires IsSnapshot(c, r, s)
    ensures s.pods == [] <==> PodsOf(c, r.id) == {}
  {
    if s.pods != [] {
      assert s.pods[0] in PodsOf(c, r.id);
    }
  }

  /** What the handler decides while on track, and what that does to the sandbox's own objects. */
  lemma OnTrackDecision(r: Record, c: State, s: Snapshot, now: Time, later: Time)
    requires OnTrack(r, c) && IsSnapshot(c, r, s)
    ensures var d := Handle(r, s, now, later);
            var dep, pvc := RuntimeName(r.id) in c.deployments, ClaimName(r.id) in c.pvcs;
            match r.phase
            case Requested => d == Decision([], EnterPhase(r, QuiescingRuntime, later))
            case QuiescingRuntime =>
              if r.persistent && dep then d == Decision([DeleteDeployment(RuntimeName(r.id))], [ReadyNow(r, later)])
              else if r.persistent then
                d == Decision([], EnterPhase(r, if r.policy != Retain && pvc then DeletingStorage else Verifying,
                                             later))
              else if PodsOf(c, r.id) != {} then d == Decision([DeletePod(RuntimeName(r.id))], [ReadyNow(r, later)])
              else d == Decision([], EnterPhase(r, Verifying, later))
            case DeletingStorage =>
              if pvc then d == Decision([DeleteDeployment(RuntimeName(r.id)), DeletePvc(ClaimName(r.id))],
                  [ReadyNow(r, later)])
              else d == Decision([], EnterPhase(r, Verifying, later))
            case _ => d == Decision([], [MarkCompleted(r.id, "delete completed", now)])
  {
    PodsEmpty(c, r, s);
    assert RuntimeName(r.id) != "" && ClaimName(r.id) != "";
  }

  /** After the pass's calls the targeted objects are gone or going. */
  lemma CallsTakeEffect(c: State, id: string)
    ensures ApplyOps([], c) == c
    ensures RuntimeLeaving(ApplyOps([DeleteDeployment(RuntimeName(id))], c), id)
    ensures ApplyOps([DeleteDeployment(RuntimeName(id))], c).pvcs == c.pvcs
    ensures var c' := ApplyOps([DeleteDeployment(RuntimeName(id)), DeletePvc(ClaimName(id))], c);
            ClaimLeaving(c', id) && RuntimeLeaving(c', id)
    ensures var c' := ApplyOps([DeletePod(RuntimeName(id))], c);
            && PodsOf(c', id) == PodsOf(c, id)
            && (RuntimeName(id) in c'.pods ==> c'.pods[RuntimeName(id)].deleting)
  {
    var a, b, p := DeleteDeployment(RuntimeName(id)), DeletePvc(ClaimName(id)), DeletePod(RuntimeName(id));
    assert ApplyOps([a][1..], ApplyOp(c, a)) == ApplyOp(c, a);
    assert ApplyOps([p][1..], ApplyOp(c, p)) == ApplyOp(c, p);
    assert [a, b][1..] == [b];
    assert ApplyOps([b][1..], ApplyOp(ApplyOp(c, a), b)) == ApplyOp(ApplyOp(c, a), b);
  }

  /** The row and the cluster one pass and the cluster's answer leave, against the row and cluster
      they started from: strictly closer, and due at once. */
  predicate Closer(r: Record, c: State, r': Record, c': State, later: Time) {
    && r'.id == r.id
    && Left(r', c') < Left(r, c)
    && (Finished(r') || (OnTrack(r', c') && r'.nextRetry == Some(later)))
  }

  lemma DecisionBringsCloser(r: Record, c: State, s: Snapshot, now: Time, later: Time, c': State)
    requires OnTrack(r, c) && IsSnapshot(c, r, s)
    requires Cooperates(ApplyOps(Handle(r, s, now, later).ops, c), c', r)
    ensures var ss := Handle(r, s, now, later).stmts;
            |ss| <= 2 && Closer(r, c, AfterStmts(ss, |ss|, r), c', later)
  {
    var d := Handle(r, s, now, later);
    if r.phase == QuiescingRuntime {
      QuiescingBringsCloser(r, c, s, now, later, c');
      return;
    }
    OnTrackDecision(r, c, s, now, later);
    CallsTakeEffect(c, r.id);
    var r' := AfterStmts(d.stmts, |d.stmts|, r);
  }

  lemma QuiescingBringsCloser(r: Record, c: State, s: Snapshot, now: Time, later: Time, c': State)
    requires OnTrack(r, c) && IsSnapshot(c, r, s) && r.phase == QuiescingRuntime
    requires Cooperates(ApplyOps(Handle(r, s, now, later).ops, c), c', r)
    ensures var ss := Handle(r, s, now, later).stmts;
            |ss| <= 2 && Closer(r, c, AfterStmts(ss, |ss|, r), c', later)
  {
    var d := Handle(r, s, now, later);
    OnTrackDecision(r, c, s, now, later);
    CallsTakeEffect(c, r.id);
    var r' := AfterStmts(d.stmts, |d.stmts|, r);
    if !r.persistent && PodsOf(c, r.id) != {} {
      var n :| n in PodsOf(c, r.id);
      assert n == RuntimeName(r.id);
      assert PodsOf(c', r.id) == {};
    }
  }

  /** One pass and the cluster's answer bring the deletion strictly closer, at force level 0, and
      leave it due at once. */
  lemma OneCooperativePass(w: World, id: Id, s: Snapshot, now: Time, later: Time, w': World)
    requires id in w.rows && w.rows[id].id == id && OnTrack(w.rows[id], w.cluster)
    requires IsSnapshot(w.cluster, w.rows[id], s)
    requires var mid := ActAll(Plan(w.rows[id], s, now, later), w);
             w'.rows == mid.rows && Cooperates(mid.cluster, w'.cluster, w.rows[id])
    ensures id in w'.rows && Closer(w.rows[id], w.cluster, w'.rows[id], w'.cluster, later)
  {
    var r := w.rows[id];
    PassResult(w, id, s, now, later);
    DecisionBringsCloser(Attempted(r, now), w.cluster, s, now, later, w'.cluster);
    assert RowAfter(AttemptStmt(r, now), r) == Attempted(r, now);
  }

  /** The worlds at the start of each pass of a deletion that runs undisturbed. */
  ghost predicate CooperativeRun(ws: seq<World>, snaps: seq<Snapshot>, clock: seq<(Time, Time)>, id: Id) {
    && |ws| == |snaps| + 1 == |clock| + 1
    && (forall i :: 0 <= i < |snaps| ==> id in ws[i].rows && ws[i].rows[id].id == id)
    && (forall i {:trigger snaps[i]} :: 0 <= i < |snaps| && !Finished(ws[i].rows[id]) ==>
          && IsSnapshot(ws[i].cluster, ws[i].rows[id], snaps[i])
          && var mid := ActAll(Plan(ws[i].rows[id], snaps[i], clock[i].0, clock[i].1), ws[i]);
             ws[i + 1].rows == mid.rows && Cooperates(mid.cluster, ws[i + 1].cluster, ws[i].rows[id]))
    && (forall i {:trigger clock[i].1} :: 0 <= i < |clock| - 1 ==> clock[i].1 <= clock[i + 1].0)
  }

  lemma PassBringsCloser(ws: seq<World>, snaps: seq<Snapshot>, clock: seq<(Time, Time)>, id: Id, i: nat)
    requires CooperativeRun(ws, snaps, clock, id)
    requires i < |snaps| && id in ws[i].rows && OnTrack(ws[i].rows[id], ws[i].cluster)
    ensures id in ws[i + 1].rows &&
        Closer(ws[i].rows[id], ws[i].cluster, ws[i + 1].rows[id], ws[i + 1].cluster, clock[i].1)
    ensures i + 1 < |clock| ==> clock[i].1 <= clock[i + 1].0
  {
    assert snaps[i] == snaps[i];
    OneCooperativePass(ws[i], id, snaps[i], clock[i].0, clock[i].1, ws[i + 1]);
  }

  /** Cooperative liveness: started from `requested`, a deletion of which the cluster removes what it
      is asked to remove is recorded as completed within 6 passes (4 for an ordinary sandbox), never
      leaves force level 0, and is due at the start of every pass on the way. */
  lemma {:induction false} CooperativeDeletionCompletes(
      ws: seq<World>, snaps: seq<Snapshot>, clock: seq<(Time, Time)>, id: Id, i: nat) returns (k: nat)
    requires CooperativeRun(ws, snaps, clock, id)
    requires i <= |snaps| && id in ws[i].rows && ws[i].rows[id].id == id && OnTrack(ws[i].rows[id], ws[i].cluster)
    requires i + Left(ws[i].rows[id], ws[i].cluster) <= |snaps|
    requires i < |clock| ==> PendingDeletion(ws[i].rows[id], clock[i].0)
    ensures i < k <= i + Left(ws[i].rows[id], ws[i].cluster)
    ensures id in ws[k].rows && Finished(ws[k].rows[id])
    ensures forall j :: i <= j < k ==>
        id in ws[j].rows && PendingDeletion(ws[j].rows[id], clock[j].0) && ws[j].rows[id].forceLevel == 0
    decreases Left(ws[i].rows[id], ws[i].cluster)
  {
    PassBringsCloser(ws, snaps, clock, id, i);
    assert ws[i].rows[id].forceLevel == 0;
    if Finished(ws[i + 1].rows[id]) {
      k := i + 1;
    } else {
      k := CooperativeDeletionCompletes(ws, snaps, clock, id, i + 1);
    }
  }

  /** The two bounds, from the moment the request is recorded. */
  lemma RequestedDeletionCompletes(ws: seq<World>, snaps: seq<Snapshot>, clock: seq<(Time, Time)>, id: Id)
    returns (k: nat)
    requires CooperativeRun(ws, snaps, clock, id)
    requires id in ws[0].rows && ws[0].rows[id].id == id && WellNamed(ws[0].rows[id]) &&
        Tidy(ws[0].cluster, ws[0].rows[id])
    requires ws[0].rows[id].phase == Requested && ws[0].rows[id].forceLevel == 0
    requires |snaps| == if ws[0].rows[id].persistent then 6 else 4
    requires PendingDeletion(ws[0].rows[id], clock[0].0)
    ensures k <= |snaps| && id in ws[k].rows && Finished(ws[k].rows[id])
    ensures forall j :: 0 <= j < k ==>
        id in ws[j].rows && PendingDeletion(ws[j].rows[id], clock[j].0) && ws[j].rows[id].forceLevel == 0
  {
    k := CooperativeDeletionCompletes(ws, snaps, clock, id, 0);
  }
}
