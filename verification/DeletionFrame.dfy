/** Which cluster objects a deletion pass can touch, and why every other sandbox keeps its own. */
module DeletionFrame {
  import opened Base
  import opened Names
  import opened Store
  import opened Cluster
  import opened Deletion
  import opened DeletionRuns

  /** The cluster part of a list of calls. */
  function ClusterAct(actions: seq<Action>, c: State): State {
    if actions == [] then c
    else ClusterAct(actions[1..], if actions[0].K8s? then ApplyOp(c, actions[0].op) else c)
  }

  /** A single-row statement for this id. */
  predicate Concerns(a: Action, id: Id) {
    a.Db? ==> !a.stmt.Insert? && !a.stmt.Purge? && a.stmt.id == id
  }

  lemma PlanConcernsItsRow(r: Record, s: Snapshot, now: Time, later: Time)
    ensures forall a :: a in Plan(r, s, now, later) ==> Concerns(a, r.id)
  {
  }

  /** The row view and the cluster view of a pass together are the pass: what the service performs
      on the world is exactly `RowAct` on its own row and `ClusterAct` on the cluster. */
  lemma {:induction false} PassSplits(actions: seq<Action>, w: World, id: Id)
    requires id in w.rows && forall a :: a in actions ==> Concerns(a, id)
    ensures ActAll(actions, w) == World(w.rows[id := RowAct(actions, w.rows[id])], ClusterAct(actions, w.cluster))
  {
    if actions == [] {
      assert w.rows[id := w.rows[id]] == w.rows;
    } else {
      var a := actions[0];
      assert a in actions;
      var next := Act(a, w);
      PassSplits(actions[1..], next, id);
      if a.Db? {
        assert next.rows == w.rows[id := RowAfter(a.stmt, w.rows[id])];
        var x := RowAct(actions[1..], next.rows[id]);
        assert next.rows[id := x] == w.rows[id := x];
      }
    }
  }

  // ----- Footprints -------------------------------------------------------------------------

  predicate NamesOrLabels(name: string, pod: Pod, id: string) {
    name == RuntimeName(id) || (pod.labels.app && pod.labels.sandboxId == id)
  }

  predicate Claims(pv: Pv, claim: string) {
    pv.claimRef == Some(ClaimRef(true, claim))
  }

  /** The name of the volume the record's claim is bound to. */
  function VolumeOf(c: State, r: Record): Option<string> {
    if r.persistent && r.claim in c.pvcs && c.pvcs[r.claim].volume != "" then Some(c.pvcs[r.claim].volume) else None
  }

  ghost predicate DeploymentsKept(d: map<string, Deployment>, d': map<string, Deployment>, id: string) {
    && (forall n :: n in d' ==> n in d)
    && (forall n :: n in d && n != RuntimeName(id) ==> n in d' && d'[n] == d[n])
  }

  ghost predicate PodsKept(p: map<string, Pod>, p': map<string, Pod>, id: string) {
    && (forall n :: n in p' ==> n in p && p'[n].labels == p[n].labels)
    && (forall n :: n in p && !NamesOrLabels(n, p[n], id) ==> n in p' && p'[n] == p[n])
  }

  ghost predicate ClaimsKept(p: map<string, Pvc>, p': map<string, Pvc>, id: string) {
    && (forall n :: n in p' ==> n in p)
    && (forall n :: n in p && n != ClaimName(id) ==> n in p' && p'[n] == p[n])
  }

  ghost predicate VolumesKept(v: map<string, Pv>, v': map<string, Pv>, id: string) {
    && (forall n :: n in v' ==> n in v && v'[n].claimRef == v[n].claimRef)
    && (forall n :: n in v && !Claims(v[n], ClaimName(id)) ==> n in v' && v'[n] == v[n])
  }

  ghost predicate AttachmentsKept(a: map<string, Attachment>, a': map<string, Attachment>, volume: Option<string>) {
    && (forall n :: n in a' ==> n in a && a'[n] == a[n])
    && (forall n :: n in a && (volume.None? || a[n].pv != volume) ==> n in a')
  }

  /** Everything outside the footprint is as it was, nothing appears, and what remains keeps its
      labels and claim reference. */
  ghost predicate OnlyTouches(c: State, c': State, r: Record) {
    && DeploymentsKept(c.deployments, c'.deployments, r.id)
    && PodsKept(c.pods, c'.pods, r.id)
    && ClaimsKept(c.pvcs, c'.pvcs, r.id)
    && VolumesKept(c.pvs, c'.pvs, r.id)
    && AttachmentsKept(c.attachments, c'.attachments, VolumeOf(c, r))
  }

  /** A call aimed at the footprint, as seen in the state the snapshot was taken in. */
  predicate Aimed(c: State, r: Record, op: Op) {
    match op
    case DeleteDeployment(n) => n == RuntimeName(r.id)
    case StripDeployment(n, _) => n == RuntimeName(r.id)
    case DeletePod(n) => n in c.pods ==> NamesOrLabels(n, c.pods[n], r.id)
    case ForceDeletePod(n) => n in c.pods ==> NamesOrLabels(n, c.pods[n], r.id)
    case DeletePvc(n) => n == ClaimName(r.id)
    case StripPvc(n, _) => n == ClaimName(r.id)
    case StripPv(_, claim) => claim == ClaimName(r.id)
    case DeletePv(_, claim) => claim == ClaimName(r.id)
    case DeleteAttachment(n) => n in c.attachments ==> VolumeOf(c, r).Some? && c.attachments[n].pv == VolumeOf(c, r)
  }

  lemma VolumeCallStaysInside(v: map<string, Pv>, mid: map<string, Pv>, id: string, op: Op)
    requires VolumesKept(v, mid, id)
    requires (op.DeletePv? || op.StripPv?) && op.claim == ClaimName(id)
    ensures VolumesKept(v, PvsAfter(mid, op), id)
  {
  }

  lemma AimedCallStaysInside(c: State, mid: State, r: Record, op: Op)
    requires OnlyTouches(c, mid, r) && Aimed(c, r, op)
    ensures OnlyTouches(c, ApplyOp(mid, op), r)
  {
    match op {
      case DeletePv(_, _) => VolumeCallStaysInside(c.pvs, mid.pvs, r.id, op);
      case StripPv(_, _) => VolumeCallStaysInside(c.pvs, mid.pvs, r.id, op);
      case _ =>
    }
  }

  lemma PlanIsAimed(c: State, r: Record, s: Snapshot, now: Time, later: Time)
    requires WellNamed(r) && IsSnapshot(c, r, s)
    ensures forall a :: a in Plan(r, s, now, later) && a.K8s? ==> Aimed(c, r, a.op)
  {
    var q := Attempted(r, now);
    var d := Handle(q, s, now, later);
    forall op | op in d.ops ensures Aimed(c, r, op) {
      HandlerIsAimed(c, q, s, now, later, op);
    }
    forall a | a in Plan(r, s, now, later) && a.K8s? ensures Aimed(c, r, a.op) {
      assert a.op in d.ops;
    }
  }

  lemma HandlerIsAimed(c: State, r: Record, s: Snapshot, now: Time, later: Time, op: Op)
    requires WellNamed(r) && IsSnapshot(c, r, s) && op in Handle(r, s, now, later).ops
    ensures Aimed(c, r, op)
  {
    assert RuntimeName(r.id) != "" && ClaimName(r.id) != "";
    match op {
      case ForceDeletePod(n) => assert n in s.pods;
      case DeleteAttachment(n) => assert n in s.attachments;
      case _ =>
    }
  }

  lemma {:induction false} AimedCallsStayInside(actions: seq<Action>, c: State, mid: State, r: Record)
    requires OnlyTouches(c, mid, r)
    requires forall a :: a in actions && a.K8s? ==> Aimed(c, r, a.op)
    ensures OnlyTouches(c, ClusterAct(actions, mid), r)
  {
    if actions != [] {
      var a := actions[0];
      assert a in actions;
      if a.K8s? {
        AimedCallStaysInside(c, mid, r, a.op);
        AimedCallsStayInside(actions[1..], c, ApplyOp(mid, a.op), r);
      } else {
        AimedCallsStayInside(actions[1..], c, mid, r);
      }
    }
  }

  /** Frame of a deletion pass: in any phase, at any level and clock, and wherever it breaks off, a
      pass over a record touches only the objects that carry the record's name or label, the volume
      whose claim reference is its claim, and the attachments of the volume its claim names. */
  lemma PassTouchesOnlyItsOwn(c: State, r: Record, p: Pass)
    requires p.Sighted? && WellNamed(r) && IsSnapshot(c, r, p.snap)
    ensures OnlyTouches(c, ClusterAct(Made(r, p), c), r)
  {
    PlanIsAimed(c, r, p.snap, p.now, p.later);
    forall a | a in Made(r, p) && a.K8s? ensures Aimed(c, r, a.op) {
      assert a in Intended(r, p);
    }
    AimedCallsStayInside(Made(r, p), c, c, r);
  }

  // ----- Other sandboxes --------------------------------------------------------------------

  /** Pods carry the name their owner gave them. */
  ghost predicate PodsWellNamed(c: State) {
    forall n :: n in c.pods && c.pods[n].labels.app ==>
      |c.pods[n].labels.sandboxId| == 8 && IsPodNameOf(n, c.pods[n].labels.sandboxId)
  }

  predicate SameRuntimeAndClaim(c: State, c': State, id: Id) {
    && Lookup(c'.deployments, RuntimeName(id)) == Lookup(c.deployments, RuntimeName(id))
    && Lookup(c'.pvcs, ClaimName(id)) == Lookup(c.pvcs, ClaimName(id))
    && PodsOf(c', id) == PodsOf(c, id)
    && (forall n :: n in PodsOf(c, id) ==> c'.pods[n] == c.pods[n])
  }

  predicate SameVolumes(c: State, c': State, id: Id) {
    forall n :: n in c.pvs && Claims(c.pvs[n], ClaimName(id)) ==> n in c'.pvs && c'.pvs[n] == c.pvs[n]
  }

  predicate AttachedFor(c: State, n: string, id: Id)
    requires n in c.attachments
  {
    var pv := c.attachments[n].pv;
    pv.Some? && pv.value in c.pvs && Claims(c.pvs[pv.value], ClaimName(id))
  }

  /** The claim of the record names a volume that another sandbox claims. */
  predicate Misbound(c: State, r: Record, other: Id) {
    var v := VolumeOf(c, r);
    v.Some? && v.value in c.pvs && Claims(c.pvs[v.value], ClaimName(other))
  }

  /** The attachments of the volumes claimed by a sandbox. */
  predicate SameAttachments(c: State, c': State, id: Id) {
    forall n :: n in c.attachments && AttachedFor(c, n, id) ==> n in c'.attachments
  }

  /** Every other sandbox keeps its Deployment, claim, pods and volumes, whatever the cluster looks
      like; it keeps its attachments as long as the claim being deleted is not bound to a volume that
      another sandbox claims. */
  lemma OtherSandboxesUntouched(c: State, r: Record, p: Pass, other: Id)
    requires p.Sighted? && WellNamed(r) && IsSnapshot(c, r, p.snap) && PodsWellNamed(c)
    requires other != r.id
    ensures var c' := ClusterAct(Made(r, p), c);
            && SameRuntimeAndClaim(c, c', other)
            && SameVolumes(c, c', other)
            && (!Misbound(c, r, other) ==> SameAttachments(c, c', other))
  {
    PassTouchesOnlyItsOwn(c, r, p);
    FrameExcludesOthers(c, ClusterAct(Made(r, p), c), r, other);
  }

  lemma FrameExcludesOthers(c: State, c': State, r: Record, other: Id)
    requires OnlyTouches(c, c', r) && PodsWellNamed(c) && other != r.id
    ensures SameRuntimeAndClaim(c, c', other) && SameVolumes(c, c', other)
    ensures !Misbound(c, r, other) ==> SameAttachments(c, c', other)
  {
    RuntimeNameInjective(other, r.id);
    ClaimNameInjective(other, r.id);
    PodNameDeterminesOwner(r.id, other);
    forall n | n in PodsOf(c, other) ensures n in c'.pods && c'.pods[n] == c.pods[n] {
      assert !NamesOrLabels(n, c.pods[n], r.id);
    }
  }

  // ----- Which attachments go ---------------------------------------------------------------

  /** The branch that deletes attachments: force level 2, once the cleanup delay is over. */
  predicate Detaches(r: Record, now: Time) {
    && r.persistent && r.phase == ForceCleanup && r.forceLevel == 2
    && Exceeded(r.startedAt, STORAGE_ATTACHMENT_CLEANUP_AFTER, now)
  }

  /** The attachments a pass got to: in the order of its snapshot, one per call after its first write. */
  function Detached(r: Record, p: Pass): seq<string>
    requires p.Sighted?
  {
    if !Detaches(r, p.now) || p.made == 0 then []
    else if p.made - 1 <= |p.snap.attachments| then p.snap.attachments[..p.made - 1]
    else p.snap.attachments
  }

  /** Calls make an attachment go only by deleting it, and nothing brings it back. */
  lemma {:induction false} AttachmentSurvivesIff(actions: seq<Action>, c: State, n: string)
    ensures n in ClusterAct(actions, c).attachments <==> n in c.attachments && K8s(DeleteAttachment(n)) !in actions
  {
    if actions != [] {
      var a := actions[0];
      AttachmentSurvivesIff(actions[1..], if a.K8s? then ApplyOp(c, a.op) else c, n);
      assert K8s(DeleteAttachment(n)) in actions <==>
          a == K8s(DeleteAttachment(n)) || K8s(DeleteAttachment(n)) in actions[1..];
    }
  }

  /** No other branch deletes attachments. */
  lemma OnlyDetachingDetaches(c: State, r: Record, s: Snapshot, now: Time, later: Time, n: string)
    requires IsSnapshot(c, r, s) && K8s(DeleteAttachment(n)) in Plan(r, s, now, later)
    ensures Detaches(r, now) && s.pv.Some? && s.pvc.Some?
  {
    assert DeleteAttachment(n) in Handle(Attempted(r, now), s, now, later).ops;
  }

  lemma DetachingPlan(r: Record, s: Snapshot, now: Time, later: Time)
    requires Detaches(r, now) && s.pv.Some? && s.pvc.Some?
    ensures var all := Plan(r, s, now, later);
            && |all| > 1 + |s.attachments|
            && (forall i :: 0 <= i < |s.attachments| ==> all[1 + i] == K8s(DeleteAttachment(s.attachments[i])))
            && (forall i :: 0 <= i < |all| && !(1 <= i <= |s.attachments|) ==>
                !(all[i].K8s? && all[i].op.DeleteAttachment?))
  {
    var d := Handle(Attempted(r, now), s, now, later);
    var n := |s.attachments|;
    assert |d.ops| == n + 2 && (forall i :: 0 <= i < n ==> d.ops[i] == DeleteAttachment(s.attachments[i]))
        && !d.ops[n].DeleteAttachment? && !d.ops[n + 1].DeleteAttachment?;
    PlanPositions(d, Db(AttemptStmt(r, now)), s.attachments);
  }

  lemma PlanPositions(d: Decision, first: Action, attachments: seq<string>)
    requires first.Db? && |d.ops| == |attachments| + 2
    requires forall i :: 0 <= i < |attachments| ==> d.ops[i] == DeleteAttachment(attachments[i])
    requires !d.ops[|attachments|].DeleteAttachment? && !d.ops[|attachments| + 1].DeleteAttachment?
    ensures var all := [first] + Actions(d);
            && |all| > 1 + |attachments|
            && (forall i :: 0 <= i < |attachments| ==> all[1 + i] == K8s(DeleteAttachment(attachments[i])))
            && (forall i :: 0 <= i < |all| && !(1 <= i <= |attachments|) ==>
                !(all[i].K8s? && all[i].op.DeleteAttachment?))
  {
    var all, n := [first] + Actions(d), |attachments|;
    assert Actions(d) == Calls(d.ops) + Writes(d.stmts);
    forall i | 1 <= i < |all| ensures all[i] == if i <= n + 2 then K8s(d.ops[i - 1]) else Db(d.stmts[i - n - 3]) {
      assert all[i] == Actions(d)[i - 1];
    }
  }

  /** A prefix of a list in which the attachments stand from the second place on contains the calls for
      a prefix of them. */
  lemma CalledAt(all: seq<Action>, made: seq<Action>, attachments: seq<string>, detached: seq<string>, n: string)
    requires |all| > 1 + |attachments| && made <= all && detached <= attachments
    requires |detached| == if |made| == 0 then 0 else if |made| - 1 <= |attachments| then |made| - 1 else |attachments|
    requires forall i :: 0 <= i < |attachments| ==> all[1 + i] == K8s(DeleteAttachment(attachments[i]))
    requires forall i :: 0 <= i < |all| && !(1 <= i <= |attachments|) ==>
        !(all[i].K8s? && all[i].op.DeleteAttachment?)
    ensures K8s(DeleteAttachment(n)) in made <==> n in detached
  {
    var call := K8s(DeleteAttachment(n));
    if call in made {
      var i :| 0 <= i < |made| && made[i] == call;
      assert all[i] == call && n == attachments[i - 1];
      assert detached[i - 1] == n;
    }
    if n in detached {
      var i :| 0 <= i < |detached| && detached[i] == n;
      assert made[1 + i] == all[1 + i] == call;
    }
  }

  lemma DetachedAreCalled(c: State, r: Record, p: Pass, n: string)
    requires p.Sighted? && IsSnapshot(c, r, p.snap)
    ensures K8s(DeleteAttachment(n)) in Made(r, p) <==> n in Detached(r, p)
  {
    if Detaches(r, p.now) && p.snap.pv.Some? && p.snap.pvc.Some? {
      DetachingPlan(r, p.snap, p.now, p.later);
      CalledAt(Plan(r, p.snap, p.now, p.later), Made(r, p), p.snap.attachments, Detached(r, p), n);
    } else if K8s(DeleteAttachment(n)) in Made(r, p) {
      assert K8s(DeleteAttachment(n)) in Plan(r, p.snap, p.now, p.later);
      OnlyDetachingDetaches(c, r, p.snap, p.now, p.later, n);
    }
  }

  /** The exact loss, whoever the attachments belong to and wherever the pass breaks off. */
  lemma DetachedExactly(c: State, r: Record, p: Pass, n: string)
    requires p.Sighted? && IsSnapshot(c, r, p.snap) && n in c.attachments
    ensures n in ClusterAct(Made(r, p), c).attachments <==> n !in Detached(r, p)
  {
    AttachmentSurvivesIff(Made(r, p), c, n);
    DetachedAreCalled(c, r, p, n);
  }

  /** When exactly a pass costs another sandbox an attachment: when it got to at least one attachment
      call of a record whose claim is bound to a volume of that sandbox. */
  lemma OthersLoseAttachmentsIff(c: State, r: Record, p: Pass, other: Id)
    requires p.Sighted? && WellNamed(r) && IsSnapshot(c, r, p.snap)
    ensures SameAttachments(c, ClusterAct(Made(r, p), c), other) <==>
            !(Misbound(c, r, other) && Detaches(r, p.now) && p.snap.attachments != [] && p.made >= 2)
  {
    var c' := ClusterAct(Made(r, p), c);
    assert ClaimName(r.id) != "";
    forall n | n in c.attachments && AttachedFor(c, n, other) && n !in c'.attachments
      ensures Misbound(c, r, other) && Detached(r, p) != []
    {
      DetachedExactly(c, r, p, n);
      assert n in p.snap.attachments;
    }
    if Misbound(c, r, other) && Detaches(r, p.now) && p.snap.attachments != [] && p.made >= 2 {
      var n := p.snap.attachments[0];
      assert n == Detached(r, p)[0] && n in p.snap.attachments;
      DetachedExactly(c, r, p, n);
    }
  }

  /** The whole loss: a pass whose claim names a volume that another sandbox claims removes all of that
      volume's attachments, because the provenance check comes only after them; it then fails. */
  lemma MisboundClaimLosesAttachments(c: State, r: Record, p: Pass, other: Id)
    requires p.Sighted? && WellNamed(r) && IsSnapshot(c, r, p.snap) && other != r.id
    requires Detaches(r, p.now) && Misbound(c, r, other)
    requires p.made == 1 + |p.snap.attachments|
    ensures var c' := ClusterAct(Made(r, p), c);
            && (forall n :: n in AttachmentsOf(c, VolumeOf(c, r).value) ==> n !in c'.attachments)
            && (AttachmentsOf(c, VolumeOf(c, r).value) != {} ==> !SameAttachments(c, c', other))
            && !Allowed(c', StripPv(VolumeOf(c, r).value, r.claim))
  {
    var v := VolumeOf(c, r).value;
    var q := Attempted(r, p.now);
    var d := Handle(q, p.snap, p.now, p.later);
    assert ClaimName(r.id) != "";
    assert d.ops == DeleteAttachments(p.snap.attachments) + [StripPv(v, r.claim), DeletePv(v, r.claim)];
    var first := [Db(AttemptStmt(r, p.now))];
    var dels := Calls(DeleteAttachments(p.snap.attachments));
    assert Made(r, p) == first + dels;
    assert (first + dels)[1..] == dels;
    DeletesAll(p.snap.attachments, c);
    ClaimNameInjective(other, r.id);
  }

  lemma {:induction false} DeletesAll(names: seq<string>, c: State)
    ensures ClusterAct(Calls(DeleteAttachments(names)), c)
         == c.(attachments := map n | n in c.attachments && n !in names :: c.attachments[n])
  {
    if names == [] {
    } else {
      var calls := Calls(DeleteAttachments(names));
      assert calls[1..] == Calls(DeleteAttachments(names[1..]));
      DeletesAll(names[1..], c.(attachments := c.attachments - {names[0]}));
      assert forall n :: n in names <==> n == names[0] || n in names[1..];
    }
  }
}
