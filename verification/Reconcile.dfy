/** The reconciler: what one look at a row and its cluster objects leads to, and the pass that
    does this for every row. */
module Reconcile {
  import opened Base
  import opened Text
  import opened Names
  import opened Store
  import opened Cluster
  import opened Startup
  import opened Deletion
  import opened DeletionRuns

  const LOST_GRACE_PERIOD: int := 10 * MINUTE

  const POD_GONE := "reconcile: pod not found"
  const RUNTIME_GONE := "reconcile: persistent runtime not found"
  const POD_LOST := "reconcile: pod missing beyond grace period"
  const RUNTIME_LOST := "reconcile: persistent runtime missing beyond grace period"

  function PodStatus(p: Pod): Lifecycle {
    if p.deleting then Terminating
    else match p.phase
      case PhasePending => Pending
      case PhaseRunning => Running
      case PhaseSucceeded => Succeeded
      case PhaseFailed => Failed
      case _ => Unknown
  }

  function MissingSince(r: Record): Time {
    if r.lastSeen.Some? then r.lastSeen.value else r.createdAt
  }

  predicate BeyondGrace(r: Record, now: Time) {
    Sub(now, MissingSince(r)) >= LOST_GRACE_PERIOD
  }

  /** The calls made for a row, and whether it counts as drifted and as fixed when they succeed. */
  datatype Remedy = Remedy(actions: seq<Action>, drifted: bool, fixed: bool)

  const NOTHING := Remedy([], false, false)

  /** A row none of whose objects can be found. */
  function Missing(r: Record, gone: string, lost: string, countStopped: bool, now: Time): Remedy {
    match r.lifecycle
    case Terminating => Remedy([Db(MarkCompleted(r.id, gone, now))], true, true)
    case Deleted => Remedy([], true, false)
    case Stopped => Remedy([], countStopped, false)
    case _ =>
      if BeyondGrace(r, now) then Remedy([Db(UpdateStatusIfActive(r.id, Lost, lost, now))], true, IsLive(r))
      else Remedy([], true, false)
  }

  /** An ordinary sandbox, with the last pod listed under its label. */
  function ReconcileOrdinary(r: Record, pod: Option<Pod>, now: Time): Remedy {
    if r.desired == WantDeleted then Remedy([], pod.Some? || r.lifecycle != Deleted, false)
    else if pod.None? then Missing(r, POD_GONE, POD_LOST, true, now)
    else
      var p := pod.value;
      if r.podUid != p.uid || r.podPhase != p.phase || r.podIp != p.ip || r.lifecycle != PodStatus(p) then
        Remedy([Db(UpdateObservedIfActive(r.id, p.uid, p.phase, p.ip, PodStatus(p), "", now))], true, IsLive(r))
      else NOTHING
  }

  /** A scaled-down Deployment is believed only if the row also remembers a stop. */
  predicate TreatAsStopped(r: Record, s: Sighting) {
    s.deployment.Some? && (r.lifecycle == Stopped || r.stoppedAt.Some?) && s.deployment.value.replicas == Some(0)
  }

  function StoppedReason(reason: string): string {
    if TrimSpace(reason) == "" then "stopped by request" else TrimSpace(reason)
  }

  lemma StoppedReasonSettles(reason: string)
    ensures StoppedReason(StoppedReason(reason)) == StoppedReason(reason)
  {
    TrimSpaceTrims(reason);
    TrimSpaceTrims("stopped by request");
    assert Trimmed("stopped by request");
  }

  predicate StoppedMismatch(r: Record) {
    r.lifecycle != Stopped || r.reason != StoppedReason(r.reason) || r.podUid != "" || r.podPhase != PhaseNone ||
        r.podIp != ""
  }

  function BackfillStop(r: Record, now: Time): seq<Action> {
    if r.stoppedAt.None? then [Db(EnsureStoppedAt(r.id, now))] else []
  }

  function RemoveLeftover(pod: Option<NamedPod>): seq<Action> {
    if pod.Some? then [K8s(DeletePod(pod.value.name))] else []
  }

  function RestoreStopped(r: Record, now: Time): seq<Action> {
    if StoppedMismatch(r)
    then [Db(UpdateObservedIfActive(r.id, "", PhaseNone, "", Stopped, StoppedReason(r.reason), now))] else []
  }

  function ReconcileStopped(r: Record, pod: Option<NamedPod>, now: Time): Remedy {
    Remedy(BackfillStop(r, now) + RemoveLeftover(pod) + RestoreStopped(r, now),
           r.stoppedAt.None? || pod.Some? || StoppedMismatch(r),
           r.stoppedAt.None? || pod.Some? || (StoppedMismatch(r) && IsLive(r)))
  }

  predicate PodFieldsDiffer(r: Record, p: Pod) {
    r.podUid != p.uid || r.podPhase != p.phase || r.podIp != p.ip
  }

  /** Writes the classified status, with the pod's fields when there is a pod. */
  function WriteStatusOf(r: Record, pod: Option<NamedPod>, status: Lifecycle, why: string, now: Time): Remedy {
    var a := if pod.Some?
      then UpdateObservedIfActive(r.id, pod.value.pod.uid, pod.value.pod.phase, pod.value.pod.ip, status, why, now)
      else UpdateStatusIfActive(r.id, status, why, now);
    Remedy([Db(a)], true, IsLive(r))
  }

  function ReconcileStartup(r: Record, s: Sighting, now: Time): Remedy {
    match s.startup
    case StartupReady =>
      if r.lifecycle != Running || r.reason != "" || s.pod.None? || PodFieldsDiffer(r, s.pod.value.pod)
      then WriteStatusOf(r, s.pod, Running, "", now) else NOTHING
    case StartupFailed(why) =>
      if r.lifecycle != Failed || r.reason != why || (s.pod.Some? && PodFieldsDiffer(r, s.pod.value.pod))
      then WriteStatusOf(r, s.pod, Failed, why, now) else NOTHING
    case StartupPending(_) =>
      if r.lifecycle == Failed then NOTHING
      else
        var differ := if s.pod.Some? then PodFieldsDiffer(r, s.pod.value.pod)
                      else r.podUid != "" || r.podPhase != PhaseNone || r.podIp != "";
        if r.lifecycle != Pending || r.reason != "" || differ then WriteStatusOf(r, s.pod, Pending, "", now)
        else NOTHING
  }

  predicate Absent(s: Sighting) {
    s.pod.None? && s.pvc.None? && s.deployment.None?
  }

  function ReconcilePersistent(r: Record, s: Sighting, now: Time): Remedy {
    if r.desired == WantDeleted then
      Remedy([], s.deployment.Some? || s.pod.Some? || (s.pvc.Some? && r.policy != Retain) ||
          r.lifecycle != Deleted, false)
    else if Absent(s) then Missing(r, RUNTIME_GONE, RUNTIME_LOST, false, now)
    else if TreatAsStopped(r, s) then ReconcileStopped(r, s.pod, now)
    else ReconcileStartup(r, s, now)
  }

  // ----- One pass over every row ------------------------------------------------------------

  /** What the cluster shows during a pass: the labelled pods in list order, and one snapshot per
      persistent sandbox. */
  datatype Look = Look(pods: seq<Pod>, snaps: map<Id, Sighting>)

  /** `podMap`: the index of the last listed pod carrying the label. */
  function LastPod(pods: seq<Pod>, id: string): Option<Pod> {
    if pods == [] then None
    else if pods[|pods| - 1].labels.sandboxId == id then Some(pods[|pods| - 1])
    else LastPod(pods[..|pods| - 1], id)
  }

  function PodIds(pods: seq<Pod>): set<string> {
    set p | p in pods && p.labels.sandboxId != "" :: p.labels.sandboxId
  }

  predicate Visible(look: Look, r: Record) {
    r.persistent ==> r.id in look.snaps
  }

  function RemedyFor(r: Record, look: Look, now: Time): Remedy
    requires Visible(look, r)
  {
    if r.persistent then ReconcilePersistent(r, look.snaps[r.id], now)
    else ReconcileOrdinary(r, LastPod(look.pods, r.id), now)
  }

  function Reconciled(r: Record, look: Look, now: Time): Record
    requires Visible(look, r)
  {
    RowAct(RemedyFor(r, look, now).actions, r)
  }

  /** A view in which a persistent sandbox's pods are listed exactly when its snapshot has one. */
  predicate StableLook(look: Look, rows: Rows) {
    forall id :: id in rows && rows[id].persistent ==>
      id in look.snaps && (id in PodIds(look.pods) ==> look.snaps[id].pod.Some?)
  }

  function Orphans(look: Look, rows: Rows): set<string> {
    set id | id in PodIds(look.pods) && id !in rows.Keys
  }

  // ----- Idempotence ------------------------------------------------------------------------

  /** The columns a pass is about. */
  datatype Content = Content(desired: Desired, lifecycle: Lifecycle, reason: string, podUid: string, podPhase: PodPhase,
                             podIp: string, stoppedAt: Option<Time>)

  function ContentOf(r: Record): Content {
    Content(r.desired, r.lifecycle, r.reason, r.podUid, r.podPhase, r.podIp, r.stoppedAt)
  }

  /** The second look: the cluster is as it was, except that the pods the first pass deleted may
      still be there, be marked, or be gone. Only stopped sandboxes have such pods. */
  predicate Settled(r: Record, look: Look, look': Look)
    requires Visible(look, r)
  {
    if r.persistent then
      && r.id in look'.snaps
      && (look'.snaps[r.id] == look.snaps[r.id] ||
          (TreatAsStopped(r, look.snaps[r.id]) && look'.snaps[r.id].deployment == look.snaps[r.id].deployment))
    else LastPod(look'.pods, r.id) == LastPod(look.pods, r.id)
  }

  lemma RowActThree(xs: seq<Action>, ys: seq<Action>, zs: seq<Action>, r: Record)
    ensures RowAct(xs + ys + zs, r) == RowAct(zs, RowAct(ys, RowAct(xs, r)))
  {
    RowActAppend(xs + ys, zs, r);
    RowActAppend(xs, ys, r);
  }

  lemma BackfillResult(r: Record, now: Time)
    ensures var r1 := RowAct(BackfillStop(r, now), r);
            ContentOf(r1) == ContentOf(r).(stoppedAt := Coalesce(r.stoppedAt, now)) && IsLive(r1) == IsLive(r) &&
                r1.id == r.id
  {
    if r.stoppedAt.None? {
      RowActOne(BackfillStop(r, now)[0], r);
    }
  }

  lemma RestoreResult(r: Record, r1: Record, now: Time)
    requires IsLive(r1) == IsLive(r)
    ensures ContentOf(RowAct(RestoreStopped(r, now), r1)) ==
            if StoppedMismatch(r) && IsLive(r)
            then Content(r1.desired, Stopped, StoppedReason(r.reason), "", PhaseNone, "", r1.stoppedAt)
            else ContentOf(r1)
  {
    if StoppedMismatch(r) {
      RowActOne(RestoreStopped(r, now)[0], r1);
    }
  }

  /** The row a stopped sandbox is left with. */
  lemma StoppedResult(r: Record, pod: Option<NamedPod>, now: Time)
    ensures ContentOf(RowAct(ReconcileStopped(r, pod, now).actions, r)) ==
            var at := Coalesce(r.stoppedAt, now);
            if StoppedMismatch(r) && IsLive(r) then
                Content(r.desired, Stopped, StoppedReason(r.reason), "", PhaseNone, "", at)
            else ContentOf(r).(stoppedAt := at)
  {
    RowActThree(BackfillStop(r, now), RemoveLeftover(pod), RestoreStopped(r, now), r);
    var r1 := RowAct(BackfillStop(r, now), r);
    BackfillResult(r, now);
    RowActCalls(RemoveLeftover(pod), r1);
    RestoreResult(r, r1, now);
  }

  /** Stopped rows do not depend on whether their residual pod is still visible. */
  lemma StoppedIdempotent(r: Record, pod: Option<NamedPod>, pod': Option<NamedPod>, now: Time, now': Time)
    ensures var r' := RowAct(ReconcileStopped(r, pod, now).actions, r);
            ContentOf(RowAct(ReconcileStopped(r', pod', now').actions, r')) == ContentOf(r')
  {
    var r' := RowAct(ReconcileStopped(r, pod, now).actions, r);
    StoppedResult(r, pod, now);
    StoppedResult(r', pod', now');
    StoppedReasonSettles(r.reason);
  }

  lemma SingleWriteResult(a: Action, r: Record)
    requires a.Db?
    ensures RowAct([a], r) == RowAfter(a.stmt, r)
  {
    RowActOne(a, r);
  }

  /** A row with nothing in view, at two clocks between which it does not cross the grace period. */
  lemma MissingIdempotent(r: Record, gone: string, lost: string, countStopped: bool, now: Time, now': Time)
    requires r.desired == WantActive
    requires BeyondGrace(r, now') ==> BeyondGrace(r, now)
    ensures var r' := RowAct(Missing(r, gone, lost, countStopped, now).actions, r);
            && MissingSince(r') == MissingSince(r)
            && (r'.desired == WantActive ==>
                  ContentOf(RowAct(Missing(r', gone, lost, countStopped, now').actions, r')) == ContentOf(r'))
  {
    var m := Missing(r, gone, lost, countStopped, now);
    if m.actions != [] {
      SingleWriteResult(m.actions[0], r);
    }
    var r' := RowAct(m.actions, r);
    var m' := Missing(r', gone, lost, countStopped, now');
    if m'.actions != [] {
      SingleWriteResult(m'.actions[0], r');
    }
  }

  lemma OrdinaryIdempotent(r: Record, pod: Option<Pod>, now: Time, now': Time)
    requires pod.None? && BeyondGrace(r, now') ==> BeyondGrace(r, now)
    ensures var r' := RowAct(ReconcileOrdinary(r, pod, now).actions, r);
            ContentOf(RowAct(ReconcileOrdinary(r', pod, now').actions, r')) == ContentOf(r')
  {
    var m := ReconcileOrdinary(r, pod, now);
    var r' := RowAct(m.actions, r);
    if r.desired == WantActive && pod.None? {
      MissingIdempotent(r, POD_GONE, POD_LOST, true, now, now');
    } else if m.actions != [] {
      SingleWriteResult(m.actions[0], r);
    }
  }

  /** The content a classified status leaves behind. */
  function Written(r: Record, pod: Option<NamedPod>, status: Lifecycle, why: string): Content {
    if !IsLive(r) then ContentOf(r)
    else if pod.Some? then Content(r.desired, status, why, pod.value.pod.uid, pod.value.pod.phase, pod.value.pod.ip,
        r.stoppedAt)
    else ContentOf(r).(lifecycle := status, reason := why)
  }

  lemma WriteResult(r: Record, pod: Option<NamedPod>, status: Lifecycle, why: string, now: Time)
    ensures ContentOf(RowAct(WriteStatusOf(r, pod, status, why, now).actions, r)) == Written(r, pod, status, why)
  {
    SingleWriteResult(WriteStatusOf(r, pod, status, why, now).actions[0], r);
  }

  /** The status and reason a startup verdict calls for, or nothing when a pending startup must not
      overwrite a failure. */
  function Verdict(r: Record, s: Sighting): Option<(Lifecycle, string)> {
    match s.startup
    case StartupReady => Some((Running, ""))
    case StartupFailed(why) => Some((Failed, why))
    case StartupPending(_) => if r.lifecycle == Failed then None else Some((Pending, ""))
  }

  lemma StartupResult(r: Record, s: Sighting, now: Time)
    ensures ContentOf(RowAct(ReconcileStartup(r, s, now).actions, r)) ==
            var v := Verdict(r, s); if v.None? then ContentOf(r) else Written(r, s.pod, v.value.0, v.value.1)
  {
    var v := Verdict(r, s);
    if v.Some? {
      WriteResult(r, s.pod, v.value.0, v.value.1, now);
    }
  }

  lemma StartupIdempotent(r: Record, s: Sighting, now: Time, now': Time)
    ensures var r' := RowAct(ReconcileStartup(r, s, now).actions, r);
            && ContentOf(RowAct(ReconcileStartup(r', s, now').actions, r')) == ContentOf(r')
            && r'.desired == r.desired && r'.stoppedAt == r.stoppedAt
            && (r'.lifecycle == Stopped ==> r.lifecycle == Stopped)
  {
    var r' := RowAct(ReconcileStartup(r, s, now).actions, r);
    StartupResult(r, s, now);
    StartupResult(r', s, now');
  }

  lemma PersistentIdempotent(r: Record, s: Sighting, s': Sighting, now: Time, now': Time)
    requires s' == s || (TreatAsStopped(r, s) && s'.deployment == s.deployment)
    requires Absent(s) && BeyondGrace(r, now') ==> BeyondGrace(r, now)
    ensures var r' := RowAct(ReconcilePersistent(r, s, now).actions, r);
            ContentOf(RowAct(ReconcilePersistent(r', s', now').actions, r')) == ContentOf(r')
  {
    var r' := RowAct(ReconcilePersistent(r, s, now).actions, r);
    if r.desired == WantDeleted {
    } else if Absent(s) {
      MissingIdempotent(r, RUNTIME_GONE, RUNTIME_LOST, false, now, now');
    } else if TreatAsStopped(r, s) {
      StoppedResult(r, s.pod, now);
      StoppedIdempotent(r, s.pod, s'.pod, now, now');
      assert TreatAsStopped(r', s');
    } else {
      StartupIdempotent(r, s, now, now');
      assert !TreatAsStopped(r', s);
    }
  }

  /** Nothing of the sandbox is in view. */
  predicate Unseen(r: Record, look: Look)
    requires Visible(look, r)
  {
    if r.persistent then Absent(look.snaps[r.id]) else LastPod(look.pods, r.id).None?
  }

  /** Between two passes, a row with nothing in view runs out of its grace period. */
  predicate CrossesGrace(r: Record, look: Look, now: Time, now': Time)
    requires Visible(look, r)
  {
    Unseen(r, look) && BeyondGrace(r, now') && !BeyondGrace(r, now)
  }

  /** Reconcile idempotence: for every row, cluster view and clock, a second pass leaves desired
      state, status, reason, pod fields and stop time as the first pass left them, at the same clock
      and at any other between which the row does not run out of its grace period. */
  lemma ReconcileIsIdempotent(r: Record, look: Look, look': Look, now: Time, now': Time)
    requires Visible(look, r) && Settled(r, look, look') && !CrossesGrace(r, look, now, now')
    ensures var r' := Reconciled(r, look, now);
            Visible(look', r') && ContentOf(Reconciled(r', look', now')) == ContentOf(r')
  {
    RemedyKeepsIdentity(r, look, now);
    if r.persistent {
      PersistentIdempotent(r, look.snaps[r.id], look'.snaps[r.id], now, now');
    } else {
      OrdinaryIdempotent(r, LastPod(look.pods, r.id), now, now');
    }
  }

  function LostReason(r: Record): string {
    if r.persistent then RUNTIME_LOST else POD_LOST
  }

  /** A row that the second pass declares lost, or lost for another reason. */
  predicate TurnsLost(r: Record, look: Look, now: Time, now': Time)
    requires Visible(look, r)
  {
    && CrossesGrace(r, look, now, now')
    && IsLive(r) && r.lifecycle !in {Terminating, Stopped}
    && (r.lifecycle != Lost || r.reason != LostReason(r))
  }

  lemma CrossingMakesLost(r: Record, look: Look, look': Look, now: Time, now': Time)
    requires Visible(look, r) && Settled(r, look, look') && TurnsLost(r, look, now, now')
    ensures var r' := Reconciled(r, look, now);
            && r' == r && Visible(look', r)
            && ContentOf(Reconciled(r', look', now')) == ContentOf(r).(lifecycle := Lost, reason := LostReason(r))
  {
    if r.persistent {
      assert !TreatAsStopped(r, look.snaps[r.id]);
    }
    SingleWriteResult(RemedyFor(r, look', now').actions[0], r);
  }

  lemma CrossingLeavesTheRest(r: Record, look: Look, look': Look, now: Time, now': Time)
    requires Visible(look, r) && Settled(r, look, look') && CrossesGrace(r, look, now, now') &&
        !TurnsLost(r, look, now, now')
    ensures var r' := Reconciled(r, look, now);
            Visible(look', r') && ContentOf(Reconciled(r', look', now')) == ContentOf(r')
  {
    RemedyKeepsIdentity(r, look, now);
    var m := RemedyFor(r, look, now);
    if m.actions != [] {
      SingleWriteResult(m.actions[0], r);
    }
    var r' := Reconciled(r, look, now);
    var m' := RemedyFor(r', look', now');
    if m'.actions != [] {
      SingleWriteResult(m'.actions[0], r');
    }
  }

  /** When exactly a second pass changes something, for every row, view and pair of clocks: when the
      row ran out of its grace period in between, is live, neither terminating nor stopped, and not
      already lost for that reason. */
  lemma ReconcileIsIdempotentIff(r: Record, look: Look, look': Look, now: Time, now': Time)
    requires Visible(look, r) && Settled(r, look, look')
    ensures var r' := Reconciled(r, look, now);
            && Visible(look', r')
            && (ContentOf(Reconciled(r', look', now')) == ContentOf(r') <==> !TurnsLost(r, look, now, now'))
  {
    RemedyKeepsIdentity(r, look, now);
    if TurnsLost(r, look, now, now') {
      CrossingMakesLost(r, look, look', now, now');
    } else if CrossesGrace(r, look, now, now') {
      CrossingLeavesTheRest(r, look, look', now, now');
    } else {
      ReconcileIsIdempotent(r, look, look', now, now');
    }
  }

  // ----- Agreement with the cluster ---------------------------------------------------------

  /** What the cluster says about an ordinary sandbox whose pod is listed. */
  predicate AgreesWithPod(r: Record, p: Pod) {
    r.podUid == p.uid && r.podPhase == p.phase && r.podIp == p.ip && r.lifecycle == PodStatus(p)
  }

  /** A live ordinary row with a listed pod counts as drifted exactly when it disagrees with the pod;
      one pass makes it agree and touches nothing that already agreed. A row that is no longer live
      is left alone and never counts as fixed. */
  lemma OrdinaryPassAgrees(r: Record, p: Pod, now: Time)
    requires r.desired == WantActive
    ensures var m := ReconcileOrdinary(r, Some(p), now);
            && (m.drifted <==> !AgreesWithPod(r, p))
            && (m.fixed <==> m.drifted && r.lifecycle != Deleted)
            && RowAct(m.actions, r) ==
                 if m.fixed then r.(podUid := p.uid, podPhase := p.phase, podIp := p.ip, lifecycle := PodStatus(p),
                                    reason := "", lastSeen := Some(now), updatedAt := now)
                 else r
  {
    var m := ReconcileOrdinary(r, Some(p), now);
    if m.actions != [] {
      SingleWriteResult(m.actions[0], r);
    }
  }

  /** A row none of whose objects is left ends in `deleted` if it was terminating, in `lost` after the
      grace period, and unchanged otherwise. */
  lemma MissingOutcome(r: Record, gone: string, lost: string, countStopped: bool, now: Time)
    requires r.desired == WantActive
    ensures var m, r' := Missing(r, gone, lost, countStopped, now),
        RowAct(Missing(r, gone, lost, countStopped, now).actions, r);
            && (r'.lifecycle == Deleted <==> r.lifecycle in {Terminating, Deleted})
            && (r.lifecycle == Terminating ==>
                r'.phase == Completed && r'.desired == WantDeleted && r'.deletedAt == Some(now))
            && (r'.lifecycle == Lost <==>
                r.lifecycle == Lost || (r.lifecycle !in {Terminating, Deleted, Stopped} && BeyondGrace(r, now)))
            && (m.fixed <==> m.actions != [])
            && (!m.fixed ==> r' == r)
  {
    var m := Missing(r, gone, lost, countStopped, now);
    if m.actions != [] {
      SingleWriteResult(m.actions[0], r);
    }
  }

  /** The startup branch counts no drift only if the row already says what the cluster shows, and
      after a pass a live row says it: the verdict's status and reason, and the pod's fields if there
      is a pod. */
  lemma StartupPassAgrees(r: Record, s: Sighting, now: Time)
    requires IsLive(r) && (s.startup.StartupReady? ==> s.pod.Some?)
    ensures var m, v := ReconcileStartup(r, s, now), Verdict(r, s);
            && (v.None? ==> !m.drifted && m.actions == [])
            && (v.Some? ==> ContentOf(RowAct(m.actions, r)) == Written(r, s.pod, v.value.0, v.value.1))
            && (v.Some? && s.pod.Some? ==> (m.drifted <==> ContentOf(r) != Written(r, s.pod, v.value.0, v.value.1)))
            && (m.fixed <==> m.drifted)
  {
    StartupResult(r, s, now);
  }

  /** With the snapshot itself in hand, the status a pass leaves a started sandbox in is decided by
      the evidence: running exactly when its pod is ready, failed exactly when it is not and something
      speaks against it or already did, pending otherwise. */
  lemma PassFollowsEvidence(r: Record, snap: PersistentSnapshot, now: Time)
    requires IsLive(r) && !Absent(Sight(snap)) && !TreatAsStopped(r, Sight(snap))
    ensures var r' := RowAct(ReconcilePersistent(r, Sight(snap), now).actions, r);
            var ready := snap.pod.Some? && snap.pod.value.pod.phase == PhaseRunning && snap.pod.value.pod.ready;
            && (r'.lifecycle == Running <==> ready)
            && (r'.lifecycle == Failed <==> !ready && (FailureEvidence(snap) || r.lifecycle == Failed))
            && (r'.lifecycle in {Running, Failed, Pending})
            && (snap.pod.Some? && r'.lifecycle != r.lifecycle ==> !PodFieldsDiffer(r', snap.pod.value.pod))
  {
    ClassifyIsExact(snap);
    StartupResult(r, Sight(snap), now);
  }

  lemma {:induction false} RowActKeepsStatic(actions: seq<Action>, r: Record)
    ensures StaticOf(RowAct(actions, r)) == StaticOf(r) && RowAct(actions, r).id == r.id
  {
    if actions != [] {
      var next := if actions[0].Db? then RowAfter(actions[0].stmt, r) else r;
      if actions[0].Db? {
        RowAfterKeepsStatic(actions[0].stmt, r);
      }
      RowActKeepsStatic(actions[1..], next);
    }
  }

  lemma RemedyKeepsIdentity(r: Record, look: Look, now: Time)
    requires Visible(look, r)
    ensures Reconciled(r, look, now).id == r.id && StaticOf(Reconciled(r, look, now)) == StaticOf(r)
  {
    RowActKeepsStatic(RemedyFor(r, look, now).actions, r);
  }
}
