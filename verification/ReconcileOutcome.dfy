/** What a reconcile pass leaves of a row, told in columns, cluster fields and instants. */
module ReconcileOutcome {
  import opened Base
  import opened Text
  import opened Store
  import opened Cluster
  import opened Startup
  import opened Deletion
  import opened DeletionRuns
  import opened Reconcile

  /** No object of the row's sandbox is in view: no listed pod with its label, or nothing in its
      snapshot. */
  predicate NothingSeen(r: Record, look: Look)
    requires Visible(look, r)
  {
    if r.persistent then
      var s := look.snaps[r.id];
      s.pod.None? && s.pvc.None? && s.deployment.None?
    else forall i :: 0 <= i < |look.pods| ==> look.pods[i].labels.sandboxId != r.id
  }

  /** The pod at `k` is the last one listed with this label. */
  predicate LastListed(pods: seq<Pod>, id: string, k: nat)
    requires k < |pods|
  {
    pods[k].labels.sandboxId == id && forall i :: k < i < |pods| ==> pods[i].labels.sandboxId != id
  }

  lemma {:induction false} LastPodIsLastListed(pods: seq<Pod>, id: string)
    ensures LastPod(pods, id).None? <==> forall i :: 0 <= i < |pods| ==> pods[i].labels.sandboxId != id
    ensures forall k :: 0 <= k < |pods| && LastListed(pods, id, k) ==> LastPod(pods, id) == Some(pods[k])
  {
    if pods != [] {
      var init := pods[..|pods| - 1];
      LastPodIsLastListed(init, id);
      if pods[|pods| - 1].labels.sandboxId != id {
        forall k | 0 <= k < |pods| ensures LastListed(pods, id, k) <==> k < |init| && LastListed(init, id, k) {
          LastListedEarlier(pods, id, k);
        }
      }
    }
  }

  lemma LastListedEarlier(pods: seq<Pod>, id: string, k: nat)
    requires k < |pods| && pods[|pods| - 1].labels.sandboxId != id
    ensures LastListed(pods, id, k) <==> k < |pods| - 1 && LastListed(pods[..|pods| - 1], id, k)
  {
  }

  lemma NothingSeenIsUnseen(r: Record, look: Look)
    requires Visible(look, r)
    ensures NothingSeen(r, look) <==> Unseen(r, look)
  {
    LastPodIsLastListed(look.pods, r.id);
  }

  /** A row nobody wants deleted, of whose sandbox nothing is in view. */
  predicate Vanished(r: Record, look: Look)
    requires Visible(look, r)
  {
    r.desired == WantActive && NothingSeen(r, look)
  }

  lemma VanishedRemedy(r: Record, look: Look, now: Time)
    requires Visible(look, r) && Vanished(r, look)
    ensures RemedyFor(r, look, now) ==
            if r.persistent
            then Missing(r, "reconcile: persistent runtime not found",
                         "reconcile: persistent runtime missing beyond grace period", false, now)
            else Missing(r, "reconcile: pod not found", "reconcile: pod missing beyond grace period", true, now)
  {
    NothingSeenIsUnseen(r, look);
  }

  /** The grace period: a vanished row that is neither deleted, terminating nor stopped becomes lost
      exactly when it was lost already or was last seen, or created if it was never seen, at least ten
      minutes ago; until then it is left alone, and in no case is anything but status and reason
      changed. */
  lemma LostExactlyAfterGrace(r: Record, look: Look, now: Time)
    requires Visible(look, r) && Vanished(r, look) && r.lifecycle !in {Deleted, Terminating, Stopped}
    ensures var r' := Reconciled(r, look, now);
            var since := if r.lastSeen.Some? then r.lastSeen.value else r.createdAt;
            && (r'.lifecycle == Lost <==> r.lifecycle == Lost || now - since >= 600 * SECOND)
            && (now - since < 600 * SECOND ==> r' == r)
            && (now - since >= 600 * SECOND ==>
                  r' == r.(lifecycle := Lost, updatedAt := now,
                           reason := if r.persistent
                                     then "reconcile: persistent runtime missing beyond grace period"
                                     else "reconcile: pod missing beyond grace period"))
  {
    VanishedRemedy(r, look, now);
    var m := RemedyFor(r, look, now);
    if m.actions != [] {
      SingleWriteResult(m.actions[0], r);
    }
  }

  /** A vanished row that was terminating is recorded as deleted; a stopped or deleted one is left
      alone. */
  lemma VanishedOutcome(r: Record, look: Look, now: Time)
    requires Visible(look, r) && Vanished(r, look)
    ensures var r' := Reconciled(r, look, now);
            && (r.lifecycle == Terminating ==>
                  && r'.lifecycle == Deleted && r'.desired == WantDeleted && r'.phase == Completed
                  && r'.deletedAt == Some(now) && r'.nextRetry == None
                  && r'.reason == if r.persistent then "reconcile: persistent runtime not found"
                                  else "reconcile: pod not found")
            && (r.lifecycle in {Stopped, Deleted} ==> r' == r)
  {
    VanishedRemedy(r, look, now);
    var m := RemedyFor(r, look, now);
    if m.actions != [] {
      SingleWriteResult(m.actions[0], r);
    }
  }

  /** An ordinary row whose pod is listed takes the pod's fields, and its status from the pod: on its
      way out if marked, else by phase. */
  lemma OrdinaryOutcome(r: Record, look: Look, now: Time, k: nat)
    requires !r.persistent && r.desired == WantActive && r.lifecycle != Deleted
    requires k < |look.pods| && LastListed(look.pods, r.id, k)
    ensures var r', p := Reconciled(r, look, now), look.pods[k];
            && r'.podUid == p.uid && r'.podPhase == p.phase && r'.podIp == p.ip
            && (r'.lifecycle == Terminating <==> p.deleting)
            && (r'.lifecycle == Pending <==> !p.deleting && p.phase == PhasePending)
            && (r'.lifecycle == Running <==> !p.deleting && p.phase == PhaseRunning)
            && (r'.lifecycle == Succeeded <==> !p.deleting && p.phase == PhaseSucceeded)
            && (r'.lifecycle == Failed <==> !p.deleting && p.phase == PhaseFailed)
            && (r'.lifecycle == Unknown <==> !p.deleting && p.phase in {PhaseNone, PhaseUnknown})
            && (RemedyFor(r, look, now).drifted <==>
                  (r.podUid, r.podPhase, r.podIp, r.lifecycle) != (r'.podUid, r'.podPhase, r'.podIp, r'.lifecycle))
  {
    LastPodIsLastListed(look.pods, r.id);
    OrdinaryPassAgrees(r, look.pods[k], now);
  }

  /** The Deployment is scaled to zero and the row remembers that it should be. */
  predicate Asleep(r: Record, s: Sighting) {
    s.deployment.Some? && s.deployment.value.replicas == Some(0) && (r.lifecycle == Stopped || r.stoppedAt.Some?)
  }

  /** A sleeping sandbox stays, or becomes again, stopped, with the instant of its stop and no pod; a
      pod that is still there is deleted. */
  lemma AsleepOutcome(r: Record, look: Look, now: Time)
    requires r.persistent && r.id in look.snaps && r.desired == WantActive && r.lifecycle != Deleted
    requires Asleep(r, look.snaps[r.id])
    ensures var r', s := Reconciled(r, look, now), look.snaps[r.id];
            && r'.lifecycle == Stopped && r'.podUid == "" && r'.podPhase == PhaseNone && r'.podIp == ""
            && r'.stoppedAt == Some(if r.stoppedAt.Some? then r.stoppedAt.value else now)
            && r'.desired == WantActive
            && (s.pod.Some? ==> K8s(DeletePod(s.pod.value.name)) in RemedyFor(r, look, now).actions)
            && (RemedyFor(r, look, now).drifted <==>
                  || s.pod.Some? || r.stoppedAt.None? || r.lifecycle != Stopped || r.reason != r'.reason
                  || r.podUid != "" || r.podPhase != PhaseNone || r.podIp != "")
  {
    var s := look.snaps[r.id];
    StoppedResult(r, s.pod, now);
    if s.pod.Some? {
      assert RemoveLeftover(s.pod)[0] in RemoveLeftover(s.pod);
    }
  }

  lemma AsleepReason(r: Record, look: Look, now: Time)
    requires r.persistent && r.id in look.snaps && r.desired == WantActive && r.lifecycle != Deleted
    requires Asleep(r, look.snaps[r.id])
    ensures Reconciled(r, look, now).reason ==
            if TrimSpace(r.reason) == "" then "stopped by request" else TrimSpace(r.reason)
  {
    StoppedResult(r, look.snaps[r.id].pod, now);
  }

  /** What a persistent sandbox that is neither vanished nor asleep is recorded as: running exactly when
      its pod runs and is ready; failed exactly when there is evidence, or it had failed before and
      is still not ready; pending otherwise. The pod's fields come along with every new status. */
  lemma AwakeOutcome(r: Record, look: Look, snap: PersistentSnapshot, now: Time)
    requires r.persistent && r.id in look.snaps && r.desired == WantActive && r.lifecycle != Deleted
    requires look.snaps[r.id] == Sight(snap) && !NothingSeen(r, look) && !Asleep(r, Sight(snap))
    ensures var r' := Reconciled(r, look, now);
            var ready := snap.pod.Some? && snap.pod.value.pod.phase == PhaseRunning && snap.pod.value.pod.ready;
            && (r'.lifecycle == Running <==> ready)
            && (r'.lifecycle == Failed <==> !ready && (FailureEvidence(snap) || r.lifecycle == Failed))
            && (r'.lifecycle == Pending <==> !ready && !FailureEvidence(snap) && r.lifecycle != Failed)
            && (r'.lifecycle in {Running, Pending} ==> r'.reason == "")
            && (snap.pod.Some? && (ready || FailureEvidence(snap) || r.lifecycle != Failed) ==>
                  && r'.podUid == snap.pod.value.pod.uid && r'.podPhase == snap.pod.value.pod.phase
                  && r'.podIp == snap.pod.value.pod.ip)
            && r'.stoppedAt == r.stoppedAt && r'.desired == WantActive
  {
    ClassifyIsExact(snap);
    StartupResult(r, Sight(snap), now);
  }

  /** Whether the row of such a sandbox counts as drifted: exactly if it does not say what the pass would
      make it say, or, while nothing is decided and no pod is there, if it still shows fields of one. */
  lemma AwakeDrift(r: Record, look: Look, snap: PersistentSnapshot, now: Time)
    requires r.persistent && r.id in look.snaps && r.desired == WantActive && r.lifecycle != Deleted
    requires look.snaps[r.id] == Sight(snap) && !NothingSeen(r, look) && !Asleep(r, Sight(snap))
    ensures var waiting := snap.pod.None? && !FailureEvidence(snap) && r.lifecycle != Failed;
            RemedyFor(r, look, now).drifted <==>
              || ContentOf(Reconciled(r, look, now)) != ContentOf(r)
              || (waiting && (r.podUid != "" || r.podPhase != PhaseNone || r.podIp != ""))
    ensures RemedyFor(r, look, now).fixed <==> RemedyFor(r, look, now).drifted
  {
    ClassifyIsExact(snap);
    StartupResult(r, Sight(snap), now);
  }

  /** A pass that counts such a row as fixed leaves nothing to fix, with one exception: the leftover pod
      fields of a sandbox that waits for its pod are counted as fixed, and stay, at every pass. */
  lemma FixedAwakeRowsStayFixedIff(r: Record, look: Look, snap: PersistentSnapshot, now: Time, now': Time)
    requires r.persistent && r.id in look.snaps && r.desired == WantActive && r.lifecycle != Deleted
    requires look.snaps[r.id] == Sight(snap) && !NothingSeen(r, look) && !Asleep(r, Sight(snap))
    ensures var r' := Reconciled(r, look, now);
            var stale := && snap.pod.None? && !FailureEvidence(snap) && r.lifecycle != Failed
                         && (r.podUid != "" || r.podPhase != PhaseNone || r.podIp != "");
            && Visible(look, r')
            && (RemedyFor(r', look, now').drifted <==> stale)
            && (stale ==>
                  && RemedyFor(r, look, now).fixed && RemedyFor(r', look, now').fixed
                  && r'.podUid == r.podUid && r'.podPhase == r.podPhase && r'.podIp == r.podIp)
  {
    var r' := Reconciled(r, look, now);
    RemedyKeepsIdentity(r, look, now);
    assert StaticOf(r').persistent == r'.persistent;
    AwakeOutcome(r, look, snap, now);
    ClassifyIsExact(snap);
    StartupResult(r, Sight(snap), now);
    AwakeDrift(r, look, snap, now);
    assert !Asleep(r', Sight(snap));
    AwakeDrift(r', look, snap, now');
    ReconcileIsIdempotent(r, look, look, now, now');
  }

  /** A row that is wanted deleted is never written by the reconciler, and counts as drifted as long as
      anything is left: the runtime, a claim that is not retained, or the row's own status. */
  lemma DepartingOutcome(r: Record, look: Look, now: Time)
    requires Visible(look, r) && r.desired == WantDeleted
    ensures Reconciled(r, look, now) == r && RemedyFor(r, look, now).actions == [] && !RemedyFor(r, look, now).fixed
    ensures RemedyFor(r, look, now).drifted <==>
            || r.lifecycle != Deleted
            || (if r.persistent then
                  var s := look.snaps[r.id];
                  s.deployment.Some? || s.pod.Some? || (s.pvc.Some? && r.policy != Retain)
                else exists i :: 0 <= i < |look.pods| && look.pods[i].labels.sandboxId == r.id)
  {
    LastPodIsLastListed(look.pods, r.id);
  }

  /** A vanished row counts as drifted, except for a stopped persistent one. */
  lemma VanishedDrift(r: Record, look: Look, now: Time)
    requires Visible(look, r) && Vanished(r, look)
    ensures RemedyFor(r, look, now).drifted <==> !(r.persistent && r.lifecycle == Stopped)
  {
    VanishedRemedy(r, look, now);
  }

  /** Only drifted rows are fixed, and a row that is not fixed is not touched, nor is the cluster. */
  lemma UnfixedIsUntouched(r: Record, look: Look, now: Time)
    requires Visible(look, r)
    ensures var m := RemedyFor(r, look, now);
            && (m.fixed ==> m.drifted && m.actions != [])
            && (!m.fixed ==> Reconciled(r, look, now) == r && forall a :: a in m.actions ==> a.Db?)
  {
    if r.persistent {
      UnfixedPersistent(r, look.snaps[r.id], now);
    } else {
      var m := RemedyFor(r, look, now);
      if !m.fixed && m.actions != [] {
        SingleWriteResult(m.actions[0], r);
      }
    }
  }

  lemma UnfixedPersistent(r: Record, s: Sighting, now: Time)
    ensures var m := ReconcilePersistent(r, s, now);
            && (m.fixed ==> m.drifted && m.actions != [])
            && (!m.fixed ==> RowAct(m.actions, r) == r && forall a :: a in m.actions ==> a.Db?)
  {
    var m := ReconcilePersistent(r, s, now);
    if r.desired == WantActive && !Absent(s) && TreatAsStopped(r, s) {
      UnfixedStopped(r, s.pod, now);
    } else if !m.fixed && m.actions != [] {
      SingleWriteResult(m.actions[0], r);
    }
  }

  lemma UnfixedStopped(r: Record, pod: Option<NamedPod>, now: Time)
    ensures var m := ReconcileStopped(r, pod, now);
            && (m.fixed ==> m.drifted && m.actions != [])
            && (!m.fixed ==> RowAct(m.actions, r) == r && forall a :: a in m.actions ==> a.Db?)
  {
    var m := ReconcileStopped(r, pod, now);
    if !m.fixed {
      assert m.actions == RestoreStopped(r, now);
      if m.actions != [] {
        SingleWriteResult(m.actions[0], r);
      }
    }
  }
}
