/** The startup monitor of a persistent sandbox: polls until the startup is decided or the deadline
    passes, and then writes the row once. */
module StartupMonitor {
  import opened Base
  import opened Names
  import opened Store
  import opened Startup

  const TIMED_OUT := "persistent sandbox startup timed out"

  /** What the monitor takes from one snapshot: the pod, the verdict, and what it would be waiting for. */
  datatype Glimpse = Glimpse(pod: Option<NamedPod>, startup: Startup, waiting: string)

  function Glimpsed(s: PersistentSnapshot): Glimpse {
    Glimpse(s.pod, Classify(s), PendingReason(s))
  }

  /** The status a monitor writes, with the pod it was taken from. */
  datatype Conclusion = Conclusion(pod: Option<NamedPod>, status: Lifecycle, why: string)

  /** A poll that fails, None, decides nothing. */
  predicate Decisive(g: Option<Glimpse>) {
    g.Some? && !g.value.startup.StartupPending?
  }

  function Concluded(g: Glimpse): Conclusion {
    if g.startup.StartupReady? then Conclusion(g.pod, Running, "") else Conclusion(g.pod, Failed, g.startup.why)
  }

  /** The last reason for waiting among the first `n` polls. */
  function LastReason(polls: seq<Option<Glimpse>>, n: nat): string
    requires n <= |polls|
  {
    if n == 0 then ""
    else if polls[n - 1].Some? && polls[n - 1].value.startup.StartupPending? then polls[n - 1].value.startup.why
    else LastReason(polls, n - 1)
  }

  function WithReason(reason: string): string {
    if reason != "" then TIMED_OUT + ": " + reason else TIMED_OUT
  }

  /** At the deadline one more snapshot is taken, but only to explain the failure. */
  function AtDeadline(last: Option<Glimpse>, reason: string): Conclusion {
    if last.None? then Conclusion(None, Failed, WithReason(reason))
    else
      var g := last.value;
      match g.startup
      case StartupFailed(why) => Conclusion(g.pod, Failed, why)
      case StartupPending(why) => Conclusion(g.pod, Failed, if why != "" then WithReason(why)
          else WithReason(g.waiting))
      case StartupReady => Conclusion(g.pod, Failed, WithReason(g.waiting))
  }

  function WriteOf(id: Id, c: Conclusion, now: Time): Stmt {
    if c.pod.Some? then UpdateObservedIfActive(id, c.pod.value.pod.uid, c.pod.value.pod.phase, c.pod.value.pod.ip,
        c.status, c.why, now)
    else UpdateStatusIfActive(id, c.status, c.why, now)
  }

  /** The monitor's write, however late, keeps a deletion absorbed and never touches a row that is on
      its way out. */
  lemma MonitorWriteIsAbsorbed(id: Id, c: Conclusion, r: Record, now: Time)
    ensures Absorbed(r, RowAfter(WriteOf(id, c, now), r))
    ensures !IsLive(r) ==> RowAfter(WriteOf(id, c, now), r) == r
    ensures r.desired == WantActive && r.lifecycle != Deleted ==>
              var r' := RowAfter(WriteOf(id, c, now), r);
              && r'.lifecycle == c.status && r'.reason == c.why
              && (c.pod.Some? ==>
                    && r'.podUid == c.pod.value.pod.uid && r'.podPhase == c.pod.value.pod.phase
                    && r'.podIp == c.pod.value.pod.ip && r'.lastSeen == Some(now))
              && (c.pod.None? ==>
                    && r'.podUid == r.podUid && r'.podPhase == r.podPhase && r'.podIp == r.podIp
                    && r'.lastSeen == r.lastSeen)
    ensures RowAfter(WriteOf(id, c, now), r).stoppedAt == r.stoppedAt &&
        RowAfter(WriteOf(id, c, now), r).expiresAt == r.expiresAt
  {
  }

  /** The first decisive poll. */
  predicate FirstDecisive(polls: seq<Option<Glimpse>>, k: nat) {
    k < |polls| && Decisive(polls[k]) && forall j :: 0 <= j < k ==> !Decisive(polls[j])
  }

  class Monitor {
    const store: SandboxStore

    constructor (store: SandboxStore)
      ensures this.store == store
    {
      this.store := store;
    }

    /** `updatePersistentRuntimeStateIfActive`. */
    method WriteState(id: Id, c: Conclusion, now: Time)
      modifies store
      ensures store.rows == old(store.rows) || store.rows == Apply(WriteOf(id, c, now), old(store.rows))
      ensures store.reliable ==> store.rows == Apply(WriteOf(id, c, now), old(store.rows))
      ensures id in old(store.rows) ==> id in store.rows && Absorbed(old(store.rows)[id], store.rows[id])
    {
      if id in store.rows {
        MonitorWriteIsAbsorbed(id, c, store.rows[id], now);
      }
      if c.pod.Some? {
        var p := c.pod.value.pod;
        var _ := store.ObservedIfActive(id, p.uid, p.phase, p.ip, c.status, c.why, now);
      } else {
        var _ := store.StatusIfActive(id, c.status, c.why, now);
      }
    }

    /** `runPersistentStartupMonitor`. `polls` is what the polls up to the deadline gave, `last` the
        look taken after it. The row is written at most once, by the first decisive poll or else as a
        failure at the deadline. */
    method Run(id: Id, polls: seq<Option<Glimpse>>, last: Option<Glimpse>, now: Time)
      returns (ready: bool, c: Conclusion)
      modifies store
      ensures id in old(store.rows) ==> id in store.rows && Absorbed(old(store.rows)[id], store.rows[id])
      ensures store.rows == old(store.rows) || store.rows == Apply(WriteOf(id, c, now), old(store.rows))
      ensures store.reliable ==> store.rows == Apply(WriteOf(id, c, now), old(store.rows))
      ensures forall k: nat :: FirstDecisive(polls, k) ==>
          c == Concluded(polls[k].value) && ready == polls[k].value.startup.StartupReady?
      ensures (forall k :: 0 <= k < |polls| ==> !Decisive(polls[k])) ==>
                !ready && c == AtDeadline(last, LastReason(polls, |polls|))
    {
      var reason := "";
      var i := 0;
      while i < |polls|
        invariant 0 <= i <= |polls|
        invariant forall j :: 0 <= j < i ==> !Decisive(polls[j])
        invariant reason == LastReason(polls, i)
        invariant store.rows == old(store.rows)
      {
        if polls[i].Some? {
          var g := polls[i].value;
          match g.startup {
            case StartupPending(why) => reason := why;
            case StartupReady =>
              c := Conclusion(g.pod, Running, "");
              WriteState(id, c, now);
              return true, c;
            case StartupFailed(why) =>
              c := Conclusion(g.pod, Failed, why);
              WriteState(id, c, now);
              return false, c;
          }
        }
        i := i + 1;
      }
      c := AtDeadline(last, reason);
      WriteState(id, c, now);
      ready := false;
    }
  }

  /** `running` is written only of a pod that is ready, `failed` only with evidence and a reason, or at
      the deadline. */
  lemma ConclusionsAreJustified(s: PersistentSnapshot)
    requires Decisive(Some(Glimpsed(s)))
    ensures Concluded(Glimpsed(s)).status == Running <==>
            s.pod.Some? && s.pod.value.pod.phase == PhaseRunning && s.pod.value.pod.ready
    ensures Concluded(Glimpsed(s)).status == Failed <==>
            !(s.pod.Some? && s.pod.value.pod.phase == PhaseRunning && s.pod.value.pod.ready) && FailureEvidence(s)
    ensures Concluded(Glimpsed(s)).status == Failed ==> Concluded(Glimpsed(s)).why != ""
    ensures Concluded(Glimpsed(s)).status == Running ==> Concluded(Glimpsed(s)).why == ""
    ensures Concluded(Glimpsed(s)).pod == s.pod
  {
    ClassifyIsExact(s);
  }

  /** The storage and the Deployment of the snapshot are in place. */
  predicate InPlace(s: PersistentSnapshot) {
    && (s.pvc.None? ==> s.pvcName == "") && (s.pvc.Some? ==> s.pvc.value.bound)
    && (s.deployment.None? ==> s.deploymentName == "")
  }

  /** A sandbox that is ready only in the look taken at the deadline, whatever the polls before it
      were, is recorded as failed although nothing speaks against it, and the reason names the bare
      timeout exactly when its storage and Deployment are in place. */
  lemma LateReadinessIsFailure(polls: seq<Option<Glimpse>>, s: PersistentSnapshot, id: Id, r: Record, now: Time)
    requires s.pod.Some? && s.pod.value.pod.phase == PhaseRunning && s.pod.value.pod.ready
    requires r.desired == WantActive && r.lifecycle != Deleted
    ensures var c := AtDeadline(Some(Glimpsed(s)), LastReason(polls, |polls|));
            var r' := RowAfter(WriteOf(id, c, now), r);
            && r'.lifecycle == Failed && r'.podUid == s.pod.value.pod.uid && r'.podPhase == PhaseRunning
            && (r'.reason == TIMED_OUT <==> InPlace(s))
    ensures Concluded(Glimpsed(s)) == Conclusion(s.pod, Running, "")
  {
    ClassifyIsExact(s);
    WithReasonIsLonger(PendingReason(s));
    PendingReasonOfReady(s);
    DeadlineWriteOfReady(Glimpsed(s), LastReason(polls, |polls|), id, r, now);
  }

  /** The deadline always ends in a failure. Without a last look its reason is that of the last poll
      that was still waiting; with one it is that look's. */
  lemma DeadlineIsFailure(polls: seq<Option<Glimpse>>, last: Option<Glimpse>)
    ensures var c := AtDeadline(last, LastReason(polls, |polls|));
            && c.status == Failed && c.pod == (if last.Some? then last.value.pod else None)
            && (last.Some? && last.value.startup.StartupFailed? ==> c.why == last.value.startup.why)
            && (!(last.Some? && last.value.startup.StartupFailed?) ==> TIMED_OUT <= c.why)
            && (last.None? && LastReason(polls, |polls|) == "" ==> c.why == "persistent sandbox startup timed out")
            && (last.None? && LastReason(polls, |polls|) != "" ==>
                  c.why == "persistent sandbox startup timed out" + ": " + LastReason(polls, |polls|))
            && (last.Some? && last.value.startup.StartupPending? && last.value.startup.why != "" ==>
                  c.why == "persistent sandbox startup timed out" + ": " + last.value.startup.why)
  {
  }

  lemma {:induction false} LastReasonIsLast(polls: seq<Option<Glimpse>>, n: nat, k: nat)
    requires k < n <= |polls| && polls[k].Some? && polls[k].value.startup.StartupPending?
    requires forall j :: k < j < n ==> !(polls[j].Some? && polls[j].value.startup.StartupPending?)
    ensures LastReason(polls, n) == polls[k].value.startup.why
  {
    if k < n - 1 {
      LastReasonIsLast(polls, n - 1, k);
    }
  }

  lemma DeadlineWriteOfReady(g: Glimpse, reason: string, id: Id, r: Record, now: Time)
    requires g.startup.StartupReady? && g.pod.Some? && IsLive(r)
    ensures var r' := RowAfter(WriteOf(id, AtDeadline(Some(g), reason), now), r);
            && r'.lifecycle == Failed && r'.podUid == g.pod.value.pod.uid && r'.podPhase == g.pod.value.pod.phase
            && r'.reason == WithReason(g.waiting)
  {
  }

  lemma WithReasonIsLonger(reason: string)
    ensures WithReason(reason) == TIMED_OUT <==> reason == ""
  {
    assert reason != "" ==> |WithReason(reason)| > |TIMED_OUT|;
  }

  lemma PendingReasonOfReady(s: PersistentSnapshot)
    requires PodReady(s.pod)
    ensures PendingReason(s) == "" <==> InPlace(s)
  {
    assert |"waiting for pvc " + s.pvcName + " to be created"| > 0;
    assert |"waiting for pvc " + s.pvcName + " to bind"| > 0;
    assert |"waiting for deployment " + s.deploymentName + " to be created"| > 0;
  }
}
