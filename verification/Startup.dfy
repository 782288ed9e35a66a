/** How a persistent sandbox's startup is judged from what the cluster shows of it. */
module Startup {
  import opened Base
  import opened Text
  import opened Names
  import opened Store
  import opened Cluster

  datatype Event = Event(warning: bool, reason: string, message: string)

  datatype ConditionKind = ReplicaFailure | Progressing | OtherCondition

  datatype Condition = Condition(kind: ConditionKind, holds: Option<bool>, reason: string, message: string)

  datatype Terminated = Terminated(exitCode: int, reason: string, message: string)

  datatype Waiting = Waiting(reason: string, message: string)

  datatype ContainerStatus = ContainerStatus(name: string, terminated: Option<Terminated>, waiting: Option<Waiting>)

  /** The parts of a pod's status that only this classification looks at. */
  datatype PodDetail = PodDetail(reason: string, message: string, init: seq<ContainerStatus>,
      main: seq<ContainerStatus>)

  datatype NamedPod = NamedPod(name: string, pod: Pod, detail: PodDetail)

  datatype PersistentSnapshot = PersistentSnapshot(
    deploymentName: string, pvcName: string,
    deployment: Option<Deployment>, conditions: seq<Condition>,
    pvc: Option<Pvc>, pod: Option<NamedPod>,
    deploymentEvents: seq<Event>, pvcEvents: seq<Event>, podEvents: seq<Event>)

  datatype Startup = StartupPending(why: string) | StartupReady | StartupFailed(why: string)

  const TERMINAL_FRAGMENTS := [
    "no available disk candidates", "unable to create new replica", "all replicas are failed",
    "failed to auto salvage volume", "failed to provision volume"]

  const WAITING_REASONS := {
    "CrashLoopBackOff", "CreateContainerConfigError", "CreateContainerError", "ErrImagePull",
    "ImageInspectError", "ImagePullBackOff", "InvalidImageName", "RunContainerError"}

  predicate Terminal(msg: string) {
    exists i :: 0 <= i < |TERMINAL_FRAGMENTS| && Contains(ToLower(TrimSpace(msg)), TERMINAL_FRAGMENTS[i])
  }

  predicate PodReady(p: Option<NamedPod>) {
    p.Some? && p.value.pod.phase == PhaseRunning && p.value.pod.ready
  }

  function StoragePrefix(reason: string): string {
    if reason == "FailedAttachVolume" || reason == "FailedMount" then "storage attach/mount failed"
    else "storage provisioning failed"
  }

  /** The first warning that reports a terminal storage failure. */
  function StorageEvent(es: seq<Event>): (r: string)
    ensures r != "" <==> exists e :: e in es && e.warning && Terminal(e.message)
  {
    if es == [] then ""
    else if es[0].warning && Terminal(es[0].message) then StoragePrefix(es[0].reason) + ": " + es[0].message
    else StorageEvent(es[1..])
  }

  function DeploymentEvent(es: seq<Event>): (r: string)
    ensures r != "" <==> exists e :: e in es && e.warning && Terminal(e.message)
  {
    if es == [] then ""
    else if es[0].warning && Terminal(es[0].message) then "storage provisioning failed: " + es[0].message
    else DeploymentEvent(es[1..])
  }

  function FirstNonEmpty(a: string, b: string, c: string): string {
    if TrimSpace(a) != "" then TrimSpace(a) else if TrimSpace(b) != "" then TrimSpace(b) else c
  }

  function ReplicaFailureReason(cs: seq<Condition>): (r: string)
    ensures r != "" <==> exists c :: c in cs && c.kind == ReplicaFailure && c.holds == Some(true)
  {
    if cs == [] then ""
    else if cs[0].kind == ReplicaFailure && cs[0].holds == Some(true) then
      var m := FirstNonEmpty(cs[0].message, cs[0].reason, "persistent volume provisioning failed");
      (if Terminal(m) then "storage provisioning failed: " else "persistent sandbox deployment failed: ") + m
    else ReplicaFailureReason(cs[1..])
  }

  function NoProgressReason(cs: seq<Condition>): (r: string)
    ensures r != "" <==> exists c :: c in cs && c.kind == Progressing && c.holds == Some(false)
  {
    if cs == [] then ""
    else if cs[0].kind == Progressing && cs[0].holds == Some(false) then
      "persistent sandbox pod failed to start: " +
      FirstNonEmpty(cs[0].message, cs[0].reason, "persistent sandbox pod failed to start")
    else NoProgressReason(cs[1..])
  }

  predicate ContainerFailed(c: ContainerStatus) {
    (c.terminated.Some? && c.terminated.value.exitCode != 0) ||
        (c.waiting.Some? && c.waiting.value.reason in WAITING_REASONS)
  }

  function ExitText(code: int): string {
    if code < 0 then "-" + Decimal(-code) else Decimal(code)
  }

  function ContainerReason(cs: seq<ContainerStatus>): (r: string)
    ensures r != "" <==> exists c :: c in cs && ContainerFailed(c)
  {
    if cs == [] then ""
    else
      var c := cs[0];
      assert c in cs;
      if c.terminated.Some? && c.terminated.value.exitCode != 0 then
        var t := c.terminated.value;
        "container " + c.name +
        (if t.message != "" then " terminated: " + t.message
         else if t.reason != "" then " terminated: " + t.reason
         else " terminated with exit code " + ExitText(t.exitCode))
      else if c.waiting.Some? && c.waiting.value.reason in WAITING_REASONS then
        "container " + c.name + " waiting: " + (if c.waiting.value.message != "" then c.waiting.value.message
            else c.waiting.value.reason)
      else ContainerReason(cs[1..])
  }

  function StorageFailure(s: PersistentSnapshot): string {
    var e := StorageEvent(s.pvcEvents + s.podEvents);
    if e != "" then e
    else
      var d := DeploymentEvent(s.deploymentEvents);
      if d != "" then d else if s.deployment.Some? then ReplicaFailureReason(s.conditions) else ""
  }

  function PodFailure(p: NamedPod): string {
    var prefix := "persistent sandbox pod failed to start";
    if p.pod.phase == PhaseFailed then
      if p.detail.message != "" then prefix + ": " + p.detail.message
      else if p.detail.reason != "" then prefix + ": " + p.detail.reason
      else prefix
    else if ContainerReason(p.detail.init) != "" then prefix + ": " + ContainerReason(p.detail.init)
    else if ContainerReason(p.detail.main) != "" then prefix + ": " + ContainerReason(p.detail.main)
    else ""
  }

  function StartFailure(s: PersistentSnapshot): string {
    var p := if s.pod.Some? then PodFailure(s.pod.value) else "";
    if p != "" then p else if s.deployment.Some? then NoProgressReason(s.conditions) else ""
  }

  function PendingReason(s: PersistentSnapshot): string {
    if s.pvc.None? && s.pvcName != "" then "waiting for pvc " + s.pvcName + " to be created"
    else if s.pvc.Some? && !s.pvc.value.bound then "waiting for pvc " + s.pvcName + " to bind"
    else if s.deployment.None? && s.deploymentName != "" then
        "waiting for deployment " + s.deploymentName + " to be created"
    else if s.pod.None? then "waiting for deployment to create pod"
    else if s.pod.value.pod.phase == PhasePending then
      if s.pod.value.detail.message != "" then s.pod.value.detail.message
      else if s.pod.value.detail.reason != "" then s.pod.value.detail.reason
      else "waiting for pod scheduling"
    else if s.pod.value.pod.phase == PhaseRunning && !PodReady(s.pod) then "waiting for pod readiness"
    else ""
  }

  function Classify(s: PersistentSnapshot): Startup {
    if PodReady(s.pod) then StartupReady
    else if StorageFailure(s) != "" then StartupFailed(StorageFailure(s))
    else if StartFailure(s) != "" then StartupFailed(StartFailure(s))
    else StartupPending(PendingReason(s))
  }

  // ----- What the verdict means -------------------------------------------------------------

  predicate LossPhrase(part: string) {
    || part == "no available disk candidates" || part == "unable to create new replica"
    || part == "all replicas are failed" || part == "failed to auto salvage volume"
    || part == "failed to provision volume"
  }

  /** A message that reports, in any case of letters, that storage will not come. */
  ghost predicate ReportsLostStorage(msg: string) {
    exists before, part, after :: LossPhrase(part) && ToLower(TrimSpace(msg)) == before + part + after
  }

  lemma TerminalIsExact(msg: string)
    ensures Terminal(msg) <==> ReportsLostStorage(msg)
  {
    var m := ToLower(TrimSpace(msg));
    if Terminal(msg) {
      var i :| 0 <= i < |TERMINAL_FRAGMENTS| && Contains(m, TERMINAL_FRAGMENTS[i]);
      ContainsIff(m, TERMINAL_FRAGMENTS[i]);
      assert LossPhrase(TERMINAL_FRAGMENTS[i]);
    }
    if before, part, after :| LossPhrase(part) && m == before + part + after {
      ContainsIff(m, part);
      assert part == TERMINAL_FRAGMENTS[0] || part == TERMINAL_FRAGMENTS[1] || part == TERMINAL_FRAGMENTS[2]
          || part == TERMINAL_FRAGMENTS[3] || part == TERMINAL_FRAGMENTS[4];
    }
  }

  /** Evidence that storage will not come: a warning on the claim, the pod or the Deployment that says
      so, or a Deployment that reports a replica failure. */
  ghost predicate StorageEvidence(s: PersistentSnapshot) {
    || (exists e :: (e in s.pvcEvents || e in s.podEvents || e in s.deploymentEvents) && e.warning &&
                      ReportsLostStorage(e.message))
    || (s.deployment.Some? && exists c :: c in s.conditions && c.kind == ReplicaFailure && c.holds == Some(true))
  }

  /** A container that ended badly, or waits for a reason that does not go away. */
  predicate Broken(c: ContainerStatus) {
    || (c.terminated.Some? && c.terminated.value.exitCode != 0)
    || (c.waiting.Some? &&
        var why := c.waiting.value.reason;
        || why == "CrashLoopBackOff" || why == "CreateContainerConfigError" || why == "CreateContainerError"
        || why == "ErrImagePull" || why == "ImageInspectError" || why == "ImagePullBackOff"
        || why == "InvalidImageName" || why == "RunContainerError")
  }

  /** Evidence that the pod does not start: it failed, one of its containers is broken, or the
      Deployment makes no progress. */
  ghost predicate StartEvidence(s: PersistentSnapshot) {
    || (s.pod.Some? && s.pod.value.pod.phase == PhaseFailed)
    || (s.pod.Some? && exists c :: (c in s.pod.value.detail.init || c in s.pod.value.detail.main) && Broken(c))
    || (s.deployment.Some? && exists c :: c in s.conditions && c.kind == Progressing && c.holds == Some(false))
  }

  ghost predicate FailureEvidence(s: PersistentSnapshot) {
    StorageEvidence(s) || StartEvidence(s)
  }

  /** The verdict, on the pod's own fields and the evidence: readiness decides first, evidence second. A
      failure is always explained. */
  lemma ClassifyIsExact(s: PersistentSnapshot)
    ensures Classify(s).StartupReady? <==>
            s.pod.Some? && s.pod.value.pod.phase == PhaseRunning && s.pod.value.pod.ready
    ensures Classify(s).StartupFailed? <==>
            !(s.pod.Some? && s.pod.value.pod.phase == PhaseRunning && s.pod.value.pod.ready) && FailureEvidence(s)
    ensures Classify(s).StartupFailed? ==> Classify(s).why != ""
  {
    StorageFailureIsExact(s);
    StartFailureIsExact(s);
  }

  lemma StorageFailureIsExact(s: PersistentSnapshot)
    ensures StorageFailure(s) != "" <==> StorageEvidence(s)
  {
    forall e: Event ensures Terminal(e.message) <==> ReportsLostStorage(e.message) {
      TerminalIsExact(e.message);
    }
    assert forall e :: e in s.pvcEvents + s.podEvents <==> e in s.pvcEvents || e in s.podEvents;
  }

  lemma StartFailureIsExact(s: PersistentSnapshot)
    ensures StartFailure(s) != "" <==> StartEvidence(s)
  {
    if s.pod.Some? {
      PodFailureIsExact(s.pod.value);
    }
  }

  lemma PodFailureIsExact(p: NamedPod)
    ensures PodFailure(p) != "" <==>
            p.pod.phase == PhaseFailed || exists c :: (c in p.detail.init || c in p.detail.main) && Broken(c)
  {
    forall c: ContainerStatus ensures ContainerFailed(c) <==> Broken(c) {
      BrokenIsFailed(c);
    }
  }

  lemma BrokenIsFailed(c: ContainerStatus)
    ensures ContainerFailed(c) <==> Broken(c)
  {
  }

  /** The reason is that of the first event that reports the loss. */
  lemma {:induction false} FirstStorageEventCounts(es: seq<Event>, k: nat)
    requires k < |es| && es[k].warning && ReportsLostStorage(es[k].message)
    requires forall j :: 0 <= j < k ==> !(es[j].warning && ReportsLostStorage(es[j].message))
    ensures StorageEvent(es) ==
            (if es[k].reason == "FailedAttachVolume" || es[k].reason == "FailedMount"
             then "storage attach/mount failed: " else "storage provisioning failed: ") + es[k].message
    ensures DeploymentEvent(es) == "storage provisioning failed: " + es[k].message
  {
    TerminalIsExact(es[0].message);
    if k == 0 {
      assert "storage attach/mount failed" + ": " == "storage attach/mount failed: ";
      assert "storage provisioning failed" + ": " == "storage provisioning failed: ";
    } else {
      FirstStorageEventCounts(es[1..], k - 1);
    }
  }

  /** The reason is that of the first broken container: how it ended, or else what it waits for. */
  lemma {:induction false} FirstBrokenContainerCounts(cs: seq<ContainerStatus>, k: nat)
    requires k < |cs| && Broken(cs[k]) && forall j :: 0 <= j < k ==> !Broken(cs[j])
    ensures var t, w := cs[k].terminated, cs[k].waiting;
            ContainerReason(cs) ==
              if t.Some? && t.value.exitCode != 0 then
                "container " + cs[k].name +
                (if t.value.message != "" then " terminated: " + t.value.message
                 else if t.value.reason != "" then " terminated: " + t.value.reason
                 else " terminated with exit code " + ExitText(t.value.exitCode))
              else
                "container " + cs[k].name + " waiting: " +
                if w.value.message != "" then w.value.message else w.value.reason
  {
    BrokenIsFailed(cs[0]);
    if k > 0 {
      FirstBrokenContainerCounts(cs[1..], k - 1);
    }
  }

  /** A failing Deployment is explained by the first condition that says so: its message, else its
      reason, without surrounding white space. */
  lemma {:induction false} FirstConditionCounts(cs: seq<Condition>, k: nat)
    requires k < |cs| && TrimSpace(cs[k].message) + TrimSpace(cs[k].reason) != ""
    ensures var m := if TrimSpace(cs[k].message) != "" then TrimSpace(cs[k].message) else TrimSpace(cs[k].reason);
            && (cs[k].kind == ReplicaFailure && cs[k].holds == Some(true) &&
                (forall j :: 0 <= j < k ==> !(cs[j].kind == ReplicaFailure && cs[j].holds == Some(true))) ==>
                  ReplicaFailureReason(cs) ==
                    (if ReportsLostStorage(m) then "storage provisioning failed: "
                     else "persistent sandbox deployment failed: ") + m)
            && (cs[k].kind == Progressing && cs[k].holds == Some(false) &&
                (forall j :: 0 <= j < k ==> !(cs[j].kind == Progressing && cs[j].holds == Some(false))) ==>
                  NoProgressReason(cs) == "persistent sandbox pod failed to start: " + m)
  {
    if k == 0 {
      TerminalIsExact(FirstNonEmpty(cs[0].message, cs[0].reason, ""));
    } else {
      FirstConditionCounts(cs[1..], k - 1);
    }
  }

  /** The reason tells the two kinds of failure apart, storage first. */
  lemma ReasonNamesTheKind(s: PersistentSnapshot)
    requires Classify(s).StartupFailed?
    ensures StorageEvidence(s) <==> !("persistent sandbox pod failed to start" <= Classify(s).why)
    ensures StorageEvidence(s) <==>
            || "storage " <= Classify(s).why
            || "persistent sandbox deployment failed: " <= Classify(s).why
  {
    StorageFailureIsExact(s);
    var prefix := "persistent sandbox pod failed to start";
    assert prefix[0] == 'p' && prefix[19] == 'p';
    if StorageFailure(s) != "" {
      StorageReasonPrefix(s);
    } else {
      StartReasonPrefix(s);
    }
  }

  lemma StorageReasonPrefix(s: PersistentSnapshot)
    requires StorageFailure(s) != ""
    ensures "storage " <= StorageFailure(s) || "persistent sandbox deployment failed: " <= StorageFailure(s)
  {
    EventReasonPrefix(s.pvcEvents + s.podEvents);
    EventReasonPrefix(s.deploymentEvents);
    ReplicaReasonPrefix(s.conditions);
  }

  lemma {:induction false} EventReasonPrefix(es: seq<Event>)
    ensures StorageEvent(es) != "" ==> "storage " <= StorageEvent(es)
    ensures DeploymentEvent(es) != "" ==> "storage " <= DeploymentEvent(es)
  {
    if es != [] {
      EventReasonPrefix(es[1..]);
      EventTextPrefix(es[0]);
    }
  }

  lemma EventTextPrefix(e: Event)
    ensures "storage " <= StoragePrefix(e.reason) + ": " + e.message
    ensures "storage " <= "storage provisioning failed: " + e.message
  {
    PrefixOfSum("storage ", StoragePrefix(e.reason) + ": ", e.message);
    PrefixOfSum("storage ", "storage provisioning failed: ", e.message);
  }

  lemma PrefixOfSum(p: string, a: string, b: string)
    requires p <= a
    ensures p <= a + b
  {
  }

  lemma {:induction false} ReplicaReasonPrefix(cs: seq<Condition>)
    ensures ReplicaFailureReason(cs) != "" ==>
            || "storage " <= ReplicaFailureReason(cs)
            || "persistent sandbox deployment failed: " <= ReplicaFailureReason(cs)
  {
    if cs != [] {
      ReplicaReasonPrefix(cs[1..]);
    }
  }

  lemma StartReasonPrefix(s: PersistentSnapshot)
    requires StartFailure(s) != ""
    ensures "persistent sandbox pod failed to start" <= StartFailure(s)
  {
    NoProgressPrefix(s.conditions);
  }

  lemma {:induction false} NoProgressPrefix(cs: seq<Condition>)
    ensures NoProgressReason(cs) != "" ==> "persistent sandbox pod failed to start" <= NoProgressReason(cs)
  {
    if cs != [] {
      NoProgressPrefix(cs[1..]);
    }
  }

  /** While nothing is decided the reason names the first thing that is missing, in the order claim,
      Deployment, pod. */
  lemma WaitingNamesTheObstacle(s: PersistentSnapshot)
    requires Classify(s).StartupPending?
    ensures s.pvc.None? && s.pvcName != "" ==> Classify(s).why == "waiting for pvc " + s.pvcName + " to be created"
    ensures s.pvc.Some? && !s.pvc.value.bound ==> Classify(s).why == "waiting for pvc " + s.pvcName + " to bind"
    ensures (if s.pvc.Some? then s.pvc.value.bound else s.pvcName == "") ==>
            && (s.deployment.None? && s.deploymentName != "" ==>
                  Classify(s).why == "waiting for deployment " + s.deploymentName + " to be created")
            && ((s.deployment.Some? || s.deploymentName == "") && s.pod.None? ==>
                  Classify(s).why == "waiting for deployment to create pod")
            && ((s.deployment.Some? || s.deploymentName == "") && s.pod.Some? ==>
                  (s.pod.value.pod.phase == PhaseRunning ==> Classify(s).why == "waiting for pod readiness"))
  {
  }

  /** What the reconciler takes from a snapshot. */
  datatype Sighting = Sighting(deployment: Option<Deployment>, pvc: Option<Pvc>, pod: Option<NamedPod>,
      startup: Startup)

  function Sight(s: PersistentSnapshot): Sighting {
    Sighting(s.deployment, s.pvc, s.pod, Classify(s))
  }
}
