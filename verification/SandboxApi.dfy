/** The API calls on an existing sandbox, and the TTL cleaner. */
module SandboxApi {
  import opened Base
  import opened Names
  import opened Store
  import opened Cluster

  datatype Outcome = Done | NotFound | NotSupported | InvalidState | AlreadyStopped | NotStopped | Broken

  /** 9999-12-31T23:59:59Z: the expiry of a sandbox without a TTL. */
  const NEVER: Time := 253402300799 * SECOND

  /** `computeExpiresAt`; the TTL is converted to an int64 duration first. */
  function ComputeExpires(now: Time, ttl: int): Time {
    if ttl == 0 then NEVER else now + Wrap64(ttl * SECOND)
  }

  /** The TTL is honoured exactly when it fits a duration, which is just over 292 years. */
  lemma ExpiryIsExactIff(now: Time, ttl: int)
    requires ttl != 0
    ensures ComputeExpires(now, ttl) == now + ttl * SECOND <==> -TWO_63 <= ttl * SECOND < TWO_63
    ensures 0 < ttl <= 9223372036 ==> ComputeExpires(now, ttl) == now + ttl * SECOND
    ensures ComputeExpires(now, 9223372037) < now
    ensures now < ComputeExpires(now, 18446744074) < now + SECOND
  {
    var x := ttl * SECOND;
    assert -TWO_63 <= Wrap64(x) < TWO_63;
  }

  function RestartRule(r: Record): Outcome {
    if !IsLive(r) then NotFound
    else if !r.persistent then NotSupported
    else if r.lifecycle == Terminating || r.lifecycle == Stopped then InvalidState
    else Done
  }

  function StopRule(r: Record): Outcome {
    if !IsLive(r) then NotFound
    else if !r.persistent then NotSupported
    else if r.lifecycle == Stopped then AlreadyStopped
    else if r.lifecycle == Terminating then InvalidState
    else Done
  }

  function StartRule(r: Record): Outcome {
    if !IsLive(r) then NotFound
    else if !r.persistent then NotSupported
    else if r.lifecycle != Stopped then NotStopped
    else Done
  }

  /** The three rules: a sandbox that is deleted or on its way there is not found, an ordinary one is not
      supported, and of the others only the status decides. */
  lemma RulesAreExact(r: Record)
    ensures var hidden := r.desired == WantDeleted || r.lifecycle == Deleted;
            && (hidden <==> StopRule(r) == NotFound)
            && (hidden <==> StartRule(r) == NotFound)
            && (hidden <==> RestartRule(r) == NotFound)
            && (!hidden && !r.persistent <==> StopRule(r) == NotSupported)
            && (!hidden && !r.persistent <==> StartRule(r) == NotSupported)
            && (!hidden && !r.persistent <==> RestartRule(r) == NotSupported)
            && (StopRule(r) == AlreadyStopped <==> !hidden && r.persistent && r.lifecycle == Stopped)
            && (StopRule(r) == InvalidState <==> !hidden && r.persistent && r.lifecycle == Terminating)
            && (StopRule(r) == Done <==> !hidden && r.persistent && r.lifecycle !in {Stopped, Terminating})
            && (StartRule(r) == NotStopped <==> !hidden && r.persistent && r.lifecycle != Stopped)
            && (StartRule(r) == Done <==> !hidden && r.persistent && r.lifecycle == Stopped)
            && (RestartRule(r) == InvalidState <==> !hidden && r.persistent && r.lifecycle in {Stopped, Terminating})
            && (RestartRule(r) == Done <==> !hidden && r.persistent && r.lifecycle !in {Stopped, Terminating})
  {
  }

  function RestartVerdict(rows: Rows, id: Id): Outcome {
    if id in rows then RestartRule(rows[id]) else NotFound
  }

  function StopVerdict(rows: Rows, id: Id): Outcome {
    if id in rows then StopRule(rows[id]) else NotFound
  }

  function StartVerdict(rows: Rows, id: Id): Outcome {
    if id in rows then StartRule(rows[id]) else NotFound
  }

  /** The deadline moves by the time spent stopped. */
  function StartedExpiry(r: Record, now: Time): Time {
    if r.stoppedAt.Some? then r.expiresAt + Sub(now, r.stoppedAt.value) else r.expiresAt
  }

  /** Whether a delete call writes anything. */
  predicate DeleteActs(r: Record) {
    && !(r.lifecycle == Deleted && r.phase == Completed)
    && r.desired != WantDeleted && r.lifecycle != Terminating
  }

  /** Not even another delete call revives a row that a late write took out of its final state. */
  lemma DeleteIgnoresZombies(s: Stmt, r: Record)
    requires Unguarded(s) && StatusWritten(s) != Deleted && r.desired == WantDeleted && r.phase == Completed
    ensures Zombie(RowAfter(s, r)) && !DeleteActs(RowAfter(s, r))
  {
    LateApiWriteMakesZombie(s, r);
  }

  function Scaled(c: State, id: Id, replicas: int): State {
    var n := RuntimeName(id);
    if n in c.deployments
    then c.(deployments := c.deployments[n := c.deployments[n].(replicas := Some(replicas))])
    else c
  }

  function Priority(p: Pod): int {
    if p.deleting then 0
    else if p.phase == PhaseRunning then (if p.ready then 3 else 2)
    else if p.phase == PhasePending then 1
    else 0
  }

  /** At least as good a choice: higher priority first, then more recent. */
  predicate AtLeast(p: Pod, q: Pod) {
    Priority(p) > Priority(q) || (Priority(p) == Priority(q) && p.created >= q.created)
  }

  /** The pod `getSandboxPod` may answer with: the one named after the sandbox, else a best one
      among those that carry its label. */
  ghost predicate IsSandboxPod(c: State, id: Id, name: Option<string>) {
    if RuntimeName(id) in c.pods then name == Some(RuntimeName(id))
    else if name.None? then PodsOf(c, id) == {}
    else name.value in PodsOf(c, id) && forall n :: n in PodsOf(c, id) ==> AtLeast(c.pods[name.value], c.pods[n])
  }

  /** The choice among labelled pods: if one of them runs, is ready and is not on its way out, so does the
      chosen one, and none such is younger; a pod on its way out is chosen only if no other is pending
      or running. */
  lemma ChosenPodIsBest(c: State, id: Id, name: Option<string>, other: string)
    requires IsSandboxPod(c, id, name) && RuntimeName(id) !in c.pods && other in PodsOf(c, id)
    ensures name.Some? && name.value in c.pods
    ensures var p, q := c.pods[name.value], c.pods[other];
            && (!q.deleting && q.phase == PhaseRunning && q.ready ==>
                  && !p.deleting && p.phase == PhaseRunning && p.ready && p.created >= q.created)
            && (!q.deleting && q.phase in {PhaseRunning, PhasePending} ==>
                  !p.deleting && p.phase in {PhaseRunning, PhasePending})
            && (!q.deleting && q.phase == PhaseRunning ==> p.phase == PhaseRunning)
  {
    assert AtLeast(c.pods[name.value], c.pods[other]);
  }

  /** The Deployment named after the sandbox has `n` replicas, and nothing else in the cluster has
      changed. */
  predicate ReplicasSet(c: State, c': State, id: Id, n: int) {
    var name := "sandbox-" + id;
    && name in c.deployments && name in c'.deployments
    && c'.deployments[name].replicas == Some(n)
    && c'.deployments[name].labels == c.deployments[name].labels
    && c'.deployments[name].deleting == c.deployments[name].deleting
    && c'.deployments[name].finalizers == c.deployments[name].finalizers
    && c'.deployments - {name} == c.deployments - {name}
    && c'.pods == c.pods && c'.pvcs == c.pvcs && c'.pvs == c.pvs && c'.attachments == c.attachments
  }

  lemma ScaledSetsReplicas(c: State, id: Id, n: int)
    requires RuntimeName(id) in c.deployments
    ensures ReplicasSet(c, Scaled(c, id, n), id, n)
  {
  }

  class SandboxService {
    const store: SandboxStore
    const client: Client

    constructor (store: SandboxStore, client: Client)
      ensures this.store == store && this.client == client
    {
      this.store := store;
      this.client := client;
    }

    method FindPod(id: Id) returns (name: Option<string>)
      ensures IsSandboxPod(client.View(), id, name)
    {
      if RuntimeName(id) in client.pods {
        return Some(RuntimeName(id));
      }
      var names := Enumerate(set n | n in client.pods && client.pods[n].labels.app &&
          client.pods[n].labels.sandboxId == id);
      assert forall j :: 0 <= j < |names| ==> names[j] in PodsOf(client.View(), id);
      name := None;
      var i := 0;
      while i < |names|
        invariant 0 <= i <= |names|
        invariant name.None? <==> i == 0
        invariant name.Some? ==> name.value in PodsOf(client.View(), id)
        invariant name.Some? ==> forall j :: 0 <= j < i ==> AtLeast(client.pods[name.value], client.pods[names[j]])
      {
        if name.None? || !AtLeast(client.pods[name.value], client.pods[names[i]]) {
          name := Some(names[i]);
        }
        i := i + 1;
      }
      assert name.None? ==> PodsOf(client.View(), id) == {} by {
        if name.None? {
          assert forall n :: n in PodsOf(client.View(), id) ==> n in names;
        }
      }
    }

    /** Scales the Deployment of a persistent sandbox. */
    method Scale(id: Id, replicas: int) returns (res: Outcome)
      modifies client
      ensures res in {Done, NotFound, Broken}
      ensures client.View() == if res == Done then Scaled(old(client.View()), id, replicas) else old(client.View())
      ensures res == Done ==> RuntimeName(id) in client.deployments
      ensures res == NotFound ==> RuntimeName(id) !in client.deployments
      ensures client.reliable ==> res != Broken
    {
      var fault := Fault(client.reliable);
      if fault {
        return Broken;
      }
      var name := RuntimeName(id);
      if name !in client.deployments {
        return NotFound;
      }
      client.deployments := client.deployments[name := client.deployments[name].(replicas := Some(replicas))];
      res := Done;
    }

    /** `Stop`. A failed database write leaves the Deployment scaled down and the row as it was. */
    method Stop(id: Id, now: Time) returns (res: Outcome)
      modifies store, client
      ensures StopVerdict(old(store.rows), id) != Done ==>
                res == StopVerdict(old(store.rows), id) && client.View() == old(client.View())
      ensures res == Done ==>
                && store.rows == Apply(SetStopped(id, now), old(store.rows))
                && client.View() == Scaled(old(client.View()), id, 0)
                && ReplicasSet(old(client.View()), client.View(), id, 0)
      ensures res == Done ==>
                && id in old(store.rows)
                && store.rows[id] == old(store.rows)[id].(
                     lifecycle := Stopped, reason := "stopped by request", stoppedAt := Some(now),
                     podUid := "", podPhase := PhaseNone, podIp := "", updatedAt := now)
      ensures res != Done ==>
                && store.rows == old(store.rows)
                && client.View() in {old(client.View()), Scaled(old(client.View()), id, 0)}
      ensures store.reliable && client.reliable && StopVerdict(old(store.rows), id) == Done ==>
                res == if RuntimeName(id) in old(client.deployments) then Done else NotFound
    {
      if id !in store.rows || store.rows[id].lifecycle == Deleted || store.rows[id].desired == WantDeleted {
        return NotFound;
      }
      var r := store.rows[id];
      if !r.persistent {
        return NotSupported;
      }
      if r.lifecycle == Stopped {
        return AlreadyStopped;
      }
      if r.lifecycle == Terminating {
        return InvalidState;
      }
      res := Scale(id, 0);
      if res == Done {
        ScaledSetsReplicas(old(client.View()), id, 0);
        var ok := store.WriteStopped(id, now);
        res := if ok then Done else Broken;
      }
    }

    /** `Start`. */
    method Start(id: Id, now: Time) returns (res: Outcome)
      modifies store, client
      ensures StartVerdict(old(store.rows), id) != Done ==>
                res == StartVerdict(old(store.rows), id) && client.View() == old(client.View())
      ensures res == Done ==>
                && id in old(store.rows)
                && store.rows == Apply(SetStarted(id, StartedExpiry(old(store.rows)[id], now), now), old(store.rows))
                && client.View() == Scaled(old(client.View()), id, 1)
                && ReplicasSet(old(client.View()), client.View(), id, 1)
      ensures res == Done ==>
                && store.rows[id] == old(store.rows)[id].(
                     lifecycle := Pending, reason := "start requested", stoppedAt := None,
                     expiresAt := StartedExpiry(old(store.rows)[id], now), updatedAt := now)
      ensures res != Done ==>
                && store.rows == old(store.rows)
                && client.View() in {old(client.View()), Scaled(old(client.View()), id, 1)}
      ensures store.reliable && client.reliable && StartVerdict(old(store.rows), id) == Done ==>
                res == if RuntimeName(id) in old(client.deployments) then Done else NotFound
    {
      if id !in store.rows || store.rows[id].lifecycle == Deleted || store.rows[id].desired == WantDeleted {
        return NotFound;
      }
      var r := store.rows[id];
      if !r.persistent {
        return NotSupported;
      }
      if r.lifecycle != Stopped {
        return NotStopped;
      }
      res := Scale(id, 1);
      if res == Done {
        ScaledSetsReplicas(old(client.View()), id, 1);
        var expires := r.expiresAt;
        if r.stoppedAt.Some? {
          expires := r.expiresAt + Sub(now, r.stoppedAt.value);
        }
        var ok := store.WriteStarted(id, expires, now);
        res := if ok then Done else Broken;
      }
    }

    /** `Restart`: gracefully deletes the current pod, if any, and lets the Deployment replace it. */
    method Restart(id: Id, now: Time) returns (res: Outcome, ghost pod: Option<string>)
      modifies store, client
      ensures RestartVerdict(old(store.rows), id) != Done ==>
                res == RestartVerdict(old(store.rows), id) && client.View() == old(client.View())
      ensures res == Done ==>
                && store.rows == Apply(UpdateStatus(id, Pending, "restart requested", now), old(store.rows))
                && RuntimeName(id) in client.deployments
                && IsSandboxPod(old(client.View()), id, pod)
                && client.View() == if pod.Some? then ApplyOp(old(client.View()), DeletePod(pod.value))
                    else old(client.View())
      ensures res != Done ==>
                && store.rows == old(store.rows)
                && (client.View() == old(client.View()) ||
                    (IsSandboxPod(old(client.View()), id, pod) && pod.Some? &&
                     client.View() == ApplyOp(old(client.View()), DeletePod(pod.value))))
      ensures store.reliable && client.reliable && RestartVerdict(old(store.rows), id) == Done ==>
                res == if RuntimeName(id) in old(client.deployments) then Done else NotFound
    {
      pod := None;
      if id !in store.rows || store.rows[id].lifecycle == Deleted || store.rows[id].desired == WantDeleted {
        return NotFound, None;
      }
      var r := store.rows[id];
      if !r.persistent {
        return NotSupported, None;
      }
      if r.lifecycle == Terminating || r.lifecycle == Stopped {
        return InvalidState, None;
      }
      if RuntimeName(id) !in client.deployments {
        return NotFound, None;
      }
      var name := FindPod(id);
      pod := name;
      if name.Some? {
        var removed := client.RemovePod(name.value);
        if !removed {
          return Broken, pod;
        }
      }
      var ok := store.WriteStatus(id, Pending, "restart requested", now);
      res := if ok then Done else Broken;
    }

    /** `Delete`. */
    method Delete(id: Id, now: Time) returns (res: Outcome)
      modifies store
      ensures id !in old(store.rows) ==> res == NotFound && store.rows == old(store.rows)
      ensures id in old(store.rows) && !DeleteActs(old(store.rows)[id]) ==> res == Done && store.rows == old(store.rows)
      ensures id in old(store.rows) && DeleteActs(old(store.rows)[id]) ==>
                && res in {Done, Broken}
                && store.rows == (if res == Done then Apply(MarkDeletionRequested(id, now), old(store.rows))
                    else old(store.rows))
      ensures store.reliable && id in old(store.rows) ==> res == Done
      ensures res == Done && old(store.rows)[id].lifecycle != Deleted && OnItsWayOut(old(store.rows)[id]) ==>
                store.rows[id].lifecycle in {Terminating, Deleted}
      ensures res == Done ==>
                var r, r' := old(store.rows)[id], store.rows[id];
                if r.desired == WantDeleted || r.lifecycle in {Terminating, Deleted} then store.rows == old(store.rows)
                else && r'.desired == WantDeleted && r'.lifecycle == Terminating
                     && r'.phase == Requested && r'.nextRetry == Some(now)
    {
      if id !in store.rows {
        return NotFound;
      }
      var r := store.rows[id];
      if r.lifecycle == Deleted && r.phase == Completed {
        return Done;
      }
      if r.desired == WantDeleted || r.lifecycle == Terminating {
        return Done;
      }
      var ok := store.RequestDeletion(id, now);
      res := if ok then Done else Broken;
    }

    /** `cleanExpiredSandboxes`: every expired row, and no other, is requested for deletion. */
    method CleanExpired(now: Time, later: Time)
      requires Keyed(store.rows)
      modifies store
      ensures store.rows.Keys == old(store.rows).Keys
      ensures forall id :: id in old(store.rows) ==>
                var r := old(store.rows)[id];
                if && r.desired == WantActive && r.lifecycle !in {Deleted, Terminating, Stopped}
                   && r.ttl > 0 && r.expiresAt <= now
                then || store.rows[id] == RowAfter(MarkDeletionRequested(id, later), r)
                     || (!store.reliable && store.rows[id] == r)
                else store.rows[id] == r
    {
      var recs := store.ListRows();
      var i := 0;
      while i < |recs|
        invariant 0 <= i <= |recs|
        invariant store.rows.Keys == old(store.rows).Keys
        invariant forall j :: i <= j < |recs| ==> store.rows[recs[j].id] == old(store.rows)[recs[j].id]
        invariant forall j :: 0 <= j < i ==>
            Cleaned(old(store.rows), store.rows, recs[j].id, now, later, store.reliable)
      {
        var r := recs[i];
        if ExpiredActive(r, now) {
          var _ := store.RequestDeletion(r.id, later);
        }
        i := i + 1;
      }
      forall id | id in old(store.rows) ensures Cleaned(old(store.rows), store.rows, id, now, later, store.reliable) {
        var j :| 0 <= j < |recs| && recs[j] == old(store.rows)[id];
      }
    }
  }

  predicate Cleaned(rows: Rows, rows': Rows, id: Id, now: Time, later: Time, reliable: bool) {
    && id in rows && id in rows'
    && if ExpiredActive(rows[id], now)
       then rows'[id] == RowAfter(MarkDeletionRequested(id, later), rows[id]) || (!reliable && rows'[id] == rows[id])
       else rows'[id] == rows[id]
  }
}
