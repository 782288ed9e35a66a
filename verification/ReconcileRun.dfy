/** The reconcile pass as the service performs it: a loop over the rows that keeps two counters and
    crosses listed pods off, against the per-row specification. */
module ReconcileRun {
  import opened Base
  import opened Names
  import opened Store
  import opened Cluster
  import opened Startup
  import opened Deletion
  import opened DeletionRuns
  import opened Reconcile
  import DeletionFrame

  /** What a pass counts rows for. */
  datatype Tally = Drift | Fix

  /** Whether a correct pass counts the row. */
  predicate Counts(r: Record, look: Look, now: Time, t: Tally) {
    match t
    case Drift => Visible(look, r) && RemedyFor(r, look, now).drifted
    case Fix => Visible(look, r) && RemedyFor(r, look, now).fixed
  }

  function IdsCounted(rows: Rows, look: Look, now: Time, t: Tally): set<Id> {
    set id | id in rows && Counts(rows[id], look, now, t)
  }

  /** Every row is as its remedy leaves it. */
  ghost predicate RowsReconciled(rows: Rows, rows': Rows, look: Look, now: Time) {
    forall id :: id in rows ==> id in rows' && Visible(look, rows[id]) && rows'[id] == Reconciled(rows[id], look, now)
  }

  /** `podMap`: every labelled id with its last pod in list order. */
  function PodIndex(pods: seq<Pod>, n: nat): map<string, Pod>
    requires n <= |pods|
  {
    if n == 0 then map[]
    else
      var rest := PodIndex(pods, n - 1);
      if pods[n - 1].labels.sandboxId == "" then rest else rest[pods[n - 1].labels.sandboxId := pods[n - 1]]
  }

  lemma {:induction false} PodIndexFindsLast(pods: seq<Pod>, n: nat, id: string)
    requires n <= |pods| && id != ""
    ensures id in PodIndex(pods, n) <==> id in PodIds(pods[..n])
    ensures LastPod(pods[..n], id) == Lookup(PodIndex(pods, n), id)
  {
    if n > 0 {
      PodIndexFindsLast(pods, n - 1, id);
      assert pods[..n] == pods[..n - 1] + [pods[n - 1]];
      assert pods[..n][..n - 1] == pods[..n - 1];
    }
  }

  lemma {:induction false} IndexedIdsAreLabels(pods: seq<Pod>, n: nat)
    requires n <= |pods|
    ensures "" !in PodIndex(pods, n)
  {
    if n > 0 {
      IndexedIdsAreLabels(pods, n - 1);
    }
  }

  method BuildPodMap(pods: seq<Pod>) returns (podMap: map<string, Pod>)
    ensures podMap == PodIndex(pods, |pods|)
  {
    podMap := map[];
    var i := 0;
    while i < |pods|
      invariant 0 <= i <= |pods|
      invariant podMap == PodIndex(pods, i)
    {
      var id := pods[i].labels.sandboxId;
      if id != "" {
        podMap := podMap[id := pods[i]];
      }
      i := i + 1;
    }
  }

  /** Looks the row's pod up and crosses it off, unless the row is persistent and its snapshot has
      no pod. */
  method TakePod(podMap: map<string, Pod>, recs: seq<Record>, i: nat, look: Look)
    returns (pod: Option<Pod>, rest: map<string, Pod>)
    requires i < |recs| && Distinct(recs) && podMap == CrossOff(recs, i, look)
    ensures pod == LastPod(look.pods, recs[i].id)
    ensures rest == CrossOff(recs, i + 1, look)
  {
    var r := recs[i];
    CrossOffKeys(recs, i, look, r.id);
    PodIndexFindsLast(look.pods, |look.pods|, r.id);
    assert look.pods[..|look.pods|] == look.pods;
    pod := if r.id in podMap then Some(podMap[r.id]) else None;
    rest := podMap;
    if !r.persistent || (r.id in look.snaps && look.snaps[r.id].pod.Some?) {
      rest := podMap - {r.id};
    }
  }

  predicate SameIdentity(r: Record, r': Record) {
    StaticOf(r') == StaticOf(r) && r'.id == r.id && IsLive(r') == IsLive(r)
  }

  function NameOf(pod: Option<NamedPod>): set<string> {
    if pod.Some? then {pod.value.name} else {}
  }

  /** The pod a stopped sandbox must not keep. */
  function Leftover(r: Record, s: Sighting): set<string> {
    if r.desired == WantActive && TreatAsStopped(r, s) then NameOf(s.pod) else {}
  }

  function LeftoverOf(r: Record, look: Look): set<string> {
    if r.persistent && r.id in look.snaps then Leftover(r, look.snaps[r.id]) else {}
  }

  /** The leftover pods of the first `n` records, and of a whole table. */
  function LeftoversOf(recs: seq<Record>, n: nat, look: Look): set<string>
    requires n <= |recs|
  {
    if n == 0 then {} else LeftoversOf(recs, n - 1, look) + LeftoverOf(recs[n - 1], look)
  }

  function Leftovers(rows: Rows, look: Look): set<string> {
    set id, n | id in rows && n in LeftoverOf(rows[id], look) :: n
  }

  lemma {:induction false} LeftoversAt(recs: seq<Record>, n: nat, look: Look, name: string)
    requires n <= |recs|
    ensures name in LeftoversOf(recs, n, look) <==> exists j :: 0 <= j < n && name in LeftoverOf(recs[j], look)
  {
    if n > 0 {
      LeftoversAt(recs, n - 1, look, name);
    }
  }

  lemma {:induction false} LeftoversGrow(recs: seq<Record>, n: nat, m: nat, look: Look)
    requires n <= m <= |recs|
    ensures LeftoversOf(recs, n, look) <= LeftoversOf(recs, m, look)
    decreases m
  {
    if n < m {
      LeftoversGrow(recs, n, m - 1, look);
    }
  }

  lemma LeftoversListed(recs: seq<Record>, rows: Rows, look: Look)
    requires Lists(recs, rows)
    ensures LeftoversOf(recs, |recs|, look) == Leftovers(rows, look)
  {
    forall name: string ensures name in LeftoversOf(recs, |recs|, look) <==> name in Leftovers(rows, look) {
      LeftoversAt(recs, |recs|, look, name);
      if id :| id in rows && name in LeftoverOf(rows[id], look) {
        assert rows[id] in recs;
      }
    }
  }

  /** The calls of a remedy are graceful deletions of the leftover pod. */
  lemma OnlyLeftoversAreDeleted(r: Record, s: Sighting, now: Time)
    ensures forall a :: a in ReconcilePersistent(r, s, now).actions && a.K8s? ==>
        a.op.DeletePod? && a.op.name in Leftover(r, s)
    ensures forall n :: n in Leftover(r, s) ==> K8s(DeletePod(n)) in ReconcilePersistent(r, s, now).actions
  {
  }

  /** No pod appears or vanishes and only the named ones may be marked for deletion, all of them if
      the pass was complete. */
  ghost predicate PodsMarked(p: map<string, Pod>, p': map<string, Pod>, names: set<string>, complete: bool) {
    && p'.Keys == p.Keys
    && (forall n :: n in p ==> p'[n] == p[n] || (n in names && p'[n] == p[n].(deleting := true)))
    && (complete ==> forall n :: n in p && n in names ==> p'[n].deleting)
  }

  lemma MarkedInTurn(recs: seq<Record>, i: nat, look: Look, p: map<string, Pod>, p1: map<string, Pod>,
      p2: map<string, Pod>, c: bool, ok: bool)
    requires i < |recs| && PodsMarked(p, p1, LeftoversOf(recs, i, look), c)
    requires PodsMarked(p1, p2, LeftoverOf(recs[i], look), c && ok)
    ensures PodsMarked(p, p2, LeftoversOf(recs, i + 1, look), c && ok)
    ensures !ok ==> PodsMarked(p, p2, LeftoversOf(recs, |recs|, look), c && ok)
  {
    LeftoversGrow(recs, i + 1, |recs|, look);
  }

  class ReconcileService {
    const store: SandboxStore
    const client: Client

    constructor (store: SandboxStore, client: Client)
      ensures this.store == store && this.client == client
    {
      this.store := store;
      this.client := client;
    }

    /** What handling one row promises: only that row is written, a fix is always also a drift, and
        with a reliable store and cluster the row, the flags and the cluster are as specified. */
    twostate predicate Handled(r: Record, m: Remedy, names: set<string>, drifted: bool, fixed: bool, ok: bool)
      reads store, client
    {
      && r.id in store.rows
      && StaticOf(store.rows[r.id]) == StaticOf(r) && store.rows[r.id].id == r.id
      && store.rows == old(store.rows)[r.id := store.rows[r.id]]
      && (fixed ==> drifted)
      && (ok ==> drifted == m.drifted)
      && (store.reliable && client.reliable ==>
            ok && fixed == m.fixed && store.rows[r.id] == RowAct(m.actions, r))
      && client.View() == old(client.View()).(pods := client.pods)
      && PodsMarked(old(client.pods), client.pods, names, client.reliable && ok)
    }

    method HandleMissing(r: Record, gone: string, lost: string, countStopped: bool, now: Time)
      returns (drifted: bool, fixed: bool)
      requires r.id in store.rows && store.rows[r.id] == r
      modifies store
      ensures Handled(r, Missing(r, gone, lost, countStopped, now), {}, drifted, fixed, true)
    {
      drifted, fixed := true, false;
      match r.lifecycle {
        case Terminating =>
          fixed := store.Complete(r.id, gone, now);
          RowActOne(Db(MarkCompleted(r.id, gone, now)), r);
        case Deleted =>
        case Stopped =>
          drifted := countStopped;
        case _ =>
          if BeyondGrace(r, now) {
            fixed := store.StatusIfActive(r.id, Lost, lost, now);
            RowActOne(Db(UpdateStatusIfActive(r.id, Lost, lost, now)), r);
          }
      }
    }

    method HandleOrdinary(r: Record, pod: Option<Pod>, now: Time) returns (drifted: bool, fixed: bool)
      requires r.id in store.rows && store.rows[r.id] == r
      modifies store
      ensures Handled(r, ReconcileOrdinary(r, pod, now), {}, drifted, fixed, true)
    {
      drifted, fixed := false, false;
      if r.desired == WantDeleted {
        drifted := pod.Some? || r.lifecycle != Deleted;
      } else if pod.None? {
        drifted, fixed := HandleMissing(r, POD_GONE, POD_LOST, true, now);
      } else {
        var p := pod.value;
        var status := PodStatus(p);
        if r.podUid != p.uid || r.podPhase != p.phase || r.podIp != p.ip || r.lifecycle != status {
          drifted := true;
          fixed := store.ObservedIfActive(r.id, p.uid, p.phase, p.ip, status, "", now);
          RowActOne(Db(UpdateObservedIfActive(r.id, p.uid, p.phase, p.ip, status, "", now)), r);
        }
      }
    }

    method Backfill(r: Record, now: Time) returns (ok: bool)
      requires r.id in store.rows && store.rows[r.id] == r
      modifies store
      ensures r.id in store.rows && store.rows == old(store.rows)[r.id := store.rows[r.id]]
      ensures SameIdentity(r, store.rows[r.id])
      ensures ok ==> store.rows[r.id] == RowAct(BackfillStop(r, now), r)
      ensures store.reliable ==> ok
    {
      ok := true;
      if r.stoppedAt.None? {
        ok := store.BackfillStoppedAt(r.id, now);
        RowActOne(BackfillStop(r, now)[0], r);
      }
    }

    method Restore(r: Record, now: Time) returns (updated: bool)
      requires r.id in store.rows && SameIdentity(r, store.rows[r.id])
      modifies store
      ensures r.id in store.rows && store.rows == old(store.rows)[r.id := store.rows[r.id]]
      ensures SameIdentity(old(store.rows)[r.id], store.rows[r.id])
      ensures updated ==> StoppedMismatch(r)
      ensures store.reliable ==>
                && updated == (StoppedMismatch(r) && IsLive(r))
                && store.rows[r.id] == RowAct(RestoreStopped(r, now), old(store.rows)[r.id])
    {
      updated := false;
      var reason := StoppedReason(r.reason);
      if r.lifecycle != Stopped || r.reason != reason || r.podUid != "" || r.podPhase != PhaseNone || r.podIp != "" {
        updated := store.ObservedIfActive(r.id, "", PhaseNone, "", Stopped, reason, now);
        RowActOne(RestoreStopped(r, now)[0], old(store.rows)[r.id]);
      }
    }

    method DropPod(pod: Option<NamedPod>) returns (ok: bool)
      modifies client
      ensures client.View() == old(client.View()).(pods := client.pods)
      ensures PodsMarked(old(client.pods), client.pods, NameOf(pod), ok)
      ensures client.reliable ==> ok
    {
      ok := true;
      if pod.Some? {
        ok := client.RemovePod(pod.value.name);
        assert client.pods == client.View().pods;
      }
    }

    method HandleStopped(r: Record, pod: Option<NamedPod>, now: Time) returns (drifted: bool, fixed: bool, ok: bool)
      requires r.id in store.rows && store.rows[r.id] == r
      modifies store, client
      ensures Handled(r, ReconcileStopped(r, pod, now), NameOf(pod), drifted, fixed, ok)
    {
      drifted, fixed := r.stoppedAt.None?, false;
      ok := Backfill(r, now);
      if !ok {
        return;
      }
      fixed := drifted;
      ghost var r1 := store.rows[r.id];
      drifted := drifted || pod.Some?;
      ok := DropPod(pod);
      if !ok {
        return;
      }
      fixed := drifted;
      RowActCalls(RemoveLeftover(pod), r1);
      var updated := Restore(r, now);
      drifted := drifted || StoppedMismatch(r);
      fixed := fixed || updated;
      RowActThree(BackfillStop(r, now), RemoveLeftover(pod), RestoreStopped(r, now), r);
    }

    method WriteVerdict(r: Record, pod: Option<NamedPod>, status: Lifecycle, why: string, now: Time)
      returns (fixed: bool)
      requires r.id in store.rows && store.rows[r.id] == r
      modifies store
      ensures Handled(r, WriteStatusOf(r, pod, status, why, now), {}, true, fixed, true)
    {
      if pod.Some? {
        var p := pod.value.pod;
        fixed := store.ObservedIfActive(r.id, p.uid, p.phase, p.ip, status, why, now);
      } else {
        fixed := store.StatusIfActive(r.id, status, why, now);
      }
      RowActOne(WriteStatusOf(r, pod, status, why, now).actions[0], r);
    }

    method HandleStartup(r: Record, s: Sighting, now: Time) returns (drifted: bool, fixed: bool)
      requires r.id in store.rows && store.rows[r.id] == r
      modifies store
      ensures Handled(r, ReconcileStartup(r, s, now), {}, drifted, fixed, true)
    {
      drifted, fixed := false, false;
      match s.startup {
        case StartupReady =>
          drifted := r.lifecycle != Running || r.reason != "" || s.pod.None? || PodFieldsDiffer(r, s.pod.value.pod);
          if drifted {
            fixed := WriteVerdict(r, s.pod, Running, "", now);
          }
        case StartupFailed(why) =>
          drifted := r.lifecycle != Failed || r.reason != why || (s.pod.Some? && PodFieldsDiffer(r, s.pod.value.pod));
          if drifted {
            fixed := WriteVerdict(r, s.pod, Failed, why, now);
          }
        case StartupPending(_) =>
          if r.lifecycle != Failed {
            var uid, phase, ip := "", PhaseNone, "";
            if s.pod.Some? {
              uid, phase, ip := s.pod.value.pod.uid, s.pod.value.pod.phase, s.pod.value.pod.ip;
            }
            drifted := r.lifecycle != Pending || r.reason != "" || r.podUid != uid || r.podPhase != phase ||
                r.podIp != ip;
            if drifted {
              fixed := WriteVerdict(r, s.pod, Pending, "", now);
            }
          }
      }
    }

    method HandlePersistent(r: Record, s: Sighting, now: Time) returns (drifted: bool, fixed: bool, ok: bool)
      requires r.id in store.rows && store.rows[r.id] == r
      modifies store, client
      ensures Handled(r, ReconcilePersistent(r, s, now), Leftover(r, s), drifted, fixed, ok)
    {
      drifted, fixed, ok := false, false, true;
      if r.desired == WantDeleted {
        var residual := s.deployment.Some? || s.pod.Some? || (s.pvc.Some? && r.policy != Retain);
        drifted := residual || r.lifecycle != Deleted;
      } else if s.pod.None? && s.pvc.None? && s.deployment.None? {
        drifted, fixed := HandleMissing(r, RUNTIME_GONE, RUNTIME_LOST, false, now);
      } else if TreatAsStopped(r, s) {
        drifted, fixed, ok := HandleStopped(r, s.pod, now);
      } else {
        drifted, fixed := HandleStartup(r, s, now);
      }
    }

    /** One iteration, with the pod listed under the row's label. */
    method HandleRow(r: Record, look: Look, pod: Option<Pod>, now: Time) returns (drifted: bool, fixed: bool, ok: bool)
      requires r.id in store.rows && store.rows[r.id] == r
      requires pod == LastPod(look.pods, r.id)
      modifies store, client
      ensures r.id in store.rows && store.rows == old(store.rows)[r.id := store.rows[r.id]]
      ensures fixed ==> drifted
      ensures ok ==> drifted == Counts(r, look, now, Drift)
      ensures store.reliable && client.reliable && Visible(look, r) ==>
                ok && fixed == Counts(r, look, now, Fix) && store.rows[r.id] == Reconciled(r, look, now)
      ensures client.View() == old(client.View()).(pods := client.pods)
      ensures PodsMarked(old(client.pods), client.pods, LeftoverOf(r, look), client.reliable && ok)
    {
      drifted, fixed, ok := false, false, true;
      if !r.persistent {
        drifted, fixed := HandleOrdinary(r, pod, now);
      } else if r.id in look.snaps {
        drifted, fixed, ok := HandlePersistent(r, look.snaps[r.id], now);
      } else {
        ok := false;
      }
    }

    /** One iteration of the loop of `Run`. `pods0` are the pods the pass started with, `log` is what
        was done for the records before. */
    method HandleNext(recs: seq<Record>, i: nat, look: Look, podMap: map<string, Pod>, now: Time,
                      ghost pods0: map<string, Pod>, ghost log: seq<Entry>)
      returns (drifted: bool, fixed: bool, ok: bool, rest: map<string, Pod>, ghost log': seq<Entry>)
      requires i == |log| < |recs| && Distinct(recs) && Current(recs, i, store.rows) &&
          podMap == CrossOff(recs, i, look)
      requires PodsMarked(pods0, client.pods, LeftoversOf(recs, i, look), client.reliable)
      requires Logged(recs, log, store.rows)
      modifies store, client
      ensures store.rows.Keys == old(store.rows).Keys && Current(recs, i + 1, store.rows)
      ensures rest == CrossOff(recs, i + 1, look)
      ensures fixed ==> drifted
      ensures |log'| == i + 1 && log'[..i] == log && log'[i].drifted == drifted && log'[i].fixed == fixed
      ensures Logged(recs, log', store.rows)
      ensures store.reliable && client.reliable && AllListedVisible(recs, look) && Correct(recs, log, look, now) ==>
                ok && Correct(recs, log', look, now)
      ensures client.View() == old(client.View()).(pods := client.pods)
      ensures PodsMarked(pods0, client.pods, LeftoversOf(recs, i + 1, look), client.reliable && ok)
      ensures !ok ==> PodsMarked(pods0, client.pods, LeftoversOf(recs, |recs|, look), false)
    {
      var pod;
      pod, rest := TakePod(podMap, recs, i, look);
      drifted, fixed, ok := HandleRow(recs[i], look, pod, now);
      MarkedInTurn(recs, i, look, pods0, old(client.pods), client.pods, client.reliable, ok);
      log' := log + [Entry(store.rows[recs[i].id], drifted, fixed)];
      HandledStep(recs, log, old(store.rows), store.rows, log');
      if store.reliable && client.reliable && AllListedVisible(recs, look) && Correct(recs, log, look, now) {
        assert recs[i] in recs;
        CorrectGrows(recs, log, log'[i], look, now);
      }
    }

    /** `Run`. A persistent row whose snapshot cannot be read aborts the pass. */
    method Run(look: Look, now: Time) returns (ok: bool, drift: nat, fixed: nat, missingInDb: set<string>)
      requires Keyed(store.rows)
      modifies store, client
      ensures store.rows.Keys == old(store.rows).Keys
      ensures fixed <= drift <= |old(store.rows)| + |missingInDb|
      ensures ok && StableLook(look, old(store.rows)) ==> missingInDb == Orphans(look, old(store.rows))
      ensures store.reliable && client.reliable && AllVisible(look, old(store.rows)) ==>
                && ok
                && RowsReconciled(old(store.rows), store.rows, look, now)
                && drift == |IdsCounted(old(store.rows), look, now, Drift)| + |missingInDb|
                && fixed == |IdsCounted(old(store.rows), look, now, Fix)|
      ensures client.View() == old(client.View()).(pods := client.pods)
      ensures PodsMarked(old(client.pods), client.pods, Leftovers(old(store.rows), look), client.reliable && ok)
    {
      ghost var rows := store.rows;
      var recs := store.ListRows();
      var pods := BuildPodMap(look.pods);
      AsManyListedAsStored(recs, rows);
      ListedIsCurrent(recs, rows);
      LeftoversListed(recs, rows, look);
      var podMap;
      ghost var log;
      ok, drift, fixed, podMap, log := Sweep(recs, look, pods, now);
      if store.reliable && client.reliable && AllVisible(look, rows) {
        AllDone(recs, log, rows, store.rows, look, now);
        CorrectLogCounts(recs, log, rows, look, now, Drift);
        CorrectLogCounts(recs, log, rows, look, now, Fix);
      }
      missingInDb := if ok then podMap.Keys else {};
      drift := drift + |missingInDb|;
      if StableLook(look, rows) {
        CrossedOff(recs, rows, look);
      }
    }

    /** The loop of `Run`: handles the listed rows in order, counting and crossing off as it goes. */
    method Sweep(recs: seq<Record>, look: Look, pods: map<string, Pod>, now: Time)
      returns (ok: bool, drift: nat, fixed: nat, podMap: map<string, Pod>, ghost log: seq<Entry>)
      requires Distinct(recs) && Current(recs, 0, store.rows) && pods == CrossOff(recs, 0, look)
      modifies store, client
      ensures store.rows.Keys == old(store.rows).Keys
      ensures fixed <= drift <= |recs|
      ensures ok ==> podMap == CrossOff(recs, |recs|, look)
      ensures |log| <= |recs| && drift == Noted(log, |log|, Drift) && fixed == Noted(log, |log|, Fix)
      ensures ok ==> |log| == |recs| && Logged(recs, log, store.rows)
      ensures store.reliable && client.reliable && AllListedVisible(recs, look) ==> ok && Correct(recs, log, look, now)
      ensures client.View() == old(client.View()).(pods := client.pods)
      ensures PodsMarked(old(client.pods), client.pods, LeftoversOf(recs, |recs|, look), client.reliable && ok)
    {
      ghost var exact := store.reliable && client.reliable && AllListedVisible(recs, look);
      ok, drift, fixed, podMap, log := true, 0, 0, pods, [];
      var i := 0;
      while i < |recs|
        invariant 0 <= i <= |recs| && ok
        invariant store.rows.Keys == old(store.rows).Keys
        invariant Current(recs, i, store.rows)
        invariant fixed <= drift <= i == |log|
        invariant podMap == CrossOff(recs, i, look)
        invariant drift == Noted(log, i, Drift) && fixed == Noted(log, i, Fix)
        invariant Logged(recs, log, store.rows)
        invariant exact ==> Correct(recs, log, look, now)
        invariant client.View() == old(client.View()).(pods := client.pods)
        invariant PodsMarked(old(client.pods), client.pods, LeftoversOf(recs, i, look), client.reliable)
      {
        var rowDrifted, rowFixed, rowOk, rest;
        ghost var log';
        rowDrifted, rowFixed, rowOk, rest, log' := HandleNext(recs, i, look, podMap, now, old(client.pods), log);
        podMap := rest;
        if !rowOk {
          ok := false;
          return;
        }
        NotedGrows(log, log');
        drift := if rowDrifted then drift + 1 else drift;
        fixed := if rowFixed then fixed + 1 else fixed;
        log := log';
        i := i + 1;
      }
    }
  }

  /** What was done for one record. */
  datatype Entry = Entry(row: Record, drifted: bool, fixed: bool) {
    predicate Has(t: Tally) {
      match t
      case Drift => drifted
      case Fix => fixed
      }
  }

  function Noted(log: seq<Entry>, n: nat, t: Tally): nat
    requires n <= |log|
  {
    if n == 0 then 0 else Noted(log, n - 1, t) + (if log[n - 1].Has(t) then 1 else 0)
  }

  lemma NotedGrows(log: seq<Entry>, log': seq<Entry>)
    requires |log'| == |log| + 1 && log'[..|log|] == log
    ensures Noted(log', |log'|, Drift) == Noted(log, |log|, Drift) + (if log'[|log|].drifted then 1 else 0)
    ensures Noted(log', |log'|, Fix) == Noted(log, |log|, Fix) + (if log'[|log|].fixed then 1 else 0)
  {
    NotedOfPrefix(log, log', |log|, Drift);
    NotedOfPrefix(log, log', |log|, Fix);
  }

  lemma {:induction false} NotedOfPrefix(a: seq<Entry>, b: seq<Entry>, n: nat, t: Tally)
    requires n <= |a| <= |b| && b[..|a|] == a
    ensures Noted(a, n, t) == Noted(b, n, t)
  {
    if n > 0 {
      NotedOfPrefix(a, b, n - 1, t);
      assert b[..|a|][n - 1] == a[n - 1];
    }
  }

  /** The table holds what the log says. */
  ghost predicate Logged(recs: seq<Record>, log: seq<Entry>, rows: Rows) {
    |log| <= |recs| && forall j {:trigger log[j]} :: 0 <= j < |log| ==>
        recs[j].id in rows && rows[recs[j].id] == log[j].row
  }

  predicate EntryOk(r: Record, e: Entry, look: Look, now: Time) {
    Visible(look, r) && e == Entry(Reconciled(r, look, now), RemedyFor(r, look, now).drifted,
        RemedyFor(r, look, now).fixed)
  }

  /** What was done is what a correct pass does. */
  ghost predicate Correct(recs: seq<Record>, log: seq<Entry>, look: Look, now: Time) {
    |log| <= |recs| && forall j {:trigger log[j]} :: 0 <= j < |log| ==> EntryOk(recs[j], log[j], look, now)
  }

  lemma CorrectGrows(recs: seq<Record>, log: seq<Entry>, e: Entry, look: Look, now: Time)
    requires |log| < |recs| && Correct(recs, log, look, now) && EntryOk(recs[|log|], e, look, now)
    ensures Correct(recs, log + [e], look, now)
  {
  }

  ghost predicate AllListedVisible(recs: seq<Record>, look: Look) {
    forall r :: r in recs ==> Visible(look, r)
  }

  /** Handling one record leaves every other record's row alone. */
  lemma HandledStep(recs: seq<Record>, log: seq<Entry>, rows: Rows, rows': Rows, log': seq<Entry>)
    requires |log'| == |log| + 1 <= |recs| && log'[..|log|] == log
    requires Distinct(recs) && Current(recs, |log|, rows) && Logged(recs, log, rows)
    requires var id := recs[|log|].id; id in rows' && rows' == rows[id := rows'[id]] && log'[|log|].row == rows'[id]
    ensures Current(recs, |log| + 1, rows') && Logged(recs, log', rows')
  {
    forall j | 0 <= j < |log'| ensures recs[j].id in rows' && rows'[recs[j].id] == log'[j].row {
      if j < |log| {
        assert log'[..|log|][j] == log'[j];
        assert log[j] == log'[j];
      }
    }
  }

  lemma AllDone(recs: seq<Record>, log: seq<Entry>, rows: Rows, rows': Rows, look: Look, now: Time)
    requires Keyed(rows) && Lists(recs, rows) && |log| == |recs| && Logged(recs, log, rows') &&
        Correct(recs, log, look, now)
    ensures RowsReconciled(rows, rows', look, now)
  {
    forall id | id in rows
      ensures id in rows' && Visible(look, rows[id]) && rows'[id] == Reconciled(rows[id], look, now)
    {
      var j :| 0 <= j < |recs| && recs[j] == rows[id];
      assert EntryOk(recs[j], log[j], look, now);
    }
  }

  /** From index `i` on, the listed records are still what the table holds. */
  ghost predicate Current(recs: seq<Record>, i: nat, rows: Rows) {
    forall j :: i <= j < |recs| ==> recs[j].id in rows && rows[recs[j].id] == recs[j]
  }

  ghost predicate Distinct(recs: seq<Record>) {
    forall i, j :: 0 <= i < j < |recs| ==> recs[i].id != recs[j].id
  }

  /** A row crosses its listed pods off, unless it is persistent and its snapshot has no pod. */
  predicate Claims(r: Record, look: Look) {
    r.persistent ==> r.id in look.snaps && look.snaps[r.id].pod.Some?
  }

  /** What is left of the index after the first `n` records. */
  function CrossOff(recs: seq<Record>, n: nat, look: Look): map<string, Pod>
    requires n <= |recs|
  {
    if n == 0 then PodIndex(look.pods, |look.pods|)
    else
      var rest := CrossOff(recs, n - 1, look);
      if Claims(recs[n - 1], look) then rest - {recs[n - 1].id} else rest
  }

  lemma {:induction false} CrossOffKeys(recs: seq<Record>, n: nat, look: Look, id: string)
    requires n <= |recs|
    ensures id in CrossOff(recs, n, look) <==>
            id in PodIndex(look.pods, |look.pods|) && forall j :: 0 <= j < n && recs[j].id == id ==>
                !Claims(recs[j], look)
    ensures id in CrossOff(recs, n, look) ==> CrossOff(recs, n, look)[id] == PodIndex(look.pods, |look.pods|)[id]
  {
    if n > 0 {
      CrossOffKeys(recs, n - 1, look, id);
    }
  }

  lemma CrossedOff(recs: seq<Record>, rows: Rows, look: Look)
    requires Lists(recs, rows) && Keyed(rows) && StableLook(look, rows)
    ensures CrossOff(recs, |recs|, look).Keys == Orphans(look, rows)
  {
    IndexedIdsAreLabels(look.pods, |look.pods|);
    assert look.pods[..|look.pods|] == look.pods;
    forall id: string ensures id in CrossOff(recs, |recs|, look) <==> id in Orphans(look, rows) {
      CrossOffKeys(recs, |recs|, look, id);
      if id != "" {
        PodIndexFindsLast(look.pods, |look.pods|, id);
      }
      if id in rows.Keys {
        assert rows[id] in recs && rows[id].id == id;
      }
    }
  }

  /** The ids of the records for which the log notes a drift or a fix. */
  function IdsNoted(recs: seq<Record>, log: seq<Entry>, n: nat, t: Tally): set<Id>
    requires n <= |log| <= |recs|
  {
    if n == 0 then {}
    else IdsNoted(recs, log, n - 1, t) + (if log[n - 1].Has(t) then {recs[n - 1].id} else {})
  }

  lemma {:induction false} IdsNotedMembers(recs: seq<Record>, log: seq<Entry>, n: nat, t: Tally, id: Id)
    requires n <= |log| <= |recs|
    ensures id in IdsNoted(recs, log, n, t) <==> exists j :: 0 <= j < n && recs[j].id == id && log[j].Has(t)
  {
    if n > 0 {
      IdsNotedMembers(recs, log, n - 1, t, id);
    }
  }

  lemma OneMore<T>(s: set<T>, x: T)
    requires x !in s
    ensures |s + {x}| == |s| + 1
  {
  }

  lemma {:induction false} NotedIsSize(recs: seq<Record>, log: seq<Entry>, n: nat, t: Tally)
    requires n <= |log| <= |recs| && Distinct(recs)
    ensures Noted(log, n, t) == |IdsNoted(recs, log, n, t)|
  {
    if n > 0 {
      NotedIsSize(recs, log, n - 1, t);
      if log[n - 1].Has(t) {
        IdsNotedMembers(recs, log, n - 1, t, recs[n - 1].id);
        OneMore(IdsNoted(recs, log, n - 1, t), recs[n - 1].id);
      } else {
        assert IdsNoted(recs, log, n, t) == IdsNoted(recs, log, n - 1, t) + {};
      }
    }
  }

  /** A correct log over the listed records counts the rows that a correct pass counts. */
  lemma CorrectLogCounts(recs: seq<Record>, log: seq<Entry>, rows: Rows, look: Look, now: Time, t: Tally)
    requires Lists(recs, rows) && Keyed(rows) && |log| == |recs| && Correct(recs, log, look, now)
    ensures Noted(log, |log|, t) == |IdsCounted(rows, look, now, t)|
  {
    NotedIsSize(recs, log, |log|, t);
    forall id: Id ensures id in IdsNoted(recs, log, |log|, t) <==> id in IdsCounted(rows, look, now, t) {
      NotedIffCounted(recs, log, rows, look, now, t, id);
    }
    assert IdsNoted(recs, log, |log|, t) == IdsCounted(rows, look, now, t);
  }

  lemma NotedIffCounted(recs: seq<Record>, log: seq<Entry>, rows: Rows, look: Look, now: Time, t: Tally, id: Id)
    requires Lists(recs, rows) && Keyed(rows) && |log| == |recs| && Correct(recs, log, look, now)
    ensures id in IdsNoted(recs, log, |log|, t) <==> id in rows && Counts(rows[id], look, now, t)
  {
    IdsNotedMembers(recs, log, |log|, t, id);
    if id in rows {
      var j :| 0 <= j < |recs| && recs[j] == rows[id];
      assert EntryOk(recs[j], log[j], look, now);
    }
  }

  lemma ListedIsCurrent(recs: seq<Record>, rows: Rows)
    requires Lists(recs, rows)
    ensures Distinct(recs) && Current(recs, 0, rows)
  {
  }

  lemma AsManyListedAsStored(recs: seq<Record>, rows: Rows)
    requires Lists(recs, rows) && Keyed(rows)
    ensures |recs| == |rows|
  {
    FirstIdsAreMany(recs, |recs|);
    forall id: Id ensures id in FirstIds(recs, |recs|) <==> id in rows {
      FirstIdsMembers(recs, |recs|, id);
      if id in rows {
        assert rows[id] in recs;
      }
    }
    assert FirstIds(recs, |recs|) == rows.Keys;
    assert |rows.Keys| == |rows|;
  }

  function FirstIds(recs: seq<Record>, n: nat): set<Id>
    requires n <= |recs|
  {
    if n == 0 then {} else FirstIds(recs, n - 1) + {recs[n - 1].id}
  }

  lemma {:induction false} FirstIdsMembers(recs: seq<Record>, n: nat, id: Id)
    requires n <= |recs|
    ensures id in FirstIds(recs, n) <==> exists j :: 0 <= j < n && recs[j].id == id
  {
    if n > 0 {
      FirstIdsMembers(recs, n - 1, id);
    }
  }

  lemma {:induction false} FirstIdsAreMany(recs: seq<Record>, n: nat)
    requires n <= |recs| && Distinct(recs)
    ensures |FirstIds(recs, n)| == n
  {
    if n > 0 {
      FirstIdsAreMany(recs, n - 1);
      FirstIdsMembers(recs, n - 1, recs[n - 1].id);
    }
  }

  predicate AllVisible(look: Look, rows: Rows) {
    forall id :: id in rows ==> Visible(look, rows[id])
  }

  // ----- Frame ------------------------------------------------------------------------------

  /** The pod of a snapshot is the one named after the sandbox or one carrying its label. */
  predicate SeenIn(c: State, r: Record, s: Sighting) {
    s.pod.Some? ==>
      && s.pod.value.name in c.pods
      && DeletionFrame.NamesOrLabels(s.pod.value.name, c.pods[s.pod.value.name], r.id)
  }

  /** Reconciling one row touches only that sandbox's own pods: every other sandbox keeps its
      Deployment, claim, pods, volumes and attachments. */
  lemma ReconcileTouchesOnlyItsOwn(c: State, r: Record, s: Sighting, now: Time, other: Id)
    requires SeenIn(c, r, s) && DeletionFrame.PodsWellNamed(c) && other != r.id
    ensures var c' := DeletionFrame.ClusterAct(ReconcilePersistent(r, s, now).actions, c);
            && DeletionFrame.OnlyTouches(c, c', r)
            && DeletionFrame.SameRuntimeAndClaim(c, c', other)
            && DeletionFrame.SameVolumes(c, c', other)
            && c'.attachments == c.attachments
  {
    var actions := ReconcilePersistent(r, s, now).actions;
    OnlyLeftoversAreDeleted(r, s, now);
    DeletionFrame.AimedCallsStayInside(actions, c, c, r);
    PodDeletionsKeepAttachments(actions, c);
    DeletionFrame.FrameExcludesOthers(c, DeletionFrame.ClusterAct(actions, c), r, other);
  }

  lemma {:induction false} PodDeletionsKeepAttachments(actions: seq<Action>, c: State)
    requires forall a :: a in actions && a.K8s? ==> a.op.DeletePod?
    ensures DeletionFrame.ClusterAct(actions, c).attachments == c.attachments
  {
    if actions != [] {
      assert actions[0] in actions;
      PodDeletionsKeepAttachments(actions[1..], if actions[0].K8s? then ApplyOp(c, actions[0].op) else c);
    }
  }
}
