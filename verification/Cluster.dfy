/** The Kubernetes objects LiteBoxd drives, and the API calls it makes on them. */
module Cluster {
  import opened Base
  import opened Names
  import opened Store

  /** The three labels LiteBoxd looks at before it touches an object it did not just create. */
  datatype Labels = Labels(managed: bool, sandboxId: string, app: bool)

  datatype Deployment = Deployment(labels: Labels, replicas: Option<int>, deleting: bool, finalizers: bool)

  datatype Pod = Pod(
    labels: Labels, uid: string, phase: PodPhase, ip: string, ready: bool,
    deleting: bool, finalizers: bool, created: Time)

  datatype Pvc = Pvc(labels: Labels, volume: string, bound: bool, deleting: bool, finalizers: bool)

  /** A PV is cluster-scoped: its claim reference may point into another namespace. */
  datatype ClaimRef = ClaimRef(inNamespace: bool, name: string)

  datatype Pv = Pv(claimRef: Option<ClaimRef>, managedLabel: Option<bool>, deleting: bool, finalizers: bool)

  datatype Attachment = Attachment(pv: Option<string>)

  datatype State = State(
    deployments: map<string, Deployment>,
    pods: map<string, Pod>,
    pvcs: map<string, Pvc>,
    pvs: map<string, Pv>,
    attachments: map<string, Attachment>)

  datatype Op =
    | DeleteDeployment(name: string)
    | DeletePod(name: string)
    | ForceDeletePod(name: string)
    | DeletePvc(name: string)
    | StripDeployment(name: string, id: string)
    | StripPvc(name: string, id: string)
    | StripPv(name: string, claim: string)
    | DeletePv(name: string, claim: string)
    | DeleteAttachment(name: string)

  // ----- Provenance checks ------------------------------------------------------------------

  predicate OwnLabels(l: Labels, id: string) {
    l.managed && l.sandboxId == id && l.app
  }

  predicate OwnPv(pv: Pv, claim: string) {
    && pv.claimRef == Some(ClaimRef(true, claim))
    && pv.managedLabel != Some(false)
  }

  /** Whether the API server and the provenance checks let the call through. An absent object is
      never an error. */
  predicate Allowed(c: State, op: Op) {
    match op
    case StripDeployment(n, id) => n in c.deployments ==> OwnLabels(c.deployments[n].labels, id)
    case StripPvc(n, id) => n in c.pvcs ==> OwnLabels(c.pvcs[n].labels, id)
    case StripPv(n, claim) => n in c.pvs ==> OwnPv(c.pvs[n], claim)
    case DeletePv(n, claim) => n in c.pvs ==> OwnPv(c.pvs[n], claim)
    case _ => true
  }

  // ----- Effects ----------------------------------------------------------------------------
  //
  // Deleting an object that carries finalizers only marks it; removing the finalizers of a marked
  // object removes the object. A pod deleted gracefully stays, marked, until its node lets go of
  // it. A call that fails its provenance check changes nothing.

  function DeploymentsAfter(d: map<string, Deployment>, op: Op): map<string, Deployment> {
    match op
    case DeleteDeployment(n) =>
      if n !in d then d
      else if d[n].finalizers then d[n := d[n].(deleting := true)]
      else d - {n}
    case StripDeployment(n, id) =>
      if n !in d || !OwnLabels(d[n].labels, id) then d
      else if d[n].deleting then d - {n}
      else d[n := d[n].(finalizers := false)]
    case _ => d
  }

  function PodsAfter(p: map<string, Pod>, op: Op): map<string, Pod> {
    match op
    case DeletePod(n) => if n !in p then p else p[n := p[n].(deleting := true)]
    case ForceDeletePod(n) =>
      if n !in p then p
      else if p[n].finalizers then p[n := p[n].(deleting := true)]
      else p - {n}
    case _ => p
  }

  function PvcsAfter(p: map<string, Pvc>, op: Op): map<string, Pvc> {
    match op
    case DeletePvc(n) =>
      if n !in p then p
      else if p[n].finalizers then p[n := p[n].(deleting := true)]
      else p - {n}
    case StripPvc(n, id) =>
      if n !in p || !OwnLabels(p[n].labels, id) then p
      else if p[n].deleting then p - {n}
      else p[n := p[n].(finalizers := false)]
    case _ => p
  }

  function PvsAfter(p: map<string, Pv>, op: Op): map<string, Pv> {
    match op
    case StripPv(n, claim) =>
      if n !in p || !OwnPv(p[n], claim) then p
      else if p[n].deleting then p - {n}
      else p[n := p[n].(finalizers := false)]
    case DeletePv(n, claim) =>
      if n !in p || !OwnPv(p[n], claim) then p
      else if p[n].finalizers then p[n := p[n].(deleting := true)]
      else p - {n}
    case _ => p
  }

  function AttachmentsAfter(a: map<string, Attachment>, op: Op): map<string, Attachment> {
    if op.DeleteAttachment? then a - {op.name} else a
  }

  function ApplyOp(c: State, op: Op): State {
    State(DeploymentsAfter(c.deployments, op), PodsAfter(c.pods, op), PvcsAfter(c.pvcs, op),
          PvsAfter(c.pvs, op), AttachmentsAfter(c.attachments, op))
  }

  /** A finalizer call is refused exactly when the object is there and lacks one of its three labels, or,
      for a volume, is not claimed by this claim from this namespace or is labelled as foreign. */
  lemma RefusedExactly(c: State, n: string, id: string, claim: string)
    ensures !Allowed(c, StripDeployment(n, id)) <==>
            n in c.deployments &&
            var l := c.deployments[n].labels; !l.managed || !l.app || l.sandboxId != id
    ensures !Allowed(c, StripPvc(n, id)) <==>
            n in c.pvcs && var l := c.pvcs[n].labels; !l.managed || !l.app || l.sandboxId != id
    ensures !Allowed(c, StripPv(n, claim)) <==>
            n in c.pvs && (c.pvs[n].claimRef != Some(ClaimRef(true, claim)) || c.pvs[n].managedLabel == Some(false))
    ensures Allowed(c, DeletePv(n, claim)) <==> Allowed(c, StripPv(n, claim))
  {
  }

  /** A refused call changes nothing, and no call touches more than the one object it names: every other
      object, of any kind, is as before, and none appears. */
  lemma OneCallOneObject(c: State, op: Op)
    ensures !Allowed(c, op) ==> ApplyOp(c, op) == c
    ensures var c' := ApplyOp(c, op);
            && c'.deployments.Keys <= c.deployments.Keys && c'.deployments - {op.name} == c.deployments - {op.name}
            && c'.pods.Keys <= c.pods.Keys && c'.pods - {op.name} == c.pods - {op.name}
            && c'.pvcs.Keys <= c.pvcs.Keys && c'.pvcs - {op.name} == c.pvcs - {op.name}
            && c'.pvs.Keys <= c.pvs.Keys && c'.pvs - {op.name} == c.pvs - {op.name}
            && c'.attachments.Keys <= c.attachments.Keys && c'.attachments - {op.name} == c.attachments - {op.name}
    ensures var c' := ApplyOp(c, op);
            && (op.DeleteDeployment? || op.StripDeployment? || c'.deployments == c.deployments)
            && (op.DeletePod? || op.ForceDeletePod? || c'.pods == c.pods)
            && (op.DeletePvc? || op.StripPvc? || c'.pvcs == c.pvcs)
            && (op.DeletePv? || op.StripPv? || c'.pvs == c.pvs)
            && (op.DeleteAttachment? || c'.attachments == c.attachments)
  {
  }

  /** Deleting removes an object exactly if nothing holds it; an object held by finalizers stays and is
      marked. A pod that is deleted gracefully is only marked. */
  lemma DeletionMarksWhatIsHeld(c: State, n: string)
    ensures var d := ApplyOp(c, DeleteDeployment(n)).deployments;
            && (n in d <==> n in c.deployments && c.deployments[n].finalizers)
            && (n in d ==> d[n] == c.deployments[n].(deleting := true))
    ensures var p := ApplyOp(c, DeletePvc(n)).pvcs;
            && (n in p <==> n in c.pvcs && c.pvcs[n].finalizers)
            && (n in p ==> p[n] == c.pvcs[n].(deleting := true))
    ensures var p := ApplyOp(c, ForceDeletePod(n)).pods;
            && (n in p <==> n in c.pods && c.pods[n].finalizers)
            && (n in p ==> p[n] == c.pods[n].(deleting := true))
    ensures var p := ApplyOp(c, DeletePod(n)).pods;
            && (n in p <==> n in c.pods) && (n in p ==> p[n] == c.pods[n].(deleting := true))
    ensures n !in ApplyOp(c, DeleteAttachment(n)).attachments
  {
  }

  /** Deleting and releasing together always remove an object that passes the provenance check, in
      either order and whatever state it was in. */
  lemma DeleteAndReleaseRemove(c: State, n: string, id: string, claim: string)
    ensures Allowed(c, StripDeployment(n, id)) ==>
              && n !in ApplyOp(ApplyOp(c, DeleteDeployment(n)), StripDeployment(n, id)).deployments
              && n !in ApplyOp(ApplyOp(c, StripDeployment(n, id)), DeleteDeployment(n)).deployments
    ensures Allowed(c, StripPvc(n, id)) ==>
              && n !in ApplyOp(ApplyOp(c, DeletePvc(n)), StripPvc(n, id)).pvcs
              && n !in ApplyOp(ApplyOp(c, StripPvc(n, id)), DeletePvc(n)).pvcs
    ensures Allowed(c, StripPv(n, claim)) ==>
              && n !in ApplyOp(ApplyOp(c, DeletePv(n, claim)), StripPv(n, claim)).pvs
              && n !in ApplyOp(ApplyOp(c, StripPv(n, claim)), DeletePv(n, claim)).pvs
  {
  }

  /** Releasing alone removes only what was already marked. */
  lemma ReleaseSparesTheUnmarked(c: State, n: string, id: string, claim: string)
    ensures n in c.deployments && !c.deployments[n].deleting ==>
              n in ApplyOp(c, StripDeployment(n, id)).deployments
    ensures n in c.pvcs && !c.pvcs[n].deleting ==> n in ApplyOp(c, StripPvc(n, id)).pvcs
    ensures n in c.pvs && !c.pvs[n].deleting ==> n in ApplyOp(c, StripPv(n, claim)).pvs
  {
  }

  // ----- What LiteBoxd reads ----------------------------------------------------------------

  /** The pods selected by the label pair `app`, `sandbox-id`. */
  function PodsOf(c: State, id: string): set<string> {
    set n | n in c.pods && c.pods[n].labels.app && c.pods[n].labels.sandboxId == id
  }

  function AttachmentsOf(c: State, pv: string): set<string> {
    set n | n in c.attachments && c.attachments[n].pv == Some(pv)
  }

  datatype Snapshot = Snapshot(
    deployment: Option<Deployment>,
    pods: seq<string>,
    pvc: Option<Pvc>,
    pv: Option<Pv>,
    attachments: seq<string>)

  ghost predicate Enumerates(s: seq<string>, names: set<string>) {
    && (forall n :: n in s <==> n in names)
    && (forall i, j :: 0 <= i < j < |s| ==> s[i] != s[j])
  }

  function DeploymentKey(r: Record): string {
    if r.runtimeName == "" then RuntimeName(r.id) else r.runtimeName
  }

  function ClaimKey(r: Record): string {
    if r.claim == "" then ClaimName(r.id) else r.claim
  }

  function Lookup<T>(m: map<string, T>, key: string): Option<T> {
    if key in m then Some(m[key]) else None
  }

  /** The deletion service's view of one sandbox. List order is up to the API server. */
  ghost predicate IsSnapshot(c: State, r: Record, s: Snapshot) {
    && Enumerates(s.pods, PodsOf(c, r.id))
    && if r.persistent then
         && s.deployment == Lookup(c.deployments, DeploymentKey(r))
         && s.pvc == Lookup(c.pvcs, ClaimKey(r))
         && s.pv == (if s.pvc.Some? && s.pvc.value.volume != "" then Lookup(c.pvs, s.pvc.value.volume) else None)
         && (if s.pv.Some? then Enumerates(s.attachments, AttachmentsOf(c, s.pvc.value.volume))
             else s.attachments == [])
       else
         s.deployment == None && s.pvc == None && s.pv == None && s.attachments == []
  }

  // ----- The cluster as an object -----------------------------------------------------------

  /** Lists a set in some order, as a List call does. */
  method Enumerate(names: set<string>) returns (s: seq<string>)
    ensures Enumerates(s, names)
  {
    s := [];
    var todo := names;
    while todo != {}
      invariant todo <= names
      invariant forall n :: n in s <==> n in names && n !in todo
      invariant forall i, j :: 0 <= i < j < |s| ==> s[i] != s[j]
      decreases |todo|
    {
      var n :| n in todo;
      s := s + [n];
      todo := todo - {n};
    }
  }

  /** The API server. Every call may fail, in which case it changes nothing; a reliable one only
      refuses what fails its provenance check. */
  class Client {
    const reliable: bool
    var deployments: map<string, Deployment>
    var pods: map<string, Pod>
    var pvcs: map<string, Pvc>
    var pvs: map<string, Pv>
    var attachments: map<string, Attachment>

    function View(): State
      reads this
    {
      State(deployments, pods, pvcs, pvs, attachments)
    }

    constructor (reliable: bool)
      ensures View() == State(map[], map[], map[], map[], map[]) && this.reliable == reliable
    {
      this.reliable := reliable;
      deployments, pods, pvcs, pvs, attachments := map[], map[], map[], map[], map[];
    }

    method RemoveDeployment(name: string) returns (ok: bool)
      modifies this
      ensures View() == if ok then ApplyOp(old(View()), DeleteDeployment(name)) else old(View())
      ensures reliable ==> ok
    {
      var fault := Fault(reliable);
      ok := !fault;
      if ok && name in deployments {
        if deployments[name].finalizers {
          deployments := deployments[name := deployments[name].(deleting := true)];
        } else {
          deployments := deployments - {name};
        }
      }
    }

    method RemovePod(name: string) returns (ok: bool)
      modifies this
      ensures View() == if ok then ApplyOp(old(View()), DeletePod(name)) else old(View())
      ensures reliable ==> ok
    {
      var fault := Fault(reliable);
      ok := !fault;
      if ok && name in pods {
        pods := pods[name := pods[name].(deleting := true)];
      }
    }

    method ForceRemovePod(name: string) returns (ok: bool)
      modifies this
      ensures View() == if ok then ApplyOp(old(View()), ForceDeletePod(name)) else old(View())
      ensures reliable ==> ok
    {
      var fault := Fault(reliable);
      ok := !fault;
      if ok && name in pods {
        if pods[name].finalizers {
          pods := pods[name := pods[name].(deleting := true)];
        } else {
          pods := pods - {name};
        }
      }
    }

    method RemovePvc(name: string) returns (ok: bool)
      modifies this
      ensures View() == if ok then ApplyOp(old(View()), DeletePvc(name)) else old(View())
      ensures reliable ==> ok
    {
      var fault := Fault(reliable);
      ok := !fault;
      if ok && name in pvcs {
        if pvcs[name].finalizers {
          pvcs := pvcs[name := pvcs[name].(deleting := true)];
        } else {
          pvcs := pvcs - {name};
        }
      }
    }

    method ClearDeploymentFinalizers(name: string, id: string) returns (ok: bool)
      modifies this
      ensures View() == if ok then ApplyOp(old(View()), StripDeployment(name, id)) else old(View())
      ensures reliable && Allowed(old(View()), StripDeployment(name, id)) ==> ok
      ensures ok ==> Allowed(old(View()), StripDeployment(name, id))
    {
      var fault := Fault(reliable);
      if fault {
        return false;
      }
      if name !in deployments {
        return true;
      }
      var d := deployments[name];
      if !(d.labels.managed && d.labels.sandboxId == id && d.labels.app) {
        return false;
      }
      if d.deleting {
        deployments := deployments - {name};
      } else {
        deployments := deployments[name := d.(finalizers := false)];
      }
      ok := true;
    }

    method ClearPvcFinalizers(name: string, id: string) returns (ok: bool)
      modifies this
      ensures View() == if ok then ApplyOp(old(View()), StripPvc(name, id)) else old(View())
      ensures reliable && Allowed(old(View()), StripPvc(name, id)) ==> ok
      ensures ok ==> Allowed(old(View()), StripPvc(name, id))
    {
      var fault := Fault(reliable);
      if fault {
        return false;
      }
      if name !in pvcs {
        return true;
      }
      var p := pvcs[name];
      if !(p.labels.managed && p.labels.sandboxId == id && p.labels.app) {
        return false;
      }
      if p.deleting {
        pvcs := pvcs - {name};
      } else {
        pvcs := pvcs[name := p.(finalizers := false)];
      }
      ok := true;
    }

    method ClearPvFinalizers(name: string, claim: string) returns (ok: bool)
      modifies this
      ensures View() == if ok then ApplyOp(old(View()), StripPv(name, claim)) else old(View())
      ensures reliable && Allowed(old(View()), StripPv(name, claim)) ==> ok
      ensures ok ==> Allowed(old(View()), StripPv(name, claim))
    {
      var fault := Fault(reliable);
      if fault {
        return false;
      }
      if name !in pvs {
        return true;
      }
      var p := pvs[name];
      if p.claimRef != Some(ClaimRef(true, claim)) || p.managedLabel == Some(false) {
        return false;
      }
      if p.deleting {
        pvs := pvs - {name};
      } else {
        pvs := pvs[name := p.(finalizers := false)];
      }
      ok := true;
    }

    method RemovePv(name: string, claim: string) returns (ok: bool)
      modifies this
      ensures View() == if ok then ApplyOp(old(View()), DeletePv(name, claim)) else old(View())
      ensures reliable && Allowed(old(View()), DeletePv(name, claim)) ==> ok
      ensures ok ==> Allowed(old(View()), DeletePv(name, claim))
    {
      var fault := Fault(reliable);
      if fault {
        return false;
      }
      if name !in pvs {
        return true;
      }
      var p := pvs[name];
      if p.claimRef != Some(ClaimRef(true, claim)) || p.managedLabel == Some(false) {
        return false;
      }
      if p.finalizers {
        pvs := pvs[name := p.(deleting := true)];
      } else {
        pvs := pvs - {name};
      }
      ok := true;
    }

    method RemoveAttachment(name: string) returns (ok: bool)
      modifies this
      ensures View() == if ok then ApplyOp(old(View()), DeleteAttachment(name)) else old(View())
      ensures reliable ==> ok
    {
      var fault := Fault(reliable);
      ok := !fault;
      if ok {
        attachments := attachments - {name};
      }
    }

    /** Deployment first, then pods, then storage: the order the leak-freedom argument rests on. */
    method TakeSnapshot(r: Record) returns (s: Option<Snapshot>)
      ensures s.Some? ==> IsSnapshot(View(), r, s.value)
      ensures s.Some? ==> forall n :: n in s.value.pods <==>
                n in pods && pods[n].labels.app && pods[n].labels.sandboxId == r.id
      ensures s.Some? && r.persistent ==>
                var name := if r.runtimeName == "" then "sandbox-" + r.id else r.runtimeName;
                s.value.deployment == if name in deployments then Some(deployments[name]) else None
      ensures s.Some? && r.persistent ==>
                var name := if r.claim == "" then "sandbox-data-" + r.id else r.claim;
                s.value.pvc == if name in pvcs then Some(pvcs[name]) else None
      ensures s.Some? && s.value.pv.Some? ==>
                && s.value.pvc.Some? && s.value.pvc.value.volume in pvs
                && s.value.pv.value == pvs[s.value.pvc.value.volume]
                && forall n :: n in s.value.attachments <==>
                     n in attachments && attachments[n].pv == Some(s.value.pvc.value.volume)
      ensures reliable ==> s.Some?
    {
      var fault := Fault(reliable);
      if fault {
        return None;
      }
      var deployKey := DeploymentKey(r);
      var claimKey := ClaimKey(r);
      var d := if deployKey in deployments then Some(deployments[deployKey]) else None;
      var podNames := Enumerate(set n | n in pods && pods[n].labels.app && pods[n].labels.sandboxId == r.id);
      if !r.persistent {
        return Some(Snapshot(None, podNames, None, None, []));
      }
      var p := if claimKey in pvcs then Some(pvcs[claimKey]) else None;
      var v, atts := None, [];
      if p.Some? && p.value.volume != "" && p.value.volume in pvs {
        var volume := p.value.volume;
        v := Some(pvs[volume]);
        atts := Enumerate(set n | n in attachments && attachments[n].pv == Some(volume));
      }
      s := Some(Snapshot(d, podNames, p, v, atts));
    }
  }
}
