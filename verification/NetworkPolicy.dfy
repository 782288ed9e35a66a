/** Egress allowlists: policy names, and the reconciler that keeps one policy per sandbox that is
    entitled to one. */
module NetworkPolicy {
  import opened Base
  import opened Names
  import opened Store

  const PREFIX := "sandbox-egress-allowlist-"

  function PolicyName(id: string): string {
    PREFIX + id
  }

  /** `ParseDomainAllowlistPolicyName`. */
  function ParsePolicyName(name: string): Option<string> {
    if PREFIX <= name && |name| > |PREFIX| then Some(name[|PREFIX|..]) else None
  }

  /** Printing and parsing are inverse: the managed names are exactly the printed ones. */
  lemma PolicyNameRoundTrip(id: string, name: string)
    ensures id != "" ==> ParsePolicyName(PolicyName(id)) == Some(id)
    ensures ParsePolicyName(name) == Some(id) <==> name == PolicyName(id) && id != ""
  {
    assert PolicyName(id)[|PREFIX|..] == id;
    if ParsePolicyName(name) == Some(id) {
      assert name == name[..|PREFIX|] + name[|PREFIX|..];
    }
  }

  datatype Rule = MatchName(domain: string) | MatchPattern(domain: string)

  /** A policy of this reconciler, or anything else in the namespace. */
  datatype Policy = Allowlist(sandboxId: string, rules: seq<Rule>) | Foreign(text: string)

  function RuleFor(domain: string): Rule {
    if "*." <= domain then MatchPattern(domain) else MatchName(domain)
  }

  /** One rule per domain, in order. */
  function RulesFor(domains: seq<string>, n: nat): (rules: seq<Rule>)
    requires n <= |domains|
    ensures |rules| == n && forall i :: 0 <= i < n ==> rules[i] == RuleFor(domains[i])
  {
    if n == 0 then [] else RulesFor(domains, n - 1) + [RuleFor(domains[n - 1])]
  }

  function PolicyFor(id: string, domains: seq<string>): Policy {
    Allowlist(id, RulesFor(domains, |domains|))
  }

  datatype Network = Network(allowInternet: bool, domains: seq<string>)

  datatype SpecKey = SpecKey(template: string, version: int)

  /** The network section of every stored template version. */
  type Specs = map<SpecKey, Option<Network>>

  /** `desiredAllowedDomains` when the lookup succeeds. */
  function DesiredDomains(r: Record, specs: Specs): (domains: Option<seq<string>>)
    ensures domains.Some? ==> domains.value != []
  {
    var key := SpecKey(r.templateName, r.templateVersion);
    if r.desired == WantDeleted || r.lifecycle in {Deleted, Terminating, Failed, Succeeded} then None
    else if key !in specs || specs[key].None? then None
    else if !specs[key].value.allowInternet || specs[key].value.domains == [] then None
    else Some(specs[key].value.domains)
  }

  /** The sandboxes entitled to a policy, with their domains. */
  function Entitled(rows: Rows, specs: Specs): map<string, seq<string>> {
    map id | id in rows && DesiredDomains(rows[id], specs).Some? :: DesiredDomains(rows[id], specs).value
  }

  /** Who is entitled, in columns: a sandbox that is wanted and neither gone nor over, whose template
      version has a network section that allows the internet and lists domains. */
  predicate MayReachOut(r: Record, specs: Specs) {
    var key := SpecKey(r.templateName, r.templateVersion);
    && r.desired == WantActive
    && r.lifecycle != Deleted && r.lifecycle != Terminating && r.lifecycle != Failed && r.lifecycle != Succeeded
    && key in specs && specs[key].Some? && specs[key].value.allowInternet && |specs[key].value.domains| > 0
  }

  /** The policy is this sandbox's and has one rule per domain, in order and with the same text: a
      pattern exactly for the domains that begin with a star and a dot. */
  predicate Permits(p: Policy, id: string, domains: seq<string>) {
    && p.Allowlist? && p.sandboxId == id && |p.rules| == |domains|
    && (forall i :: 0 <= i < |domains| ==>
          && p.rules[i].domain == domains[i]
          && (p.rules[i].MatchPattern? <==> |domains[i]| >= 2 && domains[i][0] == '*' && domains[i][1] == '.'))
  }

  lemma EntitledExactly(rows: Rows, specs: Specs, id: string)
    ensures id in Entitled(rows, specs) <==> id in rows && MayReachOut(rows[id], specs)
    ensures id in Entitled(rows, specs) ==>
            Entitled(rows, specs)[id] == specs[SpecKey(rows[id].templateName, rows[id].templateVersion)].value.domains
  {
  }

  lemma PolicyForPermits(id: string, domains: seq<string>)
    ensures forall p: Policy :: Permits(p, id, domains) <==> p == PolicyFor(id, domains)
  {
    forall p: Policy ensures Permits(p, id, domains) <==> p == PolicyFor(id, domains) {
      if Permits(p, id, domains) {
        forall i | 0 <= i < |domains| ensures p.rules[i] == RuleFor(domains[i]) {
          assert "*." <= domains[i] <==> |domains[i]| >= 2 && domains[i][0] == '*' && domains[i][1] == '.';
        }
        assert p.rules == RulesFor(domains, |domains|);
      }
    }
  }

  /** What a converged state is, policy by policy. */
  lemma ConvergedExactly(p: map<string, Policy>, p': map<string, Policy>, rows: Rows, specs: Specs, id: string)
    requires Converged(p, p', Entitled(rows, specs)) && id != ""
    ensures var name := "sandbox-egress-allowlist-" + id;
            && (name in p' <==> id in rows && MayReachOut(rows[id], specs))
            && (name in p' ==>
                  var key := SpecKey(rows[id].templateName, rows[id].templateVersion);
                  Permits(p'[name], id, specs[key].value.domains))
  {
    EntitledExactly(rows, specs, id);
    PolicyNameRoundTrip(id, PolicyName(id));
    if id in Entitled(rows, specs) {
      assert Correct(p', Entitled(rows, specs), id);
      PolicyForPermits(id, Entitled(rows, specs)[id]);
    }
  }

  /** The record's own entitlement is the one in the map. */
  predicate Reflects(r: Record, specs: Specs, want: map<string, seq<string>>) {
    DesiredDomains(r, specs) == if r.id in want then Some(want[r.id]) else None
  }

  ghost predicate Collected(recs: seq<Record>, n: nat, want: map<string, seq<string>>, desired: set<string>) {
    forall j :: 0 <= j < n && j < |recs| && recs[j].id in want ==> recs[j].id in desired
  }

  lemma CollectedGrows(recs: seq<Record>, i: nat, want: map<string, seq<string>>, desired: set<string>,
      desired': set<string>)
    requires i < |recs| && desired <= desired'
    ensures Collected(recs, i, want, desired) && (recs[i].id in want ==> recs[i].id in desired') ==>
        Collected(recs, i + 1, want, desired')
  {
  }

  predicate Unmanaged(name: string) {
    ParsePolicyName(name).None?
  }

  ghost predicate SameUnmanaged(p: map<string, Policy>, p': map<string, Policy>) {
    && (forall n :: n in p && Unmanaged(n) ==> n in p' && p'[n] == p[n])
    && (forall n :: n in p' && Unmanaged(n) ==> n in p)
  }

  /** The policy of an entitled sandbox, as it should be. */
  predicate Correct(p: map<string, Policy>, want: map<string, seq<string>>, id: string)
    requires id in want
  {
    PolicyName(id) in p && p[PolicyName(id)] == PolicyFor(id, want[id])
  }

  /** The managed policies are exactly one correct policy per entitled sandbox. */
  ghost predicate Converged(p: map<string, Policy>, p': map<string, Policy>, want: map<string, seq<string>>) {
    && SameUnmanaged(p, p')
    && (forall n :: n in p' && !Unmanaged(n) ==> ParsePolicyName(n).value in want)
    && (forall id :: id in want ==> Correct(p', want, id))
  }

  /** What holds whatever fails: unmanaged policies are untouched, no entitled sandbox loses its
      policy, and a policy that changed or appeared is a correct one. */
  ghost predicate Harmless(p: map<string, Policy>, p': map<string, Policy>, want: map<string, seq<string>>) {
    && SameUnmanaged(p, p')
    && (forall id :: id in want && PolicyName(id) in p ==> PolicyName(id) in p')
    && (forall n :: n in p' ==>
        (n in p && p'[n] == p[n]) || (exists id :: id in want && n == PolicyName(id) && Correct(p', want, id)))
  }

  /** A converged state is reached in one run and left alone by the next. */
  lemma ConvergenceIsStable(p: map<string, Policy>, p1: map<string, Policy>, p2: map<string, Policy>,
      want: map<string, seq<string>>)
    requires Converged(p, p1, want) && Converged(p1, p2, want)
    ensures p2 == p1
  {
    forall n: string ensures n in p1 <==> n in p2 {
      AgreeAt(p, p1, p2, want, n);
    }
    forall n | n in p1 ensures p1[n] == p2[n] {
      AgreeAt(p, p1, p2, want, n);
    }
  }

  lemma AgreeAt(p: map<string, Policy>, p1: map<string, Policy>, p2: map<string, Policy>,
      want: map<string, seq<string>>, n: string)
    requires Converged(p, p1, want) && Converged(p1, p2, want)
    ensures n in p1 <==> n in p2
    ensures n in p1 ==> p2[n] == p1[n]
  {
    if !Unmanaged(n) {
      var id := ParsePolicyName(n).value;
      PolicyNameRoundTrip(id, n);
      if id in want {
        assert Correct(p1, want, id) && Correct(p2, want, id);
      }
    }
  }

  // ----- The reconciler ---------------------------------------------------------------------

  class Reconciler {
    const reliable: bool
    var policies: map<string, Policy>

    constructor (reliable: bool)
      ensures policies == map[] && this.reliable == reliable
    {
      this.reliable := reliable;
      policies := map[];
    }

    /** `desiredAllowedDomains`; the template lookup may fail. */
    method Lookup(r: Record, specs: Specs) returns (ok: bool, domains: Option<seq<string>>)
      ensures ok ==> domains == DesiredDomains(r, specs)
      ensures reliable ==> ok
    {
      if r.desired == WantDeleted {
        return true, None;
      }
      match r.lifecycle {
        case Deleted => return true, None;
        case Terminating => return true, None;
        case Failed => return true, None;
        case Succeeded => return true, None;
        case _ =>
      }
      var fault := Fault(reliable);
      if fault {
        return false, None;
      }
      var key := SpecKey(r.templateName, r.templateVersion);
      if key !in specs || specs[key].None? {
        return true, None;
      }
      var network := specs[key].value;
      if !network.allowInternet || |network.domains| == 0 {
        return true, None;
      }
      return true, Some(network.domains);
    }

    /** `ApplyDomainAllowlistPolicy`. */
    method ApplyPolicy(id: string, domains: seq<string>) returns (ok: bool)
      modifies this
      ensures policies == if ok && domains != [] then old(policies)[PolicyName(id) := PolicyFor(id, domains)]
          else old(policies)
      ensures reliable ==> ok
    {
      if |domains| == 0 {
        return true;
      }
      var rules := [];
      for i := 0 to |domains|
        invariant rules == RulesFor(domains, i)
      {
        rules := rules + [if "*." <= domains[i] then MatchPattern(domains[i]) else MatchName(domains[i])];
      }
      var fault := Fault(reliable);
      ok := !fault;
      if ok {
        policies := policies[PolicyName(id) := Allowlist(id, rules)];
      }
    }

    /** `DeleteDomainAllowlistPolicy`. */
    method DeletePolicy(id: string) returns (ok: bool)
      modifies this
      ensures policies == if ok then old(policies) - {PolicyName(id)} else old(policies)
      ensures reliable ==> ok
    {
      var fault := Fault(reliable);
      ok := !fault;
      if ok {
        policies := policies - {PolicyName(id)};
      }
    }

    /** One iteration of the first loop. */
    method ApplyOne(r: Record, specs: Specs, ghost want: map<string, seq<string>>, ghost start: map<string, Policy>)
      returns (wanted: bool)
      requires Reflects(r, specs, want) && Harmless(start, policies, want)
      modifies this
      ensures wanted ==> r.id in want
      ensures Harmless(start, policies, want) && policies.Keys >= old(policies).Keys
      ensures forall id :: id in want && Correct(old(policies), want, id) ==> Correct(policies, want, id)
      ensures reliable && r.id in want ==> wanted && Correct(policies, want, r.id)
    {
      wanted := false;
      var found, domains := Lookup(r, specs);
      if found && domains.Some? {
        wanted := true;
        var ok := ApplyPolicy(r.id, domains.value);
        if ok {
          AppliedIsHarmless(start, old(policies), policies, want, r.id);
          AppliedKeepsCorrect(old(policies), policies, want, r.id);
        }
      }
    }

    /** First loop: applies the policy of every entitled sandbox. `desired` collects them, also those
        whose policy could not be applied. */
    method ApplyDesired(recs: seq<Record>, specs: Specs, ghost want: map<string, seq<string>>)
      returns (desired: set<string>)
      requires forall j :: 0 <= j < |recs| ==> Reflects(recs[j], specs, want)
      modifies this
      ensures desired <= want.Keys
      ensures Harmless(old(policies), policies, want)
      ensures reliable ==> Collected(recs, |recs|, want, desired)
      ensures reliable ==> forall id :: id in desired ==> Correct(policies, want, id)
    {
      desired := {};
      var i := 0;
      while i < |recs|
        invariant 0 <= i <= |recs|
        invariant desired <= want.Keys
        invariant Harmless(old(policies), policies, want)
        invariant reliable ==> Collected(recs, i, want, desired)
        invariant reliable ==> forall id :: id in desired ==> Correct(policies, want, id)
      {
        var wanted := ApplyOne(recs[i], specs, want, old(policies));
        ghost var before := desired;
        if wanted {
          desired := desired + {recs[i].id};
        }
        CollectedGrows(recs, i, want, before, desired);
        i := i + 1;
      }
    }

    /** Second loop: removes the managed policies of everybody else, after asking again. */
    method RemoveOthers(rows: Rows, specs: Specs, desired: set<string>, ghost start: map<string, Policy>)
      requires Keyed(rows) && desired <= Entitled(rows, specs).Keys && Harmless(start, policies, Entitled(rows, specs))
      requires reliable ==> desired == Entitled(rows, specs).Keys && forall id :: id in desired ==>
          Correct(policies, Entitled(rows, specs), id)
      modifies this
      ensures Harmless(start, policies, Entitled(rows, specs))
      ensures reliable ==> Converged(start, policies, Entitled(rows, specs))
    {
      ghost var want := Entitled(rows, specs);
      var todo := set n | n in policies && ParsePolicyName(n).Some?;
      while todo != {}
        invariant Harmless(start, policies, want)
        invariant reliable ==> forall id :: id in want ==> Correct(policies, want, id)
        invariant forall n :: n in policies && !Unmanaged(n) && n !in todo ==>
            !reliable || ParsePolicyName(n).value in want
        decreases |todo|
      {
        var n :| n in todo;
        todo := todo - {n};
        var parsed := ParsePolicyName(n);
        if parsed.Some? && parsed.value !in desired {
          var id := parsed.value;
          PolicyNameRoundTrip(id, n);
          var remove := true;
          if id in rows {
            var found, domains := Lookup(rows[id], specs);
            remove := found && domains.None?;
          }
          if remove {
            ghost var before := policies;
            var ok := DeletePolicy(id);
            if ok {
              RemovedIsHarmless(start, before, policies, want, id);
            }
          }
        }
      }
    }

    /** `RunOnce`. */
    method RunOnce(recs: seq<Record>, rows: Rows, specs: Specs)
      requires Keyed(rows) && Lists(recs, rows)
      modifies this
      ensures Harmless(old(policies), policies, Entitled(rows, specs))
      ensures reliable ==> Converged(old(policies), policies, Entitled(rows, specs))
      ensures reliable ==> forall id :: id in rows ==>
          && (PREFIX + id in policies <==> MayReachOut(rows[id], specs))
          && (MayReachOut(rows[id], specs) ==>
                Permits(policies[PREFIX + id], id,
                        specs[SpecKey(rows[id].templateName, rows[id].templateVersion)].value.domains))
    {
      ghost var start := policies;
      var desired := ApplyDesired(recs, specs, Entitled(rows, specs));
      forall id | reliable && id in Entitled(rows, specs) ensures id in desired {
        assert rows[id] in recs;
      }
      var fault := Fault(reliable);
      if fault {
        return;
      }
      RemoveOthers(rows, specs, desired, start);
      if reliable {
        forall id | id in rows
          ensures PREFIX + id in policies <==> MayReachOut(rows[id], specs)
          ensures MayReachOut(rows[id], specs) ==>
                    Permits(policies[PREFIX + id], id,
                            specs[SpecKey(rows[id].templateName, rows[id].templateVersion)].value.domains)
        {
          ConvergedExactly(start, policies, rows, specs, id);
        }
      }
    }
  }

  lemma AppliedIsHarmless(p: map<string, Policy>, mid: map<string, Policy>, p': map<string, Policy>,
      want: map<string, seq<string>>, id: string)
    requires id in want && id != "" && Harmless(p, mid, want) && p' == mid[PolicyName(id) := PolicyFor(id, want[id])]
    ensures Harmless(p, p', want)
  {
    PolicyNameRoundTrip(id, PolicyName(id));
    assert Correct(p', want, id);
    AppliedKeepsCorrect(mid, p', want, id);
    forall n | n in p'
      ensures (n in p && p'[n] == p[n]) ||
          (exists other :: other in want && n == PolicyName(other) && Correct(p', want, other))
    {
      if n != PolicyName(id) && !(n in p && p'[n] == p[n]) {
        var other :| other in want && n == PolicyName(other) && Correct(mid, want, other);
        assert Correct(p', want, other);
      }
    }
  }

  /** Writing one correct policy spoils no other. */
  lemma AppliedKeepsCorrect(mid: map<string, Policy>, p': map<string, Policy>, want: map<string, seq<string>>,
      id: string)
    requires id in want && p' == mid[PolicyName(id) := PolicyFor(id, want[id])]
    ensures forall other :: other in want && (other == id || Correct(mid, want, other)) ==> Correct(p', want, other)
  {
    forall other | other in want && (other == id || Correct(mid, want, other)) ensures Correct(p', want, other) {
      PolicyNameInjective(id, other);
    }
  }

  lemma PolicyNameInjective(a: string, b: string)
    ensures PolicyName(a) == PolicyName(b) ==> a == b
  {
    assert PolicyName(a)[|PREFIX|..] == a && PolicyName(b)[|PREFIX|..] == b;
  }

  lemma RemovedIsHarmless(p: map<string, Policy>, mid: map<string, Policy>, p': map<string, Policy>,
      want: map<string, seq<string>>, id: string)
    requires id !in want && id != "" && Harmless(p, mid, want) && p' == mid - {PolicyName(id)}
    ensures Harmless(p, p', want)
    ensures forall other :: other in want && Correct(mid, want, other) ==> Correct(p', want, other)
  {
    PolicyNameRoundTrip(id, PolicyName(id));
    forall other: string ensures PolicyName(other) == PolicyName(id) ==> other == id {
      PolicyNameInjective(id, other);
    }
    forall n | n in p'
      ensures (n in p && p'[n] == p[n]) ||
          (exists other :: other in want && n == PolicyName(other) && Correct(p', want, other))
    {
      if !(n in p && p'[n] == p[n]) {
        var other :| other in want && n == PolicyName(other) && Correct(mid, want, other);
        assert Correct(p', want, other);
      }
    }
  }
}
