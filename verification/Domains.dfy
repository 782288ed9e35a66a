/** Egress domain lists: canonical form, validity, and the loop that normalises a list. */
module Domains {
  import opened Base
  import opened Text

  // ----- Domain names -----------------------------------------------------------------------

  function Split(s: string): (labels: seq<string>)
    ensures |labels| > 0
  {
    if s == "" then [""]
    else
      var rest := Split(s[1..]);
      if s[0] == '.' then [""] + rest else [[s[0]] + rest[0]] + rest[1..]
  }

  /** Labels put back together with dots between them. */
  function Join(labels: seq<string>): string
    requires |labels| > 0
  {
    if |labels| == 1 then labels[0] else labels[0] + "." + Join(labels[1..])
  }

  predicate LabelChar(c: char) {
    'a' <= c <= 'z' || '0' <= c <= '9' || c == '-'
  }

  predicate IsValidLabel(part: string) {
    && 0 < |part| <= 63
    && part[0] != '-' && part[|part| - 1] != '-'
    && forall i :: 0 <= i < |part| ==> LabelChar(part[i])
  }

  predicate IsValidDomain(domain: string) {
    0 < |domain| <= 253 && forall i :: 0 <= i < |Split(domain)| ==> IsValidLabel(Split(domain)[i])
  }

  lemma {:induction false} SplitThenJoin(s: string)
    ensures Join(Split(s)) == s
  {
    if s != "" {
      SplitThenJoin(s[1..]);
      var rest := Split(s[1..]);
      assert s == [s[0]] + s[1..];
      if s[0] == '.' {
        assert ([""] + rest)[1..] == rest;
      } else {
        assert ([[s[0]] + rest[0]] + rest[1..])[1..] == rest[1..];
      }
    }
  }

  predicate Dotless(s: string) {
    forall i :: 0 <= i < |s| ==> s[i] != '.'
  }

  lemma {:induction false} SplitDotless(s: string)
    requires Dotless(s)
    ensures Split(s) == [s]
  {
    if s != "" {
      SplitDotless(s[1..]);
      assert s == [s[0]] + s[1..];
    }
  }

  lemma {:induction false} SplitAtFirstDot(a: string, b: string)
    requires Dotless(a)
    ensures Split(a + "." + b) == [a] + Split(b)
  {
    var s := a + "." + b;
    if a == "" {
      assert s[1..] == b;
    } else {
      assert s[1..] == a[1..] + "." + b;
      SplitAtFirstDot(a[1..], b);
      assert a == [a[0]] + a[1..];
    }
  }

  lemma {:induction false} JoinThenSplit(labels: seq<string>)
    requires |labels| > 0 && forall i :: 0 <= i < |labels| ==> Dotless(labels[i])
    ensures Split(Join(labels)) == labels
  {
    if |labels| == 1 {
      SplitDotless(labels[0]);
    } else {
      SplitAtFirstDot(labels[0], Join(labels[1..]));
      JoinThenSplit(labels[1..]);
    }
  }

  /** A host name by section 2.3.4 of RFC 1035, with leading digits as section 2.1 of RFC 1123 allows
      them: up to 63 letters, digits and inner hyphens per label, 253 characters in all. */
  ghost predicate IsHostName(name: string) {
    |name| <= 253 && exists labels :: LabelsOf(labels, name)
  }

  predicate LetterOrDigit(c: char) {
    'a' <= c <= 'z' || '0' <= c <= '9'
  }

  /** A label of the grammar: letters and digits, with hyphens only between them. */
  predicate HostLabel(part: string) {
    && 1 <= |part| && |part| < 64
    && LetterOrDigit(part[0]) && LetterOrDigit(part[|part| - 1])
    && forall i :: 0 < i < |part| - 1 ==> LetterOrDigit(part[i]) || part[i] == '-'
  }

  predicate LabelsOf(labels: seq<string>, name: string) {
    |labels| > 0 && name == Join(labels) && forall i :: 0 <= i < |labels| ==> HostLabel(labels[i])
  }

  lemma ValidLabelIsHostLabel(part: string)
    ensures IsValidLabel(part) <==> HostLabel(part)
  {
    if HostLabel(part) {
      forall i | 0 <= i < |part| ensures LabelChar(part[i]) {
        assert i == 0 || i == |part| - 1 || 0 < i < |part| - 1;
      }
    }
  }

  /** The check by splitting accepts exactly the host names. */
  lemma ValidDomainsAreHostNames(name: string)
    ensures IsValidDomain(name) <==> IsHostName(name)
  {
    SplitThenJoin(name);
    forall part: string ensures IsValidLabel(part) <==> HostLabel(part) {
      ValidLabelIsHostLabel(part);
    }
    if IsValidDomain(name) {
      assert LabelsOf(Split(name), name);
    }
    if IsHostName(name) {
      var labels :| LabelsOf(labels, name);
      forall i | 0 <= i < |labels| ensures Dotless(labels[i]) {
        assert IsValidLabel(labels[i]);
      }
      JoinThenSplit(labels);
      assert IsValidLabel(labels[0]);
      assert name != "" by {
        if |labels| == 1 {
          assert name == labels[0];
        }
      }
    }
  }

  // ----- Canonical values -------------------------------------------------------------------

  function TrimDot(s: string): string {
    if s != "" && s[|s| - 1] == '.' then s[..|s| - 1] else s
  }

  function Canonical(domain: string): string {
    TrimDot(TrimSpace(ToLower(domain)))
  }

  predicate Accepted(v: string) {
    && v != ""
    && !Contains(v, "://") && '/' !in v && ':' !in v
    && if "*." <= v then IsValidDomain(v[2..]) else '*' !in v && IsValidDomain(v)
  }

  predicate PlainChar(c: char) {
    LabelChar(c) || c == '.'
  }

  lemma {:induction false} JoinIsPlain(labels: seq<string>, i: nat)
    requires |labels| > 0 && i < |Join(labels)| && forall k :: 0 <= k < |labels| ==> IsValidLabel(labels[k])
    ensures PlainChar(Join(labels)[i])
  {
    if |labels| > 1 && i >= |labels[0]| + 1 {
      JoinIsPlain(labels[1..], i - |labels[0]| - 1);
    }
  }

  lemma {:induction false} JoinEndsInLabel(labels: seq<string>)
    requires |labels| > 0 && forall k :: 0 <= k < |labels| ==> IsValidLabel(labels[k])
    ensures Join(labels) != "" && LabelChar(Join(labels)[|Join(labels)| - 1])
  {
    if |labels| > 1 {
      JoinEndsInLabel(labels[1..]);
    }
  }

  /** Every character of an accepted value survives lower-casing and trimming. */
  lemma AcceptedIsPlain(v: string, i: nat)
    requires Accepted(v) && i < |v|
    ensures PlainChar(v[i]) || v[i] == '*'
    ensures LabelChar(v[|v| - 1])
  {
    var host := if "*." <= v then v[2..] else v;
    SplitThenJoin(host);
    JoinEndsInLabel(Split(host));
    if "*." <= v {
      if i >= 2 {
        JoinIsPlain(Split(host), i - 2);
      }
    } else {
      JoinIsPlain(Split(host), i);
    }
  }

  lemma CanonicalFixesAccepted(v: string)
    requires Accepted(v)
    ensures Canonical(v) == v
  {
    forall i | 0 <= i < |v| ensures LowerChar(v[i]) == v[i] && !IsSpace(v[i]) {
      AcceptedIsPlain(v, i);
    }
    assert ToLower(v) == v;
    TrimSpaceTrims(v);
    AcceptedIsPlain(v, 0);
  }

  lemma {:induction false} HostCharacters(labels: seq<string>, i: nat)
    requires |labels| > 0 && i < |Join(labels)| && forall k :: 0 <= k < |labels| ==> HostLabel(labels[k])
    ensures Join(labels)[i] != '/' && Join(labels)[i] != ':' && Join(labels)[i] != '*'
  {
    if |labels| > 1 && i >= |labels[0]| + 1 {
      HostCharacters(labels[1..], i - |labels[0]| - 1);
    }
  }

  lemma SchemesHaveColons(v: string)
    ensures Contains(v, "://") ==> ':' in v
  {
    if Contains(v, "://") {
      var i :| 0 <= i <= |v| - 3 && v[i..][..3] == "://";
      assert v[i] == v[i..][..3][0] == ':';
    }
  }

  lemma HostNamesArePlain(name: string)
    requires IsHostName(name)
    ensures '/' !in name && ':' !in name && '*' !in name && !Contains(name, "://")
  {
    SchemesHaveColons(name);
    var labels :| LabelsOf(labels, name);
    forall i | 0 <= i < |name| ensures name[i] != '/' && name[i] != ':' && name[i] != '*' {
      HostCharacters(labels, i);
    }
  }

  /** What is accepted: a host name, or a star and a dot before one. Everything else the code rules out,
      schemes, ports, paths and other stars, cannot occur in a host name. */
  lemma AcceptedExactly(v: string)
    ensures Accepted(v) <==> IsHostName(v) || (|v| >= 2 && v[0] == '*' && v[1] == '.' && IsHostName(v[2..]))
  {
    ValidDomainsAreHostNames(v);
    if |v| >= 2 {
      ValidDomainsAreHostNames(v[2..]);
    }
    assert "*." <= v <==> |v| >= 2 && v[0] == '*' && v[1] == '.';
    if IsHostName(v) {
      HostNamesArePlain(v);
      assert v != "" by {
        assert IsValidDomain(v);
      }
    } else if "*." <= v && IsHostName(v[2..]) {
      WildcardIsPlain(v);
    }
  }

  lemma WildcardIsPlain(v: string)
    requires "*." <= v && IsHostName(v[2..])
    ensures '/' !in v && ':' !in v && !Contains(v, "://")
  {
    HostNamesArePlain(v[2..]);
    assert v == "*." + v[2..];
    SchemesHaveColons(v);
  }

  /** The canonical form is the lower-cased, trimmed value without one final dot. */
  lemma CanonicalExactly(domain: string)
    ensures var t := TrimSpace(ToLower(domain));
            && (t == Canonical(domain) || t == Canonical(domain) + ".")
            && (t == Canonical(domain) ==> t == "" || t[|t| - 1] != '.')
  {
  }

  // ----- Lists ------------------------------------------------------------------------------

  /** The distinct ones of the first `n` values, in order of first occurrence. */
  function Distinct(values: seq<string>, n: nat): seq<string>
    requires n <= |values|
  {
    if n == 0 then []
    else
      var rest := Distinct(values, n - 1);
      if values[n - 1] in rest then rest else rest + [values[n - 1]]
  }

  function CanonicalAll(domains: seq<string>, n: nat): (values: seq<string>)
    requires n <= |domains|
    ensures |values| == n && forall i :: 0 <= i < n ==> values[i] == Canonical(domains[i])
  {
    if n == 0 then [] else CanonicalAll(domains, n - 1) + [Canonical(domains[n - 1])]
  }

  predicate AllAccepted(values: seq<string>, n: nat)
    requires n <= |values|
  {
    n == 0 || (AllAccepted(values, n - 1) && Accepted(values[n - 1]))
  }

  lemma {:induction false} AllAcceptedAt(values: seq<string>, n: nat, i: nat)
    requires i < n <= |values|
    ensures AllAccepted(values, n) ==> Accepted(values[i])
  {
    if i < n - 1 {
      AllAcceptedAt(values, n - 1, i);
    }
  }

  lemma {:induction false} AcceptedThroughout(values: seq<string>, n: nat)
    requires n <= |values| && forall i :: 0 <= i < n ==> Accepted(values[i])
    ensures AllAccepted(values, n)
  {
    if n > 0 {
      AcceptedThroughout(values, n - 1);
    }
  }

  /** What normalising a list gives; None is a rejected list. */
  function Normalized(domains: seq<string>): Option<seq<string>> {
    var values := CanonicalAll(domains, |domains|);
    if AllAccepted(values, |values|) then Some(Distinct(values, |values|)) else None
  }

  /** The checks on one domain. */
  method CheckDomain(domain: string) returns (r: Option<string>)
    ensures r == if Accepted(Canonical(domain)) then Some(Canonical(domain)) else None
  {
    var value := TrimSpace(ToLower(domain));
    if value != "" && value[|value| - 1] == '.' {
      value := value[..|value| - 1];
    }
    if value == "" {
      return None;
    }
    if Contains(value, "://") || '/' in value || ':' in value {
      return None;
    }
    if "*." <= value {
      if !IsValidDomain(value[2..]) {
        return None;
      }
    } else {
      if '*' in value {
        return None;
      }
      if !IsValidDomain(value) {
        return None;
      }
    }
    r := Some(value);
  }

  /** `normalizeAllowedDomains`. */
  method NormalizeAllowedDomains(domains: seq<string>) returns (r: Option<seq<string>>)
    ensures r == Normalized(domains)
  {
    ghost var values := CanonicalAll(domains, |domains|);
    var seen: set<string> := {};
    var normalized: seq<string> := [];
    for i := 0 to |domains|
      invariant AllAccepted(values, i)
      invariant normalized == Distinct(values, i)
      invariant forall v :: v in seen <==> v in normalized
    {
      var value := CheckDomain(domains[i]);
      if value.None? {
        AllAcceptedAt(values, |values|, i);
        return None;
      }
      if value.value !in seen {
        seen := seen + {value.value};
        normalized := normalized + [value.value];
      }
    }
    r := Some(normalized);
  }

  ghost predicate NoDuplicates(s: seq<string>) {
    forall i, j :: 0 <= i < j < |s| ==> s[i] != s[j]
  }

  /** The value first occurs at index `k`. */
  predicate FirstAt(values: seq<string>, v: string, k: nat)
    requires k < |values|
  {
    values[k] == v && forall j :: 0 <= j < k ==> values[j] != v
  }

  lemma BeforeOrIn(values: seq<string>, n: nat, b: nat)
    requires n <= |values| && b < |values|
    ensures b >= n || values[b] in values[..n]
  {
    if b < n {
      assert values[..n][b] == values[b];
    }
  }

  /** Nothing is lost or invented, nothing occurs twice, and the order is that of first occurrence. */
  lemma {:induction false} DistinctIsFirstOccurrences(values: seq<string>, n: nat)
    requires n <= |values|
    ensures forall v :: v in Distinct(values, n) <==> v in values[..n]
    ensures NoDuplicates(Distinct(values, n))
    ensures forall i, j, a, b :: 0 <= i < j < |Distinct(values, n)| && 0 <= a < |values| && 0 <= b < |values| ==>
              (FirstAt(values, Distinct(values, n)[i], a) && FirstAt(values, Distinct(values, n)[j], b) ==> a < b)
  {
    if n > 0 {
      DistinctIsFirstOccurrences(values, n - 1);
      var rest, v := Distinct(values, n - 1), values[n - 1];
      assert values[..n] == values[..n - 1] + [v];
      if v !in rest {
        forall i, a, b | 0 <= i < |rest| && 0 <= a < |values| && 0 <= b < |values| && FirstAt(values, rest[i], a) &&
            FirstAt(values, v, b)
          ensures a < b
        {
          assert rest[i] in rest;
          var k :| 0 <= k < n - 1 && values[..n - 1][k] == rest[i];
          assert values[k] == rest[i];
          BeforeOrIn(values, n - 1, b);
        }
      }
    }
  }

  lemma {:induction false} DistinctOfDistinct(s: seq<string>, n: nat)
    requires n <= |s| && NoDuplicates(s)
    ensures Distinct(s, n) == s[..n]
  {
    if n > 0 {
      DistinctOfDistinct(s, n - 1);
      assert s[..n] == s[..n - 1] + [s[n - 1]];
    }
  }

  /** A list is rejected exactly when one of its canonical values is neither a host name nor a wildcard
      before one; otherwise the result holds exactly the canonical values. */
  lemma NormalizedExactly(domains: seq<string>)
    ensures Normalized(domains).Some? <==>
            forall i :: 0 <= i < |domains| ==>
              var v := Canonical(domains[i]);
              IsHostName(v) || (|v| >= 2 && v[0] == '*' && v[1] == '.' && IsHostName(v[2..]))
    ensures Normalized(domains).Some? ==>
            forall v :: v in Normalized(domains).value <==> exists i :: 0 <= i < |domains| && v == Canonical(domains[i])
  {
    var values := CanonicalAll(domains, |domains|);
    forall i | 0 <= i < |domains|
      ensures AllAccepted(values, |values|) ==> Accepted(values[i])
      ensures Accepted(values[i]) <==>
              var v := Canonical(domains[i]);
              IsHostName(v) || (|v| >= 2 && v[0] == '*' && v[1] == '.' && IsHostName(v[2..]))
    {
      AllAcceptedAt(values, |values|, i);
      AcceptedExactly(values[i]);
    }
    if forall i :: 0 <= i < |values| ==> Accepted(values[i]) {
      AcceptedThroughout(values, |values|);
    }
    DistinctIsFirstOccurrences(values, |values|);
    assert values[..|values|] == values;
    forall v | v in values ensures exists i :: 0 <= i < |domains| && v == Canonical(domains[i]) {
      var i :| 0 <= i < |values| && values[i] == v;
    }
    forall i | 0 <= i < |domains| ensures Canonical(domains[i]) in values {
      assert values[i] == Canonical(domains[i]);
    }
  }

  /** Every element of a normalised list is acceptable, and normalising it again changes nothing. */
  lemma NormalizationIsIdempotent(domains: seq<string>)
    requires Normalized(domains).Some?
    ensures var r := Normalized(domains).value;
            && Normalized(r) == Some(r)
            && NoDuplicates(r)
            && (forall i :: 0 <= i < |r| ==> Accepted(r[i]) && IsHostName(if "*." <= r[i] then r[i][2..] else r[i]))
  {
    var values := CanonicalAll(domains, |domains|);
    var r := Normalized(domains).value;
    DistinctIsFirstOccurrences(values, |values|);
    forall i | 0 <= i < |r| ensures Accepted(r[i]) && Canonical(r[i]) == r[i] &&
        IsHostName(if "*." <= r[i] then r[i][2..] else r[i]) {
      assert r[i] in r && r[i] in values;
      var k :| 0 <= k < |values| && values[k] == r[i];
      AllAcceptedAt(values, |values|, k);
      CanonicalFixesAccepted(r[i]);
      ValidDomainsAreHostNames(if "*." <= r[i] then r[i][2..] else r[i]);
    }
    assert CanonicalAll(r, |r|) == r;
    AcceptedThroughout(r, |r|);
    DistinctOfDistinct(r, |r|);
    assert r[..|r|] == r;
  }
}
