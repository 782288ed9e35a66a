/** The operational view of claims: the newest relevant row per claim, joined with the claims in the
    cluster, sorted by name, filtered and paged. */
module PvcView {
  import opened Base
  import opened Store
  import Cluster

  /** A claim in the cluster; a zero size request counts as none. */
  datatype ClusterClaim = ClusterClaim(
    name: string, namespace: string, phase: string, volume: string, storageClass: Option<string>, size: Option<string>)

  datatype MappingState = Bound | OrphanPvc | Deleting | DanglingMetadata

  datatype Source = FromDb | FromCluster | FromBoth

  datatype Mapping = Mapping(
    claim: string, namespace: string, state: MappingState, source: Source, sandboxId: string,
    lifecycle: Option<Lifecycle>, policy: Policy, storageClass: string, size: string, phase: string, volume: string)

  datatype StateFilter = AnyState | OnlyState(state: MappingState) | Unrecognized(text: string)

  datatype Options = Options(page: int, pageSize: int, sandboxId: string, storageClass: string, state: StateFilter)

  /** `Panics` is a slice with a negative bound. */
  datatype Listing = Listed(items: seq<Mapping>, total: nat, page: int, pageSize: int) | InvalidState | Panics

  // ----- The two sides of the join ----------------------------------------------------------

  /** A Delete-policy sandbox that is fully deleted no longer owns its claim. */
  predicate Skipped(r: Record) {
    r.desired == WantDeleted && r.lifecycle == Deleted && r.phase == Completed && r.policy == Delete
  }

  predicate Relevant(r: Record) {
    r.claim != "" && !Skipped(r)
  }

  /** Record `i` is the first of the most recently updated ones for its claim among the first `n`. */
  predicate Newest(recs: seq<Record>, n: nat, i: nat)
    requires i < n <= |recs|
  {
    && Relevant(recs[i])
    && (forall j :: 0 <= j < n && Relevant(recs[j]) && recs[j].claim == recs[i].claim ==>
        recs[j].updatedAt <= recs[i].updatedAt)
    && (forall j :: 0 <= j < i && Relevant(recs[j]) && recs[j].claim == recs[i].claim ==>
        recs[j].updatedAt < recs[i].updatedAt)
  }

  /** `buildDBPVCMap`, as a fold over the records. */
  function DbMap(recs: seq<Record>, n: nat): map<string, Record>
    requires n <= |recs|
  {
    if n == 0 then map[]
    else
      var db, r := DbMap(recs, n - 1), recs[n - 1];
      if Relevant(r) && (r.claim !in db || r.updatedAt > db[r.claim].updatedAt) then db[r.claim := r] else db
  }

  method BuildDbMap(recs: seq<Record>) returns (db: map<string, Record>)
    ensures db == DbMap(recs, |recs|)
  {
    db := map[];
    for n := 0 to |recs|
      invariant db == DbMap(recs, n)
    {
      var r := recs[n];
      if r.claim != "" && !Skipped(r) {
        if r.claim !in db || r.updatedAt > db[r.claim].updatedAt {
          db := db[r.claim := r];
        }
      }
    }
  }

  /** A claim is in the map exactly when a relevant record names it, and then it maps to the first of
      the most recently updated ones. */
  lemma {:induction false} DbMapHoldsNewest(recs: seq<Record>, n: nat, c: string) returns (i: nat)
    requires n <= |recs|
    ensures c in DbMap(recs, n) <==> exists j :: 0 <= j < n && Relevant(recs[j]) && recs[j].claim == c
    ensures c in DbMap(recs, n) ==> i < n && recs[i] == DbMap(recs, n)[c] && recs[i].claim == c && Newest(recs, n, i)
  {
    i := 0;
    if n > 0 {
      i := DbMapHoldsNewest(recs, n - 1, c);
      var r := recs[n - 1];
      var before := DbMap(recs, n - 1);
      if Relevant(r) && r.claim == c && (c !in before || r.updatedAt > before[c].updatedAt) {
        i := n - 1;
      }
    }
  }

  /** `buildK8sPVCMap`: the last claim of a name. */
  function ClusterMap(claims: seq<ClusterClaim>, n: nat): map<string, ClusterClaim>
    requires n <= |claims|
  {
    if n == 0 then map[] else ClusterMap(claims, n - 1)[claims[n - 1].name := claims[n - 1]]
  }

  method BuildClusterMap(claims: seq<ClusterClaim>) returns (k8s: map<string, ClusterClaim>)
    ensures k8s == ClusterMap(claims, |claims|)
  {
    k8s := map[];
    for i := 0 to |claims|
      invariant k8s == ClusterMap(claims, i)
    {
      k8s := k8s[claims[i].name := claims[i]];
    }
  }

  // ----- Names in order ---------------------------------------------------------------------

  /** The order of `sort.Strings`. */
  predicate Less(a: string, b: string) {
    b != "" && (a == "" || a[0] < b[0] || (a[0] == b[0] && Less(a[1..], b[1..])))
  }

  /** The lexicographic order: after a common beginning one string ends, or has the smaller character. */
  lemma {:induction false} LessIsLexicographic(a: string, b: string)
    ensures Less(a, b) <==>
            exists k :: && 0 <= k <= |a| && k < |b| && a[..k] == b[..k]
                        && (k == |a| || a[k] < b[k])
  {
    if a != "" && b != "" && a[0] == b[0] {
      LessIsLexicographic(a[1..], b[1..]);
      var a', b' := a[1..], b[1..];
      if k :| 0 <= k <= |a'| && k < |b'| && a'[..k] == b'[..k] && (k == |a'| || a'[k] < b'[k]) {
        assert a[..k + 1] == [a[0]] + a'[..k] && b[..k + 1] == [b[0]] + b'[..k];
      }
      if k :| 0 <= k <= |a| && k < |b| && a[..k] == b[..k] && (k == |a| || a[k] < b[k]) {
        assert k > 0;
        assert a[1..][..k - 1] == a[..k][1..] && b[1..][..k - 1] == b[..k][1..];
      }
    } else if b != "" {
      assert a[..0] == b[..0];
      if k :| 0 <= k <= |a| && k < |b| && a[..k] == b[..k] && (k == |a| || a[k] < b[k]) {
        assert k > 0 ==> a[..k][0] == b[..k][0];
      }
    }
  }

  lemma {:induction false} LessIsIrreflexive(a: string)
    ensures !Less(a, a)
  {
    if a != "" {
      LessIsIrreflexive(a[1..]);
    }
  }

  lemma {:induction false} LessIsTransitive(a: string, b: string, c: string)
    requires Less(a, b) && Less(b, c)
    ensures Less(a, c)
  {
    if a != "" && a[0] == b[0] && b[0] == c[0] {
      LessIsTransitive(a[1..], b[1..], c[1..]);
    }
  }

  lemma {:induction false} LessIsTotal(a: string, b: string)
    ensures Less(a, b) || Less(b, a) || a == b
  {
    if a != "" && b != "" && a[0] == b[0] {
      LessIsTotal(a[1..], b[1..]);
      assert a == [a[0]] + a[1..] && b == [b[0]] + b[1..];
    }
  }

  ghost predicate Ascending(s: seq<string>) {
    forall i, j :: 0 <= i < j < |s| ==> Less(s[i], s[j])
  }

  ghost predicate SortedNames(s: seq<string>, names: set<string>) {
    Ascending(s) && forall n :: n in s <==> n in names
  }

  lemma EmptyIffNoNames(s: seq<string>, names: set<string>)
    requires SortedNames(s, names)
    ensures s == [] <==> names == {}
  {
    if s != [] {
      assert s[0] in s;
    }
  }

  /** A set has one ascending enumeration. */
  lemma {:induction false} SortedNamesAreUnique(a: seq<string>, b: seq<string>, names: set<string>)
    requires SortedNames(a, names) && SortedNames(b, names)
    ensures a == b
  {
    EmptyIffNoNames(a, names);
    EmptyIffNoNames(b, names);
    if a != [] {
      assert a[0] in b;
      assert b[0] in a;
      HeadsAgree(a, b);
      TailIsSorted(a, names);
      TailIsSorted(b, names);
      SortedNamesAreUnique(a[1..], b[1..], names - {a[0]});
      assert a == [a[0]] + a[1..] && b == [b[0]] + b[1..];
    }
  }

  lemma HeadsAgree(a: seq<string>, b: seq<string>)
    requires Ascending(a) && Ascending(b) && |a| > 0 && |b| > 0 && a[0] in b && b[0] in a
    ensures a[0] == b[0]
  {
    if a[0] != b[0] {
      assert Less(a[0], b[0]);
      assert Less(b[0], a[0]);
      LessIsTransitive(a[0], b[0], a[0]);
      LessIsIrreflexive(a[0]);
    }
  }

  lemma TailIsSorted(s: seq<string>, names: set<string>)
    requires SortedNames(s, names) && s != []
    ensures SortedNames(s[1..], names - {s[0]})
  {
    forall n | n in s[1..] ensures n != s[0] {
      LessIsIrreflexive(s[0]);
    }
    assert s == [s[0]] + s[1..];
  }

  function Insert(s: seq<string>, n: string): seq<string> {
    if s == [] || Less(n, s[0]) then [n] + s else [s[0]] + Insert(s[1..], n)
  }

  lemma {:induction false} InsertKeepsOrder(s: seq<string>, n: string)
    requires Ascending(s) && n !in s
    ensures Ascending(Insert(s, n)) && forall x :: x in Insert(s, n) <==> x in s || x == n
  {
    if s == [] {
    } else if Less(n, s[0]) {
      forall j | 0 <= j < |s| ensures Less(n, s[j]) {
        if j > 0 {
          LessIsTransitive(n, s[0], s[j]);
        }
      }
    } else {
      LessIsTotal(n, s[0]);
      InsertKeepsOrder(s[1..], n);
      var t := Insert(s[1..], n);
      forall j | 0 <= j < |t| ensures Less(s[0], t[j]) {
        assert t[j] in t;
        if t[j] in s[1..] {
          var k :| 0 <= k < |s[1..]| && s[1..][k] == t[j];
          assert s[k + 1] == t[j];
        }
      }
      assert s == [s[0]] + s[1..];
    }
  }

  method SortNames(names: set<string>) returns (s: seq<string>)
    ensures SortedNames(s, names)
  {
    s := [];
    var todo := names;
    while todo != {}
      invariant todo <= names
      invariant SortedNames(s, names - todo)
      decreases |todo|
    {
      var n :| n in todo;
      InsertKeepsOrder(s, n);
      s := Insert(s, n);
      todo := todo - {n};
    }
  }

  // ----- The join ---------------------------------------------------------------------------

  function Classify(r: Option<Record>, inCluster: bool): MappingState {
    if r.Some? && inCluster then Bound
    else if inCluster then OrphanPvc
    else if r.Some? && r.value.desired == WantDeleted && r.value.lifecycle == Terminating then Deleting
    else DanglingMetadata
  }

  /** One line of the view: the cluster's facts win over the row's. */
  function Joined(name: string, namespace: string, r: Option<Record>, c: Option<ClusterClaim>): Mapping {
    var fromRow := if r.None? then
        Mapping(name, namespace, Classify(r, c.Some?), FromCluster, "", None, NoPolicy, "", "", "", "")
      else Mapping(name, if r.value.namespace != "" then r.value.namespace else namespace, Classify(r, c.Some?),
                   if c.Some? then FromBoth else FromDb, r.value.id, Some(r.value.lifecycle), r.value.policy,
                   r.value.storageClass, r.value.size, "", "");
    if c.None? then fromRow
    else fromRow.(namespace := c.value.namespace, phase := c.value.phase, volume := c.value.volume,
                  storageClass := if c.value.storageClass.Some? && c.value.storageClass.value != ""
                                  then c.value.storageClass.value else fromRow.storageClass,
                  size := if c.value.size.Some? then c.value.size.value else fromRow.size)
  }

  /** What a line tells. The claim is bound, an orphan, being deleted or dangling by which sides know it
      and, if only a row does, by whether that row is on its way out; the row gives the sandbox, the
      cluster the rest as far as it says anything. */
  lemma LineTells(name: string, namespace: string, r: Option<Record>, c: Option<ClusterClaim>)
    requires r.Some? || c.Some?
    ensures var m := Joined(name, namespace, r, c);
            && m.claim == name
            && (m.state == Bound <==> r.Some? && c.Some?)
            && (m.state == OrphanPvc <==> r.None?)
            && (m.state == Deleting <==> c.None? && r.value.desired == WantDeleted && r.value.lifecycle == Terminating)
            && (m.source == FromBoth <==> r.Some? && c.Some?)
            && (m.source == FromCluster <==> r.None?)
            && (r.Some? ==> m.sandboxId == r.value.id && m.lifecycle == Some(r.value.lifecycle))
            && (r.Some? ==> m.policy == r.value.policy)
            && (r.None? ==> m.sandboxId == "" && m.lifecycle == None && m.policy == NoPolicy)
            && (c.Some? ==> m.namespace == c.value.namespace && m.phase == c.value.phase && m.volume == c.value.volume)
            && (c.None? ==> m.phase == "" && m.volume == "")
            && (c.None? && r.value.namespace != "" ==> m.namespace == r.value.namespace)
            && (c.None? && r.value.namespace == "" ==> m.namespace == namespace)
  {
  }

  /** Storage class and size come from the cluster where it names them, else from the row. */
  lemma LineTellsStorage(name: string, namespace: string, r: Option<Record>, c: Option<ClusterClaim>)
    requires r.Some? || c.Some?
    ensures var m := Joined(name, namespace, r, c);
            var named := c.Some? && c.value.storageClass.Some? && c.value.storageClass.value != "";
            && (named ==> m.storageClass == c.value.storageClass.value)
            && (!named ==> m.storageClass == if r.Some? then r.value.storageClass else "")
            && (c.Some? && c.value.size.Some? ==> m.size == c.value.size.value)
            && (!(c.Some? && c.value.size.Some?) ==> m.size == if r.Some? then r.value.size else "")
  {
  }

  /** A row is left out of the view exactly when it names no claim or its sandbox was deleted together
      with its claim, to the end. */
  lemma RelevantExactly(r: Record)
    ensures !Relevant(r) <==>
            || r.claim == ""
            || (r.policy == Delete && r.desired == WantDeleted && r.lifecycle == Deleted && r.phase == Completed)
  {
  }

  predicate Passes(m: Mapping, o: Options) {
    && (o.sandboxId == "" || m.sandboxId == o.sandboxId)
    && (o.storageClass == "" || m.storageClass == o.storageClass)
    && (o.state.AnyState? || o.state == OnlyState(m.state))
  }

  function LineOf(name: string, namespace: string, db: map<string, Record>, k8s: map<string, ClusterClaim>): Mapping {
    Joined(name, namespace, Cluster.Lookup(db, name), Cluster.Lookup(k8s, name))
  }

  /** The lines that pass the filters, in the order of the names. */
  function View(names: seq<string>, n: nat, namespace: string, db: map<string, Record>,
      k8s: map<string, ClusterClaim>, o: Options): seq<Mapping>
    requires n <= |names|
  {
    if n == 0 then []
    else
      var rest := View(names, n - 1, namespace, db, k8s, o);
      var m := LineOf(names[n - 1], namespace, db, k8s);
      if Passes(m, o) then rest + [m] else rest
  }

  ghost predicate ByClaim(v: seq<Mapping>) {
    forall i, j :: 0 <= i < j < |v| ==> Less(v[i].claim, v[j].claim)
  }

  lemma {:induction false} ViewHolds(names: seq<string>, n: nat, namespace: string, db: map<string, Record>,
      k8s: map<string, ClusterClaim>, o: Options, m: Mapping)
    requires n <= |names|
    ensures m in View(names, n, namespace, db, k8s, o) <==>
            exists k :: 0 <= k < n && m == LineOf(names[k], namespace, db, k8s) && Passes(m, o)
  {
    if n > 0 {
      ViewHolds(names, n - 1, namespace, db, k8s, o, m);
      var rest, last := View(names, n - 1, namespace, db, k8s, o), LineOf(names[n - 1], namespace, db, k8s);
      assert m in rest + [last] <==> m in rest || m == last;
    }
  }

  lemma {:induction false} ViewAscends(names: seq<string>, n: nat, namespace: string, db: map<string, Record>,
      k8s: map<string, ClusterClaim>, o: Options)
    requires n <= |names| && Ascending(names)
    ensures ByClaim(View(names, n, namespace, db, k8s, o))
  {
    if n > 0 {
      ViewAscends(names, n - 1, namespace, db, k8s, o);
      var rest, last := View(names, n - 1, namespace, db, k8s, o), LineOf(names[n - 1], namespace, db, k8s);
      forall i | 0 <= i < |rest| ensures Less(rest[i].claim, last.claim) {
        ViewHolds(names, n - 1, namespace, db, k8s, o, rest[i]);
        assert rest[i] in rest;
      }
    }
  }

  /** The view lists exactly the lines that pass, each once, by ascending claim name. */
  lemma ViewIsExact(names: seq<string>, namespace: string, db: map<string, Record>, k8s: map<string, ClusterClaim>,
      o: Options)
    requires Ascending(names)
    ensures ByClaim(View(names, |names|, namespace, db, k8s, o))
    ensures forall m :: m in View(names, |names|, namespace, db, k8s, o) <==>
              exists k :: 0 <= k < |names| && m == LineOf(names[k], namespace, db, k8s) && Passes(m, o)
  {
    ViewAscends(names, |names|, namespace, db, k8s, o);
    forall m: Mapping
      ensures m in View(names, |names|, namespace, db, k8s, o) <==>
              exists k :: 0 <= k < |names| && m == LineOf(names[k], namespace, db, k8s) && Passes(m, o)
    {
      ViewHolds(names, |names|, namespace, db, k8s, o, m);
    }
  }

  // ----- Pages ------------------------------------------------------------------------------

  function PageOf(o: Options): int {
    if o.page <= 0 then 1 else o.page
  }

  function SizeOf(o: Options): (size: int)
    ensures 1 <= size <= 100
  {
    if o.pageSize <= 0 then 20 else if o.pageSize > 100 then 100 else o.pageSize
  }

  /** The page offset is computed in int64 and wraps. */
  function Offset(page: int, size: int): int {
    Wrap64((page - 1) * size)
  }

  function Slice(v: seq<Mapping>, start: nat, size: nat): seq<Mapping> {
    if start >= |v| then [] else if start + size > |v| then v[start..] else v[start..start + size]
  }

  function Page(v: seq<Mapping>, page: int, size: int): Listing
    requires 1 <= size
  {
    var start := Offset(page, size);
    if start < 0 then Panics else Listed(Slice(v, start, size), |v|, page, size)
  }

  /** Pages 1 to `k`, one after the other. */
  function Pages(v: seq<Mapping>, k: nat, size: nat): seq<Mapping> {
    if k == 0 then [] else Pages(v, k - 1, size) + Slice(v, (k - 1) * size, size)
  }

  /** Turning pages neither skips nor repeats a line. */
  lemma {:induction false} PagesConcatenate(v: seq<Mapping>, k: nat, size: nat)
    ensures Pages(v, k, size) == if k * size >= |v| then v else v[..k * size]
  {
    if k > 0 {
      PagesConcatenate(v, k - 1, size);
      var start := (k - 1) * size;
      assert k * size == start + size;
      if start < |v| {
        assert v[..start] + v[start..] == v;
        if start + size <= |v| {
          assert v[..start] + v[start..start + size] == v[..start + size];
        }
      }
    }
  }

  /** The lines of a slice are those of the view from its start on, as many as fit and exist. */
  lemma SliceExactly(v: seq<Mapping>, start: nat, size: nat)
    ensures var s := Slice(v, start, size);
            && |s| == (if start >= |v| then 0 else if |v| - start < size then |v| - start else size)
            && forall j :: 0 <= j < |s| ==> s[j] == v[start + j]
  {
  }

  /** Page and size default to 1 and 20, and no page is longer than 100 lines. */
  lemma OptionsAreClamped(o: Options)
    ensures PageOf(o) >= 1 && (o.page >= 1 ==> PageOf(o) == o.page) && (o.page < 1 ==> PageOf(o) == 1)
    ensures 1 <= o.pageSize <= 100 ==> SizeOf(o) == o.pageSize
    ensures o.pageSize < 1 ==> SizeOf(o) == 20
    ensures o.pageSize > 100 ==> SizeOf(o) == 100
  {
  }

  /** A line passes exactly the filters that are set. */
  lemma PassesExactly(m: Mapping, o: Options)
    ensures Passes(m, o) <==>
            && (o.sandboxId != "" ==> m.sandboxId == o.sandboxId)
            && (o.storageClass != "" ==> m.storageClass == o.storageClass)
            && (o.state.OnlyState? ==> m.state == o.state.state)
            && !o.state.Unrecognized?
  {
  }

  /** The answer for a page is right exactly when its offset did not wrap, or wrapped to a place at or
      beyond the end of the view. */
  lemma PageIsRightIff(v: seq<Mapping>, page: int, size: int)
    requires 1 <= page && 1 <= size <= 100 && |v| < TWO_63
    ensures Page(v, page, size) == Listed(Slice(v, (page - 1) * size, size), |v|, page, size) <==>
            Offset(page, size) == (page - 1) * size || Offset(page, size) >= |v|
    ensures page <= 92_233_720_368_547_758 ==> Offset(page, size) == (page - 1) * size
  {
    var start, offset := (page - 1) * size, Offset(page, size);
    assert 0 <= start <= (page - 1) * 100;
    if 0 <= offset < |v| && offset != start {
      assert start >= TWO_63;
      assert Slice(v, start, size) == [] && Slice(v, offset, size) != [];
    }
  }

  /** A wrapped offset makes the call panic when it is negative and show the wrong page when it is not:
      this page number gives the lines of page 1 again. */
  lemma WrappedOffsets(v: seq<Mapping>)
    requires v != []
    ensures Page(v, 92_233_720_368_547_760, 100) == Panics
    ensures Page(v, 288_230_376_151_711_745, 64) == Listed(Slice(v, 0, 64), |v|, 288_230_376_151_711_745, 64)
    ensures |v| < TWO_63 ==> Slice(v, 288_230_376_151_711_744 * 64, 64) == [] && Slice(v, 0, 64) != []
  {
  }

  // ----- The service call -------------------------------------------------------------------

  method Collect(names: seq<string>, namespace: string, db: map<string, Record>, k8s: map<string, ClusterClaim>,
      o: Options)
    returns (lines: seq<Mapping>)
    ensures lines == View(names, |names|, namespace, db, k8s, o)
  {
    lines := [];
    for i := 0 to |names|
      invariant lines == View(names, i, namespace, db, k8s, o)
    {
      var m := Joined(names[i], namespace, Cluster.Lookup(db, names[i]), Cluster.Lookup(k8s, names[i]));
      var keep := true;
      if o.sandboxId != "" && m.sandboxId != o.sandboxId {
        keep := false;
      }
      if o.storageClass != "" && m.storageClass != o.storageClass {
        keep := false;
      }
      if !o.state.AnyState? && o.state != OnlyState(m.state) {
        keep := false;
      }
      if keep {
        lines := lines + [m];
      }
    }
  }

  method TakePage(lines: seq<Mapping>, page: int, size: int) returns (r: Listing)
    requires 1 <= size
    ensures r == Page(lines, page, size)
  {
    var start := Offset(page, size);
    if start < 0 {
      return Panics;
    }
    if start >= |lines| {
      return Listed([], |lines|, page, size);
    }
    var end := start + size;
    if end > |lines| {
      end := |lines|;
    }
    r := Listed(lines[start..end], |lines|, page, size);
  }

  /** `ListPVCMappings`: a page of the filtered, sorted outer join. */
  method ListMappings(recs: seq<Record>, claims: seq<ClusterClaim>, namespace: string, o: Options)
    returns (r: Listing, ghost names: seq<string>)
    ensures r.InvalidState? <==> o.state.Unrecognized?
    ensures !r.InvalidState? ==>
              var db, k8s := DbMap(recs, |recs|), ClusterMap(claims, |claims|);
              && SortedNames(names, db.Keys + k8s.Keys)
              && r == Page(View(names, |names|, namespace, db, k8s, o), PageOf(o), SizeOf(o))
  {
    names := [];
    var page := if o.page <= 0 then 1 else o.page;
    var size := if o.pageSize <= 0 then 20 else o.pageSize;
    if size > 100 {
      size := 100;
    }
    if o.state.Unrecognized? {
      return InvalidState, names;
    }
    var db := BuildDbMap(recs);
    var k8s := BuildClusterMap(claims);
    var sorted := SortNames(db.Keys + k8s.Keys);
    names := sorted;
    var lines := Collect(sorted, namespace, db, k8s, o);
    r := TakePage(lines, page, size);
  }
}
