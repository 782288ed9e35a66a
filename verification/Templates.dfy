/** The versioned template store: its two tables with their constraints, the transactions on them,
    and what racing writers cannot break. */
module Templates {
  import opened Base
  import opened Text

  datatype Template = Template(
    id: string, name: string, displayName: string, description: string, tags: seq<string>, public: bool, latest: int)

  /** `spec` is the stored JSON text. */
  datatype Version = Version(id: string, templateId: string, number: int, spec: string, changelog: string)

  datatype Key = Key(templateId: string, number: int)

  /** Keying the versions by template and number is the UNIQUE constraint on that pair. */
  datatype Db = Db(templates: map<string, Template>, versions: map<Key, Version>)

  datatype Request = Request(
    displayName: string, description: string, tags: Option<seq<string>>, public: Option<bool>, spec: string,
        changelog: string)

  predicate NameTaken(db: Db, name: string) {
    exists id :: id in db.templates && db.templates[id].name == name
  }

  predicate VersionIdTaken(db: Db, versionId: string) {
    exists k :: k in db.versions && db.versions[k].id == versionId
  }

  /** Version rows refer to existing templates, and rows are stored under their own keys. */
  predicate Constrained(db: Db) {
    && (forall id :: id in db.templates ==> db.templates[id].id == id)
    && (forall k :: k in db.versions ==>
        k.templateId in db.templates && db.versions[k].templateId == k.templateId && db.versions[k].number == k.number)
    && (forall a, b :: a in db.templates && b in db.templates && db.templates[a].name == db.templates[b].name ==>
        a == b)
  }

  /** The versions of every template are exactly 1 up to its latest. */
  ghost predicate Contiguous(db: Db) {
    forall id, n :: id in db.templates ==> (Key(id, n) in db.versions <==> 1 <= n <= db.templates[id].latest)
  }

  // ----- Transactions -----------------------------------------------------------------------

  /** The row an update writes, from the row it read and the fields the request sets. */
  function Merged(seen: Template, req: Request): Template {
    seen.(displayName := if req.displayName != "" then req.displayName else seen.displayName,
          description := if req.description != "" then req.description else seen.description,
          tags := if req.tags.Some? then req.tags.value else seen.tags,
          public := if req.public.Some? then req.public.value else seen.public,
          latest := seen.latest + 1)
  }

  function NewVersion(seen: Template, versionId: string, spec: string, changelog: string): Version {
    Version(versionId, seen.id, seen.latest + 1, spec, changelog)
  }

  /** Whether the INSERT of a new version passes the foreign key, the UNIQUE pair and the primary key. */
  predicate Insertable(db: Db, v: Version) {
    && v.templateId in db.templates
    && Key(v.templateId, v.number) !in db.versions
    && !VersionIdTaken(db, v.id)
  }

  /** UPDATE by id (the name column is not written), then INSERT; a failing INSERT rolls back. */
  function Commit(db: Db, row: Template, v: Version): Db {
    if Insertable(db, v) then
      Db(if row.id in db.templates then db.templates[row.id := row.(name := db.templates[row.id].name)]
          else db.templates,
         db.versions[Key(v.templateId, v.number) := v])
    else db
  }

  /** DELETE by name, with the cascade to the versions. */
  function Removed(db: Db, id: string): Db {
    Db(db.templates - {id}, map k | k in db.versions && k.templateId != id :: db.versions[k])
  }

  function Inserted(db: Db, t: Template, v: Version): Db {
    if t.id in db.templates || NameTaken(db, t.name) || VersionIdTaken(db, v.id) then db
    else Db(db.templates[t.id := t], db.versions[Key(t.id, v.number) := v])
  }

  function RollbackNote(changelog: string, target: int): string {
    if changelog == "" && target >= 0 then "Rolled back to version " + Decimal(target) else changelog
  }

  // ----- The store --------------------------------------------------------------------------

  class TemplateStore {
    var templates: map<string, Template>
    var versions: map<Key, Version>

    function View(): Db
      reads this
    {
      Db(templates, versions)
    }

    constructor ()
      ensures View() == Db(map[], map[])
    {
      templates, versions := map[], map[];
    }

    /** `Create`: the template and its first version, or neither. */
    method Create(id: string, versionId: string, name: string, req: Request) returns (ok: bool)
      modifies this
      ensures View() == Inserted(old(View()), NewTemplate(id, name, req),
          Version(versionId, id, 1, req.spec, "Initial version"))
      ensures ok <==>
                && id !in old(templates)
                && (forall other :: other in old(templates) ==> old(templates)[other].name != name)
                && (forall k :: k in old(versions) ==> old(versions)[k].id != versionId)
    {
      ok := id !in templates && !NameTaken(View(), name) && !VersionIdTaken(View(), versionId);
      if ok {
        templates := templates[id := NewTemplate(id, name, req)];
        versions := versions[Key(id, 1) := Version(versionId, id, 1, req.spec, "Initial version")];
      }
    }

    /** `Get`. */
    method Get(name: string) returns (t: Option<Template>)
      ensures t.Some? ==> t.value.name == name && exists id :: id in templates && templates[id] == t.value
      ensures t.None? <==> !NameTaken(View(), name)
    {
      t := None;
      if id :| id in templates && templates[id].name == name {
        t := Some(templates[id]);
      }
    }

    /** `GetVersion`. */
    method GetVersion(id: string, number: int) returns (v: Option<Version>)
      ensures v == if Key(id, number) in versions then Some(versions[Key(id, number)]) else None
    {
      v := if Key(id, number) in versions then Some(versions[Key(id, number)]) else None;
    }

    /** `GetVersionByName`. */
    method GetVersionByName(name: string, number: int) returns (v: Option<Version>)
      requires Constrained(View()) && Contiguous(View())
      ensures v.Some? <==> exists id ::
          id in templates && templates[id].name == name && 1 <= number <= templates[id].latest
      ensures v.Some? ==>
          && v.value.number == number && v.value.templateId in templates
          && templates[v.value.templateId].name == name
          && v.value == versions[Key(v.value.templateId, number)]
    {
      var t := Get(name);
      if t.None? {
        return None;
      }
      v := GetVersion(t.value.id, number);
    }

    /** The second half of `Update` and `Rollback`: both statements of the transaction. */
    method Write(row: Template, v: Version) returns (ok: bool)
      modifies this
      ensures View() == Commit(old(View()), row, v)
      ensures ok <==> Insertable(old(View()), v)
    {
      var before := templates;
      if row.id in templates {
        templates := templates[row.id := row.(name := templates[row.id].name)];
      }
      ok := v.templateId in before && Key(v.templateId, v.number) !in versions && !VersionIdTaken(View(), v.id);
      if ok {
        versions := versions[Key(v.templateId, v.number) := v];
      } else {
        templates := before;
      }
    }

    /** `Update`, undisturbed: it fails only if the fresh version id is taken. */
    method Update(name: string, req: Request, versionId: string) returns (t: Option<Template>)
      requires Constrained(View()) && Contiguous(View())
      modifies this
      ensures t.Some? <==>
                && (exists id :: id in old(templates) && old(templates)[id].name == name)
                && (forall k :: k in old(versions) ==> old(versions)[k].id != versionId)
      ensures t.None? ==> View() == old(View())
      ensures t.Some? ==>
          && t.value.id in old(templates) && t.value == Merged(old(templates)[t.value.id], req)
          && t.value.name == name
      ensures t.Some? ==> View() == Db(old(templates)[t.value.id := t.value],
                                       old(versions)[Key(t.value.id, t.value.latest) := Version(versionId, t.value.id,
                                           t.value.latest, req.spec, req.changelog)])
    {
      var seen := Get(name);
      if seen.None? {
        return None;
      }
      var row := Merged(seen.value, req);
      var ok := Write(row, NewVersion(seen.value, versionId, req.spec, req.changelog));
      t := if ok then Some(row) else None;
    }

    /** `Rollback`, undisturbed. */
    method Rollback(name: string, target: int, changelog: string, versionId: string) returns (t: Option<Template>)
      requires Constrained(View()) && Contiguous(View())
      modifies this
      ensures t.None? ==> View() == old(View())
      ensures t.Some? <==>
                ((forall k :: k in old(versions) ==> old(versions)[k].id != versionId) &&
                 exists id :: id in old(templates) && old(templates)[id].name == name &&
                     1 <= target <= old(templates)[id].latest)
      ensures t.Some? ==>
                && t.value.id in old(templates) &&
                    t.value == old(templates)[t.value.id].(latest := old(templates)[t.value.id].latest + 1)
                && templates == old(templates)[t.value.id := t.value]
                && Key(t.value.id, target) in old(versions)
                && Key(t.value.id, t.value.latest) in versions
                && versions == old(versions)[Key(t.value.id,
                    t.value.latest) := versions[Key(t.value.id, t.value.latest)]]
                && versions[Key(t.value.id, t.value.latest)].spec == old(versions)[Key(t.value.id, target)].spec
                && versions[Key(t.value.id, t.value.latest)].changelog == RollbackNote(changelog, target)
    {
      var seen := Get(name);
      if seen.None? {
        return None;
      }
      var v := GetVersion(seen.value.id, target);
      if v.None? {
        return None;
      }
      var row := seen.value.(latest := seen.value.latest + 1);
      var ok := Write(row, NewVersion(seen.value, versionId, v.value.spec, RollbackNote(changelog, target)));
      t := if ok then Some(row) else None;
    }

    /** `Delete`. */
    method Delete(name: string) returns (ok: bool)
      requires Constrained(View())
      modifies this
      ensures ok <==> exists id :: id in old(templates) && old(templates)[id].name == name
      ensures !ok ==> View() == old(View())
      ensures ok ==> !NameTaken(View(), name) && exists id :: id in old(templates) && View() == Removed(old(View()), id)
    {
      ok := false;
      if id :| id in templates && templates[id].name == name {
        ghost var was := View();
        templates := templates - {id};
        versions := map k | k in versions && k.templateId != id :: versions[k];
        assert View() == Removed(was, id);
        ok := true;
      }
    }
  }

  function NewTemplate(id: string, name: string, req: Request): Template {
    Template(id, name, req.displayName, req.description, if req.tags.Some? then req.tags.value else [],
             if req.public.Some? then req.public.value else true, 1)
  }

  /** An update sets what the request names and keeps the rest: an empty text and an absent list or flag
      keep what was there, everything else replaces it. Name and id never change. */
  lemma MergeSetsWhatIsNamed(seen: Template, req: Request)
    ensures var t := Merged(seen, req);
            && t.id == seen.id && t.name == seen.name && t.latest == seen.latest + 1
            && (req.displayName != "" ==> t.displayName == req.displayName)
            && (req.displayName == "" ==> t.displayName == seen.displayName)
            && (req.description != "" ==> t.description == req.description)
            && (req.description == "" ==> t.description == seen.description)
            && (req.tags.Some? ==> t.tags == req.tags.value) && (req.tags.None? ==> t.tags == seen.tags)
            && (req.public.Some? ==> t.public == req.public.value) && (req.public.None? ==> t.public == seen.public)
  {
  }

  /** A new template has what the request names; without a word it is untagged and public. */
  lemma NewTemplateIsAsAsked(id: string, name: string, req: Request)
    ensures var t := NewTemplate(id, name, req);
            && t.id == id && t.name == name && t.latest == 1
            && t.displayName == req.displayName && t.description == req.description
            && (req.tags.Some? ==> t.tags == req.tags.value) && (req.tags.None? ==> t.tags == [])
            && (req.public.Some? ==> t.public == req.public.value) && (req.public.None? ==> t.public)
  {
  }

  /** Two updates in a row: the second's fields win where it names them, the first's where only it does. */
  lemma LaterUpdateWins(t: Template, a: Request, b: Request)
    ensures var u := Merged(Merged(t, a), b);
            && u.displayName == (if b.displayName != "" then b.displayName
                                 else if a.displayName != "" then a.displayName else t.displayName)
            && u.description == (if b.description != "" then b.description
                                 else if a.description != "" then a.description else t.description)
            && u.tags == (if b.tags.Some? then b.tags.value else if a.tags.Some? then a.tags.value else t.tags)
            && u.public == (if b.public.Some? then b.public.value
                            else if a.public.Some? then a.public.value else t.public)
            && u.latest == t.latest + 2
  {
  }

  /** The note of a rollback without one names the target by its number. */
  lemma RollbackNoteNamesTarget(changelog: string, target: nat)
    ensures changelog != "" ==> RollbackNote(changelog, target) == changelog
    ensures changelog == "" ==>
            && "Rolled back to version " <= RollbackNote(changelog, target)
            && Value(RollbackNote(changelog, target)[|"Rolled back to version "|..]) == target
  {
    DecimalRoundTrip(target);
    var note := "Rolled back to version " + Decimal(target);
    assert note[|"Rolled back to version "|..] == Decimal(target);
  }

  // ----- Racing writers ---------------------------------------------------------------------

  /** A writer between its read and its commit. */
  datatype Tx = Tx(seen: Template, target: Option<Version>)

  /** `used` are the template ids handed out so far; they are never handed out twice. */
  datatype Sys = Sys(db: Db, used: set<string>, txs: map<nat, Tx>)

  datatype Step =
    | CreateTemplate(id: string, versionId: string, name: string, req: Request)
    | DeleteTemplate(id: string)
    | Read(k: nat, id: string)
    | ReadTarget(k: nat, number: int)
    | CommitUpdate(k: nat, req: Request, versionId: string)
    | CommitRollback(k: nat, changelog: string, versionId: string)
    | Abandon(k: nat)

  predicate Enabled(s: Sys, e: Step) {
    match e
    case CreateTemplate(id, _, _, _) => id !in s.used
    case DeleteTemplate(id) => id in s.db.templates
    case Read(k, id) => k !in s.txs && id in s.db.templates
    case ReadTarget(k, number) => k in s.txs && Key(s.txs[k].seen.id, number) in s.db.versions
    case CommitUpdate(k, _, _) => k in s.txs
    case CommitRollback(k, _, _) => k in s.txs && s.txs[k].target.Some?
    case Abandon(k) => k in s.txs
  }

  function After(s: Sys, e: Step): Sys
    requires Enabled(s, e)
  {
    match e
    case CreateTemplate(id, versionId, name, req) =>
      Sys(Inserted(s.db, NewTemplate(id, name, req), Version(versionId, id, 1, req.spec, "Initial version")), s.used +
          {id}, s.txs)
    case DeleteTemplate(id) => s.(db := Removed(s.db, id))
    case Read(k, id) => s.(txs := s.txs[k := Tx(s.db.templates[id], None)])
    case ReadTarget(k, number) =>
      s.(txs := s.txs[k := Tx(s.txs[k].seen, Some(s.db.versions[Key(s.txs[k].seen.id, number)]))])
    case CommitUpdate(k, req, versionId) =>
      var seen := s.txs[k].seen;
      Sys(Commit(s.db, Merged(seen, req), NewVersion(seen, versionId, req.spec, req.changelog)), s.used, s.txs - {k})
    case CommitRollback(k, changelog, versionId) =>
      var seen := s.txs[k].seen;
      Sys(Commit(s.db, seen.(latest := seen.latest + 1),
          NewVersion(seen, versionId, s.txs[k].target.value.spec, changelog)),
          s.used, s.txs - {k})
    case Abandon(k) => s.(txs := s.txs - {k})
  }

  ghost predicate IsRun(trace: seq<Sys>, steps: seq<Step>) {
    && |trace| == |steps| + 1
    && trace[0] == Sys(Db(map[], map[]), {}, map[])
    && (forall i {:trigger steps[i]} :: 0 <= i < |steps| ==>
        Enabled(trace[i], steps[i]) && trace[i + 1] == After(trace[i], steps[i]))
  }

  /** What a writer has read is a past of what is stored, and the present if no version came since. */
  predicate TxOk(s: Sys, tx: Tx) {
    && tx.seen.id in s.used && 1 <= tx.seen.latest
    && (tx.seen.id in s.db.templates ==>
          && tx.seen.latest <= s.db.templates[tx.seen.id].latest
          && (tx.seen.latest == s.db.templates[tx.seen.id].latest ==> tx.seen == s.db.templates[tx.seen.id])
          && (tx.target.Some? ==>
                Key(tx.seen.id, tx.target.value.number) in s.db.versions &&
                    s.db.versions[Key(tx.seen.id, tx.target.value.number)] == tx.target.value))
  }

  ghost predicate Inv(s: Sys) {
    && Constrained(s.db) && Contiguous(s.db)
    && (forall id :: id in s.db.templates ==> id in s.used && 1 <= s.db.templates[id].latest)
    && (forall k :: k in s.txs ==> TxOk(s, s.txs[k]))
  }

  /** A commit goes through exactly when the template still exists and nobody committed since the
      writer read it, provided its random version id is free. */
  lemma CommitWinsIffFirst(s: Sys, tx: Tx, v: Version)
    requires Inv(s) && TxOk(s, tx) && v.templateId == tx.seen.id && v.number == tx.seen.latest + 1
    ensures Insertable(s.db, v) <==>
            !VersionIdTaken(s.db, v.id) && tx.seen.id in s.db.templates && tx.seen == s.db.templates[tx.seen.id]
  {
  }

  /** Everything committed is as before, except for one new latest version. */
  ghost predicate AddsOne(db: Db, db': Db, id: string, v: Version) {
    && id in db.templates && db'.templates.Keys == db.templates.Keys
    && (forall other :: other in db.templates && other != id ==> db'.templates[other] == db.templates[other])
    && db'.templates[id].name == db.templates[id].name && db'.templates[id].id == id
    && db'.templates[id].latest == db.templates[id].latest + 1
    && v == Version(v.id, id, db.templates[id].latest + 1, v.spec, v.changelog)
    && Key(id, v.number) !in db.versions
    && db'.versions == db.versions[Key(id, v.number) := v]
  }

  lemma CommitAddsOne(s: Sys, tx: Tx, row: Template, v: Version)
    requires Inv(s) && TxOk(s, tx)
    requires row.id == tx.seen.id && row.latest == tx.seen.latest + 1 &&
        v == NewVersion(tx.seen, v.id, v.spec, v.changelog)
    ensures var db' := Commit(s.db, row, v);
            db' == s.db || (tx.seen.id in s.db.templates && tx.seen == s.db.templates[tx.seen.id] &&
                AddsOne(s.db, db', tx.seen.id, v))
  {
    CommitWinsIffFirst(s, tx, v);
  }

  lemma AddsOneKeepsInv(s: Sys, db': Db, id: string, v: Version)
    requires Inv(s) && AddsOne(s.db, db', id, v)
    ensures Inv(s.(db := db'))
  {
    var s' := s.(db := db');
    forall k | k in s'.txs ensures TxOk(s', s'.txs[k]) {
      assert TxOk(s, s.txs[k]);
    }
  }

  lemma FewerTxsKeepInv(s: Sys, k: nat)
    requires Inv(s)
    ensures Inv(s.(txs := s.txs - {k}))
  {
    var s' := s.(txs := s.txs - {k});
    forall j | j in s'.txs ensures TxOk(s', s'.txs[j]) {
      assert TxOk(s, s.txs[j]);
    }
  }

  lemma CommitKeepsInv(s: Sys, k: nat, row: Template, v: Version)
    requires Inv(s) && k in s.txs
    requires row.id == s.txs[k].seen.id && row.latest == s.txs[k].seen.latest + 1 &&
        v == NewVersion(s.txs[k].seen, v.id, v.spec, v.changelog)
    ensures Inv(Sys(Commit(s.db, row, v), s.used, s.txs - {k}))
  {
    FewerTxsKeepInv(s, k);
    CommitAddsOne(s, s.txs[k], row, v);
    if Commit(s.db, row, v) != s.db {
      AddsOneKeepsInv(s.(txs := s.txs - {k}), Commit(s.db, row, v), row.id, v);
    }
  }

  lemma InsertKeepsInv(s: Sys, t: Template, v: Version)
    requires Inv(s) && t.id !in s.used && t.latest == 1 && v.templateId == t.id && v.number == 1
    ensures Inv(Sys(Inserted(s.db, t, v), s.used + {t.id}, s.txs))
  {
    var s' := Sys(Inserted(s.db, t, v), s.used + {t.id}, s.txs);
    forall k | k in s'.txs ensures TxOk(s', s'.txs[k]) {
      assert TxOk(s, s.txs[k]);
    }
    forall id, n | id in s'.db.templates
        ensures Key(id, n) in s'.db.versions <==> 1 <= n <= s'.db.templates[id].latest {
      if id == t.id && id !in s.db.templates {
        assert Key(id, n) !in s.db.versions;
      }
    }
  }

  lemma RemoveKeepsInv(s: Sys, id: string)
    requires Inv(s) && id in s.db.templates
    ensures Inv(s.(db := Removed(s.db, id)))
  {
    var s' := s.(db := Removed(s.db, id));
    forall k | k in s'.txs ensures TxOk(s', s'.txs[k]) {
      assert TxOk(s, s.txs[k]);
    }
  }

  lemma ReadKeepsInv(s: Sys, k: nat, tx: Tx)
    requires Inv(s) && TxOk(s, tx)
    ensures Inv(s.(txs := s.txs[k := tx]))
  {
    var s' := s.(txs := s.txs[k := tx]);
    forall j | j in s'.txs ensures TxOk(s', s'.txs[j]) {
      assert TxOk(s, s'.txs[j]);
    }
  }

  lemma StepKeepsInv(s: Sys, e: Step)
    requires Inv(s) && Enabled(s, e)
    ensures Inv(After(s, e))
  {
    match e {
      case CreateTemplate(id, versionId, name, req) =>
        InsertKeepsInv(s, NewTemplate(id, name, req), Version(versionId, id, 1, req.spec, "Initial version"));
      case DeleteTemplate(id) => RemoveKeepsInv(s, id);
      case Read(k, id) => ReadKeepsInv(s, k, Tx(s.db.templates[id], None));
      case ReadTarget(k, number) =>
        assert TxOk(s, s.txs[k]);
        ReadKeepsInv(s, k, Tx(s.txs[k].seen, Some(s.db.versions[Key(s.txs[k].seen.id, number)])));
      case CommitUpdate(_, _, _) => UpdateStepKeepsInv(s, e);
      case CommitRollback(_, _, _) => RollbackStepKeepsInv(s, e);
      case Abandon(k) => FewerTxsKeepInv(s, k);
    }
  }

  lemma UpdateStepKeepsInv(s: Sys, e: Step)
    requires Inv(s) && Enabled(s, e) && e.CommitUpdate?
    ensures Inv(After(s, e))
  {
    var seen := s.txs[e.k].seen;
    CommitKeepsInv(s, e.k, Merged(seen, e.req), NewVersion(seen, e.versionId, e.req.spec, e.req.changelog));
  }

  lemma RollbackStepKeepsInv(s: Sys, e: Step)
    requires Inv(s) && Enabled(s, e) && e.CommitRollback?
    ensures Inv(After(s, e))
  {
    var seen := s.txs[e.k].seen;
    CommitKeepsInv(s, e.k, seen.(latest := seen.latest + 1),
        NewVersion(seen, e.versionId, s.txs[e.k].target.value.spec, e.changelog));
  }

  lemma {:induction false} InvHolds(trace: seq<Sys>, steps: seq<Step>, i: nat)
    requires IsRun(trace, steps) && i <= |steps|
    ensures Inv(trace[i])
  {
    if i > 0 {
      InvHolds(trace, steps, i - 1);
      StepKeepsInv(trace[i - 1], steps[i - 1]);
    }
  }

  // ----- Main results -----------------------------------------------------------------------

  /** In every state of every race, each live template's versions are exactly 1..latest. */
  lemma HistoryIsContiguous(trace: seq<Sys>, steps: seq<Step>, i: nat, id: string, n: int)
    requires IsRun(trace, steps) && i <= |steps| && id in trace[i].db.templates
    ensures Key(id, n) in trace[i].db.versions <==> 1 <= n <= trace[i].db.templates[id].latest
    ensures 1 <= trace[i].db.templates[id].latest
  {
    InvHolds(trace, steps, i);
  }

  predicate Survives(db: Db, s': Sys, key: Key)
    requires key in db.versions
  {
    if key.templateId in s'.db.templates then key in s'.db.versions && s'.db.versions[key] == db.versions[key]
    else key.templateId in s'.used
  }

  lemma CommitKeepsVersions(s: Sys, tx: Tx, row: Template, v: Version, s': Sys, key: Key)
    requires Inv(s) && TxOk(s, tx) && key in s.db.versions
    requires row.id == tx.seen.id && row.latest == tx.seen.latest + 1 &&
        v == NewVersion(tx.seen, v.id, v.spec, v.changelog)
    requires s'.db == Commit(s.db, row, v) && s'.used == s.used
    ensures Survives(s.db, s', key)
  {
    CommitAddsOne(s, tx, row, v);
  }

  lemma StepKeepsVersions(s: Sys, e: Step, key: Key)
    requires Inv(s) && Enabled(s, e) && key in s.db.versions
    ensures Survives(s.db, After(s, e), key)
  {
    match e {
      case CommitUpdate(k, req, versionId) =>
        var seen := s.txs[k].seen;
        CommitKeepsVersions(s, s.txs[k], Merged(seen, req), NewVersion(seen, versionId, req.spec, req.changelog),
            After(s, e), key);
      case CommitRollback(k, changelog, versionId) =>
        var seen := s.txs[k].seen;
        CommitKeepsVersions(s, s.txs[k], seen.(latest := seen.latest + 1),
                            NewVersion(seen, versionId, s.txs[k].target.value.spec, changelog), After(s, e), key);
      case _ =>
    }
  }

  /** A template id that is gone stays gone. */
  lemma StepKeepsAbsence(s: Sys, e: Step, id: string)
    requires Inv(s) && Enabled(s, e) && id in s.used && id !in s.db.templates
    ensures id in After(s, e).used && id !in After(s, e).db.templates
  {
  }

  /** A stored version, specification included, never changes while its template exists. */
  lemma {:induction false} VersionsAreImmutable(trace: seq<Sys>, steps: seq<Step>, i: nat, j: nat, key: Key)
    requires IsRun(trace, steps) && i <= j <= |steps| && key in trace[i].db.versions
    ensures if key.templateId in trace[j].db.templates
            then key in trace[j].db.versions && trace[j].db.versions[key] == trace[i].db.versions[key]
            else key.templateId in trace[j].used
  {
    InvHolds(trace, steps, j);
    if i < j {
      VersionsAreImmutable(trace, steps, i, j - 1, key);
      InvHolds(trace, steps, j - 1);
      var _ := steps[j - 1];
      if key.templateId in trace[j - 1].db.templates {
        StepKeepsVersions(trace[j - 1], steps[j - 1], key);
      } else {
        StepKeepsAbsence(trace[j - 1], steps[j - 1], key.templateId);
      }
    }
  }

  /** An Update that changes anything was based on the current row, so no concurrent change is lost,
      and adds exactly one version: the next number, with the requested specification. */
  lemma UpdateAddsOneVersion(trace: seq<Sys>, steps: seq<Step>, i: nat)
    requires IsRun(trace, steps) && i < |steps| && steps[i].CommitUpdate?
    ensures var seen := trace[i].txs[steps[i].k].seen;
            var v := NewVersion(seen, steps[i].versionId, steps[i].req.spec, steps[i].req.changelog);
            || (trace[i + 1].db == trace[i].db && !Insertable(trace[i].db, v))
            || (Insertable(trace[i].db, v) && seen == trace[i].db.templates[seen.id] &&
                AddsOne(trace[i].db, trace[i + 1].db, seen.id, v)
                && trace[i + 1].db.templates[seen.id] == Merged(trace[i].db.templates[seen.id], steps[i].req))
  {
    InvHolds(trace, steps, i);
    var tx, e := trace[i].txs[steps[i].k], steps[i];
    CommitWinsIffFirst(trace[i], tx, NewVersion(tx.seen, e.versionId, e.req.spec, e.req.changelog));
    CommitAddsOne(trace[i], tx, Merged(tx.seen, e.req), NewVersion(tx.seen, e.versionId, e.req.spec, e.req.changelog));
  }

  /** A Rollback that changes anything adds exactly one version, whose specification is the one
      stored for the target at the moment of the commit. */
  lemma RollbackRestoresTarget(trace: seq<Sys>, steps: seq<Step>, i: nat)
    requires IsRun(trace, steps) && i < |steps| && steps[i].CommitRollback?
    ensures var tx := trace[i].txs[steps[i].k];
            var v := NewVersion(tx.seen, steps[i].versionId, tx.target.value.spec, steps[i].changelog);
            var target := Key(tx.seen.id, tx.target.value.number);
            || (trace[i + 1].db == trace[i].db && !Insertable(trace[i].db, v))
            || (Insertable(trace[i].db, v) && AddsOne(trace[i].db, trace[i + 1].db, tx.seen.id, v)
                && target in trace[i].db.versions && v.spec == trace[i].db.versions[target].spec)
  {
    InvHolds(trace, steps, i);
    var tx, e := trace[i].txs[steps[i].k], steps[i];
    assert TxOk(trace[i], tx);
    CommitWinsIffFirst(trace[i], tx, NewVersion(tx.seen, e.versionId, tx.target.value.spec, e.changelog));
    CommitAddsOne(trace[i], tx, tx.seen.(latest := tx.seen.latest + 1),
        NewVersion(tx.seen, e.versionId, tx.target.value.spec, e.changelog));
  }
}
