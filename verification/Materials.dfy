/** Copying legacy documents into versioned materials: what survives failed and repeated runs. */
module Materials {
  import opened Seqs

  type VersionId = nat
  type ObjectId = nat

  /** What identifies a material: tenant, knowledge base and title. */
  datatype Key = Key(tenant: string, base: string, name: string)

  datatype VersionStatus = Staging | Indexing | Available

  datatype Version = Version(
    id: VersionId,
    number: int,
    source: Option<VersionId>,
    sha: string,
    size: nat,
    held: Option<ObjectId>,
    status: VersionStatus)

  datatype ObjectRow = ObjectRow(key: Key, version: VersionId, sha: string)

  datatype Document = Document(tenant: Option<string>, baseTenant: Option<string>, base: string, title: string, recordedHash: string)

  /** What the indexer does with a stored document. */
  datatype Manifest = NoManifest | IndexingRaises | Staged(expected: nat, indexed: nat, activation: Option<bool>)

  /** What the outside world does with one document in one run. */
  datatype Attempt = Attempt(content: Option<string>, uploadRaises: bool, verified: bool, manifest: Manifest)

  datatype Result = Migrated | Skipped(reason: string) | Failed

  datatype Outcome = Outcome(result: Result, version: Option<VersionId>, held: Option<ObjectId>, retrievable: bool)

  // ---- The chain ----

  /** A version has its number, points at its predecessor, and holds an object only if it is the last. */
  ghost predicate LinkAt(vs: seq<Version>, i: nat)
    requires i < |vs|
  {
    && vs[i].number == i + 1
    && vs[i].source == (if i == 0 then None else Some(vs[i - 1].id))
    && (vs[i].held.Some? ==> i == |vs| - 1)
    && (vs[i].held.None? <==> vs[i].status == Staging)
  }

  /** Numbered 1..n, each later version pointing at its predecessor, an object only on the last. */
  ghost predicate Chain(vs: seq<Version>) {
    forall i :: 0 <= i < |vs| ==> LinkAt(vs, i)
  }

  ghost predicate SameIdentity(a: Version, b: Version) {
    a.id == b.id && a.number == b.number && a.source == b.source && a.sha == b.sha && a.size == b.size
  }

  /** Versions are never renumbered, relinked or removed, and nothing follows a stored one. */
  ghost predicate Extends(a: seq<Version>, b: seq<Version>) {
    && |a| <= |b|
    && forall i :: 0 <= i < |a| ==>
         SameIdentity(a[i], b[i]) && (a[i].held.Some? ==> b[i].held == a[i].held && |b| == |a|)
  }

  lemma ExtendsTransitive(a: seq<Version>, b: seq<Version>, c: seq<Version>)
    requires Extends(a, b) && Extends(b, c)
    ensures Extends(a, c)
  {
  }

  ghost predicate Unstored(vs: seq<Version>) {
    forall i :: 0 <= i < |vs| ==> vs[i].held.None?
  }

  function Last(vs: seq<Version>): Version
    requires vs != []
  {
    vs[|vs| - 1]
  }

  function WithLast(vs: seq<Version>, v: Version): seq<Version>
    requires vs != []
  {
    vs[|vs| - 1 := v]
  }

  lemma ChainGrows(vs: seq<Version>, v: Version)
    requires Chain(vs) && Unstored(vs)
    requires v.number == |vs| + 1 && v.held.None? && v.status == Staging
    requires v.source == if vs == [] then None else Some(Last(vs).id)
    ensures Chain(vs + [v]) && Extends(vs, vs + [v])
  {
    forall i | 0 <= i < |vs + [v]| ensures LinkAt(vs + [v], i) {
      if i < |vs| {
        assert LinkAt(vs, i);
      }
    }
  }

  lemma ChainStores(vs: seq<Version>, v: Version)
    requires Chain(vs) && vs != [] && v.held.Some? && v.status != Staging && SameIdentity(Last(vs), v)
    requires Last(vs).held.Some? ==> v.held == Last(vs).held
    ensures Chain(WithLast(vs, v)) && Extends(vs, WithLast(vs, v))
  {
    var r := WithLast(vs, v);
    forall i | 0 <= i < |r| ensures LinkAt(r, i) {
      assert LinkAt(vs, i);
    }
  }

  // ---- The tables ----

  datatype Db = Db(
    materials: map<Key, seq<Version>>,
    active: map<Key, VersionId>,
    objects: map<ObjectId, ObjectRow>,
    nextVersion: VersionId,
    nextObject: ObjectId)

  function VersionsOf(db: Db, key: Key): seq<Version> {
    if key in db.materials then db.materials[key] else []
  }

  /** An object row belongs to the last version of its material. */
  ghost predicate RowSound(db: Db, o: ObjectId)
    requires o in db.objects
  {
    var vs := VersionsOf(db, db.objects[o].key);
    o < db.nextObject && vs != [] && Last(vs).held == Some(o) && Last(vs).id == db.objects[o].version
  }

  /** A material has a chain, a row for its object, and at most its last version active. */
  ghost predicate MaterialSound(db: Db, key: Key)
    requires key in db.materials
  {
    var vs := db.materials[key];
    && vs != [] && Chain(vs)
    && (Last(vs).held.Some? ==> Last(vs).held.value in db.objects && db.objects[Last(vs).held.value].key == key)
    && (key in db.active ==> Last(vs).id == db.active[key] && Last(vs).status == Available)
  }

  ghost predicate Sound(db: Db) {
    && (forall o :: o in db.objects ==> RowSound(db, o))
    && (forall key :: key in db.materials ==> MaterialSound(db, key))
  }

  ghost predicate Grows(a: Db, b: Db) {
    forall key :: key in a.materials ==> key in b.materials && Extends(a.materials[key], b.materials[key])
  }

  ghost predicate OnlyAt(a: Db, b: Db, key: Key) {
    forall k :: k != key ==> (k in b.materials <==> k in a.materials) && (k in a.materials ==> b.materials[k] == a.materials[k])
  }

  lemma GrowsTransitive(a: Db, b: Db, c: Db)
    requires Grows(a, b) && Grows(b, c)
    ensures Grows(a, c)
  {
    forall key | key in a.materials ensures key in c.materials && Extends(a.materials[key], c.materials[key]) {
      ExtendsTransitive(a.materials[key], b.materials[key], c.materials[key]);
    }
  }

  function AddVersion(db: Db, key: Key, v: Version): Db {
    db.(materials := db.materials[key := VersionsOf(db, key) + [v]], nextVersion := db.nextVersion + 1)
  }

  function Hold(db: Db, key: Key): Db
    requires key in db.materials && db.materials[key] != []
  {
    var vs, o := db.materials[key], db.nextObject;
    db.(materials := db.materials[key := WithLast(vs, Last(vs).(held := Some(o), status := Indexing))],
        objects := db.objects[o := ObjectRow(key, Last(vs).id, Last(vs).sha)],
        nextObject := o + 1)
  }

  function Activate(db: Db, key: Key): Db
    requires key in db.materials && db.materials[key] != []
  {
    var vs := db.materials[key];
    db.(materials := db.materials[key := WithLast(vs, Last(vs).(status := Available))],
        active := db.active[key := Last(vs).id])
  }

  lemma AddVersionSound(db: Db, key: Key, v: Version)
    requires Sound(db) && Unstored(VersionsOf(db, key))
    requires v.number == |VersionsOf(db, key)| + 1 && v.held.None? && v.status == Staging
    requires v.source == if VersionsOf(db, key) == [] then None else Some(Last(VersionsOf(db, key)).id)
    requires key in db.active ==> key in db.materials
    ensures Sound(AddVersion(db, key, v)) && Grows(db, AddVersion(db, key, v))
  {
    var r := AddVersion(db, key, v);
    assert key in db.materials ==> MaterialSound(db, key);
    ChainGrows(VersionsOf(db, key), v);
    forall o | o in r.objects ensures RowSound(r, o) {
      assert RowSound(db, o);
    }
    forall k | k in r.materials ensures MaterialSound(r, k) {
      if k != key {
        assert MaterialSound(db, k);
      } else if key in db.materials {
        LastIsStaging(db.materials[key]);
      }
    }
  }

  ghost predicate Holdable(db: Db, key: Key) {
    Sound(db) && key in db.materials && db.materials[key] != [] && Last(db.materials[key]).held.None?
  }

  lemma HoldSound(db: Db, key: Key)
    requires Holdable(db, key)
    ensures Sound(Hold(db, key)) && Grows(db, Hold(db, key)) && db.nextObject !in db.objects
  {
    NextIsNew(db);
    forall o | o in Hold(db, key).objects ensures RowSound(Hold(db, key), o) {
      HoldRow(db, key, o);
    }
    forall k | k in Hold(db, key).materials ensures MaterialSound(Hold(db, key), k) {
      HoldMaterial(db, key, k);
    }
    HoldChain(db, key);
  }

  lemma NextIsNew(db: Db)
    requires Sound(db)
    ensures db.nextObject !in db.objects
  {
    forall o | o in db.objects ensures o < db.nextObject {
      assert RowSound(db, o);
    }
  }

  lemma HoldChain(db: Db, key: Key)
    requires Holdable(db, key)
    ensures Chain(Hold(db, key).materials[key]) && Extends(db.materials[key], Hold(db, key).materials[key])
  {
    var vs := db.materials[key];
    assert MaterialSound(db, key);
    ChainStores(vs, Last(vs).(held := Some(db.nextObject), status := Indexing));
  }

  lemma HoldRow(db: Db, key: Key, o: ObjectId)
    requires Holdable(db, key) && o in Hold(db, key).objects
    ensures RowSound(Hold(db, key), o)
  {
    if o in db.objects {
      assert RowSound(db, o);
      NextIsNew(db);
    }
  }

  lemma HoldMaterial(db: Db, key: Key, k: Key)
    requires Holdable(db, key) && k in db.materials
    ensures MaterialSound(Hold(db, key), k)
  {
    assert MaterialSound(db, k);
    NextIsNew(db);
    HoldChain(db, key);
    if k == key {
      LastIsStaging(db.materials[key]);
    }
  }

  lemma LastIsStaging(vs: seq<Version>)
    requires Chain(vs) && vs != [] && Last(vs).held.None?
    ensures Last(vs).status == Staging
  {
    assert LinkAt(vs, |vs| - 1);
  }

  ghost predicate Activatable(db: Db, key: Key) {
    Sound(db) && key in db.materials && db.materials[key] != [] && Last(db.materials[key]).held.Some?
  }

  lemma ActivateSound(db: Db, key: Key)
    requires Activatable(db, key)
    ensures Sound(Activate(db, key)) && Grows(db, Activate(db, key))
  {
    forall o | o in db.objects ensures RowSound(Activate(db, key), o) {
      ActivateRow(db, key, o);
    }
    forall k | k in db.materials ensures MaterialSound(Activate(db, key), k) {
      ActivateMaterial(db, key, k);
    }
    ActivateChain(db, key);
  }

  lemma ActivateChain(db: Db, key: Key)
    requires Activatable(db, key)
    ensures Chain(Activate(db, key).materials[key]) && Extends(db.materials[key], Activate(db, key).materials[key])
  {
    var vs := db.materials[key];
    assert MaterialSound(db, key);
    ChainStores(vs, Last(vs).(status := Available));
  }

  lemma ActivateRow(db: Db, key: Key, o: ObjectId)
    requires Activatable(db, key) && o in db.objects
    ensures RowSound(Activate(db, key), o)
  {
    assert RowSound(db, o);
  }

  lemma ActivateMaterial(db: Db, key: Key, k: Key)
    requires Activatable(db, key) && k in db.materials
    ensures MaterialSound(Activate(db, key), k)
  {
    assert MaterialSound(db, k);
    ActivateChain(db, key);
  }

  /** No material has two stored objects, and no object serves two materials. */
  lemma OneObjectPerMaterial(db: Db, o: ObjectId, p: ObjectId)
    requires Sound(db) && o in db.objects && p in db.objects && db.objects[o].key == db.objects[p].key
    ensures o == p
  {
    assert RowSound(db, o) && RowSound(db, p);
  }

  /** One past the largest number in use, 1 when there is none. */
  method NextVersionNumber(existing: seq<int>) returns (n: int)
    ensures existing == [] ==> n == 1
    ensures forall i :: 0 <= i < |existing| ==> existing[i] < n
    ensures existing != [] ==> n - 1 in existing
  {
    if existing == [] {
      return 1;
    }
    var largest := existing[0];
    for i := 1 to |existing|
      invariant largest in existing
      invariant forall k :: 0 <= k < i ==> existing[k] <= largest
    {
      if existing[i] > largest {
        largest := existing[i];
      }
    }
    return largest + 1;
  }

  function Numbers(vs: seq<Version>): (r: seq<int>)
    ensures |r| == |vs| && forall i :: 0 <= i < |r| ==> r[i] == vs[i].number
  {
    seq(|vs|, i requires 0 <= i < |vs| => vs[i].number)
  }

  /** The version with the largest number. */
  method Latest(vs: seq<Version>) returns (v: Version)
    requires vs != []
    ensures v in vs && forall w :: w in vs ==> w.number <= v.number
  {
    v := vs[0];
    for i := 1 to |vs|
      invariant v in vs
      invariant forall k :: 0 <= k < i ==> vs[k].number <= v.number
    {
      if vs[i].number > v.number {
        v := vs[i];
      }
    }
  }

  /** The highest-numbered version that holds an object, if any. */
  method Stored(vs: seq<Version>) returns (v: Option<Version>)
    ensures v.None? <==> forall i :: 0 <= i < |vs| ==> vs[i].held.None?
    ensures v.Some? ==> v.value in vs && v.value.held.Some?
    ensures v.Some? ==> forall i :: 0 <= i < |vs| && vs[i].held.Some? ==> vs[i].number <= v.value.number
  {
    v := None;
    for i := 0 to |vs|
      invariant v.None? <==> forall k :: 0 <= k < i ==> vs[k].held.None?
      invariant v.Some? ==> v.value in vs && v.value.held.Some?
      invariant v.Some? ==> forall k :: 0 <= k < i && vs[k].held.Some? ==> vs[k].number <= v.value.number
    {
      if vs[i].held.Some? && (v.None? || vs[i].number > v.value.number) {
        v := Some(vs[i]);
      }
    }
  }

  // ---- The report ----

  function Tally(outcomes: seq<Outcome>, result: Outcome -> bool): nat {
    if outcomes == [] then 0
    else Tally(outcomes[..|outcomes| - 1], result) + (if result(outcomes[|outcomes| - 1]) then 1 else 0)
  }

  /** A tally is a number of positions. */
  lemma {:induction false} TallyIs(outcomes: seq<Outcome>, result: Outcome -> bool)
    ensures Tally(outcomes, result) == |set i: nat | i < |outcomes| && result(outcomes[i])|
  {
    if outcomes != [] {
      var n := |outcomes| - 1;
      TallyIs(outcomes[..n], result);
      var front := set i: nat | i < n && result(outcomes[..n][i]);
      assert (set i: nat | i < |outcomes| && result(outcomes[i])) == front + (if result(outcomes[n]) then {n} else {});
    }
  }

  class Report {
    var scanned: nat
    var migrated: nat
    var skipped: nat
    var failed: nat
    var activated: nat
    var outcomes: seq<Outcome>

    ghost predicate Valid()
      reads this
    {
      && scanned == |outcomes| == migrated + skipped + failed
      && migrated == Tally(outcomes, (o: Outcome) => o.result == Migrated)
      && failed == Tally(outcomes, (o: Outcome) => o.result == Failed)
      && activated == Tally(outcomes, (o: Outcome) => o.result == Migrated && o.retrievable)
    }

    constructor ()
      ensures Valid() && outcomes == []
    {
      scanned, migrated, skipped, failed, activated, outcomes := 0, 0, 0, 0, 0, [];
    }

    method Record(o: Outcome)
      requires Valid()
      modifies this
      ensures Valid() && outcomes == old(outcomes) + [o]
    {
      outcomes := outcomes + [o];
      assert outcomes[..|outcomes| - 1] == old(outcomes);
      scanned := scanned + 1;
      if o.result == Migrated {
        migrated := migrated + 1;
        if o.retrievable {
          activated := activated + 1;
        }
      } else if o.result == Failed {
        failed := failed + 1;
      } else {
        skipped := skipped + 1;
      }
    }
  }

  // ---- The authority ----

  predicate Given(s: Option<string>) {
    s.Some? && s.value != ""
  }

  /** The document's own tenant, or its knowledge base's; none means the document is skipped. */
  function KeyFor(doc: Document): Option<Key> {
    if Given(doc.tenant) then Some(Key(doc.tenant.value, doc.base, doc.title))
    else if Given(doc.baseTenant) then Some(Key(doc.baseTenant.value, doc.base, doc.title))
    else None
  }

  lemma NumbersOfChain(vs: seq<Version>, number: int)
    requires Chain(vs)
    requires vs == [] ==> number == 1
    requires forall i :: 0 <= i < |vs| ==> Numbers(vs)[i] < number
    requires vs != [] ==> number - 1 in Numbers(vs)
    ensures number == |vs| + 1
  {
    if vs != [] {
      assert LinkAt(vs, |vs| - 1);
      var k :| 0 <= k < |vs| && Numbers(vs)[k] == number - 1;
      assert LinkAt(vs, k);
      assert Numbers(vs)[|vs| - 1] < number;
    }
  }

  lemma LatestOfChain(vs: seq<Version>, v: Version)
    requires Chain(vs) && v in vs && forall w :: w in vs ==> w.number <= v.number
    ensures v == Last(vs)
  {
    var k :| 0 <= k < |vs| && vs[k] == v;
    assert LinkAt(vs, k) && LinkAt(vs, |vs| - 1);
    assert Last(vs) in vs;
  }

  // ---- What a migration does ----

  /** The material a document belongs to: under its own tenant, or else under that of its knowledge base. */
  ghost predicate Belongs(doc: Document, key: Option<Key>) {
    if doc.tenant != None && doc.tenant != Some("") then key == Some(Key(doc.tenant.value, doc.base, doc.title))
    else if doc.baseTenant != None && doc.baseTenant != Some("") then key == Some(Key(doc.baseTenant.value, doc.base, doc.title))
    else key == None
  }

  /** The reason to skip a document: no tenant, an object already there, or a file that is missing, empty or not the recorded one. */
  ghost predicate SkippedFor(db: Db, doc: Document, content: Option<string>, digest: string -> string, lower: string -> string,
                             key: Option<Key>, reason: string) {
    if key == None then reason == "document_has_no_tenant"
    else if exists v :: v in VersionsOf(db, key.value) && v.held != None then reason == "already_migrated"
    else if content == None then reason == "local_file_missing"
    else if content == Some("") then reason == "local_file_empty"
    else doc.recordedHash != "" && lower(doc.recordedHash) != digest(content.value) && reason == "local_file_hash_mismatch"
  }

  /** The upload arrived and was verified. */
  ghost predicate Arrives(attempt: Attempt) {
    !attempt.uploadRaises && attempt.verified
  }

  /** The whole index was staged and its activation is asked for. */
  ghost predicate Ready(manifest: Manifest, activate: bool) {
    activate && manifest.Staged? && manifest.expected == manifest.indexed && manifest.expected > 0
  }

  /** The version becomes the one readers get: exactly if the index is whole and the switch does not fail. */
  ghost predicate GoesLive(attempt: Attempt, activate: bool) {
    Arrives(attempt) && Ready(attempt.manifest, activate) && attempt.manifest.activation.Some?
  }

  /** The version an upload leaves at the end of its material's chain. */
  ghost function Made(a: Db, key: Key, attempt: Attempt, sha: string, size: nat, activate: bool): Version {
    var vs := VersionsOf(a, key);
    Version(a.nextVersion, |vs| + 1, if vs == [] then None else Some(vs[|vs| - 1].id), sha, size,
            if Arrives(attempt) then Some(a.nextObject) else None,
            if GoesLive(attempt, activate) then Available else if Arrives(attempt) then Indexing else Staging)
  }

  /** The tables after an upload. */
  ghost predicate Uploaded(a: Db, b: Db, key: Key, attempt: Attempt, sha: string, size: nat, activate: bool) {
    var v := Made(a, key, attempt, sha, size, activate);
    && b.materials == a.materials[key := VersionsOf(a, key) + [v]]
    && b.active == (if GoesLive(attempt, activate) then a.active[key := v.id] else a.active)
    && b.objects == (if Arrives(attempt) then a.objects[a.nextObject := ObjectRow(key, v.id, sha)] else a.objects)
    && b.nextVersion == a.nextVersion + 1
    && b.nextObject == (if Arrives(attempt) then a.nextObject + 1 else a.nextObject)
  }

  /** What an upload is reported as: migrated unless something raised or the upload was not verified. */
  ghost predicate Reported(a: Db, attempt: Attempt, activate: bool, o: Outcome) {
    if !Arrives(attempt) || attempt.manifest.IndexingRaises? || (Ready(attempt.manifest, activate) && attempt.manifest.activation.None?)
    then && o.result == Failed && o.held == None && !o.retrievable
         && o.version == if !attempt.uploadRaises && !attempt.verified then Some(a.nextVersion) else None
    else && o.result == Migrated && o.version == Some(a.nextVersion) && o.held == Some(a.nextObject)
         && (o.retrievable <==> GoesLive(attempt, activate) && attempt.manifest.activation == Some(true))
  }

  /** There is a reason to skip the document, nothing is written and the reason reported. */
  ghost predicate PassedOver(a: Db, b: Db, doc: Document, attempt: Attempt, digest: string -> string, lower: string -> string,
                             key: Option<Key>, o: Outcome) {
    && o.result.Skipped? && SkippedFor(a, doc, attempt.content, digest, lower, key, o.result.reason) && b == a && !o.retrievable
    && Points(a, key, o)
  }

  /** A document skipped because it is already stored is reported with the version that holds its object; no other is. */
  ghost predicate Points(db: Db, key: Option<Key>, o: Outcome) {
    if o.result == Skipped("already_migrated") then
      key.Some? && exists v :: v in VersionsOf(db, key.value) && v.held != None && o.version == Some(v.id) && o.held == v.held
    else o.version == None && o.held == None
  }

  /** There is none and the document is uploaded. */
  ghost predicate Migrates(a: Db, b: Db, doc: Document, attempt: Attempt, digest: string -> string, lower: string -> string,
                           activate: bool, key: Option<Key>, o: Outcome) {
    && Admitted(a, doc, attempt.content, digest, lower, key)
    && Uploaded(a, b, key.value, attempt, digest(attempt.content.value), |attempt.content.value|, activate)
    && Reported(a, attempt, activate, o)
  }

  ghost predicate Admitted(db: Db, doc: Document, content: Option<string>, digest: string -> string, lower: string -> string, key: Option<Key>) {
    key.Some? && content.Some? && forall reason :: !SkippedFor(db, doc, content, digest, lower, key, reason)
  }

  /** One document: passed over exactly if there is a reason to, otherwise uploaded. */
  ghost predicate Processed(a: Db, b: Db, doc: Document, attempt: Attempt, digest: string -> string, lower: string -> string,
                            activate: bool, o: Outcome) {
    exists key :: Belongs(doc, key) &&
      (PassedOver(a, b, doc, attempt, digest, lower, key, o) || Migrates(a, b, doc, attempt, digest, lower, activate, key, o))
  }

  ghost predicate Activates(manifest: Manifest, activate: bool) {
    Ready(manifest, activate) && manifest.activation.Some?
  }

  /** The report on a stored document, by what its index came to. */
  ghost predicate Indexed(manifest: Manifest, activate: bool, version: VersionId, o: ObjectId, outcome: Outcome) {
    if manifest.IndexingRaises? || (Ready(manifest, activate) && manifest.activation.None?)
    then outcome.result == Failed && outcome.version == None && outcome.held == None && !outcome.retrievable
    else && outcome.result == Migrated && outcome.version == Some(version) && outcome.held == Some(o)
         && (outcome.retrievable <==> Activates(manifest, activate) && manifest.activation == Some(true))
  }

  /** The three writes of an upload together. */
  lemma UploadIs(a: Db, key: Key, attempt: Attempt, sha: string, size: nat, activate: bool)
    ensures var vs := VersionsOf(a, key);
            var v := Version(a.nextVersion, |vs| + 1, if vs == [] then None else Some(Last(vs).id), sha, size, None, Staging);
            var b := AddVersion(a, key, v);
            Uploaded(a, if !Arrives(attempt) then b else if GoesLive(attempt, activate) then Activate(Hold(b, key), key) else Hold(b, key),
                     key, attempt, sha, size, activate)
  {
    var vs := VersionsOf(a, key);
    var v := Version(a.nextVersion, |vs| + 1, if vs == [] then None else Some(Last(vs).id), sha, size, None, Staging);
    var held := v.(held := Some(a.nextObject), status := Indexing);
    assert WithLast(vs + [v], held) == vs + [held];
    assert WithLast(vs + [held], held.(status := Available)) == vs + [held.(status := Available)];
  }

  class Authority {
    var db: Db

    ghost predicate Valid()
      reads this
    {
      Sound(db) && forall key :: key in db.active ==> key in db.materials
    }

    constructor ()
      ensures Valid() && db == Db(map[], map[], map[], 0, 0)
    {
      db := Db(map[], map[], map[], 0, 0);
    }

    /** `_create_version`: a new version at the end of the chain. */
    method CreateVersion(key: Key, sha: string, size: nat) returns (id: VersionId)
      requires Valid() && Unstored(VersionsOf(db, key))
      modifies this
      ensures Valid() && Grows(old(db), db) && OnlyAt(old(db), db, key)
      ensures db.objects == old(db).objects && db.active == old(db).active && db.nextObject == old(db).nextObject
      ensures key in db.materials && |db.materials[key]| == |VersionsOf(old(db), key)| + 1
      ensures Last(db.materials[key]).id == id == old(db).nextVersion
      ensures Last(db.materials[key]).sha == sha && Last(db.materials[key]).held.None?
      ensures var vs := VersionsOf(old(db), key);
              db == AddVersion(old(db), key, Version(id, |vs| + 1, if vs == [] then None else Some(Last(vs).id), sha, size, None, Staging))
    {
      var vs := VersionsOf(db, key);
      assert Chain(vs) by {
        if key in db.materials {
          assert MaterialSound(db, key);
        }
      }
      var number := NextVersionNumber(Numbers(vs));
      NumbersOfChain(vs, number);
      var source := None;
      if number != 1 {
        var latest := Latest(vs);
        LatestOfChain(vs, latest);
        source := Some(latest.id);
      }
      id := db.nextVersion;
      var version := Version(id, number, source, sha, size, None, Staging);
      AddVersionSound(db, key, version);
      db := AddVersion(db, key, version);
    }

    /** `_record_object`: the object row, and the version that holds it. */
    method RecordObject(key: Key) returns (o: ObjectId)
      requires Valid() && key in db.materials && db.materials[key] != [] && Last(db.materials[key]).held.None?
      modifies this
      ensures Valid() && Grows(old(db), db) && OnlyAt(old(db), db, key)
      ensures o == old(db).nextObject && o !in old(db).objects && db.objects.Keys == old(db).objects.Keys + {o}
      ensures db.active == old(db).active
      ensures key in db.materials && db.materials[key] != [] && Last(db.materials[key]).held == Some(o)
      ensures db == Hold(old(db), key)
    {
      HoldSound(db, key);
      o := db.nextObject;
      db := Hold(db, key);
    }

    /** `_mark_available`. */
    method MarkAvailable(key: Key)
      requires Valid() && key in db.materials && db.materials[key] != [] && Last(db.materials[key]).held.Some?
      modifies this
      ensures Valid() && Grows(old(db), db) && OnlyAt(old(db), db, key)
      ensures db == Activate(old(db), key)
    {
      ActivateSound(db, key);
      db := Activate(db, key);
    }

    /** The part of a migration that writes: a failure leaves a version without an object behind. */
    method Upload(key: Key, attempt: Attempt, sha: string, size: nat, activate: bool) returns (outcome: Outcome)
      requires Valid() && Unstored(VersionsOf(db, key))
      modifies this
      ensures Valid() && Grows(old(db), db) && OnlyAt(old(db), db, key)
      ensures Uploaded(old(db), db, key, attempt, sha, size, activate) && Reported(old(db), attempt, activate, outcome)
    {
      ghost var d0 := db;
      var version := CreateVersion(key, sha, size);
      if attempt.uploadRaises || !attempt.verified {
        return Outcome(Failed, if attempt.uploadRaises then None else Some(version), None, false);
      }
      ghost var d1 := db;
      outcome := Keep(key, attempt.manifest, version, activate);
      GrowsTransitive(d0, d1, db);
      UploadIs(d0, key, attempt, sha, size, activate);
    }

    /** After a verified upload: the object is recorded first, whatever becomes of the index. */
    method Keep(key: Key, manifest: Manifest, version: VersionId, activate: bool) returns (outcome: Outcome)
      requires Valid() && key in db.materials && db.materials[key] != [] && Last(db.materials[key]).held.None?
      modifies this
      ensures Valid() && Grows(old(db), db) && OnlyAt(old(db), db, key)
      ensures db == if Activates(manifest, activate) then Activate(Hold(old(db), key), key) else Hold(old(db), key)
      ensures Indexed(manifest, activate, version, old(db).nextObject, outcome)
    {
      ghost var d0 := db;
      var o := RecordObject(key);
      ghost var d1 := db;
      outcome := Index(key, manifest, version, o, activate);
      GrowsTransitive(d0, d1, db);
    }

    /** Staging, verifying and activating the index of a stored document. */
    method Index(key: Key, manifest: Manifest, version: VersionId, o: ObjectId, activate: bool) returns (outcome: Outcome)
      requires Valid() && key in db.materials && db.materials[key] != [] && Last(db.materials[key]).held == Some(o)
      modifies this
      ensures Valid() && Grows(old(db), db) && OnlyAt(old(db), db, key)
      ensures db == if Activates(manifest, activate) then Activate(old(db), key) else old(db)
      ensures Indexed(manifest, activate, version, o, outcome)
    {
      match manifest {
        case NoManifest => outcome := Outcome(Migrated, Some(version), Some(o), false);
        case IndexingRaises => outcome := Outcome(Failed, None, None, false);
        case Staged(expected, indexed, activation) =>
          outcome := Outcome(Migrated, Some(version), Some(o), false);
          if activate && indexed == expected && expected > 0 {
            if activation.None? {
              return Outcome(Failed, None, None, false);
            }
            MarkAvailable(key);
            outcome := Outcome(Migrated, Some(version), Some(o), activation.value);
          }
      }
    }

    /** The checks before anything is written: an outcome if the document is skipped. */
    method Screen(doc: Document, content: Option<string>, digest: string -> string, lower: string -> string, key: Option<Key>)
      returns (skip: Option<Outcome>)
      ensures skip.Some? ==> skip.value.result.Skipped? && !skip.value.retrievable
      ensures skip.Some? ==> SkippedFor(db, doc, content, digest, lower, key, skip.value.result.reason) && Points(db, key, skip.value)
      ensures skip.None? ==> Admitted(db, doc, content, digest, lower, key) && Unstored(VersionsOf(db, key.value))
    {
      if key.None? {
        return Some(Outcome(Skipped("document_has_no_tenant"), None, None, false));
      }
      var found := Stored(VersionsOf(db, key.value));
      if found.Some? {
        return Some(Outcome(Skipped("already_migrated"), Some(found.value.id), found.value.held, false));
      }
      if content.None? {
        return Some(Outcome(Skipped("local_file_missing"), None, None, false));
      }
      if content.value == "" {
        return Some(Outcome(Skipped("local_file_empty"), None, None, false));
      }
      if doc.recordedHash != "" && lower(doc.recordedHash) != digest(content.value) {
        return Some(Outcome(Skipped("local_file_hash_mismatch"), None, None, false));
      }
      return None;
    }

    /** `_migrate_one`, with an exception outside the verification step reported as a failure. */
    method MigrateOne(doc: Document, attempt: Attempt, digest: string -> string, lower: string -> string, activate: bool)
      returns (outcome: Outcome)
      requires Valid()
      modifies this
      ensures Valid() && Grows(old(db), db)
      ensures Processed(old(db), db, doc, attempt, digest, lower, activate, outcome)
    {
      var key := KeyFor(doc);
      assert Belongs(doc, key);
      var skip := Screen(doc, attempt.content, digest, lower, key);
      if skip.Some? {
        outcome := skip.value;
        assert PassedOver(old(db), db, doc, attempt, digest, lower, key, outcome);
      } else {
        var content := attempt.content.value;
        outcome := Upload(key.value, attempt, digest(content), |content|, activate);
        assert Migrates(old(db), db, doc, attempt, digest, lower, activate, key, outcome);
      }
    }

    /** One run over a list of documents; a bad document does not stop it. `dbs` are the tables before each and after the last. */
    method Run(docs: seq<(Document, Attempt)>, digest: string -> string, lower: string -> string, activate: bool)
      returns (report: Report, ghost dbs: seq<Db>)
      requires Valid()
      modifies this
      ensures Valid() && Grows(old(db), db)
      ensures report.Valid() && fresh(report)
      ensures InTurn(old(db), db, docs, digest, lower, activate, dbs, report.outcomes)
    {
      report := new Report();
      dbs := [db];
      for i := 0 to |docs|
        invariant Valid() && Grows(old(db), db)
        invariant report.Valid() && fresh(report)
        invariant InTurn(old(db), db, docs[..i], digest, lower, activate, dbs, report.outcomes)
      {
        ghost var before, told := db, report.outcomes;
        var outcome := MigrateOne(docs[i].0, docs[i].1, digest, lower, activate);
        GrowsTransitive(old(db), before, db);
        InTurnNext(old(db), before, db, docs, i, digest, lower, activate, dbs, told, outcome);
        report.Record(outcome);
        dbs := dbs + [db];
      }
      assert docs[..|docs|] == docs;
    }

    /** Any number of runs, each over its own documents with its own failures: one after the other like one long run. */
    method RunRepeatedly(runs: seq<seq<(Document, Attempt)>>, digest: string -> string, lower: string -> string, activate: bool)
      returns (ghost dbs: seq<Db>, ghost outcomes: seq<Outcome>)
      requires Valid()
      modifies this
      ensures Valid() && Grows(old(db), db)
      ensures InTurn(old(db), db, Flatten(runs), digest, lower, activate, dbs, outcomes)
    {
      dbs, outcomes := [db], [];
      for i := 0 to |runs|
        invariant Valid() && Grows(old(db), db)
        invariant InTurn(old(db), db, Flatten(runs[..i]), digest, lower, activate, dbs, outcomes)
      {
        ghost var before := db;
        var report;
        ghost var more;
        report, more := Run(runs[i], digest, lower, activate);
        GrowsTransitive(old(db), before, db);
        InTurnJoin(old(db), before, db, Flatten(runs[..i]), runs[i], digest, lower, activate, dbs, outcomes, more, report.outcomes);
        FlattenNext(runs, i);
        dbs, outcomes := dbs + more[1..], outcomes + report.outcomes;
      }
      assert runs[..|runs|] == runs;
    }
  }

  /** The documents are processed one after the other, from the first tables to the last. */
  ghost predicate InTurn(first: Db, last: Db, docs: seq<(Document, Attempt)>, digest: string -> string, lower: string -> string,
                         activate: bool, dbs: seq<Db>, outcomes: seq<Outcome>) {
    && |dbs| == |docs| + 1 && |outcomes| == |docs| && dbs[0] == first && dbs[|docs|] == last
    && forall i :: 0 <= i < |docs| ==> Processed(dbs[i], dbs[i + 1], docs[i].0, docs[i].1, digest, lower, activate, outcomes[i])
  }

  lemma InTurnNext(first: Db, before: Db, after: Db, docs: seq<(Document, Attempt)>, i: nat, digest: string -> string,
                   lower: string -> string, activate: bool, dbs: seq<Db>, outcomes: seq<Outcome>, o: Outcome)
    requires i < |docs| && InTurn(first, before, docs[..i], digest, lower, activate, dbs, outcomes)
    requires Processed(before, after, docs[i].0, docs[i].1, digest, lower, activate, o)
    ensures InTurn(first, after, docs[..i + 1], digest, lower, activate, dbs + [after], outcomes + [o])
  {
    var all, told := dbs + [after], outcomes + [o];
    forall k | 0 <= k < i + 1 ensures Processed(all[k], all[k + 1], docs[k].0, docs[k].1, digest, lower, activate, told[k]) {
      if k < i {
        assert docs[..i][k] == docs[k];
        assert Processed(dbs[k], dbs[k + 1], docs[k].0, docs[k].1, digest, lower, activate, outcomes[k]);
      }
    }
  }

  lemma InTurnJoin(first: Db, mid: Db, last: Db, a: seq<(Document, Attempt)>, b: seq<(Document, Attempt)>, digest: string -> string,
                   lower: string -> string, activate: bool, dbsA: seq<Db>, toldA: seq<Outcome>, dbsB: seq<Db>, toldB: seq<Outcome>)
    requires InTurn(first, mid, a, digest, lower, activate, dbsA, toldA)
    requires InTurn(mid, last, b, digest, lower, activate, dbsB, toldB)
    ensures InTurn(first, last, a + b, digest, lower, activate, dbsA + dbsB[1..], toldA + toldB)
  {
    var docs, dbs, told := a + b, dbsA + dbsB[1..], toldA + toldB;
    forall k | 0 <= k < |docs| ensures Processed(dbs[k], dbs[k + 1], docs[k].0, docs[k].1, digest, lower, activate, told[k]) {
      if k < |a| {
        assert Processed(dbsA[k], dbsA[k + 1], a[k].0, a[k].1, digest, lower, activate, toldA[k]);
      } else {
        var m := k - |a|;
        assert Processed(dbsB[m], dbsB[m + 1], b[m].0, b[m].1, digest, lower, activate, toldB[m]);
        assert dbs[k] == dbsB[m] && dbs[k + 1] == dbsB[m + 1];
      }
    }
  }

  lemma FlattenNext<T>(ss: seq<seq<T>>, i: nat)
    requires i < |ss|
    ensures Flatten(ss[..i + 1]) == Flatten(ss[..i]) + ss[i]
  {
    assert ss[..i + 1] == ss[..i] + [ss[i]];
    FlattenAppend(ss[..i], [ss[i]]);
    assert Flatten([ss[i]]) == ss[i];
  }
}
