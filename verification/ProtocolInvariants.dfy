/**
 What holds of the library after every accepted operation of every run, whatever its
 payloads; and what holds besides while no payload lists the same collection twice.
 */
module ProtocolInvariants {
  import opened Common
  import opened Json
  import opened Naming
  import opened ProtocolSpec
  import opened ProtocolForest
  import opened ProtocolDeletion

  /** A list of collections, where there is one, is a list of texts. */
  predicate ListsTexts(v: Fields) {
    Get(v, Collections).Arr? ==>
      forall i :: 0 <= i < |Get(v, Collections).elems| ==> Get(v, Collections).elems[i].Str?
  }

  predicate ItemSound(items: Objects, key: Key, v: Fields) {
    && Get(v, KeyField) == Str(key)
    && ItemType in v
    && (Relations in v ==> v[Relations].Obj?)
    && Settled(items, v, ParentItem)
    && !(HasParent(v) && Truthy(Get(v, Collections)))
    && ListsTexts(v)
  }

  predicate Linked(items: Objects) {
    forall k :: k in items ==> ItemSound(items, k, items[k])
  }

  predicate Keyed(objects: Objects) {
    forall k :: k in objects ==> Get(objects[k], KeyField) == Str(k)
  }

  predicate Dated(objects: Objects, limit: nat) {
    forall k :: k in objects ==>
      Get(objects[k], Version).Num? && 1 <= VersionOf(objects[k]) <= limit
  }

  predicate RowsDated(s: State, limit: nat) {
    && (forall k :: k in s.settings ==> 1 <= s.settings[k].version <= limit)
    && (forall k :: k in s.fulltext ==> 1 <= s.fulltext[k].version <= limit)
  }

  /**
   A queued edit names a live item, and while that item has not changed since the
   edit was queued the version recorded with the edit is the item's own.
   */
  predicate EditSound(items: Objects, p: Pending, version: nat) {
    && p.key in items && p.key != ""
    && p.base <= version
    && (VersionOf(items[p.key]) <= p.base ==> VersionOf(items[p.key]) == p.version)
  }

  predicate QueueSound(items: Objects, queue: seq<Pending>, version: nat) {
    && (forall i :: 0 <= i < |queue| ==> EditSound(items, queue[i], version))
    && (forall i, j :: 0 <= i < j < |queue| ==>
          queue[i].key != queue[j].key && queue[i].base <= queue[j].base)
  }

  predicate QueuesSound(s: State) {
    && s.pending.Keys == s.access.Keys
    && forall c :: c in s.pending ==> QueueSound(s.items, s.pending[c], s.version)
  }

  predicate RowsLive(s: State) {
    s.fulltext.Keys <= s.items.Keys && s.files.Keys <= s.items.Keys
  }

  ghost predicate GraphSound(s: State, limit: nat) {
    && Forest(s.collections)
    && Linked(s.items)
    && Keyed(s.collections) && Keyed(s.searches)
    && Dated(s.items, limit) && Dated(s.collections, limit) && Dated(s.searches, limit)
  }

  /** Everything that holds between two operations; `limit` bounds the versions in use. */
  ghost predicate Sound(s: State, limit: nat) {
    GraphSound(s, limit) && RowsLive(s) && RowsDated(s, limit) && QueuesSound(s) && s.version <= limit
  }

  ghost predicate Invariant(s: State) {
    Sound(s, s.version)
  }

  // ----------------------------------------------------------------- saves

  lemma NormalizedKeeps(v: Fields)
    ensures forall f :: f != Relations ==>
      (f in Normalized(v) <==> f in v) && Get(Normalized(v), f) == Get(v, f)
    ensures Relations in v && v[Relations].Obj? ==>
      Relations in Normalized(v) && Normalized(v)[Relations].Obj?
    ensures Relations !in v ==> Normalized(v) == v
  {
  }

  /** Items saved or restamped at a version above the queues' leave the queues sound. */
  lemma QueuesKept(s: State, t: State)
    requires QueuesSound(s) && t.pending == s.pending && t.access == s.access
    requires s.version <= t.version
    requires forall c, i :: c in s.pending && 0 <= i < |s.pending[c]| ==>
      var k := s.pending[c][i].key;
      k in t.items && (VersionOf(t.items[k]) == VersionOf(s.items[k]) || VersionOf(t.items[k]) > s.version)
    ensures QueuesSound(t)
  {
  }

  /** An accepted save in terms of the stored value `v`, whatever was merged into it. */
  lemma Saved(s: State, kind: Kind, key: Key, data: Fields, version: nat, t: State) returns (v: Fields)
    requires SaveObject(s, kind, key, data, version) == Some(t)
    ensures Accepted(s, kind, key, v)
    ensures t == s.WithObjects(kind, s.Objects(kind)[key := Stamped(v, key, version)])
    ensures Relations in v ==> v[Relations].Obj?
    ensures var merged := Previous(s, kind, key) + data;
            && Get(v, Collections) == Get(merged, Collections)
            && Get(v, ItemType) == Get(merged, ItemType)
            && Get(v, ParentItem) == Get(merged, ParentItem)
            && Get(v, LinkMode) == Get(merged, LinkMode)
  {
    hide Accepted, Effective, Stamped;
    NormalizedKeeps(Previous(s, kind, key) + data);
    v := Normalized(Previous(s, kind, key) + data);
  }

  lemma StampedKeeps(v: Fields, key: Key, version: nat)
    ensures Get(Stamped(v, key, version), KeyField) == Str(key)
    ensures Get(Stamped(v, key, version), Version) == Num(version)
    ensures forall f :: f != KeyField && f != Version ==>
      (f in Stamped(v, key, version) <==> f in v) && Get(Stamped(v, key, version), f) == Get(v, f)
  {
  }

  lemma SavedItem(s: State, key: Key, data: Fields, version: nat, t: State)
    requires Linked(s.items) && SaveObject(s, Item, key, data, version) == Some(t)
    ensures t == s.(items := s.items[key := t.items[key]])
    ensures ItemSound(t.items, key, t.items[key])
    ensures Get(t.items[key], Version) == Num(version)
  {
    hide SaveObject, Stamped, ItemAccepted;
    var v := Saved(s, Item, key, data, version, t);
    StampedKeeps(v, key, version);
    assert t.items == s.items[key := Stamped(v, key, version)];
    AcceptedSound(s, t, key, v);
  }

  lemma AcceptedSound(s: State, t: State, key: Key, v: Fields)
    requires ItemAccepted(s, v) && (Relations in v ==> v[Relations].Obj?)
    requires key in t.items && s.items.Keys <= t.items.Keys
    requires Get(t.items[key], KeyField) == Str(key)
    requires forall f :: f != KeyField && f != Version ==>
      (f in t.items[key] <==> f in v) && Get(t.items[key], f) == Get(v, f)
    ensures ItemSound(t.items, key, t.items[key])
  {
  }

  lemma DatedWith(objects: Objects, key: Key, v: Fields, limit: nat)
    requires Dated(objects, limit) && 1 <= limit && Get(v, Version) == Num(limit)
    ensures Dated(objects[key := v], limit)
    ensures Keyed(objects) && Get(v, KeyField) == Str(key) ==> Keyed(objects[key := v])
  {
  }

  lemma LinkedWith(items: Objects, key: Key, v: Fields)
    requires Linked(items) && ItemSound(items[key := v], key, v)
    ensures Linked(items[key := v])
  {
  }

  lemma SaveItemKeeps(s: State, key: Key, data: Fields, version: nat, t: State)
    requires Sound(s, version) && s.version < version
    requires SaveObject(s, Item, key, data, version) == Some(t)
    ensures Sound(t, version) && t.version == s.version
    ensures t.pending == s.pending && t.access == s.access && s.items.Keys <= t.items.Keys
  {
    hide SaveObject, ItemSound, Linked, Dated, Keyed, Forest, QueuesSound, RowsDated;
    SavedItem(s, key, data, version, t);
    LinkedWith(s.items, key, t.items[key]);
    DatedWith(s.items, key, t.items[key], version);
    QueuesUnder(s, key, t);
    RowsUnder(s, t, version);
  }

  lemma RowsUnder(s: State, t: State, limit: nat)
    requires RowsDated(s, limit) && t.settings == s.settings && t.fulltext == s.fulltext
    ensures RowsDated(t, limit)
  {
  }

  /** Storing one item at a version above the library's leaves the queues sound. */
  lemma QueuesUnder(s: State, key: Key, t: State)
    requires QueuesSound(s) && t.pending == s.pending && t.access == s.access
    requires t.version == s.version && key in t.items && t.items == s.items[key := t.items[key]]
    requires VersionOf(t.items[key]) > s.version
    ensures QueuesSound(t)
  {
  }

  lemma QueuedLive(s: State, c: Client, i: nat)
    requires QueuesSound(s) && c in s.pending && i < |s.pending[c]|
    ensures s.pending[c][i].key in s.items
  {
  }

  lemma SavedCollectionGraph(s: State, key: Key, v: Fields, version: nat)
    requires GraphSound(s, version) && 1 <= version
    requires EndsAtRoot(s.collections, {key}, Get(v, ParentCollection))
    requires Get(v, Version) == Num(version) && Get(v, KeyField) == Str(key)
    ensures GraphSound(s.(collections := s.collections[key := v]), version)
  {
    hide Forest, Linked, Keyed, Dated, EndsAtRoot;
    WalkAcceptsExactlyForests(s.collections, key, v);
    DatedWith(s.collections, key, v, version);
  }

  lemma SavedCollection(s: State, key: Key, data: Fields, version: nat, t: State)
    requires SaveObject(s, Collection, key, data, version) == Some(t)
    ensures key in t.collections && t == s.(collections := s.collections[key := t.collections[key]])
    ensures EndsAtRoot(s.collections, {key}, Get(t.collections[key], ParentCollection))
    ensures Get(t.collections[key], Version) == Num(version)
    ensures Get(t.collections[key], KeyField) == Str(key)
  {
  }

  lemma SavedSearch(s: State, key: Key, data: Fields, version: nat, t: State)
    requires SaveObject(s, Search, key, data, version) == Some(t)
    ensures key in t.searches && t == s.(searches := s.searches[key := t.searches[key]])
    ensures Get(t.searches[key], Version) == Num(version) && Get(t.searches[key], KeyField) == Str(key)
  {
  }

  lemma SaveCollectionKeeps(s: State, key: Key, data: Fields, version: nat, t: State)
    requires Sound(s, version) && s.version < version
    requires SaveObject(s, Collection, key, data, version) == Some(t)
    ensures Sound(t, version) && t.version == s.version
  {
    hide SaveObject, GraphSound, QueuesSound, RowsDated, EndsAtRoot, Get;
    SavedCollection(s, key, data, version, t);
    SavedCollectionGraph(s, key, t.collections[key], version);
    RowsUnder(s, t, version);
    QueuesUntouched(s, t);
  }

  lemma SaveSearchKeeps(s: State, key: Key, data: Fields, version: nat, t: State)
    requires Sound(s, version) && s.version < version
    requires SaveObject(s, Search, key, data, version) == Some(t)
    ensures Sound(t, version) && t.version == s.version
  {
    hide SaveObject, Forest, Linked, Keyed, Dated, QueuesSound, RowsDated, Get;
    SavedSearch(s, key, data, version, t);
    DatedWith(s.searches, key, t.searches[key], version);
    RowsUnder(s, t, version);
    QueuesUntouched(s, t);
  }

  lemma QueuesUntouched(s: State, t: State)
    requires QueuesSound(s) && t.items == s.items && t.pending == s.pending && t.access == s.access
    requires s.version <= t.version
    ensures QueuesSound(t)
  {
  }

  lemma {:induction false} SaveAllKeeps(s: State, queue: seq<Pending>, version: nat, t: State)
    requires Sound(s, version) && s.version < version
    requires SaveAll(s, queue, version) == Some(t)
    ensures Sound(t, version) && t.version == s.version
    ensures t.pending == s.pending && t.access == s.access
    decreases |queue|
  {
    hide SaveObject, Sound;
    if queue != [] {
      var next := SaveObject(s, Item, queue[0].key, queue[0].data, version).value;
      SaveItemKeeps(s, queue[0].key, queue[0].data, version, next);
      SaveAllKeeps(next, queue[1..], version, t);
    }
  }

  // -------------------------------------------------------------- deletions

  lemma DatedWithout(objects: Objects, keys: set<Key>, limit: nat)
    requires Dated(objects, limit)
    ensures Dated(objects - keys, limit)
    ensures Keyed(objects) ==> Keyed(objects - keys)
  {
  }

  lemma LinkedWithout(items: Objects, doomed: set<Key>)
    requires Linked(items) && Closed(items, doomed)
    ensures Linked(items - doomed)
  {
  }

  lemma DeleteItemKeeps(s: State, key: Key, t: State)
    requires Invariant(s) && key in s.items && DeleteItem(s, key) == Some(t)
    ensures Sound(t, s.version) && t.version == s.version
  {
    hide Forest, Linked, Keyed, Dated, QueuesSound, Closed, Subtree;
    var doomed := Subtree(s.items, {key});
    SubtreeClosed(s.items, {key});
    LinkedWithout(s.items, doomed);
    DatedWithout(s.items, doomed, s.version);
    forall c, i | c in s.pending && 0 <= i < |s.pending[c]|
      ensures s.pending[c][i].key in t.items && s.pending[c][i].key in s.items
    {
      QueuedLive(s, c, i);
    }
    QueuesKept(s, t);
  }

  lemma UnfiledKeeps(v: Fields, key: Key)
    ensures forall f :: f != Collections ==> (f in Unfiled(v, key) <==> f in v)
                                             && Get(Unfiled(v, key), f) == Get(v, f)
    ensures !Get(v, Collections).Arr? ==> Unfiled(v, key) == v
    ensures Truthy(Get(Unfiled(v, key), Collections)) ==> Truthy(Get(v, Collections))
  {
    if Get(v, Collections) == Arr([]) {
      assert Unfiled(v, key) == v;
    }
  }

  lemma {:induction false} RemovedStays(xs: seq<Json>, x: Json)
    ensures forall y :: y in RemoveFirst(xs, x) ==> y in xs
  {
    if xs != [] {
      RemovedStays(xs[1..], x);
      assert forall y :: y in xs[1..] ==> y in xs;
    }
  }

  lemma UnfiledTexts(v: Fields, key: Key)
    requires ListsTexts(v)
    ensures ListsTexts(Unfiled(v, key))
  {
    if Get(v, Collections).Arr? {
      var xs := v[Collections].elems;
      RemovedStays(xs, Str(key));
      forall i | 0 <= i < |RemoveFirst(xs, Str(key))| ensures RemoveFirst(xs, Str(key))[i].Str? {
        assert RemoveFirst(xs, Str(key))[i] in xs;
      }
    }
  }

  lemma LinkedUnfiled(s: State, key: Key, version: nat, t: State)
    requires Linked(s.items)
    requires key in s.collections && DeleteCollection(s, key, version) == Some(t)
    ensures Linked(t.items)
  {
    hide Unfiled, Lists, ItemSound, Spliced;
    forall k | k in t.items ensures ItemSound(t.items, k, t.items[k]) {
      SoundAt(s.items, k);
      UnfiledSound(s.items, t.items, k, key);
    }
  }

  lemma UnfiledSound(items: Objects, after: Objects, k: Key, key: Key)
    requires k in items && ItemSound(items, k, items[k])
    requires after.Keys == items.Keys && after[k] == Unfiled(items[k], key)
    ensures ItemSound(after, k, after[k])
  {
    hide Unfiled, ListsTexts;
    UnfiledKeeps(items[k], key);
    UnfiledTexts(items[k], key);
  }

  lemma SplicedKeys(collections: Objects, key: Key, version: nat)
    requires key in collections
    ensures Spliced(collections, key, version).Keys == collections.Keys - {key}
  {
  }

  lemma DatedSpliced(collections: Objects, key: Key, version: nat)
    requires key in collections && Dated(collections, version) && Keyed(collections) && version > 0
    ensures Dated(Spliced(collections, key, version), version)
    ensures Keyed(Spliced(collections, key, version))
  {
  }

  lemma DatedUnfiled(s: State, key: Key, version: nat, t: State)
    requires Dated(s.items, version)
    requires key in s.collections && DeleteCollection(s, key, version) == Some(t)
    ensures Dated(t.items, version)
    ensures t.items.Keys == s.items.Keys
    ensures forall k :: k in s.items ==> VersionOf(t.items[k]) == VersionOf(s.items[k])
  {
    hide Unfiled, Lists, Spliced;
    forall k | k in s.items ensures Get(t.items[k], Version) == Get(s.items[k], Version) {
      UnfiledKeeps(s.items[k], key);
    }
  }

  lemma DeleteCollectionKeeps(s: State, key: Key, version: nat, t: State)
    requires Invariant(s) && key in s.collections && key != "" && s.version < version
    requires DeleteCollection(s, key, version) == Some(t)
    ensures Sound(t, version) && t.version == s.version
  {
    RaisedLimit(s, s.version, version);
    hide Forest, Linked, Dated, Keyed, QueuesSound, RowsDated, Lists, Unfiled, Spliced;
    DeletionSplices(s.collections, key, version);
    LinkedUnfiled(s, key, version, t);
    DatedSpliced(s.collections, key, version);
    DatedUnfiled(s, key, version, t);
    RowsUnder(s, t, version);
    forall c, i | c in s.pending && 0 <= i < |s.pending[c]|
      ensures s.pending[c][i].key in s.items
    {
      QueuedLive(s, c, i);
    }
    QueuesKept(s, t);
  }

  lemma DeleteKeeps(s: State, kind: Kind, key: Key, version: nat, t: State)
    requires Invariant(s) && key != "" && s.version < version
    requires DeleteObject(s, kind, key, version) == Some(t)
    ensures Sound(t, version) && t.version == s.version
  {
    hide DeleteItem, DeleteCollection, Forest, Linked, QueuesSound;
    match kind
    case Item => DeleteItemKeeps(s, key, t);
    case Collection => DeleteCollectionKeeps(s, key, version, t);
    case Search =>
      DatedWithout(s.searches, {key}, version);
      QueuesUntouched(s, t);
  }

  // ----------------------------------------------------------------- others

  lemma FileStampedKeeps(v: Fields, digest: string, mtime: int, version: nat)
    ensures Get(FileStamped(v, digest, mtime, version), Version) == Num(version)
    ensures forall f :: f !in {Md5, Mtime, ContentType, Filename, Version} ==>
      (f in FileStamped(v, digest, mtime, version) <==> f in v)
      && Get(FileStamped(v, digest, mtime, version), f) == Get(v, f)
  {
  }

  lemma RaisedLimit(s: State, limit: nat, version: nat)
    requires Sound(s, limit) && limit <= version
    ensures Sound(s, version)
  {
  }

  lemma FileKeeps(s: State, op: Operation, version: nat, t: State)
    requires Sound(s, version) && s.version < version && op.File?
    requires Write(s, op, version) == Some(t)
    ensures Sound(t, version) && t.version == s.version
  {
    hide Forest, Linked, Dated, Keyed, QueuesSound, RowsDated, FileStamped;
    var v := s.items[op.key];
    FileStampedKeeps(v, op.digest.value, op.mtime, version);
    SoundAt(s.items, op.key);
    DatedWith(s.items, op.key, t.items[op.key], version);
    LinkedWith(s.items, op.key, t.items[op.key]);
    RowsUnder(s, t, version);
    QueuesUnder(s, op.key, t);
  }

  lemma SoundAt(items: Objects, key: Key)
    requires Linked(items) && key in items
    ensures ItemSound(items, key, items[key])
  {
  }

  lemma SettingKeeps(s: State, name: string, value: Json, version: nat, t: State)
    requires Sound(s, version) && s.version < version
    requires ChangeSetting(s, name, value, version) == Some(t)
    ensures Sound(t, version) && t.version == s.version
  {
  }

  lemma FullTextKeeps(s: State, key: Key, content: string, version: nat, t: State)
    requires Sound(s, version) && s.version < version
    requires ChangeFullText(s, key, content, version) == Some(t)
    ensures Sound(t, version) && t.version == s.version
  {
    hide GraphSound, QueuesSound;
    SameGraph(s, t, version);
    QueuesUntouched(s, t);
  }

  lemma WriteKeeps(s: State, op: Operation, t: State)
    requires Invariant(s) && (NamesObject(op) ==> op.key != "")
    requires !op.Access? && !op.Offline? && !op.Flush?
    requires Write(s, op, s.version + 1) == Some(t)
    ensures Sound(t, s.version + 1) && t.version == s.version
  {
    hide Sound, SaveObject, ChangeSetting, ChangeFullText, ChangeFile, DeleteObject;
    var version := s.version + 1;
    RaisedLimit(s, s.version, version);
    match op
    case Save(_, kind, key, data) =>
      match kind {
        case Item => SaveItemKeeps(s, key, data, version, t);
        case Collection => SaveCollectionKeeps(s, key, data, version, t);
        case Search => SaveSearchKeeps(s, key, data, version, t);
      }
    case Setting(_, name, value) => SettingKeeps(s, name, value, version, t);
    case FullText(_, key, content) => FullTextKeeps(s, key, content, version, t);
    case File(_, _, _, _, _) => FileKeeps(s, op, version, t);
    case Delete(_, kind, key) => DeleteKeeps(s, kind, key, version, t);
  }

  /** Raising the library version to the limit in use. */
  lemma Committed(s: State, version: nat)
    requires Sound(s, version)
    ensures Invariant(s.(version := version))
  {
  }

  lemma SameGraph(s: State, t: State, limit: nat)
    requires GraphSound(s, limit)
    requires t.items == s.items && t.collections == s.collections && t.searches == s.searches
    ensures GraphSound(t, limit)
  {
  }

  lemma EnqueueKeeps(s: State, client: Client, key: Key, data: Fields, t: State)
    requires Invariant(s) && client in s.pending && key != ""
    requires Enqueue(s, client, key, data) == Some(t)
    ensures Invariant(t)
  {
    hide Forest, Linked, Keyed, Dated, RowsDated, VersionOf;
    RowsUnder(s, t, s.version);
    forall c | c in t.pending ensures QueueSound(t.items, t.pending[c], t.version) {
      assert QueueSound(s.items, s.pending[c], s.version);
    }
  }

  /** A queue may be emptied, and access changed, at any time. */
  lemma AdministrationKeeps(s: State, t: State)
    requires Invariant(s) && t == s.(pending := t.pending, access := t.access)
    requires t.pending.Keys == t.access.Keys == s.pending.Keys
    requires forall c :: c in s.pending ==> t.pending[c] == s.pending[c] || t.pending[c] == []
    ensures Invariant(t)
  {
  }

  lemma FlushKeeps(s: State, client: Client, t: State)
    requires Invariant(s) && Step(s, Flush(client)) == Some(t)
    ensures Invariant(t)
  {
    hide GraphSound, RowsDated, SaveAll;
    var version, queue := s.version + 1, s.pending[client];
    var saved := SaveAll(s, queue, version).value;
    RaisedLimit(s, s.version, version);
    SaveAllKeeps(s, queue, version, saved);
    Committed(saved, version);
    AdministrationKeeps(saved.(version := version), t);
  }

  /** A step that writes to the library is a write at the next version. */
  lemma StepWrites(s: State, op: Operation, t: State) returns (w: State)
    requires !op.Access? && !op.Offline? && !op.Flush? && Step(s, op) == Some(t)
    ensures Write(s, op, s.version + 1) == Some(w) && t == w.(version := s.version + 1)
    ensures NamesObject(op) ==> ValidKey(op.key)
    ensures op.client in s.pending && op.client in s.access && s.access[op.client]
  {
    hide Write, Enqueue, SaveAll, ValidKey;
    w := Write(s, op, s.version + 1).value;
  }

  lemma StepSetsAccess(s: State, op: Operation, t: State)
    requires op.Access? && Step(s, op) == Some(t)
    ensures op.client in s.access && t == s.(access := s.access[op.client := op.allowed])
  {
  }

  lemma StepQueues(s: State, op: Operation, t: State)
    requires op.Offline? && Step(s, op) == Some(t)
    ensures op.client in s.pending && Enqueue(s, op.client, op.key, op.data) == Some(t) && ValidKey(op.key)
  {
  }

  /** Every accepted operation keeps the invariant. */
  lemma StepKeepsInvariant(s: State, op: Operation, t: State)
    requires Invariant(s) && Step(s, op) == Some(t)
    ensures Invariant(t)
  {
    hide Invariant, Step, Write, SaveAll, Enqueue, ValidKey;
    if op.Access? {
      StepSetsAccess(s, op, t);
      ClientsMatch(s);
      AdministrationKeeps(s, t);
    } else if op.Offline? {
      StepQueues(s, op, t);
      assert op.key != "" by { KeyNotEmpty(op.key); }
      EnqueueKeeps(s, op.client, op.key, op.data, t);
    } else if op.Flush? {
      FlushKeeps(s, op.client, t);
    } else {
      var written := StepWrites(s, op, t);
      assert NamesObject(op) ==> op.key != "" by {
        if NamesObject(op) { KeyNotEmpty(op.key); }
      }
      WriteKeeps(s, op, written);
      Committed(written, s.version + 1);
    }
  }

  lemma KeyNotEmpty(key: Key)
    requires ValidKey(key)
    ensures key != ""
  {
  }

  lemma ClientsMatch(s: State)
    requires Invariant(s)
    ensures s.pending.Keys == s.access.Keys
  {
  }

  lemma InitialInvariant()
    ensures Invariant(INITIAL)
  {
  }

  /** The invariant is kept along every accepted run. */
  lemma {:induction false} RunKeepsInvariant(s: State, ops: seq<Operation>, t: State)
    requires Invariant(s) && Run(s, ops) == Some(t)
    ensures Invariant(t)
    decreases |ops|
  {
    hide Invariant, Step;
    if ops != [] {
      StepKeepsInvariant(s, ops[0], Step(s, ops[0]).value);
      RunKeepsInvariant(Step(s, ops[0]).value, ops[1..], t);
    }
  }

  /** What the invariant says, spelled out, of every state a run reaches. */
  lemma ReachableStates(ops: seq<Operation>, t: State)
    requires Run(INITIAL, ops) == Some(t)
    ensures Acyclic(t.collections) && AllSettled(t.collections, ParentCollection)
    ensures forall k :: k in t.items ==>
      && (HasParent(t.items[k]) ==>
            && Get(t.items[k], ParentItem).Str? && Get(t.items[k], ParentItem).s in t.items
            && !Truthy(Get(t.items[k], Collections)))
      && 1 <= VersionOf(t.items[k]) <= t.version
    ensures t.files.Keys <= t.items.Keys && t.fulltext.Keys <= t.items.Keys
    ensures forall c, i :: c in t.pending && 0 <= i < |t.pending[c]| ==>
      && t.pending[c][i].key in t.items
      && forall j :: 0 <= j < i ==> t.pending[c][j].key != t.pending[c][i].key
    ensures forall k :: k in t.collections ==> 1 <= VersionOf(t.collections[k]) <= t.version
    ensures forall k :: k in t.searches ==> 1 <= VersionOf(t.searches[k]) <= t.version
    ensures forall k :: k in t.settings ==> 1 <= t.settings[k].version <= t.version
    ensures forall k :: k in t.fulltext ==> 1 <= t.fulltext[k].version <= t.version
  {
    InitialInvariant();
    RunKeepsInvariant(INITIAL, ops, t);
    ForestIffAcyclic(t.collections);
    hide Forest, Acyclic, ListsTexts;
    forall k | k in t.items ensures ItemSound(t.items, k, t.items[k]) {
      SoundAt(t.items, k);
    }
    forall c, i | c in t.pending && 0 <= i < |t.pending[c]|
      ensures t.pending[c][i].key in t.items
      ensures forall j :: 0 <= j < i ==> t.pending[c][j].key != t.pending[c][i].key
    {
      assert QueueSound(t.items, t.pending[c], t.version);
      QueuedLive(t, c, i);
    }
  }

  // --------------------------------------------------------------- listings

  predicate UniquelyListed(v: Fields) {
    Get(v, Collections).Arr? ==> Distinct(Get(v, Collections).elems)
  }

  /** A payload that lists no collection twice. */
  predicate ListsOnce(op: Operation) {
    (op.Save? && op.kind == Item) || op.Offline? ==> UniquelyListed(op.data)
  }

  /** Every listed collection is live, and listed once. */
  predicate Listed(items: Objects, collections: Objects) {
    forall k :: k in items ==> ListsOnly(items[k], collections) && UniquelyListed(items[k])
  }

  predicate QueuesListOnce(s: State) {
    forall c, i :: c in s.pending && 0 <= i < |s.pending[c]| ==> UniquelyListed(s.pending[c][i].data)
  }

  /** What holds besides, as long as no payload lists a collection twice. */
  predicate ListingsSound(s: State) {
    Listed(s.items, s.collections) && QueuesListOnce(s)
  }

  lemma SavedListed(s: State, kind: Kind, key: Key, data: Fields, version: nat, t: State)
    requires Listed(s.items, s.collections) && SaveObject(s, kind, key, data, version) == Some(t)
    requires kind == Item ==> UniquelyListed(data)
    ensures Listed(t.items, t.collections) && t.pending == s.pending
  {
    hide SaveObject, Stamped, Accepted, UniquelyListed, ListsOnly, Listed;
    var v := Saved(s, kind, key, data, version, t);
    match kind
    case Item =>
      StampedKeeps(v, key, version);
      ItemListed(s, key, data, v, t.items[key]);
      ListedWith(s.items, s.collections, key, t.items[key]);
    case Collection => ListedMore(s.items, s.collections, t.collections);
    case Search =>
  }

  lemma ListedWith(items: Objects, collections: Objects, key: Key, v: Fields)
    requires Listed(items, collections) && ListsOnly(v, collections) && UniquelyListed(v)
    ensures Listed(items[key := v], collections)
  {
    hide ListsOnly, UniquelyListed;
  }

  lemma ListedMore(items: Objects, collections: Objects, after: Objects)
    requires Listed(items, collections) && collections.Keys <= after.Keys
    ensures Listed(items, after)
  {
    hide ListsOnly, UniquelyListed;
    forall k | k in items ensures ListsOnly(items[k], after) {
      ListsOnlyMore(items[k], collections, after);
    }
  }

  lemma ItemListed(s: State, key: Key, data: Fields, v: Fields, stored: Fields)
    requires Listed(s.items, s.collections) && UniquelyListed(data) && Accepted(s, Item, key, v)
    requires Get(v, Collections) == Get(Previous(s, Item, key) + data, Collections)
    requires Collections in stored <==> Collections in v
    requires Get(stored, Collections) == Get(v, Collections)
    ensures ListsOnly(stored, s.collections) && UniquelyListed(stored)
  {
  }

  lemma ListsOnlyMore(v: Fields, collections: Objects, after: Objects)
    requires ListsOnly(v, collections) && collections.Keys <= after.Keys
    ensures ListsOnly(v, after)
  {
  }

  lemma {:induction false} SavedAllListed(s: State, queue: seq<Pending>, version: nat, t: State)
    requires Listed(s.items, s.collections) && SaveAll(s, queue, version) == Some(t)
    requires forall i :: 0 <= i < |queue| ==> UniquelyListed(queue[i].data)
    ensures Listed(t.items, t.collections) && t.pending == s.pending
    decreases |queue|
  {
    hide SaveObject, Listed, UniquelyListed;
    if queue != [] {
      var next := SaveObject(s, Item, queue[0].key, queue[0].data, version).value;
      SavedListed(s, Item, queue[0].key, queue[0].data, version, next);
      SavedAllListed(next, queue[1..], version, t);
    }
  }

  lemma {:induction false} RemovedOnce(xs: seq<Json>, x: Json)
    requires Distinct(xs)
    ensures Distinct(RemoveFirst(xs, x))
    ensures forall y :: y in RemoveFirst(xs, x) <==> y in xs && y != x
    ensures |RemoveFirst(xs, x)| <= |xs|
  {
    if xs != [] {
      assert Distinct(xs[1..]);
      RemovedOnce(xs[1..], x);
      assert forall y :: y in xs <==> y == xs[0] || y in xs[1..];
      if xs[0] != x {
        var rest := RemoveFirst(xs[1..], x);
        forall i, j | 0 <= i < j < |rest| + 1 ensures ([xs[0]] + rest)[i] != ([xs[0]] + rest)[j] {
          assert rest[j - 1] in rest;
          if i == 0 {
            var m :| 0 <= m < |xs[1..]| && xs[1..][m] == rest[j - 1];
            assert xs[0] != xs[m + 1];
          }
        }
      }
    }
  }

  lemma UnfiledOnce(v: Fields, key: Key)
    requires UniquelyListed(v)
    ensures UniquelyListed(Unfiled(v, key))
  {
    if Get(v, Collections).Arr? {
      RemovedOnce(v[Collections].elems, Str(key));
    }
  }

  lemma UnfiledListsLive(v: Fields, key: Key, collections: Objects, after: Objects)
    requires ListsOnly(v, collections) && UniquelyListed(v)
    requires Lists(v, key) ==> v[Collections].Arr?
    requires after.Keys == collections.Keys - {key}
    ensures ListsOnly(Unfiled(v, key), after)
  {
    if Collections in v {
      match v[Collections]
      case Arr(xs) =>
        RemovedOnce(xs, Str(key));
        assert Str(key) !in xs ==> Unfiled(v, key) == v;
        var ys := Get(Unfiled(v, key), Collections).elems;
        forall i | 0 <= i < |ys| ensures ys[i].Str? && ys[i].s in after {
          assert ys[i] in xs && ys[i] != Str(key);
        }
      case Str(text) =>
        forall i | 0 <= i < |text| ensures [text[i]] in after {
          if [text[i]] == key {
            assert OccursAt(text, key, i);
          }
        }
      case _ =>
    }
  }

  lemma DeletedListed(s: State, kind: Kind, key: Key, version: nat, t: State)
    requires Listed(s.items, s.collections) && DeleteObject(s, kind, key, version) == Some(t)
    ensures Listed(t.items, t.collections) && t.pending == s.pending
  {
    hide ListsOnly, UniquelyListed, Unfiled, Lists, Spliced, Subtree, Queued;
    if kind == Collection {
      SplicedKeys(s.collections, key, version);
      forall k | k in t.items ensures ListsOnly(t.items[k], t.collections) && UniquelyListed(t.items[k]) {
        UnfiledOnce(s.items[k], key);
        UnfiledListsLive(s.items[k], key, s.collections, t.collections);
      }
    }
  }

  lemma WrittenListed(s: State, op: Operation, t: State)
    requires !op.Access? && !op.Offline? && !op.Flush? && ListsOnce(op)
    requires Listed(s.items, s.collections) && Write(s, op, s.version + 1) == Some(t)
    ensures Listed(t.items, t.collections) && t.pending == s.pending
  {
    hide SaveObject, DeleteObject, Listed, UniquelyListed, FileStamped;
    match op
    case Save(_, kind, key, data) => SavedListed(s, kind, key, data, s.version + 1, t);
    case Delete(_, kind, key) => DeletedListed(s, kind, key, s.version + 1, t);
    case File(_, key, content, digest, mtime) => FiledListed(s, key, content, digest, mtime, s.version + 1, t);
    case Setting(_, _, _) =>
    case FullText(_, _, _) =>
  }

  lemma FiledListed(s: State, key: Key, content: string, digest: Option<string>, mtime: int, version: nat, t: State)
    requires Listed(s.items, s.collections) && ChangeFile(s, key, content, digest, mtime, version) == Some(t)
    ensures Listed(t.items, t.collections) && t.pending == s.pending
  {
    hide FileStamped;
    FileStampedKeeps(s.items[key], digest.value, mtime, version);
  }

  /** Every accepted operation that lists no collection twice keeps the listings sound. */
  lemma StepKeepsListings(s: State, op: Operation, t: State)
    requires ListingsSound(s) && ListsOnce(op) && Step(s, op) == Some(t)
    ensures ListingsSound(t)
  {
    hide Write, SaveAll, Listed, UniquelyListed, ValidKey;
    if op.Flush? {
      SavedAllListed(s, s.pending[op.client], s.version + 1, SaveAll(s, s.pending[op.client], s.version + 1).value);
    } else if !op.Access? && !op.Offline? {
      WrittenListed(s, op, Write(s, op, s.version + 1).value);
    }
  }

  lemma InitialListings()
    ensures ListingsSound(INITIAL)
  {
  }

  lemma {:induction false} RunKeepsListings(s: State, ops: seq<Operation>, t: State)
    requires ListingsSound(s) && Run(s, ops) == Some(t)
    requires forall i :: 0 <= i < |ops| ==> ListsOnce(ops[i])
    ensures ListingsSound(t)
    decreases |ops|
  {
    hide ListingsSound, Step, ListsOnce;
    if ops != [] {
      StepKeepsListings(s, ops[0], Step(s, ops[0]).value);
      RunKeepsListings(Step(s, ops[0]).value, ops[1..], t);
    }
  }

  /** As long as no payload lists a collection twice, every listed collection is live. */
  lemma ReachableListings(ops: seq<Operation>, t: State)
    requires Run(INITIAL, ops) == Some(t)
    requires forall i :: 0 <= i < |ops| ==> ListsOnce(ops[i])
    ensures forall k :: k in t.items && Collections in t.items[k] ==>
      match t.items[k][Collections]
      case Arr(xs) => forall i :: 0 <= i < |xs| ==> xs[i].Str? && xs[i].s in t.collections
      case Str(s) => forall i :: 0 <= i < |s| ==> [s[i]] in t.collections
      case Obj(m) => forall c :: c in m ==> c in t.collections
      case _ => false
  {
    hide Run, ListsOnce, UniquelyListed;
    InitialListings();
    RunKeepsListings(INITIAL, ops, t);
  }

  // ------------------------------------------------- where a listing dangles

  function Listings(v: Fields, key: Key): nat {
    if Get(v, Collections).Arr? then multiset(v[Collections].elems)[Str(key)] else 0
  }

  lemma {:induction false} RemoveFirstCounts(xs: seq<Json>, x: Json)
    ensures multiset(RemoveFirst(xs, x)) == multiset(xs) - multiset{x}
  {
    if xs != [] {
      assert xs == [xs[0]] + xs[1..];
      RemoveFirstCounts(xs[1..], x);
    }
  }

  lemma UnfiledLeavesOne(v: Fields, key: Key, collections: Objects, after: Objects)
    requires ListsOnly(v, collections) && after.Keys == collections.Keys - {key}
    requires Lists(v, key) ==> v[Collections].Arr?
    ensures ListsOnly(Unfiled(v, key), after) <==> Listings(v, key) <= 1
  {
    if Get(v, Collections).Arr? {
      ArrLeavesOne(v, key, collections, after);
    } else if Collections in v && v[Collections].Str? {
      forall i | 0 <= i < |v[Collections].s| ensures [v[Collections].s[i]] in after {
        if [v[Collections].s[i]] == key {
          assert OccursAt(v[Collections].s, key, i);
        }
      }
    }
  }

  predicate AllLive(bag: multiset<Json>, collections: Objects) {
    forall x :: x in bag ==> x.Str? && x.s in collections
  }

  lemma ArrListsLive(v: Fields, collections: Objects)
    requires Get(v, Collections).Arr?
    ensures ListsOnly(v, collections) <==> AllLive(multiset(v[Collections].elems), collections)
  {
  }

  lemma UnfiledBag(v: Fields, key: Key)
    requires Get(v, Collections).Arr?
    ensures Collections in Unfiled(v, key) && Unfiled(v, key)[Collections].Arr?
    ensures multiset(Unfiled(v, key)[Collections].elems)
         == multiset(v[Collections].elems) - multiset{Str(key)}
  {
    hide RemoveFirst;
    RemoveFirstCounts(v[Collections].elems, Str(key));
  }

  lemma ArrLeavesOne(v: Fields, key: Key, collections: Objects, after: Objects)
    requires Get(v, Collections).Arr?
    requires ListsOnly(v, collections) && after.Keys == collections.Keys - {key}
    ensures ListsOnly(Unfiled(v, key), after) <==> Listings(v, key) <= 1
  {
    hide Unfiled, ListsOnly;
    UnfiledBag(v, key);
    ArrListsLive(v, collections);
    ArrListsLive(Unfiled(v, key), after);
    var bag := multiset(v[Collections].elems);
    var left := multiset(Unfiled(v, key)[Collections].elems);
    if Listings(v, key) > 1 {
      assert Str(key) in left;
    } else {
      forall x | x in left ensures x.Str? && x.s in after {
        assert x in bag;
      }
    }
  }

  /**
   Deleting a collection takes one listing out of each item, so afterwards every
   listed collection is live exactly when no item had listed it twice.
   */
  lemma DeletionClearsListingsIffListedOnce(s: State, key: Key, version: nat, t: State)
    requires key in s.collections && DeleteCollection(s, key, version) == Some(t)
    requires forall k :: k in s.items ==> ListsOnly(s.items[k], s.collections)
    ensures (forall k :: k in t.items ==> ListsOnly(t.items[k], t.collections))
       <==> (forall k :: k in s.items ==> Listings(s.items[k], key) <= 1)
  {
    hide Unfiled, Lists, ListsOnly, Listings;
    forall k | k in s.items
      ensures ListsOnly(t.items[k], t.collections) <==> Listings(s.items[k], key) <= 1
    {
      UnfiledLeavesOne(s.items[k], key, s.collections, t.collections);
    }
  }
}
