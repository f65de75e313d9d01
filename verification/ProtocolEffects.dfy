/**
 What each operation asks and what it changes, as a relation between the library before
 and the library after, key by key and field by field. The step function is this relation.
 */
module ProtocolEffects {
  import opened Common
  import opened Json
  import opened Naming
  import opened ProtocolSpec
  import opened ProtocolDeletion
  import opened ProtocolInvariants

  // ----------------------------------------------------------------- objects

  /** Every other object is what it was. */
  ghost predicate OnlyAt(was: Objects, now: Objects, key: Key) {
    && key in now
    && (forall k :: k in now <==> k in was || k == key)
    && forall k :: k in was && k != key ==> now[k] == was[k]
  }

  /** What is said of a field: what the payload says, else what was there. */
  ghost function Said(was: Fields, data: Fields, f: Field): Option<Json> {
    if f in data then Some(data[f]) else if f in was then Some(was[f]) else None
  }

  /** A target given as a list of one is stored as that one; any other as it is. */
  ghost predicate TargetKept(given: Json, kept: Json) {
    if exists x :: given == Arr([x]) then given == Arr([kept]) else kept == given
  }

  /** The relations have the predicates that were given, and their targets. */
  ghost predicate RelationsKept(given: Json, kept: Json) {
    && given.Obj? && kept.Obj?
    && (forall p :: p in kept.members <==> p in given.members)
    && forall p :: p in given.members ==> TargetKept(given.members[p], kept.members[p])
  }

  /** An object after a save: what was said of every field, under its key, at the new version. */
  ghost predicate Overlaid(was: Fields, data: Fields, now: Fields, key: Key, version: nat) {
    && KeyField in now && now[KeyField] == Str(key)
    && Version in now && now[Version] == Num(version)
    && (match Said(was, data, Relations)
        case None => Relations !in now
        case Some(given) => Relations in now && RelationsKept(given, now[Relations]))
    && forall f :: f != KeyField && f != Version && f != Relations ==>
         match Said(was, data, f)
         case None => f !in now
         case Some(v) => f in now && now[f] == v
  }

  /** The payload says something, and not only what is there already. */
  ghost predicate Changes(was: Fields, data: Fields) {
    && (exists f :: f in data)
    && (was == map[] || exists f :: f in data && data[f] != (if f in was then was[f] else Null))
  }

  // ------------------------------------------------------------------- fits

  /** What iterating over a value yields. */
  ghost predicate Yields(v: Json, key: string) {
    match v
    case Arr(xs) => Str(key) in xs
    case Str(s) => |key| == 1 && key[0] in s
    case Obj(m) => key in m
    case _ => false
  }

  ghost predicate YieldsTexts(v: Json) {
    v.Str? || v.Obj? || (v.Arr? && forall x :: x in v.elems ==> x.Str?)
  }

  ghost predicate OfTypes(v: Fields, types: set<string>) {
    Get(v, ItemType).Str? && Get(v, ItemType).s in types
  }

  /** Where an item may hang, and where it may be filed. */
  ghost predicate ItemFits(items: Objects, collections: Objects, v: Fields) {
    var parent, listed := Get(v, ParentItem), Get(v, Collections);
    && ItemType in v
    && (Truthy(parent) ==> parent.Str? && parent.s in items && !Truthy(listed))
    && (OfTypes(v, {"annotation"}) ==> Truthy(parent) && OfTypes(items[parent.s], {"attachment"}))
    && (Truthy(parent) && (OfTypes(v, {"note"}) ||
                           (OfTypes(v, {"attachment"}) && Get(v, LinkMode) != Str("embedded_image"))) ==>
          && Hashable(Get(items[parent.s], ItemType))
          && !OfTypes(items[parent.s], {"note", "attachment", "annotation"}))
    && (Collections in v ==> YieldsTexts(listed) && forall k :: Yields(listed, k) ==> k in collections)
  }

  /** A way up from `parent` over live collections to one that has no parent itself. */
  ghost predicate LeadsUp(collections: Objects, parent: Json, path: seq<Key>)
    decreases |path|
  {
    if path == [] then !Truthy(parent)
    else
      && parent == Str(path[0]) && path[0] != "" && path[0] in collections
      && LeadsUp(collections, Get(collections[path[0]], ParentCollection), path[1..])
  }

  ghost predicate NoRepeats(path: seq<Key>) {
    forall i, j :: 0 <= i < j < |path| ==> path[i] != path[j]
  }

  ghost predicate CollectionFits(collections: Objects, key: Key, v: Fields) {
    exists path :: LeadsUp(collections, Get(v, ParentCollection), path) && NoRepeats(path) && key !in path
  }

  // ------------------------------------------------------------------ saves

  ghost predicate Fits(s: State, kind: Kind, key: Key, v: Fields) {
    match kind
    case Item => ItemFits(s.items, s.collections, v)
    case Collection => CollectionFits(s.collections, key, v)
    case Search => true
  }

  ghost predicate SavedAt(was: Objects, now: Objects, key: Key, data: Fields, version: nat) {
    && OnlyAt(was, now, key)
    && var before := if key in was then was[key] else map[];
       Changes(before, data) && Overlaid(before, data, now[key], key, version)
  }

  /** One save, and nothing else. */
  ghost predicate Saves(s: State, kind: Kind, key: Key, data: Fields, version: nat, t: State) {
    match kind
    case Item =>
      && t == s.(items := t.items) && SavedAt(s.items, t.items, key, data, version)
      && Fits(s, kind, key, t.items[key])
    case Collection =>
      && t == s.(collections := t.collections) && SavedAt(s.collections, t.collections, key, data, version)
      && Fits(s, kind, key, t.collections[key])
    case Search =>
      && t == s.(searches := t.searches) && SavedAt(s.searches, t.searches, key, data, version)
  }

  /** One save after another, each on what the one before it left. */
  ghost predicate SavesInTurn(s: State, queue: seq<Pending>, version: nat, t: State) {
    exists states: seq<State> ::
      && |states| == |queue| + 1 && states[0] == s && states[|queue|] == t
      && forall i :: 0 <= i < |queue| ==> Saves(states[i], Item, queue[i].key, queue[i].data, version, states[i + 1])
  }

  // -------------------------------------------------------------- deletions

  /** Text or dictionary that holds the key, from which nothing can be removed. */
  ghost predicate HoldsUnremovable(v: Json, key: Key) {
    (v.Str? && exists before, after :: v.s == before + key + after) || (v.Obj? && key in v.members)
  }

  /** The first listing of the key is gone from a list that has one; nothing else changes. */
  ghost predicate OneListingLess(v: Fields, w: Fields, key: Key) {
    if Collections in v && v[Collections].Arr? && Str(key) in v[Collections].elems then
      var xs := v[Collections].elems;
      exists i :: 0 <= i < |xs| && xs[i] == Str(key) && Str(key) !in xs[..i]
                  && w == v[Collections := Arr(xs[..i] + xs[i + 1..])]
    else w == v
  }

  /** A child of the deleted collection gets its parent, or `false` where it had none named. */
  ghost predicate HandedUp(collections: Objects, key: Key, v: Fields, w: Fields, version: nat)
    requires key in collections
  {
    if ParentCollection in v && v[ParentCollection] == Str(key) then
      && w.Keys == v.Keys + {Version}
      && w[Version] == Num(version)
      && w[ParentCollection] ==
         (if ParentCollection in collections[key] then collections[key][ParentCollection] else Bool(false))
      && forall f :: f in v && f != Version && f != ParentCollection ==> w[f] == v[f]
    else w == v
  }

  /** The least set that holds the item and the children of its members. */
  ghost predicate Cascade(items: Objects, key: Key, doomed: set<Key>) {
    && key in doomed && doomed <= items.Keys
    && (forall k :: k in items && Get(items[k], ParentItem).Str? && Get(items[k], ParentItem).s in doomed ==>
          k in doomed)
    && forall keys :: key in keys && Closed(items, keys) ==> doomed <= keys
  }

  ghost predicate DeletesItem(s: State, key: Key, t: State) {
    key in s.items && exists doomed ::
      && Cascade(s.items, key, doomed)
      && (forall k :: k in s.items ==> Hashable(Get(s.items[k], ParentItem)))
      && (forall c, p :: c in s.pending && p in s.pending[c] ==> p.key !in doomed)
      && t == s.(items := s.items - doomed, files := s.files - doomed, fulltext := s.fulltext - doomed,
                 deletedItems := s.deletedItems + doomed)
  }

  ghost predicate DeletesCollection(s: State, key: Key, version: nat, t: State) {
    && key in s.collections
    && t == s.(collections := t.collections, items := t.items, deletedCollections := s.deletedCollections + {key})
    && (forall k :: k in t.collections <==> k in s.collections && k != key)
    && (forall k :: k in t.collections ==> HandedUp(s.collections, key, s.collections[k], t.collections[k], version))
    && t.items.Keys == s.items.Keys
    && forall k :: k in s.items ==>
         !HoldsUnremovable(Get(s.items[k], Collections), key) && OneListingLess(s.items[k], t.items[k], key)
  }

  ghost predicate DeletesSearch(s: State, key: Key, t: State) {
    && key in s.searches && t == s.(searches := t.searches, deletedSearches := s.deletedSearches + {key})
    && (forall k :: k in t.searches <==> k in s.searches && k != key)
    && forall k :: k in t.searches ==> t.searches[k] == s.searches[k]
  }

  // ----------------------------------------------------------------- others

  ghost predicate SetsSetting(s: State, name: string, value: Json, version: nat, t: State) {
    && t == s.(settings := t.settings, deletedSettings := t.deletedSettings)
    && (forall n :: n != name ==> (n in t.settings <==> n in s.settings))
    && (forall n :: n != name ==> (n in t.deletedSettings <==> n in s.deletedSettings))
    && (forall n :: n in t.settings && n != name ==> t.settings[n] == s.settings[n])
    && if value == Null then name in s.settings && name !in t.settings && name in t.deletedSettings
       else
         && !(name in s.settings && s.settings[name].value == value)
         && name in t.settings && t.settings[name] == Preference(value, version) && name !in t.deletedSettings
  }

  ghost predicate IndexesText(s: State, key: Key, content: string, version: nat, t: State) {
    && key in s.items && OfTypes(s.items[key], {"attachment"})
    && (key in s.fulltext ==> s.fulltext[key].content != content)
    && t == s.(fulltext := t.fulltext)
    && (forall k :: k in t.fulltext <==> k in s.fulltext || k == key)
    && (forall k :: k in s.fulltext && k != key ==> t.fulltext[k] == s.fulltext[k])
    && t.fulltext[key] == Index(content, |content|, |content|, version)
  }

  /** An item that says of its file what it is, at the new version, and nothing else anew. */
  ghost predicate SaysFile(v: Fields, w: Fields, digest: string, mtime: int, version: nat) {
    && w.Keys == v.Keys + {Md5, Mtime, ContentType, Filename, Version}
    && w[Md5] == Str(digest) && w[Mtime] == Num(mtime) && w[Version] == Num(version)
    && w[ContentType] == Str("application/pdf") && w[Filename] == Str("research.pdf")
    && forall f :: f in v && f !in {Md5, Mtime, ContentType, Filename, Version} ==> w[f] == v[f]
  }

  /** The file is stored as sent; its item says what it is. */
  ghost predicate StoresFile(s: State, key: Key, content: string, digest: Option<string>, mtime: int, version: nat,
                             t: State)
  {
    && key in s.items && OfTypes(s.items[key], {"attachment"}) && digest.Some?
    && (key in s.files ==> s.files[key].content != content)
    && t == s.(files := t.files, items := t.items)
    && (forall k :: k in t.files <==> k in s.files || k == key)
    && (forall k :: k in s.files && k != key ==> t.files[k] == s.files[k])
    && t.files[key] == Upload(content, mtime)
    && OnlyAt(s.items, t.items, key)
    && SaysFile(s.items[key], t.items[key], digest.value, mtime, version)
  }

  /** The edit goes to the end of the queue with the versions it was made at. */
  ghost predicate Queues(s: State, client: Client, key: Key, data: Fields, t: State)
    requires client in s.pending
  {
    && key in s.items
    && (exists f :: f in data)
    && (forall f :: f in data ==> data[f] != (if f in s.items[key] then s.items[key][f] else Null))
    && (forall p :: p in s.pending[client] ==> p.key != key)
    && t == s.(pending := t.pending)
    && t.pending.Keys == s.pending.Keys
    && (forall c :: c in s.pending && c != client ==> t.pending[c] == s.pending[c])
    && t.pending[client] == s.pending[client] + [Pending(key, data, s.version, VersionOf(s.items[key]))]
  }

  // ------------------------------------------------------------------- steps

  ghost predicate Writes(s: State, op: Operation, version: nat, t: State) {
    match op
    case Save(_, kind, key, data) => Saves(s, kind, key, data, version, t)
    case Setting(_, name, value) => SetsSetting(s, name, value, version, t)
    case FullText(_, key, content) => IndexesText(s, key, content, version, t)
    case File(_, key, content, digest, mtime) => StoresFile(s, key, content, digest, mtime, version, t)
    case Delete(_, Item, key) => DeletesItem(s, key, t)
    case Delete(_, Collection, key) => DeletesCollection(s, key, version, t)
    case Delete(_, Search, key) => DeletesSearch(s, key, t)
    case _ => false
  }

  /**
   Whether the operation takes `s` to `t`. Changing access and working offline are free;
   anything else needs access, and makes one new version of the library.
   */
  ghost predicate Allowed(s: State, op: Operation, t: State) {
    var client := op.client;
    && client in s.pending && client in s.access
    && (NamesObject(op) ==> ValidKey(op.key))
    && match op
       case Access(_, allowed) =>
         && s.access[client] != allowed && t == s.(access := t.access) && t.access.Keys == s.access.Keys
         && forall c :: c in t.access ==> t.access[c] == if c == client then allowed else s.access[c]
       case Offline(_, key, data) => Queues(s, client, key, data, t)
       case Flush(_) =>
         && s.access[client] && s.pending[client] != []
         && t.version == s.version + 1 && t.pending.Keys == s.pending.Keys
         && (forall c :: c in t.pending ==> t.pending[c] == if c == client then [] else s.pending[c])
         && SavesInTurn(s, s.pending[client], s.version + 1, t.(version := s.version, pending := s.pending))
       case _ =>
         && s.access[client] && t.version == s.version + 1
         && Writes(s, op, s.version + 1, t.(version := s.version))
  }

  // ------------------------------------------------------ saves are exactly so

  lemma NormalizedExactly(given: Fields, f: Field)
    ensures f != Relations ==> (f in Normalized(given) <==> f in given)
    ensures f != Relations && f in given ==> Normalized(given)[f] == given[f]
    ensures Relations in given && given[Relations].Obj? ==>
      Relations in Normalized(given) && RelationsKept(given[Relations], Normalized(given)[Relations])
    ensures Relations in Normalized(given) <==> Relations in given
  {
    if Relations in given && given[Relations].Obj? {
      var kept := Normalized(given)[Relations];
      forall p | p in given[Relations].members
        ensures TargetKept(given[Relations].members[p], kept.members[p])
      {
        TargetSingle(given[Relations].members[p]);
      }
    }
  }

  lemma TargetSingle(v: Json)
    ensures (exists x :: v == Arr([x])) <==> v.Arr? && |v.elems| == 1
    ensures v.Arr? && |v.elems| == 1 ==> v == Arr([v.elems[0]])
  {
    if v.Arr? && |v.elems| == 1 {
      assert v.elems == [v.elems[0]];
    }
  }

  lemma TargetOnce(given: Json, a: Json, b: Json)
    requires TargetKept(given, a) && TargetKept(given, b)
    ensures a == b
  {
    if given == Arr([a]) && given == Arr([b]) {
      assert [a][0] == [b][0];
    }
  }

  lemma RelationsOnce(given: Json, a: Json, b: Json)
    requires RelationsKept(given, a) && RelationsKept(given, b)
    ensures a == b
  {
    hide TargetKept;
    forall p | p in given.members ensures a.members[p] == b.members[p] {
      TargetOnce(given.members[p], a.members[p], b.members[p]);
    }
    assert a.members == b.members;
  }

  lemma OverlaidOnce(was: Fields, data: Fields, v: Fields, w: Fields, key: Key, version: nat)
    requires Overlaid(was, data, v, key, version) && Overlaid(was, data, w, key, version)
    ensures v == w
  {
    hide RelationsKept;
    if Relations in v {
      RelationsOnce(Said(was, data, Relations).value, v[Relations], w[Relations]);
    }
    assert forall f :: f in v <==> f in w;
    assert forall f :: f in v ==> v[f] == w[f];
  }

  lemma StampedOverlaid(was: Fields, data: Fields, key: Key, version: nat)
    requires Relations in was + data ==> (was + data)[Relations].Obj?
    ensures Overlaid(was, data, Stamped(Normalized(was + data), key, version), key, version)
  {
    hide Normalized, RelationsKept;
    NormalizedExactly(was + data, Relations);
    forall f ensures f != Relations ==> (f in Normalized(was + data) <==> f in was + data)
      ensures f != Relations && f in was + data ==> Normalized(was + data)[f] == (was + data)[f] {
      NormalizedExactly(was + data, f);
    }
  }

  lemma ChangesExactly(was: Fields, data: Fields)
    ensures Effective(was, data) <==> Changes(was, data)
  {
    assert data == map[] <==> forall f :: f !in data;
  }

  lemma ListsExactly(v: Fields, collections: Objects)
    ensures ListsOnly(v, collections) <==>
      Collections !in v || (YieldsTexts(v[Collections]) && forall k :: Yields(v[Collections], k) ==> k in collections)
  {
    if Collections in v && v[Collections].Arr? {
      var xs := v[Collections].elems;
      if ListsOnly(v, collections) {
        forall x | x in xs ensures x.Str? && x.s in collections {
          var i :| 0 <= i < |xs| && xs[i] == x;
        }
      } else {
        var i :| 0 <= i < |xs| && !(xs[i].Str? && xs[i].s in collections);
        assert xs[i] in xs;
      }
    } else if Collections in v && v[Collections].Str? {
      var s := v[Collections].s;
      forall k: string ensures Yields(v[Collections], k) <==> exists i :: 0 <= i < |s| && [s[i]] == k {
        if Yields(v[Collections], k) {
          var i :| 0 <= i < |s| && s[i] == k[0];
          assert [s[i]] == k;
        }
      }
      forall i | 0 <= i < |s| ensures Yields(v[Collections], [s[i]]) {
      }
    }
  }

  lemma ItemFitsExactly(s: State, v: Fields, w: Fields)
    requires ItemType in v <==> ItemType in w
    requires Collections in v <==> Collections in w
    requires Get(v, ItemType) == Get(w, ItemType) && Get(v, ParentItem) == Get(w, ParentItem)
    requires Get(v, Collections) == Get(w, Collections) && Get(v, LinkMode) == Get(w, LinkMode)
    ensures ItemAccepted(s, v) <==> ItemFits(s.items, s.collections, w)
  {
    hide ListsOnly, Yields, YieldsTexts;
    ListsExactly(v, s.collections);
  }

  lemma NoRepeatsTail(path: seq<Key>)
    requires path != []
    ensures NoRepeats(path) <==> path[0] !in path[1..] && NoRepeats(path[1..])
  {
    if path[0] !in path[1..] && NoRepeats(path[1..]) {
      forall i, j | 0 <= i < j < |path| ensures path[i] != path[j] {
        assert path[j] == path[1..][j - 1];
        assert i > 0 ==> path[i] == path[1..][i - 1];
      }
    }
  }

  lemma {:induction false} WalkHasPath(collections: Objects, seen: set<Key>, parent: Json) returns (path: seq<Key>)
    requires EndsAtRoot(collections, seen, parent)
    ensures LeadsUp(collections, parent, path) && NoRepeats(path) && forall k :: k in path ==> k !in seen
    decreases collections.Keys - seen
  {
    if !Truthy(parent) {
      path := [];
    } else {
      assert parent.s in collections.Keys - seen;
      var rest := WalkHasPath(collections, seen + {parent.s}, Get(collections[parent.s], ParentCollection));
      path := [parent.s] + rest;
      NoRepeatsTail(path);
    }
  }

  lemma {:induction false} PathIsWalked(collections: Objects, seen: set<Key>, parent: Json, path: seq<Key>)
    requires LeadsUp(collections, parent, path) && NoRepeats(path) && forall k :: k in path ==> k !in seen
    ensures EndsAtRoot(collections, seen, parent)
    decreases |path|
  {
    if path != [] {
      NoRepeatsTail(path);
      assert path[0] in path;
      PathIsWalked(collections, seen + {path[0]}, Get(collections[path[0]], ParentCollection), path[1..]);
    }
  }

  lemma CollectionFitsExactly(collections: Objects, key: Key, v: Fields, w: Fields)
    requires Get(v, ParentCollection) == Get(w, ParentCollection)
    ensures EndsAtRoot(collections, {key}, Get(v, ParentCollection)) <==> CollectionFits(collections, key, w)
  {
    hide LeadsUp, EndsAtRoot, NoRepeats;
    var parent := Get(v, ParentCollection);
    if EndsAtRoot(collections, {key}, parent) {
      var path := WalkHasPath(collections, {key}, parent);
    }
    if path :| LeadsUp(collections, parent, path) && NoRepeats(path) && key !in path {
      PathIsWalked(collections, {key}, parent, path);
    }
  }

  lemma FitsExactly(s: State, kind: Kind, key: Key, v: Fields, version: nat)
    ensures Accepted(s, kind, key, v) <==> Fits(s, kind, key, Stamped(v, key, version))
  {
    hide ItemAccepted, ItemFits, EndsAtRoot, CollectionFits;
    var w := Stamped(v, key, version);
    assert forall f :: f != KeyField && f != Version ==> (f in v <==> f in w) && Get(v, f) == Get(w, f);
    match kind
    case Item => ItemFitsExactly(s, v, w);
    case Collection => CollectionFitsExactly(s.collections, key, v, w);
    case Search =>
  }

  lemma OnlyAtExactly(was: Objects, now: Objects, key: Key)
    ensures OnlyAt(was, now, key) <==> key in now && now == was[key := now[key]]
  {
  }

  /** The stored object is the one object that the payload makes of what was there. */
  lemma OverlaidExactly(was: Fields, data: Fields, now: Fields, key: Key, version: nat)
    ensures Overlaid(was, data, now, key, version) <==>
      && (Relations in was + data ==> (was + data)[Relations].Obj?)
      && now == Stamped(Normalized(was + data), key, version)
  {
    hide Overlaid, Stamped, Normalized;
    if Relations in was + data ==> (was + data)[Relations].Obj? {
      StampedOverlaid(was, data, key, version);
      if Overlaid(was, data, now, key, version) {
        OverlaidOnce(was, data, now, Stamped(Normalized(was + data), key, version), key, version);
      }
    } else if Overlaid(was, data, now, key, version) {
      SaidRelations(was, data, now, key, version);
    }
  }

  lemma SaidRelations(was: Fields, data: Fields, now: Fields, key: Key, version: nat)
    requires Overlaid(was, data, now, key, version)
    ensures Relations in was + data ==> (was + data)[Relations].Obj?
  {
  }

  /** The value a save stores, if it stores one. */
  ghost predicate Makes(s: State, kind: Kind, key: Key, was: Fields, data: Fields, version: nat, w: Fields) {
    Changes(was, data) && Overlaid(was, data, w, key, version) && Fits(s, kind, key, w)
  }

  lemma MakesExactly(s: State, kind: Kind, key: Key, data: Fields, version: nat, t: State)
    ensures SaveObject(s, kind, key, data, version) == Some(t) <==>
      && key in t.Objects(kind) && t == s.WithObjects(kind, s.Objects(kind)[key := t.Objects(kind)[key]])
      && Makes(s, kind, key, Previous(s, kind, key), data, version, t.Objects(kind)[key])
  {
    hide Effective, Changes, Stamped, Normalized, Overlaid, Accepted, Fits;
    var was := Previous(s, kind, key);
    ChangesExactly(was, data);
    FitsExactly(s, kind, key, Normalized(was + data), version);
    OverlaidExactly(was, data, Stamped(Normalized(was + data), key, version), key, version);
    if key in t.Objects(kind) {
      OverlaidExactly(was, data, t.Objects(kind)[key], key, version);
    }
  }

  /** What a save asks and stores, in any state. */
  lemma SavesExactly(s: State, kind: Kind, key: Key, data: Fields, version: nat, t: State)
    ensures SaveObject(s, kind, key, data, version) == Some(t) <==> Saves(s, kind, key, data, version, t)
  {
    hide SaveObject, Changes, Overlaid, ItemFits, CollectionFits, OnlyAt;
    MakesExactly(s, kind, key, data, version, t);
    OnlyAtExactly(s.Objects(kind), t.Objects(kind), key);
  }

  // -------------------------------------------------- the other writes are, too

  lemma SettingExactly(s: State, name: string, value: Json, version: nat, t: State)
    ensures ChangeSetting(s, name, value, version) == Some(t) <==> SetsSetting(s, name, value, version, t)
  {
    if SetsSetting(s, name, value, version, t) {
      assert t.deletedSettings == if value == Null then s.deletedSettings + {name} else s.deletedSettings - {name};
      assert t.settings ==
        if value == Null then s.settings - {name} else s.settings[name := Preference(value, version)];
    }
  }

  lemma FullTextExactly(s: State, key: Key, content: string, version: nat, t: State)
    ensures ChangeFullText(s, key, content, version) == Some(t) <==> IndexesText(s, key, content, version, t)
  {
    if IndexesText(s, key, content, version, t) {
      assert t.fulltext == s.fulltext[key := Index(content, |content|, |content|, version)];
    }
  }

  lemma FileStampedExactly(v: Fields, w: Fields, digest: string, mtime: int, version: nat)
    ensures w == FileStamped(v, digest, mtime, version) <==> SaysFile(v, w, digest, mtime, version)
  {
  }

  lemma UploadsExactly(was: map<Key, Upload>, now: map<Key, Upload>, key: Key, upload: Upload)
    ensures now == was[key := upload] <==>
      && (forall k :: k in now <==> k in was || k == key)
      && (forall k :: k in was && k != key ==> now[k] == was[k])
      && now[key] == upload
  {
  }

  lemma FileExactly(s: State, key: Key, content: string, digest: Option<string>, mtime: int, version: nat, t: State)
    ensures ChangeFile(s, key, content, digest, mtime, version) == Some(t)
       <==> StoresFile(s, key, content, digest, mtime, version, t)
  {
    if IsAttachment(s, key) && digest.Some? {
      StoredFileExactly(s.items, t.items, key, digest.value, mtime, version);
      UploadsExactly(s.files, t.files, key, Upload(content, mtime));
      hide FileStamped, SaysFile, OnlyAt, IsAttachment;
    }
  }

  lemma StoredFileExactly(was: Objects, now: Objects, key: Key, digest: string, mtime: int, version: nat)
    requires key in was
    ensures now == was[key := FileStamped(was[key], digest, mtime, version)] <==>
      OnlyAt(was, now, key) && SaysFile(was[key], now[key], digest, mtime, version)
  {
    hide FileStamped, SaysFile, OnlyAt;
    OnlyAtExactly(was, now, key);
    if key in now {
      FileStampedExactly(was[key], now[key], digest, mtime, version);
    }
  }

  /** Some field of the payload is there already with that value. */
  lemma SaysNothingNew(v: Fields, data: Fields)
    ensures (exists f :: f in data && Get(v, f) == data[f]) <==>
            !forall f :: f in data ==> data[f] != (if f in v then v[f] else Null)
    ensures data == map[] <==> !exists f :: f in data
  {
    assert data == map[] <==> forall f :: f !in data;
  }

  lemma QueuedOnce(queue: seq<Pending>, key: Key)
    ensures (exists i :: 0 <= i < |queue| && queue[i].key == key) <==> !forall p :: p in queue ==> p.key != key
  {
  }

  lemma QueuesWith(was: map<Client, seq<Pending>>, now: map<Client, seq<Pending>>, client: Client, p: Pending)
    requires client in was
    ensures now == was[client := was[client] + [p]] <==>
      && now.Keys == was.Keys && (forall c :: c in was && c != client ==> now[c] == was[c])
      && now[client] == was[client] + [p]
  {
  }

  lemma EnqueueExactly(s: State, client: Client, key: Key, data: Fields, t: State)
    requires client in s.pending
    ensures Enqueue(s, client, key, data) == Some(t) <==> Queues(s, client, key, data, t)
  {
    if key in s.items {
      SaysNothingNew(s.items[key], data);
      QueuedOnce(s.pending[client], key);
      QueuesWith(s.pending, t.pending, client, Pending(key, data, s.version, VersionOf(s.items[key])));
    }
  }

  // --------------------------------------------------------------- deletions

  lemma CascadeExactly(items: Objects, key: Key, doomed: set<Key>)
    requires key in items
    ensures Cascade(items, key, doomed) <==> doomed == Subtree(items, {key})
  {
    hide Subtree;
    var all := Subtree(items, {key});
    SubtreeClosed(items, {key});
    assert Closed(items, all) && key in all;
    forall keys | key in keys && Closed(items, keys) ensures all <= keys {
      SubtreeLeast(items, {key}, keys);
    }
    if Cascade(items, key, doomed) {
      assert Closed(items, doomed);
    }
  }

  lemma ItemExactly(s: State, key: Key, version: nat, t: State)
    ensures DeleteObject(s, Item, key, version) == Some(t) <==> DeletesItem(s, key, t)
  {
    hide Cascade, Subtree;
    if key in s.items {
      var doomed := Subtree(s.items, {key});
      CascadeExactly(s.items, key, doomed);
      assert Queued(s, doomed) <==> exists c, p :: c in s.pending && p in s.pending[c] && p.key in doomed;
      if DeletesItem(s, key, t) {
        var all :| Cascade(s.items, key, all)
          && t == s.(items := s.items - all, files := s.files - all, fulltext := s.fulltext - all,
                     deletedItems := s.deletedItems + all)
          && (forall c, p :: c in s.pending && p in s.pending[c] ==> p.key !in all);
        CascadeExactly(s.items, key, all);
      }
    }
  }

  lemma {:induction false} RemoveFirstExactly(xs: seq<Json>, x: Json, i: nat)
    requires i < |xs| && xs[i] == x && x !in xs[..i]
    ensures RemoveFirst(xs, x) == xs[..i] + xs[i + 1..]
  {
    if i > 0 {
      assert xs[0] == xs[..i][0];
      assert xs[1..][..i - 1] == xs[..i][1..] && xs[1..][i..] == xs[i + 1..];
      RemoveFirstExactly(xs[1..], x, i - 1);
      assert [xs[0]] + xs[1..][..i - 1] == xs[..i];
    }
  }

  lemma {:induction false} FirstOf(xs: seq<Json>, x: Json) returns (i: nat)
    requires x in xs
    ensures i < |xs| && xs[i] == x && x !in xs[..i]
  {
    i := 0;
    if xs[0] != x {
      i := FirstOf(xs[1..], x);
      assert xs[..i + 1] == [xs[0]] + xs[1..][..i];
      i := i + 1;
    }
  }

  lemma UnfiledExactly(v: Fields, w: Fields, key: Key)
    ensures w == Unfiled(v, key) <==> OneListingLess(v, w, key)
  {
    hide RemoveFirst;
    if Collections in v && v[Collections].Arr? && Str(key) in v[Collections].elems {
      var xs := v[Collections].elems;
      var i := FirstOf(xs, Str(key));
      RemoveFirstExactly(xs, Str(key), i);
      if OneListingLess(v, w, key) {
        var j :| 0 <= j < |xs| && xs[j] == Str(key) && Str(key) !in xs[..j]
                 && w == v[Collections := Arr(xs[..j] + xs[j + 1..])];
        RemoveFirstExactly(xs, Str(key), j);
      }
    }
  }

  lemma HoldsExactly(v: Fields, key: Key)
    ensures Lists(v, key) && !Get(v, Collections).Arr? <==> HoldsUnremovable(Get(v, Collections), key)
  {
    if Get(v, Collections).Str? {
      var s := Get(v, Collections).s;
      if i :| 0 <= i <= |s| && OccursAt(s, key, i) {
        assert s == s[..i] + key + s[i + |key|..];
      }
      if before: string, after: string :| s == before + key + after {
        assert OccursAt(s, key, |before|);
      }
    }
  }

  lemma HandedUpExactly(collections: Objects, key: Key, v: Fields, w: Fields, version: nat)
    requires key in collections
    ensures w == Reparented(v, key, GrandParent(collections, key), version) <==>
            HandedUp(collections, key, v, w, version)
  {
  }

  lemma ListingsExactly(was: Objects, now: Objects, key: Key)
    ensures now == (map k | k in was :: Unfiled(was[k], key)) <==>
      now.Keys == was.Keys && forall k :: k in was ==> OneListingLess(was[k], now[k], key)
  {
    hide Unfiled, OneListingLess;
    forall k | k in was && k in now
      ensures now[k] == Unfiled(was[k], key) <==> OneListingLess(was[k], now[k], key)
    {
      UnfiledExactly(was[k], now[k], key);
    }
  }

  lemma SplicedExactly(was: Objects, now: Objects, key: Key, version: nat)
    requires key in was
    ensures now == Spliced(was, key, version) <==>
      && (forall k :: k in now <==> k in was && k != key)
      && forall k :: k in now ==> HandedUp(was, key, was[k], now[k], version)
  {
    hide Reparented, HandedUp, GrandParent;
    forall k | k in was && k in now
      ensures now[k] == Reparented(was[k], key, GrandParent(was, key), version) <==>
              HandedUp(was, key, was[k], now[k], version)
    {
      HandedUpExactly(was, key, was[k], now[k], version);
    }
  }

  lemma RemovableExactly(items: Objects, key: Key)
    ensures (exists k :: k in items && Lists(items[k], key) && !Get(items[k], Collections).Arr?) <==>
            !forall k :: k in items ==> !HoldsUnremovable(Get(items[k], Collections), key)
  {
    hide Lists, HoldsUnremovable;
    forall k | k in items
      ensures Lists(items[k], key) && !Get(items[k], Collections).Arr? <==>
              HoldsUnremovable(Get(items[k], Collections), key)
    {
      HoldsExactly(items[k], key);
    }
  }

  lemma ListedGet(items: Objects, key: Key)
    ensures (exists k :: k in items && Lists(items[k], key) && !items[k][Collections].Arr?) <==>
            exists k :: k in items && Lists(items[k], key) && !Get(items[k], Collections).Arr?
  {
  }

  lemma CollectionExactly(s: State, key: Key, version: nat, t: State)
    ensures DeleteObject(s, Collection, key, version) == Some(t) <==> DeletesCollection(s, key, version, t)
  {
    if key in s.collections {
      ListedGet(s.items, key);
      RemovableExactly(s.items, key);
      ListingsExactly(s.items, t.items, key);
      SplicedExactly(s.collections, t.collections, key, version);
      hide Unfiled, OneListingLess, HoldsUnremovable, HandedUp, Spliced;
    }
  }

  lemma SearchExactly(s: State, key: Key, version: nat, t: State)
    ensures DeleteObject(s, Search, key, version) == Some(t) <==> DeletesSearch(s, key, t)
  {
    if DeletesSearch(s, key, t) {
      assert t.searches == s.searches - {key};
    }
  }

  // ------------------------------------------------------------------- steps

  lemma {:induction false} SaveAllExactly(s: State, queue: seq<Pending>, version: nat, t: State)
    ensures SaveAll(s, queue, version) == Some(t) <==> SavesInTurn(s, queue, version, t)
    decreases |queue|
  {
    hide SaveObject, Saves;
    if queue == [] {
      if SaveAll(s, queue, version) == Some(t) {
        assert [s][0] == s && [s][|queue|] == t;
      }
    } else {
      if SaveAll(s, queue, version) == Some(t) {
        var m := SaveObject(s, Item, queue[0].key, queue[0].data, version).value;
        SavesExactly(s, Item, queue[0].key, queue[0].data, version, m);
        SaveAllExactly(m, queue[1..], version, t);
        TurnBefore(s, m, queue, version, t);
      }
      if SavesInTurn(s, queue, version, t) {
        var m := TurnAfter(s, queue, version, t);
        SavesExactly(s, Item, queue[0].key, queue[0].data, version, m);
        SaveAllExactly(m, queue[1..], version, t);
      }
    }
  }

  lemma TurnBefore(s: State, m: State, queue: seq<Pending>, version: nat, t: State)
    requires queue != [] && Saves(s, Item, queue[0].key, queue[0].data, version, m)
    requires SavesInTurn(m, queue[1..], version, t)
    ensures SavesInTurn(s, queue, version, t)
  {
    hide Saves;
    var states: seq<State> :|
      && |states| == |queue[1..]| + 1 && states[0] == m && states[|queue[1..]|] == t
      && forall i :: 0 <= i < |queue[1..]| ==>
           Saves(states[i], Item, queue[1..][i].key, queue[1..][i].data, version, states[i + 1]);
    var all := [s] + states;
    forall i | 0 <= i < |queue| ensures Saves(all[i], Item, queue[i].key, queue[i].data, version, all[i + 1]) {
      if i > 0 {
        assert queue[i] == queue[1..][i - 1] && all[i] == states[i - 1] && all[i + 1] == states[i - 1 + 1];
      }
    }
    assert all[|queue|] == t;
  }

  lemma TurnAfter(s: State, queue: seq<Pending>, version: nat, t: State) returns (m: State)
    requires queue != [] && SavesInTurn(s, queue, version, t)
    ensures Saves(s, Item, queue[0].key, queue[0].data, version, m)
    ensures SavesInTurn(m, queue[1..], version, t)
  {
    hide Saves;
    var states: seq<State> :|
      && |states| == |queue| + 1 && states[0] == s && states[|queue|] == t
      && forall i :: 0 <= i < |queue| ==>
           Saves(states[i], Item, queue[i].key, queue[i].data, version, states[i + 1]);
    m := states[0 + 1];
    var rest := states[1..];
    forall i | 0 <= i < |queue[1..]|
      ensures Saves(rest[i], Item, queue[1..][i].key, queue[1..][i].data, version, rest[i + 1])
    {
      assert Saves(states[i + 1], Item, queue[i + 1].key, queue[i + 1].data, version, states[i + 1 + 1]);
    }
    assert rest[|queue[1..]|] == t;
  }

  lemma WritesExactly(s: State, op: Operation, version: nat, t: State)
    requires !op.Access? && !op.Offline? && !op.Flush?
    ensures Write(s, op, version) == Some(t) <==> Writes(s, op, version, t)
  {
    hide SaveObject, Saves, ChangeSetting, SetsSetting, ChangeFullText, IndexesText, ChangeFile, StoresFile,
      DeleteObject, DeletesItem, DeletesCollection, DeletesSearch;
    match op
    case Save(_, kind, key, data) => SavesExactly(s, kind, key, data, version, t);
    case Setting(_, name, value) => SettingExactly(s, name, value, version, t);
    case FullText(_, key, content) => FullTextExactly(s, key, content, version, t);
    case File(_, key, content, digest, mtime) => FileExactly(s, key, content, digest, mtime, version, t);
    case Delete(_, Item, key) => ItemExactly(s, key, version, t);
    case Delete(_, Collection, key) => CollectionExactly(s, key, version, t);
    case Delete(_, Search, key) => SearchExactly(s, key, version, t);
  }

  lemma SaveFrame(s: State, kind: Kind, key: Key, data: Fields, version: nat, w: State)
    requires SaveObject(s, kind, key, data, version) == Some(w)
    ensures w.version == s.version && w.pending == s.pending && w.access == s.access
  {
    hide Stamped, Normalized, Accepted, Effective;
  }

  lemma DeleteFrame(s: State, kind: Kind, key: Key, version: nat, w: State)
    requires DeleteObject(s, kind, key, version) == Some(w)
    ensures w.version == s.version && w.pending == s.pending && w.access == s.access
  {
    hide Subtree, Spliced, Unfiled, Lists;
  }

  lemma RowFrame(s: State, name: string, value: Json, key: Key, content: string, version: nat, w: State)
    requires ChangeSetting(s, name, value, version) == Some(w) || ChangeFullText(s, key, content, version) == Some(w)
    ensures w.version == s.version && w.pending == s.pending && w.access == s.access
  {
  }

  lemma FileFrame(s: State, key: Key, content: string, digest: Option<string>, mtime: int, version: nat, w: State)
    requires ChangeFile(s, key, content, digest, mtime, version) == Some(w)
    ensures w.version == s.version && w.pending == s.pending && w.access == s.access
  {
    hide FileStamped;
  }

  lemma WriteFrame(s: State, op: Operation, version: nat, w: State)
    requires !op.Access? && !op.Offline? && !op.Flush? && Write(s, op, version) == Some(w)
    ensures w.version == s.version && w.pending == s.pending && w.access == s.access
  {
    hide SaveObject, DeleteObject, ChangeSetting, ChangeFullText, ChangeFile;
    match op
    case Save(_, kind, key, data) => SaveFrame(s, kind, key, data, version, w);
    case Setting(_, name, value) => RowFrame(s, name, value, "", "", version, w);
    case FullText(_, key, content) => RowFrame(s, "", Null, key, content, version, w);
    case File(_, key, content, digest, mtime) => FileFrame(s, key, content, digest, mtime, version, w);
    case Delete(_, kind, key) => DeleteFrame(s, kind, key, version, w);
  }

  lemma {:induction false} SaveAllFrame(s: State, queue: seq<Pending>, version: nat, w: State)
    requires SaveAll(s, queue, version) == Some(w)
    ensures w.version == s.version && w.pending == s.pending && w.access == s.access
    decreases |queue|
  {
    hide SaveObject;
    if queue != [] {
      var m := SaveObject(s, Item, queue[0].key, queue[0].data, version).value;
      SaveFrame(s, Item, queue[0].key, queue[0].data, version, m);
      SaveAllFrame(m, queue[1..], version, w);
    }
  }

  lemma AccessExactly(s: State, client: Client, allowed: bool, t: State)
    requires client in s.pending && client in s.access
    ensures Step(s, Access(client, allowed)) == Some(t) <==> Allowed(s, Access(client, allowed), t)
  {
    if Allowed(s, Access(client, allowed), t) {
      assert t.access == s.access[client := allowed];
    }
  }

  lemma FlushExactly(s: State, client: Client, t: State)
    requires client in s.pending && client in s.access
    ensures Step(s, Flush(client)) == Some(t) <==> Allowed(s, Flush(client), t)
  {
    hide SaveAll, SavesInTurn;
    var queue := s.pending[client];
    var w := t.(version := s.version, pending := s.pending);
    SaveAllExactly(s, queue, s.version + 1, w);
    if SaveAll(s, queue, s.version + 1).Some? {
      SaveAllFrame(s, queue, s.version + 1, SaveAll(s, queue, s.version + 1).value);
    }
    if Allowed(s, Flush(client), t) {
      assert t.pending == s.pending[client := []];
    }
  }

  lemma WriteStepExactly(s: State, op: Operation, t: State)
    requires op.client in s.pending && op.client in s.access
    requires !op.Access? && !op.Offline? && !op.Flush?
    ensures Step(s, op) == Some(t) <==> Allowed(s, op, t)
  {
    hide ValidKey, Write, Writes;
    WritesExactly(s, op, s.version + 1, t.(version := s.version));
    if Write(s, op, s.version + 1).Some? {
      WriteFrame(s, op, s.version + 1, Write(s, op, s.version + 1).value);
    }
  }

  /** An operation is accepted exactly when it may take the library somewhere, and takes it there. */
  lemma StepExactly(s: State, op: Operation, t: State)
    ensures Step(s, op) == Some(t) <==> Allowed(s, op, t)
  {
    if op.client in s.pending && op.client in s.access {
      if op.Access? {
        AccessExactly(s, op.client, op.allowed, t);
      } else if op.Offline? {
        EnqueueExactly(s, op.client, op.key, op.data, t);
        hide ValidKey, Enqueue, Queues, SaveAll, SavesInTurn, Write, Writes;
      } else if op.Flush? {
        FlushExactly(s, op.client, t);
      } else {
        WriteStepExactly(s, op, t);
      }
    }
  }

  // ------------------------------------------------------ what comes of it

  /** The stored object, spelled out. */
  predicate StoredOver(given: Fields, now: Fields) {
    && (Relations in now <==> Relations in given)
    && (Relations in now ==>
          && now[Relations].Obj? && given[Relations].Obj?
          && now[Relations].members.Keys == given[Relations].members.Keys
          && forall p :: p in given[Relations].members ==>
               var v := given[Relations].members[p];
               now[Relations].members[p] == if v.Arr? && |v.elems| == 1 then v.elems[0] else v)
    && now.Keys == given.Keys + {KeyField, Version}
    && forall f :: f in given && f != KeyField && f != Version && f != Relations ==> now[f] == given[f]
  }

  lemma RelationsRead(given: Json, kept: Json)
    requires RelationsKept(given, kept)
    ensures given.Obj? && kept.Obj? && kept.members.Keys == given.members.Keys
    ensures forall p :: p in given.members ==>
      var v := given.members[p];
      kept.members[p] == if v.Arr? && |v.elems| == 1 then v.elems[0] else v
  {
    hide TargetKept;
    forall p | p in given.members
      ensures var v := given.members[p];
              kept.members[p] == if v.Arr? && |v.elems| == 1 then v.elems[0] else v
    {
      TargetRead(given.members[p], kept.members[p]);
    }
  }

  lemma OverlaidReads(was: Fields, data: Fields, now: Fields, key: Key, version: nat)
    requires Overlaid(was, data, now, key, version)
    ensures StoredOver(was + data, now) && Get(now, KeyField) == Str(key) && Get(now, Version) == Num(version)
  {
    hide RelationsKept;
    if Relations in now {
      RelationsRead(Said(was, data, Relations).value, now[Relations]);
    }
    assert forall f :: f in now.Keys <==> f in (was + data).Keys + {KeyField, Version};
  }

  /**
   What an accepted save of any kind stores, spelled out: the old fields with the payload
   over them, the relations with the predicates given, each single target bare.
   */
  lemma SaveStores(s: State, client: Client, kind: Kind, key: Key, data: Fields, t: State)
    requires Step(s, Save(client, kind, key, data)) == Some(t)
    ensures t.version == s.version + 1 && t.Objects(kind).Keys == s.Objects(kind).Keys + {key}
    ensures forall k :: k in s.Objects(kind) && k != key ==> t.Objects(kind)[k] == s.Objects(kind)[k]
    ensures var now := t.Objects(kind)[key];
            && StoredOver((if key in s.Objects(kind) then s.Objects(kind)[key] else map[]) + data, now)
            && Get(now, KeyField) == Str(key) && Get(now, Version) == Num(t.version)
  {
    hide ValidKey, SaveObject, Fits, Overlaid, StoredOver, Changes, OnlyAt;
    var w := SaveObject(s, kind, key, data, s.version + 1).value;
    SaveFrame(s, kind, key, data, s.version + 1, w);
    SavesExactly(s, kind, key, data, s.version + 1, w);
    OnlyAtExactly(s.Objects(kind), w.Objects(kind), key);
    OverlaidReads(if key in s.Objects(kind) then s.Objects(kind)[key] else map[], data, w.Objects(kind)[key], key,
      s.version + 1);
    assert t.Objects(kind) == w.Objects(kind);
  }

  lemma TargetRead(given: Json, kept: Json)
    requires TargetKept(given, kept)
    ensures kept == if given.Arr? && |given.elems| == 1 then given.elems[0] else given
  {
    TargetSingle(given);
    if given.Arr? && |given.elems| == 1 {
      assert given.elems[0] == [kept][0];
    }
  }

  predicate NamesOnce(queue: seq<Pending>) {
    forall i, j :: 0 <= i < j < |queue| ==> queue[i].key != queue[j].key
  }

  function Before(items: Objects, key: Key): Fields {
    if key in items then items[key] else map[]
  }

  /** Every queued edit is stored over what its item was, and no other item changes. */
  ghost predicate AllStored(was: Objects, queue: seq<Pending>, version: nat, now: Objects) {
    && (forall i :: 0 <= i < |queue| ==>
          && queue[i].key in now
          && Overlaid(Before(was, queue[i].key), queue[i].data, now[queue[i].key], queue[i].key, version))
    && forall k :: (forall i :: 0 <= i < |queue| ==> queue[i].key != k) ==>
         (k in now <==> k in was) && (k in was ==> now[k] == was[k])
  }

  lemma {:induction false} SaveAllStores(s: State, queue: seq<Pending>, version: nat, t: State)
    requires NamesOnce(queue) && SaveAll(s, queue, version) == Some(t)
    ensures t == s.(items := t.items) && AllStored(s.items, queue, version, t.items)
    decreases |queue|
  {
    hide SaveObject, Overlaid, Changes, ItemFits;
    if queue != [] {
      var head, rest := queue[0], queue[1..];
      var m := SaveObject(s, Item, head.key, head.data, version).value;
      SavesExactly(s, Item, head.key, head.data, version, m);
      SaveAllStores(m, rest, version, t);
      forall i | 0 <= i < |rest|
        ensures rest[i].key != head.key && Before(m.items, rest[i].key) == Before(s.items, rest[i].key)
      {
        assert rest[i] == queue[i + 1];
      }
      assert t.items[head.key] == m.items[head.key];
      StoredTogether(s.items, m.items, queue, version, t.items);
    }
  }

  lemma StoredTogether(was: Objects, mid: Objects, queue: seq<Pending>, version: nat, now: Objects)
    requires queue != [] && NamesOnce(queue) && OnlyAt(was, mid, queue[0].key)
    requires AllStored(mid, queue[1..], version, now)
    requires Overlaid(Before(was, queue[0].key), queue[0].data, mid[queue[0].key], queue[0].key, version)
    ensures AllStored(was, queue, version, now)
  {
    hide Overlaid;
    forall k | forall i :: 0 <= i < |queue| ==> queue[i].key != k
      ensures (k in now <==> k in was) && (k in was ==> now[k] == was[k])
    {
      assert queue[0].key != k;
      assert forall i :: 0 <= i < |queue[1..]| ==> queue[1..][i].key == queue[i + 1].key;
    }
    assert forall i :: 0 <= i < |queue[1..]| ==> queue[1..][i].key == queue[i + 1].key != queue[0].key;
    forall i | 0 <= i < |queue|
      ensures queue[i].key in now
      ensures Overlaid(Before(was, queue[i].key), queue[i].data, now[queue[i].key], queue[i].key, version)
    {
      if i > 0 {
        assert queue[i] == queue[1..][i - 1] && queue[i].key != queue[0].key;
      }
    }
  }

  /** A flush stores every queued edit over its item at one new version, and nothing else. */
  lemma FlushStores(s: State, client: Client, t: State)
    requires Invariant(s) && Step(s, Flush(client)) == Some(t)
    ensures AllStored(s.items, s.pending[client], s.version + 1, t.items)
    ensures t == s.(version := s.version + 1, items := t.items, pending := s.pending[client := []])
  {
    hide SaveAll, AllStored;
    assert QueueSound(s.items, s.pending[client], s.version);
    SaveAllStores(s, s.pending[client], s.version + 1, SaveAll(s, s.pending[client], s.version + 1).value);
  }
}
