/**
 Why reading only newer objects is enough: what a client holding an old copy of the
 library can rely on, and when its queued edits are still based on the current one.
 */
module ProtocolSync {
  import opened Common
  import opened Json
  import opened ProtocolSpec
  import opened ProtocolForest
  import opened ProtocolInvariants
  import opened ProtocolHistory
  import opened ProtocolRuns

  function Without(xs: seq<Json>, dead: set<Key>): seq<Json> {
    if xs == [] then []
    else if xs[0].Str? && xs[0].s in dead then Without(xs[1..], dead)
    else [xs[0]] + Without(xs[1..], dead)
  }

  /** `v` with the collections in `dead` taken out of its list. */
  function Eroded(v: Fields, dead: set<Key>): Fields {
    if Get(v, Collections).Arr? then v[Collections := Arr(Without(v[Collections].elems, dead))] else v
  }

  /** `v` with one listing taken out for each deletion, in their order. */
  function UnfiledAll(v: Fields, gone: seq<Key>): Fields
    decreases |gone|
  {
    if gone == [] then v else UnfiledAll(Unfiled(v, gone[0]), gone[1..])
  }

  /** The collection keys a run deletes, in order. */
  function Dropped(ops: seq<Operation>): seq<Key> {
    if ops == [] then []
    else if ops[0].Delete? && ops[0].kind == Collection then [ops[0].key] + Dropped(ops[1..])
    else Dropped(ops[1..])
  }

  ghost predicate ObjectsSince(was: Objects, now: Objects, version: nat) {
    forall k :: k in now && VersionOf(now[k]) <= version ==> k in was && now[k] == was[k]
  }

  ghost predicate ItemsSince(was: Objects, now: Objects, version: nat, gone: seq<Key>) {
    forall k :: k in now && VersionOf(now[k]) <= version ==> k in was && now[k] == UnfiledAll(was[k], gone)
  }

  ghost predicate SettingsSince(s: State, t: State, limit: nat) {
    forall k :: k in t.settings && t.settings[k].version <= limit ==>
      k in s.settings && t.settings[k] == s.settings[k]
  }

  ghost predicate FullTextSince(s: State, t: State, limit: nat) {
    forall k :: k in t.fulltext && t.fulltext[k].version <= limit ==>
      k in s.fulltext && t.fulltext[k] == s.fulltext[k]
  }

  /** A file has no version of its own: storing one stamps the item it belongs to. */
  ghost predicate FilesSince(s: State, t: State, limit: nat) {
    forall k :: k in t.items && VersionOf(t.items[k]) <= limit ==>
      (k in t.files <==> k in s.files) && (k in t.files ==> t.files[k] == s.files[k])
  }

  /** `t` holds nothing at or below the version of `s` that `s` did not hold. */
  ghost predicate Since(s: State, t: State, gone: seq<Key>) {
    && s.version <= t.version
    && ItemsSince(s.items, t.items, s.version, gone)
    && ObjectsSince(s.collections, t.collections, s.version)
    && ObjectsSince(s.searches, t.searches, s.version)
    && SettingsSince(s, t, s.version) && FullTextSince(s, t, s.version) && FilesSince(s, t, s.version)
    && forall k :: k in s.collections && k !in gone ==> k in t.collections
  }

  // ------------------------------------------------------------ list facts

  lemma {:induction false} WithoutMissing(xs: seq<Json>, dead: set<Key>, key: Key)
    requires Str(key) !in xs
    ensures Without(xs, dead + {key}) == Without(xs, dead)
  {
    if xs != [] {
      assert xs[0] in xs;
      WithoutMissing(xs[1..], dead, key);
    }
  }

  lemma {:induction false} WithoutRemoved(xs: seq<Json>, dead: set<Key>, key: Key)
    requires key in dead
    ensures Without(RemoveFirst(xs, Str(key)), dead) == Without(xs, dead)
  {
    if xs != [] && xs[0] != Str(key) {
      WithoutRemoved(xs[1..], dead, key);
      assert ([xs[0]] + RemoveFirst(xs[1..], Str(key)))[1..] == RemoveFirst(xs[1..], Str(key));
    }
  }

  lemma {:induction false} UnfiledAllAppends(v: Fields, gone: seq<Key>, key: Key)
    ensures UnfiledAll(v, gone + [key]) == Unfiled(UnfiledAll(v, gone), key)
    decreases |gone|
  {
    hide Unfiled;
    if gone == [] {
      assert [key][1..] == [];
      assert UnfiledAll(Unfiled(v, key), []) == Unfiled(v, key);
    } else {
      assert (gone + [key])[1..] == gone[1..] + [key];
      UnfiledAllAppends(Unfiled(v, gone[0]), gone[1..], key);
    }
  }

  lemma {:induction false} UnfiledAllKeeps(v: Fields, gone: seq<Key>)
    ensures forall f :: f != Collections ==> Get(UnfiledAll(v, gone), f) == Get(v, f)
    decreases |gone|
  {
    hide Unfiled, Get;
    if gone != [] {
      UnfiledKeeps(v, gone[0]);
      UnfiledAllKeeps(Unfiled(v, gone[0]), gone[1..]);
    }
  }

  // ------------------------------------------------------------------ steps

  /** Nothing at or below `limit` has changed, apart from what was deleted. */
  ghost predicate Fresh(s: State, t: State, limit: nat) {
    && ObjectsSince(s.items, t.items, limit)
    && ObjectsSince(s.collections, t.collections, limit)
    && ObjectsSince(s.searches, t.searches, limit)
    && s.collections.Keys <= t.collections.Keys
    && SettingsSince(s, t, limit) && FullTextSince(s, t, limit) && FilesSince(s, t, limit)
  }

  lemma ObjectsSinceAgain(first: Objects, second: Objects, third: Objects, low: nat, high: nat)
    requires low <= high && ObjectsSince(first, second, low) && ObjectsSince(second, third, high)
    ensures ObjectsSince(first, third, low)
  {
  }

  lemma ItemsSinceAgain(first: Objects, second: Objects, third: Objects, low: nat, high: nat, gone: seq<Key>)
    requires low <= high && ItemsSince(first, second, low, gone) && ObjectsSince(second, third, high)
    ensures ItemsSince(first, third, low, gone)
  {
  }

  lemma RowsSinceAgain(s: State, m: State, t: State, low: nat, high: nat)
    requires low <= high && ObjectsSince(m.items, t.items, high)
    requires SettingsSince(s, m, low) && FullTextSince(s, m, low) && FilesSince(s, m, low)
    requires SettingsSince(m, t, high) && FullTextSince(m, t, high) && FilesSince(m, t, high)
    ensures SettingsSince(s, t, low) && FullTextSince(s, t, low) && FilesSince(s, t, low)
  {
  }

  lemma FreshAgain(s: State, m: State, t: State, limit: nat)
    requires Fresh(s, m, limit) && Fresh(m, t, limit)
    ensures Fresh(s, t, limit)
  {
    hide ObjectsSince, SettingsSince, FullTextSince, FilesSince;
    ObjectsSinceAgain(s.items, m.items, t.items, limit, limit);
    ObjectsSinceAgain(s.collections, m.collections, t.collections, limit, limit);
    ObjectsSinceAgain(s.searches, m.searches, t.searches, limit, limit);
    RowsSinceAgain(s, m, t, limit, limit);
  }

  lemma SinceThenFresh(s: State, m: State, t: State, gone: seq<Key>)
    requires Since(s, m, gone) && Fresh(m, t, m.version) && m.version <= t.version
    ensures Since(s, t, gone)
  {
    hide ItemsSince, ObjectsSince, SettingsSince, FullTextSince, FilesSince;
    ItemsSinceAgain(s.items, m.items, t.items, s.version, m.version, gone);
    ObjectsSinceAgain(s.collections, m.collections, t.collections, s.version, m.version);
    ObjectsSinceAgain(s.searches, m.searches, t.searches, s.version, m.version);
    RowsSinceAgain(s, m, t, s.version, m.version);
  }

  lemma OneNewer(objects: Objects, key: Key, v: Fields, limit: nat)
    requires VersionOf(v) > limit
    ensures ObjectsSince(objects, objects[key := v], limit)
  {
  }

  lemma SavedIsFresh(s: State, kind: Kind, key: Key, data: Fields, version: nat, t: State, limit: nat)
    requires SaveObject(s, kind, key, data, version) == Some(t) && limit < version
    ensures Fresh(s, t, limit)
  {
    hide SaveObject, Accepted, Stamped, ObjectsSince, FilesSince, SettingsSince, FullTextSince;
    var v := Saved(s, kind, key, data, version, t);
    StampedKeeps(v, key, version);
    Unchanged(s.items, limit);
    Unchanged(s.collections, limit);
    Unchanged(s.searches, limit);
    OneNewer(s.Objects(kind), key, Stamped(v, key, version), limit);
    SettingsUntouched(s, t, limit);
    FullTextUntouched(s, t, limit);
    FilesUntouched(s, t, limit);
  }

  lemma Unchanged(objects: Objects, limit: nat)
    ensures ObjectsSince(objects, objects, limit)
  {
  }

  lemma SettingsUntouched(s: State, t: State, limit: nat)
    requires t.settings == s.settings
    ensures SettingsSince(s, t, limit)
  {
  }

  lemma FullTextUntouched(s: State, t: State, limit: nat)
    requires t.fulltext == s.fulltext
    ensures FullTextSince(s, t, limit)
  {
  }

  lemma FilesUntouched(s: State, t: State, limit: nat)
    requires t.files == s.files
    ensures FilesSince(s, t, limit)
  {
  }

  lemma {:induction false} SavedAllIsFresh(s: State, queue: seq<Pending>, version: nat, t: State, limit: nat)
    requires SaveAll(s, queue, version) == Some(t) && limit < version
    ensures Fresh(s, t, limit)
    decreases |queue|
  {
    hide SaveObject;
    if queue != [] {
      hide Fresh;
      var next := SaveObject(s, Item, queue[0].key, queue[0].data, version).value;
      SavedIsFresh(s, Item, queue[0].key, queue[0].data, version, next, limit);
      SavedAllIsFresh(next, queue[1..], version, t, limit);
      FreshAgain(s, next, t, limit);
    }
  }

  lemma DeletedIsFresh(s: State, kind: Kind, key: Key, version: nat, t: State, limit: nat)
    requires DeleteObject(s, kind, key, version) == Some(t) && kind != Collection
    ensures Fresh(s, t, limit)
  {
  }

  lemma SettingIsFresh(s: State, name: string, value: Json, version: nat, t: State, limit: nat)
    requires ChangeSetting(s, name, value, version) == Some(t) && limit < version
    ensures Fresh(s, t, limit)
  {
  }

  lemma FullTextIsFresh(s: State, key: Key, content: string, version: nat, t: State, limit: nat)
    requires ChangeFullText(s, key, content, version) == Some(t) && limit < version
    ensures Fresh(s, t, limit)
  {
  }

  lemma FileIsFresh(s: State, key: Key, content: string, digest: Option<string>, mtime: int,
                    version: nat, t: State, limit: nat)
    requires ChangeFile(s, key, content, digest, mtime, version) == Some(t) && limit < version
    ensures Fresh(s, t, limit)
  {
  }

  lemma CollectionDeletedSince(s: State, m: State, key: Key, version: nat, t: State, gone: seq<Key>)
    requires Since(s, m, gone) && s.version < version
    requires key in m.collections && DeleteCollection(m, key, version) == Some(t)
    ensures ItemsSince(s.items, t.items, s.version, gone + [key])
    ensures ObjectsSince(s.collections, t.collections, s.version)
    ensures ObjectsSince(s.searches, t.searches, s.version)
    ensures FilesSince(s, t, s.version)
    ensures forall k :: k in s.collections && k !in gone + [key] ==> k in t.collections
  {
    hide Unfiled, Lists, UnfiledAll, ItemsSince, SettingsSince, FullTextSince, ObjectsSince, Spliced, VersionOf;
    SplicedSince(s.collections, m.collections, key, version, s.version);
    SplicedKeys(m.collections, key, version);
    DeletionUnfiles(m, key, version, t);
    UnfiledSince(s.items, m.items, t.items, s.version, gone, key);
  }

  lemma DeletionUnfiles(m: State, key: Key, version: nat, t: State)
    requires key in m.collections && DeleteCollection(m, key, version) == Some(t)
    ensures t.items.Keys == m.items.Keys
    ensures forall k :: k in t.items ==>
      t.items[k] == Unfiled(m.items[k], key) && VersionOf(m.items[k]) == VersionOf(t.items[k])
  {
    hide Unfiled, Lists, Spliced;
    forall k | k in t.items
      ensures t.items[k] == Unfiled(m.items[k], key) && VersionOf(m.items[k]) == VersionOf(t.items[k])
    {
      UnfiledKeeps(m.items[k], key);
    }
  }

  lemma SplicedSince(was: Objects, collections: Objects, key: Key, version: nat, limit: nat)
    requires ObjectsSince(was, collections, limit) && key in collections && limit < version
    ensures ObjectsSince(was, Spliced(collections, key, version), limit)
  {
  }

  lemma UnfiledSince(was: Objects, items: Objects, now: Objects, limit: nat, gone: seq<Key>, key: Key)
    requires ItemsSince(was, items, limit, gone) && now.Keys <= items.Keys
    requires forall k :: k in now ==>
      now[k] == Unfiled(items[k], key) && VersionOf(items[k]) == VersionOf(now[k])
    ensures ItemsSince(was, now, limit, gone + [key])
  {
    hide Unfiled, UnfiledAll, VersionOf;
    forall k | k in now && VersionOf(now[k]) <= limit
      ensures k in was && now[k] == UnfiledAll(was[k], gone + [key])
    {
      UnfiledAllAppends(was[k], gone, key);
    }
  }

  lemma CollectionIsDeletedSince(s: State, m: State, key: Key, t: State, gone: seq<Key>)
    requires Since(s, m, gone)
    requires key in m.collections && DeleteCollection(m, key, m.version + 1) == Some(t)
    ensures Since(s, t.(version := m.version + 1), gone + [key])
  {
    hide ItemsSince, ObjectsSince;
    CollectionDeletedSince(s, m, key, m.version + 1, t, gone);
  }

  lemma FreshApart(s: State, w: State, t: State, limit: nat)
    requires Fresh(s, w, limit)
    requires t == w.(version := t.version, pending := t.pending, access := t.access)
    ensures Fresh(s, t, limit)
  {
  }

  lemma NothingIsFresh(s: State, limit: nat)
    ensures Fresh(s, s, limit)
  {
  }

  lemma WriteIsFresh(s: State, op: Operation, w: State, limit: nat)
    requires !op.Access? && !op.Offline? && !op.Flush? && !(op.Delete? && op.kind == Collection)
    requires Write(s, op, s.version + 1) == Some(w) && limit <= s.version
    ensures Fresh(s, w, limit)
  {
    hide Fresh, SaveObject, ChangeSetting, ChangeFullText, ChangeFile, DeleteObject;
    match op
    case Save(_, kind, key, data) => SavedIsFresh(s, kind, key, data, s.version + 1, w, limit);
    case Setting(_, name, value) => SettingIsFresh(s, name, value, s.version + 1, w, limit);
    case FullText(_, key, content) => FullTextIsFresh(s, key, content, s.version + 1, w, limit);
    case File(_, key, content, digest, mtime) =>
      FileIsFresh(s, key, content, digest, mtime, s.version + 1, w, limit);
    case Delete(_, kind, key) => DeletedIsFresh(s, kind, key, s.version + 1, w, limit);
  }

  lemma StepSince(s: State, m: State, op: Operation, t: State, gone: seq<Key>)
    requires Since(s, m, gone) && Step(m, op) == Some(t)
    ensures Since(s, t, gone + Dropped([op]))
  {
    hide Since, Fresh, Write, SaveAll, Enqueue;
    if op.Delete? && op.kind == Collection {
      assert Dropped([op]) == [op.key] by { assert [op][1..] == []; }
      var w := CollectionDelete(m, op, t);
      CollectionIsDeletedSince(s, m, op.key, w, gone);
    } else {
      assert Dropped([op]) == [] by { assert [op][1..] == []; }
      assert gone + [] == gone;
      match op {
        case Access(_, _) =>
          NothingIsFresh(m, m.version);
          FreshApart(m, m, t, m.version);
        case Offline(client, key, data) =>
          Enqueued(m, client, key, data, t);
          NothingIsFresh(m, m.version);
          FreshApart(m, m, t, m.version);
        case Flush(client) =>
          var w := SaveAll(m, m.pending[client], m.version + 1).value;
          SavedAllIsFresh(m, m.pending[client], m.version + 1, w, m.version);
          FreshApart(m, w, t, m.version);
        case _ =>
          var w := Write(m, op, m.version + 1).value;
          WriteIsFresh(m, op, w, m.version);
          FreshApart(m, w, t, m.version);
      }
      SinceThenFresh(s, m, t, gone);
    }
  }

  lemma Enqueued(s: State, client: Client, key: Key, data: Fields, t: State)
    requires client in s.pending && Enqueue(s, client, key, data) == Some(t)
    ensures t == s.(pending := t.pending)
  {
  }

  lemma CollectionDelete(s: State, op: Operation, t: State) returns (w: State)
    requires op.Delete? && op.kind == Collection && Step(s, op) == Some(t)
    ensures op.key in s.collections && DeleteCollection(s, op.key, s.version + 1) == Some(w)
    ensures t == w.(version := s.version + 1)
  {
    hide DeleteCollection;
    w := Write(s, op, s.version + 1).value;
  }

  lemma NothingSince(s: State)
    ensures Since(s, s, [])
  {
  }

  lemma {:induction false} RunSince(s: State, m: State, ops: seq<Operation>, t: State, gone: seq<Key>)
    requires Since(s, m, gone) && Run(m, ops) == Some(t)
    ensures Since(s, t, gone + Dropped(ops))
    decreases |ops|
  {
    hide Since, Step;
    if ops == [] {
      assert gone + Dropped(ops) == gone;
    } else {
      var next := Step(m, ops[0]).value;
      StepSince(s, m, ops[0], next, gone);
      RunSince(s, next, ops[1..], t, gone + Dropped([ops[0]]));
      assert gone + Dropped([ops[0]]) + Dropped(ops[1..]) == gone + Dropped(ops) by {
        assert [ops[0]][1..] == [];
      }
    }
  }

  /**
   Over any run from any state, an object the server still holds at a version the client
   had already seen was there before and is what it was, save that an item lost one
   listing for every collection deleted meanwhile, as often as it was.
   */
  lemma DeltaIsComplete(s: State, ops: seq<Operation>, t: State)
    requires Run(s, ops) == Some(t)
    ensures Since(s, t, Dropped(ops))
  {
    NothingSince(s);
    RunSince(s, s, ops, t, []);
    assert [] + Dropped(ops) == Dropped(ops);
  }

  // ---------------------------------------------------------------- erosion

  function RemoveAll(xs: seq<Json>, gone: seq<Key>): seq<Json>
    decreases |gone|
  {
    if gone == [] then xs else RemoveAll(RemoveFirst(xs, Str(gone[0])), gone[1..])
  }

  function Dead(gone: seq<Key>): set<Key> {
    set k | k in gone
  }

  lemma {:induction false} UnfiledAllIs(v: Fields, gone: seq<Key>)
    ensures Get(v, Collections).Arr? ==>
      UnfiledAll(v, gone) == v[Collections := Arr(RemoveAll(v[Collections].elems, gone))]
    ensures !Get(v, Collections).Arr? ==> UnfiledAll(v, gone) == v
    decreases |gone|
  {
    if gone == [] {
      if Get(v, Collections).Arr? {
        assert v[Collections := v[Collections]] == v;
      }
    } else {
      UnfiledIs(v, gone[0]);
      UnfiledAllIs(Unfiled(v, gone[0]), gone[1..]);
    }
  }

  lemma UnfiledIs(v: Fields, key: Key)
    ensures Get(v, Collections).Arr? ==>
      Unfiled(v, key) == v[Collections := Arr(RemoveFirst(v[Collections].elems, Str(key)))]
    ensures !Get(v, Collections).Arr? ==> Unfiled(v, key) == v
  {
    if Get(v, Collections).Arr? && Str(key) !in v[Collections].elems {
      NothingRemoved(v[Collections].elems, Str(key));
      assert v[Collections := v[Collections]] == v;
    }
  }

  lemma {:induction false} NothingRemoved(xs: seq<Json>, x: Json)
    requires x !in xs
    ensures RemoveFirst(xs, x) == xs
  {
    if xs != [] {
      assert xs[0] in xs;
      NothingRemoved(xs[1..], x);
    }
  }

  /** What is left of a key's listings after as many removals as it was deleted. */
  lemma {:induction false} RemoveAllCounts(xs: seq<Json>, gone: seq<Key>, key: Key)
    ensures multiset(RemoveAll(xs, gone))[Str(key)]
         == if multiset(xs)[Str(key)] > multiset(gone)[key] then multiset(xs)[Str(key)] - multiset(gone)[key] else 0
    decreases |gone|
  {
    if gone != [] {
      RemoveFirstCounts(xs, Str(gone[0]));
      assert gone == [gone[0]] + gone[1..];
      RemoveAllCounts(RemoveFirst(xs, Str(gone[0])), gone[1..], key);
    }
  }

  lemma {:induction false} WithoutCounts(xs: seq<Json>, dead: set<Key>, key: Key)
    ensures multiset(Without(xs, dead))[Str(key)] == if key in dead then 0 else multiset(xs)[Str(key)]
  {
    if xs != [] {
      assert xs == [xs[0]] + xs[1..];
      WithoutCounts(xs[1..], dead, key);
    }
  }

  /** The keys deleted at least as often as they were listed. */
  predicate OftenEnough(xs: seq<Json>, gone: seq<Key>) {
    forall key :: key in gone ==> multiset(xs)[Str(key)] <= multiset(gone)[key]
  }

  lemma {:induction false} RemoveAllIsWithout(xs: seq<Json>, gone: seq<Key>)
    requires OftenEnough(xs, gone)
    ensures RemoveAll(xs, gone) == Without(xs, Dead(gone))
    decreases |gone|
  {
    hide OftenEnough, Without, Dead;
    if gone == [] {
      NothingWithout(xs);
    } else {
      var left := RemoveFirst(xs, Str(gone[0]));
      OneFewer(xs, gone);
      RemoveAllIsWithout(left, gone[1..]);
      OneRemoved(xs, gone);
    }
  }

  lemma OneFewer(xs: seq<Json>, gone: seq<Key>)
    requires gone != [] && OftenEnough(xs, gone)
    ensures OftenEnough(RemoveFirst(xs, Str(gone[0])), gone[1..])
    ensures gone[0] !in gone[1..] ==> Str(gone[0]) !in RemoveFirst(xs, Str(gone[0]))
  {
    var key, more := gone[0], gone[1..];
    var left := RemoveFirst(xs, Str(key));
    assert gone == [key] + more;
    RemoveFirstCounts(xs, Str(key));
    forall k | k in more ensures multiset(left)[Str(k)] <= multiset(more)[k] {
      assert k in gone;
    }
    if key !in more {
      assert multiset(more)[key] == 0 && multiset(gone)[key] == 1;
      assert Str(key) !in multiset(left);
    }
  }

  lemma OneRemoved(xs: seq<Json>, gone: seq<Key>)
    requires gone != []
    requires gone[0] !in gone[1..] ==> Str(gone[0]) !in RemoveFirst(xs, Str(gone[0]))
    ensures Without(RemoveFirst(xs, Str(gone[0])), Dead(gone[1..])) == Without(xs, Dead(gone))
  {
    hide RemoveFirst, Without;
    var key, more := gone[0], gone[1..];
    assert gone == [key] + more;
    assert Dead(gone) == Dead(more) + {key};
    WithoutRemoved(xs, Dead(gone), key);
    if key !in more {
      WithoutMissing(RemoveFirst(xs, Str(key)), Dead(more), key);
    } else {
      assert Dead(gone) == Dead(more);
    }
  }

  lemma {:induction false} NothingWithout(xs: seq<Json>)
    ensures Without(xs, Dead([])) == xs
  {
    if xs != [] {
      NothingWithout(xs[1..]);
    }
  }

  /** An item loses exactly the deleted collections iff none was listed more often than deleted. */
  lemma LosesExactlyIff(v: Fields, gone: seq<Key>)
    ensures UnfiledAll(v, gone) == Eroded(v, Dead(gone)) <==>
            forall key :: key in gone ==> Listings(v, key) <= multiset(gone)[key]
  {
    UnfiledAllIs(v, gone);
    if Get(v, Collections).Arr? {
      var xs := v[Collections].elems;
      if OftenEnough(xs, gone) {
        RemoveAllIsWithout(xs, gone);
      } else {
        var key :| key in gone && multiset(xs)[Str(key)] > multiset(gone)[key];
        RemoveAllCounts(xs, gone, key);
        WithoutCounts(xs, Dead(gone), key);
        assert Get(UnfiledAll(v, gone), Collections) != Get(Eroded(v, Dead(gone)), Collections);
        assert Listings(v, key) > multiset(gone)[key];
      }
    }
  }

  // ---------------------------------------------------------------- replica

  function Within(xs: seq<Json>, live: set<Key>): seq<Json> {
    if xs == [] then []
    else if xs[0].Str? && xs[0].s in live then [xs[0]] + Within(xs[1..], live)
    else Within(xs[1..], live)
  }

  function Confined(v: Fields, live: set<Key>): Fields {
    if Get(v, Collections).Arr? then v[Collections := Arr(Within(v[Collections].elems, live))] else v
  }

  function Caught(was: Objects, now: Objects, version: nat): Objects {
    map k | k in now && (VersionOf(now[k]) > version || k in was) ::
      if VersionOf(now[k]) > version then now[k] else was[k]
  }

  /**
   What a client that held `was` makes of a server holding `now`: it reads the objects
   above its own version, drops the keys no longer listed, and the memberships in
   collections no longer listed.
   */
  function Replica(was: State, now: State): (Objects, Objects, Objects) {
    (map k | k in now.items && (VersionOf(now.items[k]) > was.version || k in was.items) ::
       if VersionOf(now.items[k]) > was.version then now.items[k]
       else Confined(was.items[k], now.collections.Keys),
     Caught(was.collections, now.collections, was.version),
     Caught(was.searches, now.searches, was.version))
  }

  /**
   Every collection `v` lists is either live and never deleted meanwhile, or gone and
   deleted at least as often as it was listed.
   */
  ghost predicate Follows(v: Fields, gone: seq<Key>, live: set<Key>) {
    forall key :: Listings(v, key) > 0 ==>
      if key in live then key !in gone else Listings(v, key) <= multiset(gone)[key]
  }

  lemma {:induction false} WithinIsWithout(xs: seq<Json>, dead: set<Key>, live: set<Key>)
    requires forall i :: 0 <= i < |xs| ==> xs[i].Str? && (xs[i].s in dead <==> xs[i].s !in live)
    ensures Within(xs, live) == Without(xs, dead)
  {
    if xs != [] {
      WithinIsWithout(xs[1..], dead, live);
    }
  }

  lemma {:induction false} WithinCounts(xs: seq<Json>, live: set<Key>, key: Key)
    ensures multiset(Within(xs, live))[Str(key)] == if key in live then multiset(xs)[Str(key)] else 0
  {
    if xs != [] {
      assert xs == [xs[0]] + xs[1..];
      WithinCounts(xs[1..], live, key);
    }
  }

  lemma ConfinedIffFollows(v: Fields, gone: seq<Key>, live: set<Key>)
    requires ListsTexts(v)
    ensures Confined(v, live) == UnfiledAll(v, gone) <==> Follows(v, gone, live)
  {
    UnfiledAllIs(v, gone);
    if Get(v, Collections).Arr? {
      var xs := v[Collections].elems;
      if Follows(v, gone, live) {
        FollowingIsWithin(v, gone, live);
      } else {
        var key :| Listings(v, key) > 0
                   && !(if key in live then key !in gone else Listings(v, key) <= multiset(gone)[key]);
        RemoveAllCounts(xs, gone, key);
        WithinCounts(xs, live, key);
        assert Get(Confined(v, live), Collections) != Get(UnfiledAll(v, gone), Collections);
      }
    }
  }

  lemma FollowingIsWithin(v: Fields, gone: seq<Key>, live: set<Key>)
    requires ListsTexts(v) && Get(v, Collections).Arr? && Follows(v, gone, live)
    ensures Within(v[Collections].elems, live) == RemoveAll(v[Collections].elems, gone)
  {
    var xs := v[Collections].elems;
    assert OftenEnough(xs, gone) by {
      forall key | key in gone ensures multiset(xs)[Str(key)] <= multiset(gone)[key] {
        assert Listings(v, key) == multiset(xs)[Str(key)];
      }
    }
    forall i | 0 <= i < |xs| ensures xs[i].Str? && (xs[i].s in Dead(gone) <==> xs[i].s !in live) {
      assert xs[i] in multiset(xs);
      assert Listings(v, xs[i].s) > 0;
    }
    RemoveAllIsWithout(xs, gone);
    WithinIsWithout(xs, Dead(gone), live);
  }

  /** The items a client keeps from its own copy. */
  predicate Kept(was: State, now: State, key: Key) {
    key in now.items && VersionOf(now.items[key]) <= was.version
  }

  /**
   A replica brought up to date this way has the server's collections and searches, and
   its items exactly when every item it kept follows the deletions: no collection it
   listed was deleted and used again, nor listed more often than deleted.
   */
  lemma ReplicaCatchesUp(s: State, ops: seq<Operation>, t: State)
    requires Invariant(s) && Run(s, ops) == Some(t)
    ensures Replica(s, t).1 == t.collections && Replica(s, t).2 == t.searches
    ensures Replica(s, t).0 == t.items <==>
            forall k :: Kept(s, t, k) && k in s.items ==> Follows(s.items[k], Dropped(ops), t.collections.Keys)
  {
    hide Invariant, Run, Dropped, Confined, Follows, Since;
    DeltaIsComplete(s, ops, t);
    var gone, copy := Dropped(ops), Replica(s, t).0;
    assert copy.Keys == t.items.Keys by { KeptKnown(s, t, gone); }
    forall k | Kept(s, t, k)
      ensures k in s.items && (copy[k] == t.items[k] <==> Follows(s.items[k], gone, t.collections.Keys))
    {
      KeptItem(s, t, gone, k);
    }
    if copy == t.items {
      forall k | Kept(s, t, k) && k in s.items ensures Follows(s.items[k], gone, t.collections.Keys) {
        assert copy[k] == t.items[k];
      }
    }
    CaughtUp(s, t, gone);
  }

  lemma KeptKnown(s: State, t: State, gone: seq<Key>)
    requires Since(s, t, gone)
    ensures forall k :: Kept(s, t, k) ==> k in s.items
  {
  }

  lemma CaughtUp(s: State, t: State, gone: seq<Key>)
    requires Since(s, t, gone)
    ensures Caught(s.collections, t.collections, s.version) == t.collections
    ensures Caught(s.searches, t.searches, s.version) == t.searches
  {
  }

  lemma KeptItem(s: State, t: State, gone: seq<Key>, k: Key)
    requires Invariant(s) && Since(s, t, gone) && Kept(s, t, k)
    ensures k in s.items
    ensures Confined(s.items[k], t.collections.Keys) == t.items[k] <==>
            Follows(s.items[k], gone, t.collections.Keys)
  {
    hide Forest, Keyed, Dated, QueuesSound, RowsDated, ObjectsSince, SettingsSince, FullTextSince,
      FilesSince, Confined, UnfiledAll, Follows, ListsTexts;
    SoundAt(s.items, k);
    ConfinedIffFollows(s.items[k], gone, t.collections.Keys);
  }

  /**
   From a state where every listed collection is live and listed once, and without a
   deleted key being used again, the replica is the server.
   */
  lemma ReplicaIsServer(s: State, ops: seq<Operation>, t: State)
    requires Invariant(s) && Listed(s.items, s.collections) && Run(s, ops) == Some(t)
    requires forall key :: key in Dropped(ops) ==> key !in t.collections
    ensures Replica(s, t) == (t.items, t.collections, t.searches)
  {
    hide Invariant, Run, Dropped, Replica, Since;
    ReplicaCatchesUp(s, ops, t);
    DeltaIsComplete(s, ops, t);
    CollectionsStay(s, t, Dropped(ops));
    forall k | k in s.items ensures Follows(s.items[k], Dropped(ops), t.collections.Keys) {
      ListedFollows(s.items[k], s.collections, Dropped(ops), t.collections);
    }
  }

  lemma CollectionsStay(s: State, t: State, gone: seq<Key>)
    requires Since(s, t, gone)
    ensures forall key :: key in s.collections && key !in gone ==> key in t.collections
  {
  }

  lemma ListedFollows(v: Fields, was: Objects, gone: seq<Key>, now: Objects)
    requires ListsOnly(v, was) && UniquelyListed(v)
    requires forall key :: key in was && key !in gone ==> key in now
    requires forall key :: key in gone ==> key !in now
    ensures Follows(v, gone, now.Keys)
  {
    forall key | Listings(v, key) > 0 && key !in now ensures Listings(v, key) <= multiset(gone)[key] {
      var xs := v[Collections].elems;
      assert Str(key) in multiset(xs);
      assert Str(key) in xs;
      assert key in was && key in gone;
      OnceCounts(xs, Str(key));
      assert key in multiset(gone);
    }
  }

  lemma {:induction false} OnceCounts(xs: seq<Json>, x: Json)
    requires Distinct(xs)
    ensures multiset(xs)[x] <= 1
  {
    if xs != [] {
      assert xs == [xs[0]] + xs[1..];
      assert Distinct(xs[1..]);
      OnceCounts(xs[1..], x);
      assert xs[0] !in xs[1..] by {
        assert forall i :: 0 <= i < |xs[1..]| ==> xs[1..][i] == xs[i + 1];
      }
      assert xs[0] !in multiset(xs[1..]);
    }
  }

  // ---------------------------------------------------------- other replicas

  /** Newer settings, and those the client had that the deletion log does not name. */
  function ReplicaSettings(was: State, now: State): map<string, Preference> {
    map k | k in was.settings.Keys + now.settings.Keys
            && ((k in now.settings && now.settings[k].version > was.version)
                || (k in was.settings && k !in now.deletedSettings)) ::
      if k in now.settings && now.settings[k].version > was.version then now.settings[k] else was.settings[k]
  }

  /** Newer full text, and what the client had that is still listed. */
  function ReplicaFullText(was: State, now: State): map<Key, Index> {
    map k | k in now.fulltext && (now.fulltext[k].version > was.version || k in was.fulltext) ::
      if now.fulltext[k].version > was.version then now.fulltext[k] else was.fulltext[k]
  }

  /** The files of newer items, and the client's own of the items it kept. */
  function ReplicaFiles(was: State, now: State): map<Key, Upload> {
    map k | k in now.items && (if VersionOf(now.items[k]) > was.version then k in now.files else k in was.files) ::
      if VersionOf(now.items[k]) > was.version then now.files[k] else was.files[k]
  }

  /**
   The rest of a replica always equals the server's: settings dropped by the deletion log,
   full text by its listing, and files with their items.
   */
  lemma ReplicaRowsCatchUp(past: seq<Operation>, s: State, ops: seq<Operation>, t: State)
    requires Run(INITIAL, past) == Some(s) && Run(s, ops) == Some(t)
    ensures ReplicaSettings(s, t) == t.settings
    ensures ReplicaFullText(s, t) == t.fulltext
    ensures ReplicaFiles(s, t) == t.files
  {
    hide Run, Invariant, Dropped;
    InitialInvariant();
    RunKeepsInvariant(INITIAL, past, s);
    RunKeepsInvariant(s, ops, t);
    DeltaIsComplete(s, ops, t);
    NothingIsForgotten(past, s);
    RunJoins(INITIAL, past, s, ops);
    NothingIsForgotten(past + ops, t);
    assert SetNames(past) <= SetNames(past + ops);
    SettingsCatchUp(s, t, Dropped(ops));
    FilesCatchUp(s, t, Dropped(ops));
  }

  lemma SettingsCatchUp(s: State, t: State, gone: seq<Key>)
    requires Since(s, t, gone) && t.settings.Keys !! t.deletedSettings
    requires s.settings.Keys <= t.settings.Keys + t.deletedSettings
    ensures ReplicaSettings(s, t) == t.settings && ReplicaFullText(s, t) == t.fulltext
  {
    hide ItemsSince, ObjectsSince, FilesSince;
  }

  lemma FilesCatchUp(s: State, t: State, gone: seq<Key>)
    requires Since(s, t, gone) && Invariant(t)
    ensures ReplicaFiles(s, t) == t.files
  {
    hide ItemsSince, ObjectsSince, SettingsSince, FullTextSince, GraphSound, RowsDated, QueuesSound;
  }

  // ---------------------------------------------------------- what is read

  ghost predicate SameNewer(a: Objects, b: Objects, version: nat) {
    && a.Keys == b.Keys
    && forall k :: k in a && (VersionOf(a[k]) > version || VersionOf(b[k]) > version) ==> a[k] == b[k]
  }

  /** Two servers that answer a client at `version` alike: the same listings, log and newer objects and rows. */
  ghost predicate SameDelta(version: nat, t: State, u: State) {
    && SameNewer(t.items, u.items, version)
    && SameNewer(t.collections, u.collections, version)
    && SameNewer(t.searches, u.searches, version)
    && t.deletedSettings == u.deletedSettings
    && (forall k :: k in t.settings && t.settings[k].version > version ==>
          k in u.settings && u.settings[k] == t.settings[k])
    && (forall k :: k in u.settings && u.settings[k].version > version ==>
          k in t.settings && t.settings[k] == u.settings[k])
    && t.fulltext.Keys == u.fulltext.Keys
    && (forall k :: k in t.fulltext && (t.fulltext[k].version > version || u.fulltext[k].version > version) ==>
          t.fulltext[k] == u.fulltext[k])
    && forall k :: k in t.items && VersionOf(t.items[k]) > version ==>
         (k in t.files <==> k in u.files) && (k in t.files ==> t.files[k] == u.files[k])
  }

  lemma CaughtReadsDelta(was: Objects, t: Objects, u: Objects, version: nat)
    requires SameNewer(t, u, version)
    ensures Caught(was, t, version) == Caught(was, u, version)
  {
  }

  lemma ItemsReadDelta(s: State, t: State, u: State)
    requires SameNewer(t.items, u.items, s.version) && t.collections.Keys == u.collections.Keys
    ensures Replica(s, t).0 == Replica(s, u).0
  {
    hide Confined, Caught;
    var a, b := Replica(s, t).0, Replica(s, u).0;
    forall k ensures (k in a <==> k in b) && (k in a && k in b ==> a[k] == b[k]) {
    }
  }

  lemma SettingsReadDelta(s: State, t: State, u: State)
    requires SameDelta(s.version, t, u)
    ensures ReplicaSettings(s, t) == ReplicaSettings(s, u)
  {
    hide SameNewer;
  }

  lemma FullTextReadsDelta(s: State, t: State, u: State)
    requires SameDelta(s.version, t, u)
    ensures ReplicaFullText(s, t) == ReplicaFullText(s, u)
  {
    hide SameNewer;
  }

  lemma FilesReadDelta(s: State, t: State, u: State)
    requires SameDelta(s.version, t, u)
    ensures ReplicaFiles(s, t) == ReplicaFiles(s, u)
  {
  }

  /** A replica is made of the client's own copy and such an answer, and of nothing else. */
  lemma ReplicaReadsDelta(s: State, t: State, u: State)
    requires SameDelta(s.version, t, u)
    ensures Replica(s, t) == Replica(s, u)
    ensures ReplicaSettings(s, t) == ReplicaSettings(s, u)
    ensures ReplicaFullText(s, t) == ReplicaFullText(s, u)
    ensures ReplicaFiles(s, t) == ReplicaFiles(s, u)
  {
    ItemsReadDelta(s, t, u);
    SettingsReadDelta(s, t, u);
    FullTextReadsDelta(s, t, u);
    FilesReadDelta(s, t, u);
    hide Confined, Caught, ReplicaSettings, ReplicaFullText, ReplicaFiles;
    CaughtReadsDelta(s.collections, t.collections, u.collections, s.version);
    CaughtReadsDelta(s.searches, t.searches, u.searches, s.version);
  }
}
