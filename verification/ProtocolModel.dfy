/**
 The protocol model as the source writes it: an object whose fields each operation
 updates in place. A rejected operation may leave a half-changed object behind, so
 `Apply` works on a copy and takes its fields over only when it was accepted.
 */
module ProtocolModel {
  import opened Json
  import opened Naming
  import opened ProtocolSpec

  class ProtocolModel {
    var version: nat
    var items: Objects
    var collections: Objects
    var searches: Objects
    var settings: map<string, Preference>
    var fulltext: map<Key, Index>
    var files: map<Key, Upload>
    var deletedItems: set<Key>
    var deletedCollections: set<Key>
    var deletedSearches: set<Key>
    var deletedSettings: set<string>
    var pending: map<Client, seq<Pending>>
    var access: map<Client, bool>

    function Abs(): State
      reads this
    {
      State(version, items, collections, searches, settings, fulltext, files,
            deletedItems, deletedCollections, deletedSearches, deletedSettings, pending, access)
    }

    constructor ()
      ensures Abs() == INITIAL
    {
      version, items, collections, searches := 0, map[], map[], map[];
      settings, fulltext, files := map[], map[], map[];
      deletedItems, deletedCollections, deletedSearches, deletedSettings := {}, {}, {}, {};
      pending, access := map["A" := [], "B" := []], map["A" := true, "B" := true];
    }

    constructor Copy(other: ProtocolModel)
      ensures Abs() == other.Abs()
    {
      new;
      TakeOver(other);
    }

    method TakeOver(other: ProtocolModel)
      modifies this
      ensures Abs() == old(other.Abs())
    {
      var s := other.Abs();
      version, items, collections, searches := s.version, s.items, s.collections, s.searches;
      settings, fulltext, files := s.settings, s.fulltext, s.files;
      deletedItems, deletedCollections := s.deletedItems, s.deletedCollections;
      deletedSearches, deletedSettings := s.deletedSearches, s.deletedSettings;
      pending, access := s.pending, s.access;
    }

    /** All or nothing: the new state is the step's, or exactly the old one. */
    method Apply(op: Operation) returns (accepted: bool)
      modifies this
      ensures accepted <==> Step(old(Abs()), op).Some?
      ensures Abs() == if accepted then Step(old(Abs()), op).value else old(Abs())
    {
      hide Step;
      var trial := new ProtocolModel.Copy(this);
      accepted := trial.ApplyInPlace(op);
      if accepted {
        TakeOver(trial);
      }
    }

    /** Nothing is promised about the fields of an object that rejected the operation. */
    method ApplyInPlace(op: Operation) returns (accepted: bool)
      modifies this
      ensures accepted <==> Step(old(Abs()), op).Some?
      ensures accepted ==> Abs() == Step(old(Abs()), op).value
    {
      hide Enqueue, SaveAll, Write;
      var client := op.client;
      if client !in pending || client !in access || (NamesObject(op) && !ValidKey(op.key)) {
        return false;
      }
      match op {
        case Access(_, allowed) =>
          if allowed == access[client] {
            return false;
          }
          access := access[client := allowed];
          return true;
        case Offline(_, key, data) =>
          accepted := Queue(client, key, data);
          return;
        case Flush(_) =>
          accepted := FlushQueue(client);
          return;
        case _ =>
      }
      if !access[client] {
        return false;
      }
      var nextVersion := version + 1;
      accepted := WriteInPlace(op, nextVersion);
      if accepted {
        version := nextVersion;
      }
    }

    method WriteInPlace(op: Operation, nextVersion: nat) returns (accepted: bool)
      requires !op.Access? && !op.Offline? && !op.Flush?
      modifies this
      ensures accepted <==> Write(old(Abs()), op, nextVersion).Some?
      ensures accepted ==> Abs() == Write(old(Abs()), op, nextVersion).value
    {
      hide SaveObject, ChangeSetting, DeleteObject;
      match op {
        case Save(_, kind, key, data) => accepted := SaveInPlace(kind, key, data, nextVersion);
        case Setting(_, name, value) => accepted := SetInPlace(name, value, nextVersion);
        case FullText(_, key, content) =>
          accepted := IsAttachment(Abs(), key) &&
          !(key in fulltext && fulltext[key].content == content);
          if accepted {
            fulltext := fulltext[key := Index(content, |content|, |content|, nextVersion)];
          }
        case File(_, key, content, digest, mtime) =>
          accepted := IsAttachment(Abs(), key) && digest.Some? &&
          !(key in files && files[key].content == content);
          if accepted {
            files := files[key := Upload(content, mtime)];
            items := items[key := FileStamped(items[key], digest.value, mtime, nextVersion)];
          }
        case Delete(_, kind, key) => accepted := DeleteInPlace(kind, key, nextVersion);
      }
    }

    method Queue(client: Client, key: Key, data: Fields) returns (accepted: bool)
      requires client in pending
      modifies this`pending
      ensures accepted <==> Enqueue(old(Abs()), client, key, data).Some?
      ensures accepted ==> Abs() == Enqueue(old(Abs()), client, key, data).value
    {
      if key !in items || data == map[] || (exists f :: f in data && Get(items[key], f) == data[f]) {
        return false;
      }
      for i := 0 to |pending[client]|
        invariant forall j :: 0 <= j < i ==> pending[client][j].key != key
      {
        if pending[client][i].key == key {
          return false;
        }
      }
      pending := pending[client := pending[client] +
        [Pending(key, data, version, VersionOf(items[key]))]];
      return true;
    }

    method FlushQueue(client: Client) returns (accepted: bool)
      requires client in pending && client in access
      modifies this
      ensures accepted <==> Step(old(Abs()), Flush(client)).Some?
      ensures accepted ==> Abs() == Step(old(Abs()), Flush(client)).value
    {
      hide SaveObject;
      if !access[client] || pending[client] == [] {
        return false;
      }
      var queue, nextVersion := pending[client], version + 1;
      for i := 0 to |queue|
        invariant SaveAll(Abs(), queue[i..], nextVersion) == SaveAll(old(Abs()), queue, nextVersion)
        invariant version == old(version) && pending == old(pending) && access == old(access)
      {
        assert queue[i..][0] == queue[i] && queue[i..][1..] == queue[i + 1..];
        var saved := SaveInPlace(Item, queue[i].key, queue[i].data, nextVersion);
        if !saved {
          return false;
        }
      }
      assert queue[|queue|..] == [];
      version := nextVersion;
      pending := pending[client := []];
      return true;
    }

    method SaveInPlace(kind: Kind, key: Key, data: Fields, newVersion: nat) returns (accepted: bool)
      modifies this`items, this`collections, this`searches
      ensures accepted <==> SaveObject(old(Abs()), kind, key, data, newVersion).Some?
      ensures Abs() == if accepted then SaveObject(old(Abs()), kind, key, data, newVersion).value
                       else old(Abs())
    {
      hide Effective, Normalized, Accepted, Stamped;
      var previous := Previous(Abs(), kind, key);
      if !Effective(previous, data) {
        return false;
      }
      var value := previous + data;
      if Relations in value && !value[Relations].Obj? {
        return false;
      }
      value := Normalized(value);
      accepted := Accepts(kind, key, value);
      if accepted {
        Store(kind, key, Stamped(value, key, newVersion));
      }
    }

    method Accepts(kind: Kind, key: Key, value: Fields) returns (accepted: bool)
      ensures accepted <==> Accepted(Abs(), kind, key, value)
    {
      hide ItemAccepted, EndsAtRoot;
      match kind {
        case Item => accepted := ItemAccepted(Abs(), value);
        case Collection => accepted := WalkUp(key, Get(value, ParentCollection));
        case Search => accepted := true;
      }
    }

    method Store(kind: Kind, key: Key, value: Fields)
      modifies this`items, this`collections, this`searches
      ensures Abs() == old(Abs()).WithObjects(kind, old(Abs()).Objects(kind)[key := value])
    {
      match kind {
        case Item => items := items[key := value];
        case Collection => collections := collections[key := value];
        case Search => searches := searches[key := value];
      }
    }

    method WalkUp(key: Key, start: Json) returns (accepted: bool)
      ensures accepted == EndsAtRoot(collections, {key}, start)
    {
      var parent, seen := start, {key};
      while Truthy(parent)
        invariant EndsAtRoot(collections, seen, parent) == EndsAtRoot(collections, {key}, start)
        decreases collections.Keys - seen, Truthy(parent)
      {
        if !parent.Str? || parent.s in seen || parent.s !in collections {
          return false;
        }
        assert parent.s in collections.Keys - seen;
        seen := seen + {parent.s};
        parent := Get(collections[parent.s], ParentCollection);
      }
      return true;
    }

    method SetInPlace(name: string, value: Json, newVersion: nat) returns (accepted: bool)
      modifies this`settings, this`deletedSettings
      ensures accepted <==> ChangeSetting(old(Abs()), name, value, newVersion).Some?
      ensures accepted ==> Abs() == ChangeSetting(old(Abs()), name, value, newVersion).value
    {
      if value == Null {
        if name !in settings {
          return false;
        }
        settings := settings - {name};
        deletedSettings := deletedSettings + {name};
      } else {
        if name in settings && settings[name].value == value {
          return false;
        }
        settings := settings[name := Preference(value, newVersion)];
        deletedSettings := deletedSettings - {name};
      }
      return true;
    }

    method DeleteInPlace(kind: Kind, key: Key, newVersion: nat) returns (accepted: bool)
      modifies this
      ensures accepted <==> DeleteObject(old(Abs()), kind, key, newVersion).Some?
      ensures accepted ==> Abs() == DeleteObject(old(Abs()), kind, key, newVersion).value
    {
      hide DeleteItem, DeleteCollection;
      match kind {
        case Item =>
          if key !in items {
            return false;
          }
          accepted := DeleteTree(key);
        case Collection =>
          if key !in collections {
            return false;
          }
          accepted := DeleteFolder(key, newVersion);
        case Search =>
          if key !in searches {
            return false;
          }
          searches := searches - {key};
          deletedSearches := deletedSearches + {key};
          accepted := true;
      }
    }

    method DeleteTree(key: Key) returns (accepted: bool)
      requires key in items
      modifies this`items, this`files, this`fulltext, this`deletedItems
      ensures accepted <==> DeleteItem(old(Abs()), key).Some?
      ensures accepted ==> Abs() == DeleteItem(old(Abs()), key).value
    {
      if exists k :: k in items && !Hashable(Get(items[k], ParentItem)) {
        return false;
      }
      var doomed := {key};
      var children := Children(items, ParentItem, doomed) - doomed;
      while children != {}
        invariant children == Children(items, ParentItem, doomed) - doomed
        invariant Subtree(items, doomed) == Subtree(items, {key})
        decreases items.Keys - doomed
      {
        ghost var k :| k in children;
        assert k in items.Keys - doomed;
        doomed := doomed + children;
        children := Children(items, ParentItem, doomed) - doomed;
      }
      if Queued(Abs(), doomed) {
        return false;
      }
      files := files - doomed;
      fulltext := fulltext - doomed;
      items := items - doomed;
      deletedItems := deletedItems + doomed;
      return true;
    }

    method DeleteFolder(key: Key, newVersion: nat) returns (accepted: bool)
      requires key in collections
      modifies this`collections, this`items, this`deletedCollections
      ensures accepted <==> DeleteCollection(old(Abs()), key, newVersion).Some?
      ensures accepted ==> Abs() == DeleteCollection(old(Abs()), key, newVersion).value
    {
      hide Reparented, Unfiled, Lists, GrandParent;
      Reparent(key, newVersion);
      assert collections - {key} == Spliced(old(collections), key, newVersion);
      accepted := Unfile(key);
      if accepted {
        collections := collections - {key};
        deletedCollections := deletedCollections + {key};
      }
    }

    /** Hands the direct children of `key` over to its own parent. */
    method Reparent(key: Key, newVersion: nat)
      requires key in collections
      modifies this`collections
      ensures collections == map k | k in old(collections) ::
        Reparented(old(collections)[k], key, GrandParent(old(collections), key), newVersion)
    {
      var todo := collections.Keys;
      while todo != {}
        invariant todo <= collections.Keys == old(collections).Keys
        invariant GrandParent(collections, key) == GrandParent(old(collections), key)
        invariant forall k :: k in collections && k in todo ==> collections[k] == old(collections)[k]
        invariant forall k :: k in collections && k !in todo ==>
          collections[k] ==
          Reparented(old(collections)[k], key, GrandParent(old(collections), key), newVersion)
      {
        var k :| k in todo;
        if Get(collections[k], ParentCollection) == Str(key) {
          collections := collections[k :=
            collections[k][ParentCollection := GrandParent(collections, key)]
            [Version := Num(newVersion)]];
        }
        todo := todo - {k};
      }
    }

    /** Takes one listing of `key` out of every item; only a list can have one taken out. */
    method Unfile(key: Key) returns (accepted: bool)
      modifies this`items
      ensures accepted <==> !exists k :: k in old(items) && Lists(old(items)[k], key) &&
                                         !old(items)[k][Collections].Arr?
      ensures accepted ==> items == map k | k in old(items) :: Unfiled(old(items)[k], key)
    {
      var todo := items.Keys;
      while todo != {}
        invariant todo <= items.Keys == old(items).Keys
        invariant forall k :: k in items && k !in todo ==>
          !(Lists(old(items)[k], key) && !old(items)[k][Collections].Arr?)
        invariant forall k :: k in items ==>
          items[k] == if k in todo then old(items)[k] else Unfiled(old(items)[k], key)
      {
        var k :| k in todo;
        if Lists(items[k], key) {
          if !items[k][Collections].Arr? {
            return false;
          }
          items := items[k := items[k][Collections :=
            Arr(RemoveFirst(items[k][Collections].elems, Str(key)))]];
        }
        todo := todo - {k};
      }
      return true;
    }
  }
}
