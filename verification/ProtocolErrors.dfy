/**
 The model refuses an operation by raising a ValueError, which is all the generator
 catches; the validator catches a TypeError too, but not an AttributeError. Ill-typed
 payloads can end in either; payloads like the generator's never do.
 */
module ProtocolErrors {
  import opened Common
  import opened Json
  import opened Naming
  import opened ProtocolSpec
  import opened ProtocolInvariants
  import opened ProtocolEffects
  import opened ProtocolRuns
  import opened ProtocolModel

  // ---------------------------------------------------------------- crashes

  /** Looking each listed collection up: nothing to iterate over, or a list or dictionary in it. */
  predicate ListingCrashes(v: Fields, collections: Objects) {
    Collections in v &&
    match v[Collections]
    case Arr(xs) =>
      exists i :: 0 <= i < |xs| && !Hashable(xs[i])
                  && forall j :: 0 <= j < i ==> xs[j].Str? && xs[j].s in collections
    case Str(_) => false
    case Obj(_) => false
    case Null => true
    case Bool(_) => true
    case Num(_) => true
  }

  /** The checks of an item in their order, up to the first one that ends them. */
  predicate ItemCrashes(s: State, v: Fields) {
    var parent := Get(v, ParentItem);
    if ItemType !in v then false
    else if !HasParent(v) then Get(v, ItemType) != Str("annotation") && ListingCrashes(v, s.collections)
    else if !Hashable(parent) then true
    else if !parent.Str? || parent.s !in s.items then false
    else if NeedsRegularParent(v) && !Hashable(Get(s.items[parent.s], ItemType)) then true
    else if NeedsRegularParent(v) && IsChildType(s.items[parent.s]) then false
    else if Truthy(Get(v, Collections)) then false
    else if Get(v, ItemType) == Str("annotation") && Get(s.items[parent.s], ItemType) != Str("attachment") then false
    else ListingCrashes(v, s.collections)
  }

  predicate WalkCrashes(collections: Objects, seen: set<Key>, parent: Json)
    decreases collections.Keys - seen
  {
    if !Truthy(parent) then false
    else if !Hashable(parent) then true
    else if !parent.Str? || parent.s in seen || parent.s !in collections then false
    else
      assert parent.s in collections.Keys - seen;
      WalkCrashes(collections, seen + {parent.s}, Get(collections[parent.s], ParentCollection))
  }

  predicate SaveCrashes(s: State, kind: Kind, key: Key, data: Fields) {
    var merged := Previous(s, kind, key) + data;
    Effective(Previous(s, kind, key), data) &&
    if Relations in merged && !merged[Relations].Obj? then true
    else
      match kind
      case Item => ItemCrashes(s, Normalized(merged))
      case Collection => WalkCrashes(s.collections, {key}, Get(Normalized(merged), ParentCollection))
      case Search => false
  }

  predicate SaveAllCrashes(s: State, queue: seq<Pending>, version: nat)
    decreases |queue|
  {
    queue != [] &&
    (SaveCrashes(s, Item, queue[0].key, queue[0].data) ||
     match SaveObject(s, Item, queue[0].key, queue[0].data, version)
     case None => false
     case Some(t) => SaveAllCrashes(t, queue[1..], version))
  }

  predicate DeleteCrashes(s: State, kind: Kind, key: Key) {
    key in s.Objects(kind) &&
    match kind
    case Item => exists k :: k in s.items && !Hashable(Get(s.items[k], ParentItem))
    case Collection => exists k :: k in s.items && Collections in s.items[k] && UnfileCrashes(s.items[k], key)
    case Search => false
  }

  /** `key in value` of something that holds nothing, or `remove` of something that is no list. */
  predicate UnfileCrashes(v: Fields, key: Key)
    requires Collections in v
  {
    v[Collections].Null? || v[Collections].Bool? || v[Collections].Num? || (Lists(v, key) && !v[Collections].Arr?)
  }

  /** Whether the operation ends in an exception that is not the model's own ValueError. */
  predicate Crashes(s: State, op: Operation) {
    op.client in s.pending && op.client in s.access && (NamesObject(op) ==> ValidKey(op.key)) &&
    s.access[op.client] &&
    match op
    case Flush(client) => SaveAllCrashes(s, s.pending[client], s.version + 1)
    case Save(_, kind, key, data) => SaveCrashes(s, kind, key, data)
    case Delete(_, kind, key) => DeleteCrashes(s, kind, key)
    case Access(_, _) => false
    case Offline(_, _, _) => false
    case Setting(_, _, _) => false
    case FullText(_, _, _) => false
    case File(_, _, _, _, _) => false
  }

  lemma ItemCrashIsRefused(s: State, v: Fields)
    requires ItemCrashes(s, v)
    ensures !ItemAccepted(s, v)
  {
  }

  lemma {:induction false} WalkCrashIsRefused(collections: Objects, seen: set<Key>, parent: Json)
    requires WalkCrashes(collections, seen, parent)
    ensures !EndsAtRoot(collections, seen, parent)
    decreases collections.Keys - seen
  {
    if Hashable(parent) {
      assert parent.s in collections.Keys - seen;
      WalkCrashIsRefused(collections, seen + {parent.s}, Get(collections[parent.s], ParentCollection));
    }
  }

  lemma SaveCrashIsRefused(s: State, kind: Kind, key: Key, data: Fields, version: nat)
    requires SaveCrashes(s, kind, key, data)
    ensures SaveObject(s, kind, key, data, version) == None
  {
    hide ItemAccepted, ItemCrashes, EndsAtRoot, WalkCrashes, Effective, Stamped, Normalized;
    var v := Normalized(Previous(s, kind, key) + data);
    match kind
    case Item =>
      if ItemCrashes(s, v) {
        ItemCrashIsRefused(s, v);
      }
    case Collection =>
      if WalkCrashes(s.collections, {key}, Get(v, ParentCollection)) {
        WalkCrashIsRefused(s.collections, {key}, Get(v, ParentCollection));
      }
    case Search =>
  }

  lemma {:induction false} SaveAllCrashIsRefused(s: State, queue: seq<Pending>, version: nat)
    requires SaveAllCrashes(s, queue, version)
    ensures SaveAll(s, queue, version) == None
    decreases |queue|
  {
    hide SaveObject, SaveCrashes;
    if SaveCrashes(s, Item, queue[0].key, queue[0].data) {
      SaveCrashIsRefused(s, Item, queue[0].key, queue[0].data, version);
    } else {
      SaveAllCrashIsRefused(SaveObject(s, Item, queue[0].key, queue[0].data, version).value, queue[1..], version);
    }
  }

  lemma DeleteCrashIsRefused(s: State, kind: Kind, key: Key, version: nat)
    requires Iterable(s.items) && DeleteCrashes(s, kind, key)
    ensures DeleteObject(s, kind, key, version) == None
  {
  }

  /** Where every listing can be iterated, what ends in another exception is what the model refuses. */
  lemma CrashesAreRefused(s: State, op: Operation)
    requires Iterable(s.items) && Crashes(s, op)
    ensures Step(s, op) == None
  {
    hide SaveAll, SaveAllCrashes, SaveObject, SaveCrashes, DeleteObject, DeleteCrashes, ValidKey;
    if op.Flush? {
      SaveAllCrashIsRefused(s, s.pending[op.client], s.version + 1);
    } else if op.Save? {
      SaveCrashIsRefused(s, op.kind, op.key, op.data, s.version + 1);
    } else {
      DeleteCrashIsRefused(s, op.kind, op.key, s.version + 1);
    }
  }

  // ---------------------------------------------------------------- escapes

  /** `items()` of relations that are no dictionary: an AttributeError. */
  predicate SaveEscapes(s: State, kind: Kind, key: Key, data: Fields) {
    var merged := Previous(s, kind, key) + data;
    Effective(Previous(s, kind, key), data) && Relations in merged && !merged[Relations].Obj?
  }

  predicate SaveAllEscapes(s: State, queue: seq<Pending>, version: nat)
    decreases |queue|
  {
    queue != [] &&
    (SaveEscapes(s, Item, queue[0].key, queue[0].data) ||
     match SaveObject(s, Item, queue[0].key, queue[0].data, version)
     case None => false
     case Some(t) => SaveAllEscapes(t, queue[1..], version))
  }

  /** `remove` of a text or dictionary that holds the collection's key: an AttributeError. */
  predicate DeleteEscapes(s: State, kind: Kind, key: Key) {
    kind == Collection && key in s.collections
    && exists k :: k in s.items && Lists(s.items[k], key) && !s.items[k][Collections].Arr?
  }

  /** Whether the operation ends in an AttributeError, which nothing catches. */
  predicate Escapes(s: State, op: Operation) {
    op.client in s.pending && op.client in s.access && (NamesObject(op) ==> ValidKey(op.key)) &&
    s.access[op.client] &&
    ((op.Flush? && SaveAllEscapes(s, s.pending[op.client], s.version + 1)) ||
     (op.Save? && SaveEscapes(s, op.kind, op.key, op.data)) ||
     (op.Delete? && DeleteEscapes(s, op.kind, op.key)))
  }

  lemma {:induction false} SaveAllEscapesCrash(s: State, queue: seq<Pending>, version: nat)
    requires SaveAllEscapes(s, queue, version)
    ensures SaveAllCrashes(s, queue, version)
    decreases |queue|
  {
    hide SaveObject, Effective, Normalized, ItemCrashes, WalkCrashes;
    if !SaveEscapes(s, Item, queue[0].key, queue[0].data) {
      var t := SaveObject(s, Item, queue[0].key, queue[0].data, version).value;
      SaveAllEscapesCrash(t, queue[1..], version);
    }
  }

  /** An AttributeError is among the other exceptions. */
  lemma EscapesCrash(s: State, op: Operation)
    requires Escapes(s, op)
    ensures Crashes(s, op)
  {
    hide ValidKey, SaveAllEscapes, SaveAllCrashes, Effective, Normalized, ItemCrashes, WalkCrashes, DeleteEscapes,
      DeleteCrashes;
    if op.Flush? {
      SaveAllEscapesCrash(s, s.pending[op.client], s.version + 1);
    } else if op.Delete? {
      DeleteEscapesCrash(s, op.kind, op.key);
    }
  }

  lemma DeleteEscapesCrash(s: State, kind: Kind, key: Key)
    requires DeleteEscapes(s, kind, key)
    ensures DeleteCrashes(s, kind, key)
  {
    var k :| k in s.items && Lists(s.items[k], key) && !s.items[k][Collections].Arr?;
    assert UnfileCrashes(s.items[k], key);
  }

  /** In any state at all, what escapes is refused. */
  lemma EscapesAreRefused(s: State, op: Operation)
    requires Escapes(s, op)
    ensures Step(s, op) == None
  {
    hide SaveAll, SaveAllEscapes, SaveObject, SaveEscapes, SaveCrashes, DeleteObject, DeleteEscapes, ValidKey;
    if op.Flush? {
      SaveAllEscapesCrash(s, s.pending[op.client], s.version + 1);
      SaveAllCrashIsRefused(s, s.pending[op.client], s.version + 1);
    } else if op.Save? {
      SaveEscapeIsRefused(s, op.kind, op.key, op.data, s.version + 1);
    } else {
      DeleteEscapeIsRefused(s, op.kind, op.key, s.version + 1);
    }
  }

  lemma DeleteEscapeIsRefused(s: State, kind: Kind, key: Key, version: nat)
    requires DeleteEscapes(s, kind, key)
    ensures DeleteObject(s, kind, key, version) == None
  {
    hide Lists, Spliced, Unfiled;
  }

  lemma SaveEscapeIsRefused(s: State, kind: Kind, key: Key, data: Fields, version: nat)
    requires SaveEscapes(s, kind, key, data)
    ensures SaveObject(s, kind, key, data, version) == None
  {
  }

  // ----------------------------------------------------- which they are, again

  /** A payload that says something new, and leaves relations that are no dictionary. */
  ghost predicate MixesRelations(was: Fields, data: Fields) {
    Changes(was, data) && Said(was, data, Relations).Some? && !Said(was, data, Relations).value.Obj?
  }

  /** What ends in an AttributeError: relations that are no dictionary, or a key held by what is no list. */
  ghost predicate EndsInAttributeError(s: State, op: Operation) {
    && op.client in s.pending && op.client in s.access && s.access[op.client]
    && (NamesObject(op) ==> ValidKey(op.key))
    && match op
       case Save(_, Item, key, data) => MixesRelations(Before(s.items, key), data)
       case Save(_, Collection, key, data) => MixesRelations(Before(s.collections, key), data)
       case Save(_, Search, key, data) => MixesRelations(Before(s.searches, key), data)
       case Delete(_, Collection, key) =>
         key in s.collections && exists k :: k in s.items && HoldsUnremovable(Get(s.items[k], Collections), key)
       case Flush(client) => FlushMixes(s, s.pending[client], s.version + 1)
       case _ => false
  }

  /** The edits before one go through, and that one mixes relations up. */
  ghost predicate FlushMixes(s: State, queue: seq<Pending>, version: nat) {
    exists i, m :: 0 <= i < |queue| && SavesInTurn(s, queue[..i], version, m)
                   && MixesRelations(Before(m.items, queue[i].key), queue[i].data)
  }

  lemma SaveEscapesExactly(s: State, kind: Kind, key: Key, data: Fields)
    ensures SaveEscapes(s, kind, key, data) <==> MixesRelations(Before(s.Objects(kind), key), data)
  {
    hide Effective, Changes;
    ChangesExactly(Previous(s, kind, key), data);
  }

  lemma {:induction false} SaveAllEscapesAt(s: State, queue: seq<Pending>, version: nat)
    ensures SaveAllEscapes(s, queue, version) <==>
      exists i, m :: 0 <= i < |queue| && SaveAll(s, queue[..i], version) == Some(m)
                     && SaveEscapes(m, Item, queue[i].key, queue[i].data)
    decreases |queue|
  {
    hide SaveObject, SaveEscapes;
    if queue != [] {
      var head, rest := queue[0], queue[1..];
      assert SaveAll(s, queue[..0], version) == Some(s);
      forall i | 0 < i <= |queue| ensures queue[..i][0] == head && queue[..i][1..] == rest[..i - 1] {
      }
      var saved := SaveObject(s, Item, head.key, head.data, version);
      if saved.Some? {
        SaveAllEscapesAt(saved.value, rest, version);
        if j, m :| 0 <= j < |rest| && SaveAll(saved.value, rest[..j], version) == Some(m)
                   && SaveEscapes(m, Item, rest[j].key, rest[j].data)
        {
          assert SaveAll(s, queue[..j + 1], version) == Some(m) && rest[j] == queue[j + 1];
        }
      }
      if i, m :| 0 <= i < |queue| && SaveAll(s, queue[..i], version) == Some(m)
                 && SaveEscapes(m, Item, queue[i].key, queue[i].data)
      {
        if i > 0 {
          assert SaveAll(saved.value, rest[..i - 1], version) == Some(m) && rest[i - 1] == queue[i];
        }
      }
    }
  }

  lemma FlushMixesExactly(s: State, queue: seq<Pending>, version: nat)
    ensures SaveAllEscapes(s, queue, version) <==> FlushMixes(s, queue, version)
  {
    hide SaveAll, SavesInTurn, SaveEscapes, MixesRelations, SaveAllEscapes;
    SaveAllEscapesAt(s, queue, version);
    forall i, m | 0 <= i < |queue|
      ensures SaveAll(s, queue[..i], version) == Some(m) <==> SavesInTurn(s, queue[..i], version, m)
      ensures SaveEscapes(m, Item, queue[i].key, queue[i].data) <==>
              MixesRelations(Before(m.items, queue[i].key), queue[i].data)
    {
      SaveAllExactly(s, queue[..i], version, m);
      SaveEscapesExactly(m, Item, queue[i].key, queue[i].data);
    }
  }

  /** Exactly which operations end in an AttributeError. */
  lemma EscapesExactly(s: State, op: Operation)
    ensures Escapes(s, op) <==> EndsInAttributeError(s, op)
  {
    hide ValidKey, SaveAllEscapes, FlushMixes, SaveEscapes, MixesRelations, Lists, HoldsUnremovable;
    if op.Save? {
      SaveEscapesExactly(s, op.kind, op.key, op.data);
    } else if op.Delete? {
      RemovableExactly(s.items, op.key);
      ListedGet(s.items, op.key);
    } else if op.Flush? && op.client in s.pending {
      FlushMixesExactly(s, s.pending[op.client], s.version + 1);
    }
  }

  /** Ways in which a new regular item, or a new collection, ends in an exception of another kind. */
  lemma IllTypedCrash(s: State, client: Client, key: Key, data: Fields)
    requires client in s.pending && client in s.access && s.access[client] && ValidKey(key)
    requires key !in s.items && key !in s.collections && data != map[] && Relations !in data
    ensures Get(data, ParentCollection).Arr? && Get(data, ParentCollection).elems != [] ==>
      Crashes(s, Save(client, Collection, key, data))
    ensures Get(data, ItemType) == Str("book") && Get(data, ParentItem).Arr? && Get(data, ParentItem).elems != [] ==>
      Crashes(s, Save(client, Item, key, data))
    ensures Get(data, ItemType) == Str("book") && ParentItem !in data && Collections in data
            && (data[Collections].Null? || data[Collections].Bool? || data[Collections].Num?) ==>
      Crashes(s, Save(client, Item, key, data))
    ensures Get(data, ItemType) == Str("book") && ParentItem !in data && Collections in data
            && data[Collections].Arr? && |data[Collections].elems| == 1 && data[Collections].elems[0].Arr? ==>
      Crashes(s, Save(client, Item, key, data))
  {
    hide ValidKey, ItemCrashes, WalkCrashes;
    assert map[] + data == data;
    WalkStumbles(s, key, data);
    if Get(data, ItemType) == Str("book") {
      ItemStumbles(s, data);
    }
  }

  lemma WalkStumbles(s: State, key: Key, data: Fields)
    ensures Get(data, ParentCollection).Arr? && Get(data, ParentCollection).elems != [] ==>
      WalkCrashes(s.collections, {key}, Get(data, ParentCollection))
  {
  }

  lemma ItemStumbles(s: State, data: Fields)
    requires Get(data, ItemType) == Str("book")
    ensures Get(data, ParentItem).Arr? && Get(data, ParentItem).elems != [] ==> ItemCrashes(s, data)
    ensures ParentItem !in data && Collections in data
            && (data[Collections].Null? || data[Collections].Bool? || data[Collections].Num?) ==>
      ItemCrashes(s, data)
    ensures ParentItem !in data && Collections in data
            && data[Collections].Arr? && |data[Collections].elems| == 1 && data[Collections].elems[0].Arr? ==>
      ItemCrashes(s, data)
  {
    assert "book"[0] != "annotation"[0];
  }

  /** Every stored listing is a list, a text or a dictionary. */
  predicate Iterable(items: Objects) {
    forall k :: k in items && Collections in items[k] ==>
      items[k][Collections].Arr? || items[k][Collections].Str? || items[k][Collections].Obj?
  }

  lemma SavedIterable(s: State, kind: Kind, key: Key, data: Fields, version: nat, t: State)
    requires Iterable(s.items) && SaveObject(s, kind, key, data, version) == Some(t)
    ensures Iterable(t.items)
  {
    hide SaveObject, Stamped, Accepted;
    var v := Saved(s, kind, key, data, version, t);
    if kind == Item {
      AcceptedIterable(s, key, v);
      StampedKeeps(v, key, version);
    }
  }

  lemma AcceptedIterable(s: State, key: Key, v: Fields)
    requires Accepted(s, Item, key, v)
    ensures Collections in v ==> v[Collections].Arr? || v[Collections].Str? || v[Collections].Obj?
  {
  }

  lemma {:induction false} SavedAllIterable(s: State, queue: seq<Pending>, version: nat, t: State)
    requires Iterable(s.items) && SaveAll(s, queue, version) == Some(t)
    ensures Iterable(t.items)
    decreases |queue|
  {
    hide SaveObject, Iterable;
    if queue != [] {
      var next := SaveObject(s, Item, queue[0].key, queue[0].data, version).value;
      SavedIterable(s, Item, queue[0].key, queue[0].data, version, next);
      SavedAllIterable(next, queue[1..], version, t);
    }
  }

  lemma WrittenIterable(s: State, op: Operation, t: State)
    requires !op.Access? && !op.Offline? && !op.Flush?
    requires Iterable(s.items) && Write(s, op, s.version + 1) == Some(t)
    ensures Iterable(t.items)
  {
    hide SaveObject, DeleteObject, FileStamped;
    if op.Save? {
      SavedIterable(s, op.kind, op.key, op.data, s.version + 1, t);
    } else if op.Delete? {
      DeletedIterable(s, op.kind, op.key, s.version + 1, t);
    } else if op.File? {
      FileStampedKeeps(s.items[op.key], op.digest.value, op.mtime, s.version + 1);
    }
  }

  lemma DeletedIterable(s: State, kind: Kind, key: Key, version: nat, t: State)
    requires Iterable(s.items) && DeleteObject(s, kind, key, version) == Some(t)
    ensures Iterable(t.items)
  {
    hide Subtree, Queued, Lists, Spliced, RemoveFirst;
  }

  /** In every reachable state, whatever the payloads, only an AttributeError can stop an unfiling. */
  lemma {:induction false} RunIterable(s: State, ops: seq<Operation>, t: State)
    requires Iterable(s.items) && Run(s, ops) == Some(t)
    ensures Iterable(t.items)
    ensures forall key :: DeleteCrashes(t, Collection, key) <==> DeleteEscapes(t, Collection, key)
    decreases |ops|
  {
    hide Write, SaveAll, Enqueue, ValidKey;
    if ops == [] {
      hide Step, Run;
    } else {
      hide Iterable, DeleteCrashes, DeleteEscapes;
      var op, next := ops[0], Step(s, ops[0]).value;
      if op.Flush? {
        SavedAllIterable(s, s.pending[op.client], s.version + 1, SaveAll(s, s.pending[op.client], s.version + 1).value);
      } else if op.Offline? {
        QueueingStays(s, op.client, op.key, op.data, next);
      } else if !op.Access? {
        WrittenIterable(s, op, Write(s, op, s.version + 1).value);
      }
      RunIterable(next, ops[1..], t);
    }
  }

  lemma QueueingStays(s: State, client: Client, key: Key, data: Fields, t: State)
    requires client in s.pending && Enqueue(s, client, key, data) == Some(t)
    ensures t.items == s.items
  {
  }

  // --------------------------------------------------------------- validator

  /** The first operation that is not accepted is number `i`, and ends in an AttributeError. */
  predicate EscapesAt(operations: seq<Operation>, i: nat)
    requires i < |operations|
  {
    match Run(INITIAL, operations[..i])
    case None => false
    case Some(s) => Escapes(s, operations[i])
  }

  lemma NothingAfter(operations: seq<Operation>, i: nat, m: State)
    requires i < |operations| && Run(INITIAL, operations[..i]) == Some(m) && Step(m, operations[i]) == None
    ensures Run(INITIAL, operations) == None
    ensures forall j :: i < j < |operations| ==> !EscapesAt(operations, j)
  {
    hide Step, Escapes;
    forall j | i < j <= |operations| ensures Run(INITIAL, operations[..j]) == None {
      RunJoins(INITIAL, operations[..i], m, operations[i..j]);
      assert operations[..i] + operations[i..j] == operations[..j];
    }
    assert operations[..|operations|] == operations;
  }

  /**
   `valid_protocol_sequence`: true for a non-empty sequence that a fresh model accepts
   throughout, false for any other, and no answer where an AttributeError escapes.
   */
  method ValidProtocolSequence(operations: seq<Operation>) returns (valid: Option<bool>)
    ensures valid == Some(true) <==> operations != [] && Run(INITIAL, operations).Some?
    ensures valid == None <==> exists i :: 0 <= i < |operations| && EscapesAt(operations, i)
  {
    hide Step, Escapes;
    if operations == [] {
      return Some(false);
    }
    var model := new ProtocolModel();
    for i := 0 to |operations|
      invariant fresh(model)
      invariant Run(INITIAL, operations[..i]) == Some(model.Abs())
      invariant forall j :: 0 <= j < i ==> !EscapesAt(operations, j)
    {
      ghost var before := model.Abs();
      var accepted := model.Apply(operations[i]);
      if !accepted {
        NothingAfter(operations, i, before);
        if Escapes(model.Abs(), operations[i]) {
          assert EscapesAt(operations, i);
          return None;
        }
        return Some(false);
      }
      if Escapes(before, operations[i]) {
        EscapesAreRefused(before, operations[i]);
      }
      RunJoins(INITIAL, operations[..i], before, [operations[i]]);
      assert Run(model.Abs(), []) == Some(model.Abs());
      assert operations[..i] + [operations[i]] == operations[..i + 1];
    }
    assert operations[..|operations|] == operations;
    return Some(true);
  }

  // ------------------------------------------------------------------ plain

  predicate PlainListing(j: Json) {
    j.Arr? && forall i :: 0 <= i < |j.elems| ==> j.elems[i].Str?
  }

  /** Types, parents, listings and relations of the kinds the generator writes. */
  predicate Plain(v: Fields) {
    && (ItemType in v ==> v[ItemType].Str?)
    && (ParentItem in v ==> v[ParentItem].Str?)
    && (ParentCollection in v ==> v[ParentCollection].Str? || v[ParentCollection] == Bool(false))
    && (Collections in v ==> PlainListing(v[Collections]))
    && (Relations in v ==> v[Relations].Obj?)
  }

  predicate AllPlain(objects: Objects) {
    forall k :: k in objects ==> Plain(objects[k])
  }

  predicate PlainState(s: State) {
    && AllPlain(s.items) && AllPlain(s.collections) && AllPlain(s.searches)
    && forall c, i :: c in s.pending && 0 <= i < |s.pending[c]| ==> Plain(s.pending[c][i].data)
  }

  predicate PlainOperation(op: Operation) {
    op.Save? || op.Offline? ==> Plain(op.data)
  }

  lemma PlainMerged(v: Fields, data: Fields)
    requires Plain(v) && Plain(data)
    ensures Plain(v + data) && Plain(Normalized(v + data))
  {
  }

  lemma PlainItemCalm(s: State, v: Fields)
    requires AllPlain(s.items) && Plain(v)
    ensures !ItemCrashes(s, v)
  {
  }

  lemma {:induction false} PlainWalkCalm(collections: Objects, seen: set<Key>, parent: Json)
    requires AllPlain(collections) && Hashable(parent)
    ensures !WalkCrashes(collections, seen, parent)
    decreases collections.Keys - seen
  {
    if Truthy(parent) && parent.Str? && parent.s !in seen && parent.s in collections {
      assert parent.s in collections.Keys - seen;
      assert Plain(collections[parent.s]);
      PlainWalkCalm(collections, seen + {parent.s}, Get(collections[parent.s], ParentCollection));
    }
  }

  lemma PlainSaveCalm(s: State, kind: Kind, key: Key, data: Fields)
    requires PlainState(s) && Plain(data)
    ensures !SaveCrashes(s, kind, key, data)
  {
    hide ItemCrashes, WalkCrashes, Effective, Normalized;
    var previous := Previous(s, kind, key);
    assert Plain(previous);
    PlainMerged(previous, data);
    var v := Normalized(previous + data);
    PlainItemCalm(s, v);
    PlainWalkCalm(s.collections, {key}, Get(v, ParentCollection));
  }

  lemma PlainSaved(s: State, kind: Kind, key: Key, data: Fields, version: nat, t: State)
    requires PlainState(s) && Plain(data) && SaveObject(s, kind, key, data, version) == Some(t)
    ensures PlainState(t) && t.pending == s.pending
  {
    hide Accepted, Effective, Normalized, Plain;
    var previous := Previous(s, kind, key);
    assert Plain(previous) by { NothingPlain(); }
    PlainMerged(previous, data);
    PlainStamped(Normalized(previous + data), key, version);
  }

  lemma NothingPlain()
    ensures Plain(map[])
  {
  }

  lemma PlainStamped(v: Fields, key: Key, version: nat)
    requires Plain(v)
    ensures Plain(Stamped(v, key, version))
  {
  }

  lemma {:induction false} PlainQueueCalm(s: State, queue: seq<Pending>, version: nat)
    requires PlainState(s) && forall i :: 0 <= i < |queue| ==> Plain(queue[i].data)
    ensures !SaveAllCrashes(s, queue, version)
    ensures SaveAll(s, queue, version).Some? ==>
      PlainState(SaveAll(s, queue, version).value) && SaveAll(s, queue, version).value.pending == s.pending
    decreases |queue|
  {
    hide SaveObject, SaveCrashes, PlainState, Plain;
    if queue != [] {
      var p := queue[0];
      assert Plain(p.data);
      PlainSaveCalm(s, Item, p.key, p.data);
      var saved := SaveObject(s, Item, p.key, p.data, version);
      if saved.Some? {
        PlainSaved(s, Item, p.key, p.data, version, saved.value);
        forall i | 0 <= i < |queue[1..]| ensures Plain(queue[1..][i].data) {
          assert queue[1..][i] == queue[i + 1];
        }
        PlainQueueCalm(saved.value, queue[1..], version);
      }
    }
  }

  lemma PlainDeleteCalm(s: State, kind: Kind, key: Key)
    requires AllPlain(s.items)
    ensures !DeleteCrashes(s, kind, key)
  {
  }

  /** On plain payloads the model raises nothing but its own ValueError. */
  lemma PlainNeverCrashes(s: State, op: Operation)
    requires PlainState(s) && PlainOperation(op)
    ensures !Crashes(s, op)
  {
    hide SaveAllCrashes, SaveCrashes, DeleteCrashes, ValidKey, Plain, AllPlain;
    if op.Save? {
      PlainSaveCalm(s, op.kind, op.key, op.data);
    } else if op.Delete? {
      PlainDeleteCalm(s, op.kind, op.key);
    } else if op.Flush? && op.client in s.pending {
      PlainQueueCalm(s, s.pending[op.client], s.version + 1);
    }
  }

  // ------------------------------------------------------------ preservation

  lemma PlainUnfiled(v: Fields, key: Key)
    requires Plain(v)
    ensures Plain(Unfiled(v, key))
  {
    if Get(v, Collections).Arr? {
      var xs := v[Collections].elems;
      RemoveFirstCounts(xs, Str(key));
      var ys := RemoveFirst(xs, Str(key));
      forall i | 0 <= i < |ys| ensures ys[i].Str? {
        assert ys[i] in multiset(ys);
        assert ys[i] in multiset(xs);
        assert ys[i] in xs;
      }
    }
  }

  lemma PlainSpliced(collections: Objects, key: Key, version: nat)
    requires AllPlain(collections) && key in collections
    ensures AllPlain(Spliced(collections, key, version))
  {
  }

  lemma PlainDeleted(s: State, kind: Kind, key: Key, version: nat, t: State)
    requires PlainState(s) && DeleteObject(s, kind, key, version) == Some(t)
    ensures PlainState(t) && t.pending == s.pending
  {
    hide Plain, Subtree, Queued, Spliced, Unfiled, Lists;
    if kind == Collection {
      PlainSpliced(s.collections, key, version);
      forall k | k in s.items ensures Plain(t.items[k]) {
        PlainUnfiled(s.items[k], key);
      }
    }
  }

  lemma PlainFiled(s: State, key: Key, content: string, digest: Option<string>, mtime: int, version: nat, t: State)
    requires PlainState(s) && ChangeFile(s, key, content, digest, mtime, version) == Some(t)
    ensures PlainState(t) && t.pending == s.pending
  {
  }

  lemma PlainWritten(s: State, op: Operation, t: State)
    requires !op.Access? && !op.Offline? && !op.Flush? && PlainState(s) && PlainOperation(op)
    requires Write(s, op, s.version + 1) == Some(t)
    ensures PlainState(t) && t.pending == s.pending
  {
    hide PlainState, Plain, SaveObject, DeleteObject, ChangeFile, ChangeSetting, ChangeFullText;
    match op
    case Save(_, kind, key, data) => PlainSaved(s, kind, key, data, s.version + 1, t);
    case Delete(_, kind, key) => PlainDeleted(s, kind, key, s.version + 1, t);
    case File(_, key, content, digest, mtime) => PlainFiled(s, key, content, digest, mtime, s.version + 1, t);
    case Setting(_, name, value) => PlainSetting(s, name, value, s.version + 1, t);
    case FullText(_, key, content) => PlainText(s, key, content, s.version + 1, t);
  }

  lemma PlainSetting(s: State, name: string, value: Json, version: nat, t: State)
    requires PlainState(s) && ChangeSetting(s, name, value, version) == Some(t)
    ensures PlainState(t) && t.pending == s.pending
  {
    hide PlainState;
    PlainElsewhere(s, t);
  }

  lemma PlainText(s: State, key: Key, content: string, version: nat, t: State)
    requires PlainState(s) && ChangeFullText(s, key, content, version) == Some(t)
    ensures PlainState(t) && t.pending == s.pending
  {
    hide PlainState, IsAttachment;
    PlainElsewhere(s, t);
  }

  lemma PlainElsewhere(s: State, t: State)
    requires PlainState(s) && t.items == s.items && t.collections == s.collections && t.searches == s.searches
    requires forall c :: c in t.pending ==> c in s.pending && (t.pending[c] == s.pending[c] || t.pending[c] == [])
    ensures PlainState(t)
  {
  }

  lemma PlainQueued(s: State, client: Client, key: Key, data: Fields, t: State)
    requires PlainState(s) && Plain(data) && client in s.pending && Enqueue(s, client, key, data) == Some(t)
    ensures PlainState(t)
  {
  }

  /** Every accepted operation with a plain payload keeps everything stored plain. */
  lemma StepKeepsPlain(s: State, op: Operation, t: State)
    requires PlainState(s) && PlainOperation(op) && Step(s, op) == Some(t)
    ensures PlainState(t)
  {
    hide Write, SaveAll, Enqueue, PlainState, Plain, ValidKey;
    if op.Offline? {
      PlainQueued(s, op.client, op.key, op.data, t);
    } else if op.Access? {
      PlainElsewhere(s, t);
    } else if op.Flush? {
      QueuePlain(s, op.client);
      PlainQueueCalm(s, s.pending[op.client], s.version + 1);
      PlainElsewhere(SaveAll(s, s.pending[op.client], s.version + 1).value, t);
    } else {
      var w := Write(s, op, s.version + 1).value;
      PlainWritten(s, op, w);
      PlainElsewhere(w, t);
    }
  }

  lemma QueuePlain(s: State, client: Client)
    requires PlainState(s) && client in s.pending
    ensures forall i :: 0 <= i < |s.pending[client]| ==> Plain(s.pending[client][i].data)
  {
  }

  /** On a run of plain payloads no operation, accepted or refused, ends in another exception. */
  lemma {:induction false} RunNeverCrashes(s: State, ops: seq<Operation>, op: Operation, t: State)
    requires PlainState(s) && Run(s, ops) == Some(t) && PlainOperation(op)
    requires forall i :: 0 <= i < |ops| ==> PlainOperation(ops[i])
    ensures PlainState(t) && !Crashes(t, op)
    decreases |ops|
  {
    hide Step, PlainState, PlainOperation, Crashes;
    if ops == [] {
      PlainNeverCrashes(s, op);
    } else {
      StepKeepsPlain(s, ops[0], Step(s, ops[0]).value);
      RunNeverCrashes(Step(s, ops[0]).value, ops[1..], op, t);
    }
  }
}
