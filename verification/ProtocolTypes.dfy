/**
 Which types of item may hang under which. The protocol checks this only when the
 child is saved, so it lasts while parents keep their type, and a change of type
 preserves it exactly when what already hangs under the item fits the new one.
 */
module ProtocolTypes {
  import opened Common
  import opened Json
  import opened ProtocolSpec
  import opened ProtocolForest
  import opened ProtocolInvariants

  /** Whether `child` may hang under an item whose type is `parentType`. */
  predicate FitsUnder(child: Fields, parentType: Json) {
    && (Get(child, ItemType) == Str("annotation") ==> parentType == Str("attachment"))
    && (NeedsRegularParent(child) ==>
          parentType != Str("note") && parentType != Str("attachment") && parentType != Str("annotation"))
  }

  /** An annotation hangs under an attachment; a parented note or file under a regular item. */
  predicate TypedItem(items: Objects, v: Fields) {
    && (Get(v, ItemType) == Str("annotation") ==> HasParent(v))
    && (HasParent(v) && Get(v, ParentItem).Str? && Get(v, ParentItem).s in items ==>
          FitsUnder(v, Get(items[Get(v, ParentItem).s], ItemType)))
  }

  predicate TypedItems(items: Objects) {
    forall k :: k in items ==> TypedItem(items, items[k])
  }

  predicate TypedRows(s: State) {
    forall k :: k in s.files.Keys + s.fulltext.Keys ==> IsAttachment(s, k)
  }

  predicate Typed(s: State) {
    TypedItems(s.items) && TypedRows(s)
  }

  predicate KeepsType(s: State, key: Key, data: Fields) {
    key in s.items && ItemType in data ==> data[ItemType] == Get(s.items[key], ItemType)
  }

  predicate KeepsTypes(s: State, op: Operation) {
    && (op.Save? && op.kind == Item ==> KeepsType(s, op.key, op.data))
    && (op.Flush? && op.client in s.pending ==>
          forall i :: 0 <= i < |s.pending[op.client]| ==>
            KeepsType(s, s.pending[op.client][i].key, s.pending[op.client][i].data))
  }

  /** No save along the run changes the type of an item that exists. */
  predicate NoRetyping(s: State, ops: seq<Operation>)
    decreases |ops|
  {
    ops == [] ||
    (KeepsTypes(s, ops[0]) &&
     match Step(s, ops[0])
     case None => true
     case Some(t) => NoRetyping(t, ops[1..]))
  }

  /** What is stored under `key`, or names it as parent, fits an item saved as `v`. */
  predicate SaveFits(s: State, key: Key, v: Fields) {
    && (key in s.files || key in s.fulltext ==> Get(v, ItemType) == Str("attachment"))
    && (forall k :: k in s.items && k != key && Get(s.items[k], ParentItem) == Str(key) ==>
          FitsUnder(s.items[k], Get(v, ItemType)))
    && (Get(v, ParentItem) == Str(key) ==> FitsUnder(v, Get(v, ItemType)))
  }

  lemma SavedTypes(s: State, key: Key, data: Fields, version: nat, t: State)
    requires SaveObject(s, Item, key, data, version) == Some(t)
    ensures StoredFitting(s, key, t)
    ensures SameKind(t.items[key], Previous(s, Item, key) + data)
  {
    hide SaveObject, Stamped, ListsOnly;
    var v := Saved(s, Item, key, data, version, t);
    StampedKeeps(v, key, version);
  }

  predicate SameKind(v: Fields, w: Fields) {
    && Get(v, ItemType) == Get(w, ItemType) && Get(v, ParentItem) == Get(w, ParentItem)
    && Get(v, LinkMode) == Get(w, LinkMode)
  }

  lemma SameKindFits(s: State, key: Key, v: Fields, w: Fields)
    requires SameKind(v, w)
    ensures SaveFits(s, key, v) <==> SaveFits(s, key, w)
  {
  }

  /** `t` is `s` with `key` stored under a parent that accepts it. */
  predicate StoredFitting(s: State, key: Key, t: State) {
    && key in t.items && t == s.(items := s.items[key := t.items[key]])
    && var v := t.items[key];
       (HasParent(v) ==> Get(v, ParentItem).Str? && Get(v, ParentItem).s in s.items
                         && FitsUnder(v, Get(s.items[Get(v, ParentItem).s], ItemType)))
       && (Get(v, ItemType) == Str("annotation") ==> HasParent(v))
  }

  lemma FittingIsTyped(s: State, key: Key, t: State, k: Key)
    requires Linked(s.items) && TypedItems(s.items)
    requires StoredFitting(s, key, t) && SaveFits(s, key, t.items[key]) && k in t.items
    ensures TypedItem(t.items, t.items[k])
  {
  }

  lemma TypedIsFitting(s: State, key: Key, t: State, k: Key)
    requires TypedItems(t.items) && StoredFitting(s, key, t) && k in t.items && key != ""
    requires Get(t.items[k], ParentItem) == Str(key)
    ensures FitsUnder(t.items[k], Get(t.items[key], ItemType))
  {
  }

  lemma StoredKeepsTypesIffItFits(s: State, key: Key, t: State)
    requires Linked(s.items) && RowsLive(s) && Typed(s) && key != ""
    requires StoredFitting(s, key, t)
    ensures Typed(t) <==> SaveFits(s, key, t.items[key])
  {
    hide ItemSound, FitsUnder, TypedItem;
    if SaveFits(s, key, t.items[key]) {
      forall k | k in t.items ensures TypedItem(t.items, t.items[k]) {
        FittingIsTyped(s, key, t, k);
      }
      forall k | k in t.files.Keys + t.fulltext.Keys ensures IsAttachment(t, k) {
        assert k in s.files.Keys + s.fulltext.Keys;
      }
    }
    if Typed(t) {
      assert key in t.files.Keys + t.fulltext.Keys ==> IsAttachment(t, key);
      forall k | k in t.items && Get(t.items[k], ParentItem) == Str(key)
        ensures FitsUnder(t.items[k], Get(t.items[key], ItemType))
      {
        TypedIsFitting(s, key, t, k);
      }
      assert forall k :: k in s.items && k != key ==> t.items[k] == s.items[k];
    }
  }

  /** Saving an item leaves every type in place exactly when it fits what depends on it. */
  lemma SaveKeepsTypesIffItFits(s: State, key: Key, data: Fields, version: nat, t: State)
    requires Linked(s.items) && RowsLive(s) && Typed(s) && key != ""
    requires SaveObject(s, Item, key, data, version) == Some(t)
    ensures Typed(t) <==> SaveFits(s, key, Previous(s, Item, key) + data)
  {
    hide SaveObject, Typed, SaveFits;
    SavedTypes(s, key, data, version, t);
    StoredKeepsTypesIffItFits(s, key, t);
    SameKindFits(s, key, t.items[key], Previous(s, Item, key) + data);
  }

  lemma KeptTypeFits(s: State, key: Key, t: State)
    requires Linked(s.items) && RowsLive(s) && Typed(s) && key != ""
    requires StoredFitting(s, key, t)
    requires key in s.items ==> Get(t.items[key], ItemType) == Get(s.items[key], ItemType)
    ensures SaveFits(s, key, t.items[key])
  {
    hide FitsUnder;
    forall k | k in s.items && k != key && Get(s.items[k], ParentItem) == Str(key)
      ensures FitsUnder(s.items[k], Get(t.items[key], ItemType))
    {
      SoundAt(s.items, k);
      assert TypedItem(s.items, s.items[k]);
    }
    assert key in s.files.Keys + s.fulltext.Keys ==> IsAttachment(s, key);
  }

  lemma SaveTyped(s: State, key: Key, data: Fields, version: nat, t: State)
    requires Linked(s.items) && RowsLive(s) && Typed(s) && key != ""
    requires KeepsType(s, key, data)
    requires SaveObject(s, Item, key, data, version) == Some(t)
    ensures Typed(t)
    ensures forall k :: k in s.items ==>
      k in t.items && Get(t.items[k], ItemType) == Get(s.items[k], ItemType)
  {
    hide SaveObject, Typed, SaveFits, Linked;
    SavedTypes(s, key, data, version, t);
    KeptTypeFits(s, key, t);
    StoredKeepsTypesIffItFits(s, key, t);
  }

  lemma {:induction false} SaveAllTyped(s: State, queue: seq<Pending>, version: nat, t: State)
    requires Sound(s, version) && s.version < version && Typed(s)
    requires forall i :: 0 <= i < |queue| ==>
      queue[i].key in s.items && queue[i].key != ""
      && KeepsType(s, queue[i].key, queue[i].data)
    requires SaveAll(s, queue, version) == Some(t)
    ensures Typed(t)
    decreases |queue|
  {
    hide SaveObject, Typed, Sound;
    if queue != [] {
      var next := SaveObject(s, Item, queue[0].key, queue[0].data, version).value;
      assert Linked(s.items) && RowsLive(s) by { LinkedAndLive(s, version); }
      SaveTyped(s, queue[0].key, queue[0].data, version, next);
      SaveItemKeeps(s, queue[0].key, queue[0].data, version, next);
      SaveAllTyped(next, queue[1..], version, t);
    }
  }

  lemma LinkedAndLive(s: State, limit: nat)
    requires Sound(s, limit)
    ensures Linked(s.items) && RowsLive(s) && QueuesSound(s)
  {
  }

  // -------------------------------------------------------------- other steps

  lemma DeletedItemTyped(s: State, key: Key, t: State)
    requires Typed(s) && key in s.items && DeleteItem(s, key) == Some(t)
    ensures Typed(t)
  {
    hide Subtree, Queued, FitsUnder;
    forall k | k in t.items ensures TypedItem(t.items, t.items[k]) {
      assert TypedItem(s.items, s.items[k]);
    }
    forall k | k in t.files.Keys + t.fulltext.Keys ensures IsAttachment(t, k) {
      assert k in s.files.Keys + s.fulltext.Keys;
    }
  }

  /** Items changed only in fields that have nothing to do with their type or place. */
  lemma SameKindsTyped(s: State, t: State)
    requires Typed(s) && t.items.Keys == s.items.Keys
    requires forall k :: k in s.items ==> SameKind(t.items[k], s.items[k])
    requires forall k :: k in t.files.Keys + t.fulltext.Keys ==>
      k in s.files.Keys + s.fulltext.Keys || IsAttachment(s, k)
    ensures Typed(t)
  {
  }

  lemma DeletedTyped(s: State, kind: Kind, key: Key, version: nat, t: State)
    requires Typed(s) && DeleteObject(s, kind, key, version) == Some(t)
    ensures Typed(t)
  {
    hide DeleteItem, Unfiled, Lists, Spliced;
    match kind
    case Item => DeletedItemTyped(s, key, t);
    case Collection =>
      forall k | k in s.items ensures SameKind(t.items[k], s.items[k]) {
        UnfiledKeeps(s.items[k], key);
      }
      SameKindsTyped(s, t);
    case Search =>
  }

  lemma FileTyped(s: State, op: Operation, version: nat, t: State)
    requires Typed(s) && (op.File? || op.FullText?) && Write(s, op, version) == Some(t)
    ensures Typed(t)
  {
    hide FileStamped, Typed;
    if op.File? {
      FileStampedKeeps(s.items[op.key], op.digest.value, op.mtime, version);
    }
    SameKindsTyped(s, t);
  }

  lemma WriteTyped(s: State, op: Operation, t: State)
    requires Invariant(s) && Typed(s) && KeepsTypes(s, op) && NamesObject(op) && op.key != ""
    requires !op.Offline? && Write(s, op, s.version + 1) == Some(t)
    ensures Typed(t)
  {
    hide Typed, SaveObject, DeleteObject, ChangeFile, ChangeFullText;
    match op
    case Save(_, Item, key, data) =>
      LinkedAndLive(s, s.version);
      SaveTyped(s, key, data, s.version + 1, t);
    case Save(_, kind, key, data) =>
      SavedElsewhere(s, kind, key, data, s.version + 1, t);
      SameItems(s, t);
    case Delete(_, kind, key) => DeletedTyped(s, kind, key, s.version + 1, t);
    case FullText(_, _, _) => FileTyped(s, op, s.version + 1, t);
    case File(_, _, _, _, _) => FileTyped(s, op, s.version + 1, t);
  }

  lemma SavedElsewhere(s: State, kind: Kind, key: Key, data: Fields, version: nat, t: State)
    requires kind != Item && SaveObject(s, kind, key, data, version) == Some(t)
    ensures t.items == s.items && t.files == s.files && t.fulltext == s.fulltext
  {
  }

  lemma SameItems(s: State, t: State)
    requires Typed(s) && t.items == s.items && t.files == s.files && t.fulltext == s.fulltext
    ensures Typed(t)
  {
  }

  lemma FlushTyped(s: State, client: Client, t: State)
    requires Invariant(s) && Typed(s) && KeepsTypes(s, Flush(client)) && Step(s, Flush(client)) == Some(t)
    ensures Typed(t)
  {
    hide Typed, GraphSound, RowsDated, SaveAll;
    var queue := s.pending[client];
    var w := SaveAll(s, queue, s.version + 1).value;
    RaisedLimit(s, s.version, s.version + 1);
    forall i | 0 <= i < |queue|
      ensures queue[i].key in s.items && queue[i].key != ""
    {
      assert QueueSound(s.items, queue, s.version);
      assert EditSound(s.items, queue[i], s.version);
    }
    SaveAllTyped(s, queue, s.version + 1, w);
    SameItems(w, t);
  }

  lemma StepTyped(s: State, op: Operation, t: State)
    requires Invariant(s) && Typed(s) && KeepsTypes(s, op) && Step(s, op) == Some(t)
    ensures Typed(t)
  {
    hide Typed, Write, SaveAll, Invariant, Enqueue;
    match op
    case Access(_, _) => SameItems(s, t);
    case Offline(client, key, data) => EnqueuedElsewhere(s, client, key, data, t);
    case Flush(client) => FlushTyped(s, client, t);
    case Setting(_, name, value) =>
      var w := Write(s, op, s.version + 1).value;
      SettingElsewhere(s, name, value, op, w);
      SameItems(w, t);
    case _ =>
      var w := Write(s, op, s.version + 1).value;
      WriteTyped(s, op, w);
      SameItems(w, t);
  }

  lemma EnqueuedElsewhere(s: State, client: Client, key: Key, data: Fields, t: State)
    requires client in s.pending && Typed(s) && Enqueue(s, client, key, data) == Some(t)
    ensures Typed(t)
  {
  }

  lemma SettingElsewhere(s: State, name: string, value: Json, op: Operation, w: State)
    requires op.Setting? && op.name == name && op.value == value
    requires Typed(s) && Write(s, op, s.version + 1) == Some(w)
    ensures Typed(w)
  {
  }

  /**
   On a run that never changes the type of an existing item, everything hangs where
   its type belongs, and files and full text belong to attachments.
   */
  lemma {:induction false} RunTyped(s: State, ops: seq<Operation>, t: State)
    requires Invariant(s) && Typed(s)
    requires NoRetyping(s, ops) && Run(s, ops) == Some(t)
    ensures Typed(t)
    decreases |ops|
  {
    hide Invariant, Typed, Step, KeepsTypes;
    if ops != [] {
      var next := Step(s, ops[0]).value;
      StepTyped(s, ops[0], next);
      StepKeepsInvariant(s, ops[0], next);
      RunTyped(next, ops[1..], t);
    }
  }

  /**
   What a run from the empty library leaves, if no save changed the type of an existing
   item: every annotation's parent is a live attachment, every parented note or file that
   is not embedded hangs under a live regular item, and files and full text are those of
   live attachments.
   */
  lemma ReachableTypes(ops: seq<Operation>, t: State)
    requires Run(INITIAL, ops) == Some(t) && NoRetyping(INITIAL, ops)
    ensures forall k :: k in t.items && Get(t.items[k], ItemType) == Str("annotation") ==>
      var parent := Get(t.items[k], ParentItem);
      parent.Str? && parent.s in t.items && Get(t.items[parent.s], ItemType) == Str("attachment")
    ensures forall k :: k in t.items ==>
      var v, parent := t.items[k], Get(t.items[k], ParentItem);
      var embedded := Get(v, LinkMode) == Str("embedded_image");
      Truthy(parent) && (Get(v, ItemType) == Str("note") || (Get(v, ItemType) == Str("attachment") && !embedded)) ==>
        && parent.Str? && parent.s in t.items
        && Get(t.items[parent.s], ItemType) !in {Str("note"), Str("attachment"), Str("annotation")}
    ensures forall k :: k in t.files.Keys + t.fulltext.Keys ==>
      k in t.items && Get(t.items[k], ItemType) == Str("attachment")
  {
    hide Run, NoRetyping, Forest, Keyed, Dated, RowsDated, QueuesSound, ListsTexts;
    InitialInvariant();
    RunKeepsInvariant(INITIAL, ops, t);
    RunTyped(INITIAL, ops, t);
    forall k | k in t.items ensures TypedItem(t.items, t.items[k]) && Settled(t.items, t.items[k], ParentItem) {
      SoundAt(t.items, k);
    }
  }
}
