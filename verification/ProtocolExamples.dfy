/**
 Runs on which a property fails once its hypothesis is dropped: listing a collection
 twice, changing a parent's type, using a deleted collection key again, an empty list in
 place of a parent, and one in place of relations.
 */
module ProtocolExamples {
  import opened Common
  import opened Json
  import opened Naming
  import opened ProtocolSpec
  import opened ProtocolInvariants
  import opened ProtocolRuns
  import opened ProtocolErrors
  import opened ProtocolSync
  import opened ProtocolTypes

  lemma TwoKeys() returns (first: Key, second: Key)
    ensures ValidKey(first) && ValidKey(second) && first != second && first != "" && second != ""
  {
    first, second := "AAAAAAAA", "BBBBBBBB";
    assert KEY_ALPHABET[8] == 'A' && KEY_ALPHABET[9] == 'B';
    assert first[0] != second[0];
  }

  function Gone(s: State, key: Key): State
    requires key in s.collections
  {
    s.(version := s.version + 1,
       items := map k | k in s.items :: Unfiled(s.items[k], key),
       collections := Spliced(s.collections, key, s.version + 1),
       deletedCollections := s.deletedCollections + {key})
  }

  lemma DropFolder(s: State, key: Key)
    requires May(s, "A") && ValidKey(key) && key in s.collections
    requires forall k :: k in s.items ==> Get(s.items[k], Collections).Arr?
    ensures Step(s, Delete("A", Collection, key)) == Some(Gone(s, key))
  {
  }

  function Folder(): Fields {
    map[Name := Str("folder")]
  }

  function Filed(listing: seq<Json>): Fields {
    map[ItemType := Str("book"), Collections := Arr(listing)]
  }

  function WithFolder(key: Key): State {
    Stored(INITIAL, Collection, key, Folder())
  }

  function WithItem(folder: Key, item: Key, listing: seq<Json>): State {
    Stored(WithFolder(folder), Item, item, Filed(listing))
  }

  /** A folder with one item filed in it, as often as `listing` says. */
  lemma FiledItem(folder: Key, item: Key, listing: seq<Json>)
    requires ValidKey(folder) && ValidKey(item)
    requires forall i :: 0 <= i < |listing| ==> listing[i] == Str(folder)
    ensures Step(INITIAL, Save("A", Collection, folder, Folder())) == Some(WithFolder(folder))
    ensures Step(WithFolder(folder), Save("A", Item, item, Filed(listing)))
         == Some(WithItem(folder, item, listing))
  {
    hide Step, Stamped, ValidKey;
    assert Name in Folder() && ItemType in Filed(listing) && !HasParent(Filed(listing));
    assert EndsAtRoot(map[], {folder}, Get(Folder(), ParentCollection));
    SaveNew(INITIAL, Collection, folder, Folder());
    SaveNew(WithFolder(folder), Item, item, Filed(listing));
  }

  /** The state `FiledItem` ends in, and what deleting the folder makes of it. */
  lemma FiledState(folder: Key, item: Key, listing: seq<Json>)
    requires ValidKey(folder)
    ensures var m := WithItem(folder, item, listing);
            && May(m, "A") && m.version == 2 && folder in m.collections && m.items.Keys == {item}
            && Get(m.items[item], Collections) == Arr(listing) && VersionOf(m.items[item]) == 2
            && Step(m, Delete("A", Collection, folder)) == Some(Gone(m, folder))
  {
  }

  lemma GoneState(s: State, folder: Key, item: Key)
    requires folder in s.collections && item in s.items
    ensures var t := Gone(s, folder);
            && t.items.Keys == s.items.Keys && t.items[item] == Unfiled(s.items[item], folder)
            && t.collections.Keys == s.collections.Keys - {folder}
            && (May(s, "A") ==> May(t, "A"))
  {
  }

  /** An item that lists a collection twice still lists it once the collection is gone. */
  lemma ListedTwiceDangles() returns (ops: seq<Operation>, t: State, item: Key)
    ensures Run(INITIAL, ops) == Some(t)
    ensures item in t.items && !ListsOnly(t.items[item], t.collections)
  {
    hide Step, ValidKey, May, WithFolder, WithItem, Gone;
    var folder, first := TwoKeys();
    item := first;
    var listing := [Str(folder), Str(folder)];
    var m := WithItem(folder, item, listing);
    FiledItem(folder, item, listing);
    FiledState(folder, item, listing);
    GoneState(m, folder, item);
    t := Gone(m, folder);
    ops := [Save("A", Collection, folder, Folder()), Save("A", Item, item, Filed(listing)),
            Delete("A", Collection, folder)];
    RunThree(INITIAL, ops, WithFolder(folder), m, t);
    assert RemoveFirst(listing, Str(folder)) == [Str(folder)];
    assert Get(t.items[item], Collections).elems[0] == Str(folder);
  }

  lemma FoldersListOnce(folder: Key, item: Key)
    ensures ListsOnce(Save("A", Collection, folder, Folder()))
    ensures ListsOnce(Save("A", Item, item, Filed([Str(folder)])))
    ensures ListsOnce(Delete("A", Collection, folder))
  {
  }

  lemma FolderAgain(s: State, folder: Key) returns (t: State)
    requires May(s, "A") && ValidKey(folder) && folder !in s.collections
    ensures Step(s, Save("A", Collection, folder, Folder())) == Some(t)
    ensures t.items == s.items && folder in t.collections
  {
    hide Step, Stamped, ValidKey;
    assert Name in Folder();
    assert EndsAtRoot(s.collections, {folder}, Get(Folder(), ParentCollection));
    SaveNew(s, Collection, folder, Folder());
    t := Stored(s, Collection, folder, Folder());
  }

  /**
   A collection key used again: the client still files its own copy of the item in
   the new collection, and the server does not.
   */
  lemma ReusedKeyMisleads() returns (s: State, ops: seq<Operation>, t: State)
    ensures Invariant(s) && ListingsSound(s) && Run(s, ops) == Some(t)
    ensures forall i :: 0 <= i < |ops| ==> ListsOnce(ops[i])
    ensures Replica(s, t).0 != t.items
  {
    hide Step, Run, Invariant, ListsOnce, ListingsSound, ValidKey, WithFolder, WithItem, Gone, Replica, Unfiled;
    var folder, item := TwoKeys();
    FoldersListOnce(folder, item);
    s := FiledOnce(folder, item);
    FiledState(folder, item, [Str(folder)]);
    GoneState(s, folder, item);
    t := FolderAgain(Gone(s, folder), folder);
    ops := [Delete("A", Collection, folder), Save("A", Collection, folder, Folder())];
    RunTwo(s, ops, Gone(s, folder), t);
    MembershipLost(s, t, folder, item);
  }

  lemma FiledOnce(folder: Key, item: Key) returns (s: State)
    requires ValidKey(folder) && ValidKey(item)
    ensures s == WithItem(folder, item, [Str(folder)]) && Invariant(s) && ListingsSound(s)
  {
    hide Step, Run, Invariant, ListsOnce, ListingsSound, ValidKey, WithFolder, WithItem;
    var listing := [Str(folder)];
    FiledItem(folder, item, listing);
    s := WithItem(folder, item, listing);
    var made := [Save("A", Collection, folder, Folder()), Save("A", Item, item, Filed(listing))];
    RunTwo(INITIAL, made, WithFolder(folder), s);
    FoldersListOnce(folder, item);
    InitialInvariant();
    RunKeepsInvariant(INITIAL, made, s);
    InitialListings();
    RunKeepsListings(INITIAL, made, s);
  }

  lemma MembershipLost(s: State, t: State, folder: Key, item: Key)
    requires item in s.items && Get(s.items[item], Collections) == Arr([Str(folder)])
    requires item in t.items && t.items[item] == Unfiled(s.items[item], folder)
    requires VersionOf(s.items[item]) <= s.version && folder in t.collections
    ensures Replica(s, t).0 != t.items
  {
    UnfiledKeeps(s.items[item], folder);
    assert Within([Str(folder)], t.collections.Keys) == [Str(folder)];
    assert RemoveFirst([Str(folder)], Str(folder)) == [];
    assert Get(t.items[item], Collections) == Arr([]);
    assert Get(Replica(s, t).0[item], Collections) == Arr([Str(folder)]);
  }

  function OfType(itemType: string): Fields {
    map[ItemType := Str(itemType)]
  }

  function Mark(parent: Key): Fields {
    map[ItemType := Str("annotation"), ParentItem := Str(parent)]
  }

  /** A file with an annotation hung under it. */
  lemma MarkedFile(file: Key, mark: Key) returns (s: State, m: State)
    requires ValidKey(file) && ValidKey(mark) && file != mark && file != ""
    ensures Step(INITIAL, Save("A", Item, file, OfType("attachment"))) == Some(s)
    ensures Step(s, Save("A", Item, mark, Mark(file))) == Some(m)
    ensures May(m, "A") && file in m.items && mark in m.items
    ensures Get(m.items[file], ItemType) == Str("attachment")
    ensures Relations !in m.items[file] && Collections !in m.items[file] && !HasParent(m.items[file])
    ensures Get(m.items[mark], ItemType) == Str("annotation") && Get(m.items[mark], ParentItem) == Str(file)
  {
    hide Step, Stamped, ValidKey;
    assert ItemType in OfType("attachment") && ItemType in Mark(file);
    s := SaveNewItem(INITIAL, file, OfType("attachment"));
    StampedKeeps(OfType("attachment"), file, 1);
    m := SaveNewItem(s, mark, Mark(file));
    StampedKeeps(Mark(file), mark, 2);
  }

  /** Changing the type of an item that is in no collection and has no parent is accepted. */
  lemma Retype(m: State, key: Key, itemType: string) returns (t: State)
    requires May(m, "A") && ValidKey(key) && key in m.items
    requires Get(m.items[key], ItemType) != Str(itemType) && itemType != "annotation"
    requires Relations !in m.items[key] && Collections !in m.items[key] && !HasParent(m.items[key])
    ensures Step(m, Save("A", Item, key, OfType(itemType))) == Some(t)
    ensures t.items == m.items[key := t.items[key]] && Get(t.items[key], ItemType) == Str(itemType)
  {
    hide Stamped, ValidKey, Step, ItemAccepted, Effective, OfType, May, HasParent;
    RetypedAccepted(m, m.items[key], itemType);
    t := SaveMergedItem(m, key, OfType(itemType));
    StampedKeeps(m.items[key] + OfType(itemType), key, m.version + 1);
  }

  lemma RetypedAccepted(s: State, v: Fields, itemType: string)
    requires itemType != "annotation" && Relations !in v && Collections !in v && !HasParent(v)
    requires Get(v, ItemType) != Str(itemType)
    ensures var merged := v + OfType(itemType);
            ItemAccepted(s, merged) && Relations !in merged && Get(merged, ItemType) == Str(itemType)
    ensures Effective(v, OfType(itemType))
  {
    assert ItemType in OfType(itemType);
  }

  /** Once its parent is made a book, an annotation no longer hangs under an attachment. */
  lemma RetypedParentStrands() returns (ops: seq<Operation>, t: State)
    ensures Run(INITIAL, ops) == Some(t)
    ensures forall i :: 0 <= i < |ops| ==> ListsOnce(ops[i])
    ensures !Typed(t)
  {
    hide Step, ValidKey, May;
    var file, mark := TwoKeys();
    var s, m := MarkedFile(file, mark);
    t := Retype(m, file, "book");
    ops := [Save("A", Item, file, OfType("attachment")), Save("A", Item, mark, Mark(file)),
            Save("A", Item, file, OfType("book"))];
    RunThree(INITIAL, ops, s, m, t);
    assert !TypedItem(t.items, t.items[mark]);
  }

  function WithoutParent(): Fields {
    map[ItemType := Str("book"), ParentItem := Arr([])]
  }

  /** An empty list counts as no parent when an item is saved, and then no item can be deleted. */
  lemma EmptyListBlocksDeletion() returns (ops: seq<Operation>, t: State, item: Key)
    ensures Run(INITIAL, ops) == Some(t) && item in t.items && t.pending == INITIAL.pending
    ensures forall key :: key in t.items ==> Step(t, Delete("A", Item, key)).None?
  {
    hide Step, ValidKey, Get, WithoutParent;
    var other;
    item, other := TwoKeys();
    t := EmptyListSaved(INITIAL, item);
    ops := [Save("A", Item, item, WithoutParent())];
    RunOf(INITIAL, ops, [INITIAL, t]);
    forall key | key in t.items ensures Step(t, Delete("A", Item, key)).None? {
      BlockedBy(t, key, item);
    }
  }

  lemma WithoutParentAccepted(s: State)
    ensures ItemAccepted(s, WithoutParent()) && Relations !in WithoutParent() && WithoutParent() != map[]
    ensures Get(WithoutParent(), ParentItem) == Arr([])
  {
  }

  lemma EmptyListSaved(s: State, item: Key) returns (t: State)
    requires ValidKey(item) && May(s, "A") && item !in s.items
    ensures Step(s, Save("A", Item, item, WithoutParent())) == Some(t)
    ensures item in t.items && Get(t.items[item], ParentItem) == Arr([]) && t.pending == s.pending
  {
    hide Step, ValidKey, Stamped, WithoutParent, ItemAccepted;
    WithoutParentAccepted(s);
    t := SaveNewItem(s, item, WithoutParent());
    StampedKeeps(WithoutParent(), item, s.version + 1);
  }

  lemma BlockedBy(s: State, key: Key, item: Key)
    requires item in s.items && !Hashable(Get(s.items[item], ParentItem))
    ensures key in s.items ==> Step(s, Delete("A", Item, key)).None?
  {
  }

  function WithListedRelations(): Fields {
    map[ItemType := Str("book"), Relations := Arr([])]
  }

  /** Relations given as a list: the validator meets an exception it does not catch. */
  lemma ListRelationsEscape() returns (ops: seq<Operation>)
    ensures |ops| == 1 && EscapesAt(ops, 0)
  {
    hide ValidKey;
    var key, other := TwoKeys();
    assert ItemType in WithListedRelations() && Relations in WithListedRelations();
    assert map[] + WithListedRelations() == WithListedRelations();
    ops := [Save("A", Item, key, WithListedRelations())];
    assert ops[..0] == [];
    assert Run(INITIAL, ops[..0]) == Some(INITIAL);
  }
}
