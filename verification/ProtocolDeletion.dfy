/**
 Deleting an item: the cascade removes the least set that holds the item and is
 closed under children, however the parent links run.
 */
module ProtocolDeletion {
  import opened Json
  import opened Naming
  import opened ProtocolSpec

  /** Every item hung under a member is a member. */
  predicate Closed(items: Objects, keys: set<Key>) {
    Children(items, ParentItem, keys) <= keys
  }

  lemma {:induction false} SubtreeClosed(items: Objects, doomed: set<Key>)
    ensures Closed(items, Subtree(items, doomed))
    decreases items.Keys - doomed
  {
    var children := Children(items, ParentItem, doomed) - doomed;
    if children != {} {
      var k :| k in children;
      assert k in items.Keys - doomed;
      SubtreeClosed(items, doomed + children);
    } else {
      forall k | k in Children(items, ParentItem, doomed) ensures k in doomed {
        assert k !in children;
      }
    }
  }

  lemma {:induction false} SubtreeLeast(items: Objects, doomed: set<Key>, keys: set<Key>)
    requires doomed <= keys && Closed(items, keys)
    ensures Subtree(items, doomed) <= keys
    decreases items.Keys - doomed
  {
    var children := Children(items, ParentItem, doomed) - doomed;
    if children != {} {
      var k :| k in children;
      assert k in items.Keys - doomed;
      SubtreeLeast(items, doomed + children, keys);
    }
  }

  /** The links through which the cascade looks can all be looked up. */
  predicate LinksHashable(items: Objects) {
    forall k :: k in items ==> Hashable(Get(items[k], ParentItem))
  }

  /**
   A permitted deletion of a live item takes exactly the least closed set around it,
   with its files, full text and nothing else. It is refused exactly when that set
   meets an edit either client has queued, or some item anywhere has a list or a
   dictionary for a parent, over which the cascade stumbles.
   */
  lemma ItemDeletionIsExact(s: State, client: Client, key: Key)
    requires client in s.pending && client in s.access && s.access[client]
    requires ValidKey(key) && key in s.items
    ensures exists doomed ::
      && key in doomed && doomed <= s.items.Keys && Closed(s.items, doomed)
      && (forall keys :: key in keys && Closed(s.items, keys) ==> doomed <= keys)
      && (Step(s, Delete(client, Item, key)).None? <==> Queued(s, doomed) || !LinksHashable(s.items))
      && (Step(s, Delete(client, Item, key)).Some? ==>
            Step(s, Delete(client, Item, key)).value ==
            s.(items := s.items - doomed, files := s.files - doomed,
               fulltext := s.fulltext - doomed, deletedItems := s.deletedItems + doomed,
               version := s.version + 1))
  {
    var doomed := Subtree(s.items, {key});
    SubtreeClosed(s.items, {key});
    forall keys | key in keys && Closed(s.items, keys) ensures doomed <= keys {
      SubtreeLeast(s.items, {key}, keys);
    }
  }
}
