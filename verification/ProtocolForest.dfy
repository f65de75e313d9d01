/**
 The collection graph: what the ancestor walk of a save accepts, and what deleting
 a collection does to ancestry.
 */
module ProtocolForest {
  import opened Common
  import opened Json
  import opened ProtocolSpec

  /** The parent link is unset or names a live object. */
  predicate Settled(objects: Objects, v: Fields, field: Field) {
    Truthy(Get(v, field)) ==> Get(v, field).Str? && Get(v, field).s in objects
  }

  predicate AllSettled(objects: Objects, field: Field) {
    forall k :: k in objects ==> Settled(objects, objects[k], field)
  }

  /** Following parents from `key` comes to an end. */
  ghost predicate Grounded(collections: Objects, key: Key) {
    exists n: nat :: Up(collections, ParentCollection, key, n) == None
  }

  ghost predicate Forest(collections: Objects) {
    && AllSettled(collections, ParentCollection)
    && forall k :: k in collections ==> Grounded(collections, k)
  }

  /** No collection is found again above itself. */
  ghost predicate Acyclic(collections: Objects) {
    forall k, n: nat :: k in collections && n > 0 ==>
      Up(collections, ParentCollection, k, n) != Some(k)
  }

  ghost predicate Ancestor(collections: Objects, above: Key, key: Key) {
    exists n: nat :: n > 0 && Up(collections, ParentCollection, key, n) == Some(above)
  }

  // ----------------------------------------------------------------- paths

  lemma {:induction false} UpStaysNone(objects: Objects, field: Field, key: Key, m: nat, n: nat)
    requires m <= n && Up(objects, field, key, m) == None
    ensures Up(objects, field, key, n) == None
    decreases m
  {
    if Parent(objects, field, key).Some? {
      UpStaysNone(objects, field, Parent(objects, field, key).value, m - 1, n - 1);
    }
  }

  lemma {:induction false} UpAdds(objects: Objects, field: Field, key: Key, m: nat, n: nat)
    requires Up(objects, field, key, m).Some?
    ensures Up(objects, field, key, m + n)
         == Up(objects, field, Up(objects, field, key, m).value, n)
    decreases m
  {
    if m > 0 {
      UpAdds(objects, field, Parent(objects, field, key).value, m - 1, n);
    }
  }

  lemma {:induction false} NoLoop(objects: Objects, field: Field, key: Key, n: nat, m: nat)
    requires n > 0 && Up(objects, field, key, n) == Some(key)
    ensures Up(objects, field, key, m) != None
    decreases m
  {
    if Up(objects, field, key, m) == None {
      if m <= n {
        UpStaysNone(objects, field, key, m, n);
      } else {
        UpAdds(objects, field, key, n, m - n);
        NoLoop(objects, field, key, n, m - n);
      }
    }
  }

  /** Over settled links, "every chain ends" and "there is no cycle" are the same. */
  lemma ForestIffAcyclic(collections: Objects)
    requires AllSettled(collections, ParentCollection)
    ensures Forest(collections) <==> Acyclic(collections)
  {
    if Forest(collections) {
      forall k, n: nat | k in collections && n > 0
        ensures Up(collections, ParentCollection, k, n) != Some(k)
      {
        var m: nat :| Up(collections, ParentCollection, k, m) == None;
        if Up(collections, ParentCollection, k, n) == Some(k) {
          NoLoop(collections, ParentCollection, k, n, m);
        }
      }
    }
    if Acyclic(collections) {
      forall k | k in collections ensures Grounded(collections, k) {
        GroundedByExhaustion(collections, {}, k);
      }
    }
  }

  lemma {:induction false} GroundedByExhaustion(collections: Objects, below: set<Key>, key: Key)
    requires AllSettled(collections, ParentCollection) && Acyclic(collections)
    requires key in collections
    requires forall x :: x in below ==> Ancestor(collections, key, x)
    ensures Grounded(collections, key)
    decreases collections.Keys - below
  {
    match Parent(collections, ParentCollection, key)
    case None => assert Up(collections, ParentCollection, key, 1) == None;
    case Some(p) =>
      assert key in collections.Keys - below;
      forall x | x in below + {key} ensures Ancestor(collections, p, x) {
        var n: nat := 0;
        if x in below {
          n :| n > 0 && Up(collections, ParentCollection, x, n) == Some(key);
        }
        UpAdds(collections, ParentCollection, x, n, 1);
        assert Up(collections, ParentCollection, key, 1) == Some(p);
        assert Up(collections, ParentCollection, x, n + 1) == Some(p);
      }
      GroundedByExhaustion(collections, below + {key}, p);
      var n: nat :| Up(collections, ParentCollection, p, n) == None;
      assert Up(collections, ParentCollection, key, n + 1) == None;
  }

  // ------------------------------------------------------------------ saves

  /** An accepted walk never meets `key`, so it also ends after `key` was changed. */
  lemma {:induction false} WalkEnds(collections: Objects, seen: set<Key>, parent: Json,
                                    key: Key, v: Fields)
    requires key in seen && EndsAtRoot(collections, seen, parent)
    ensures Truthy(parent) ==> parent.Str? && parent.s != key && parent.s in collections
                               && Grounded(collections[key := v], parent.s)
    decreases collections.Keys - seen
  {
    if Truthy(parent) {
      var p, after := parent.s, collections[key := v];
      assert p in collections.Keys - seen;
      var next := Get(collections[p], ParentCollection);
      WalkEnds(collections, seen + {p}, next, key, v);
      if Truthy(next) {
        var n: nat :| Up(after, ParentCollection, next.s, n) == None;
        assert Up(after, ParentCollection, p, n + 1) == None;
      } else {
        assert Up(after, ParentCollection, p, 1) == None;
      }
    }
  }

  lemma {:induction false} StillGrounded(collections: Objects, key: Key, v: Fields, k: Key, n: nat)
    requires Up(collections, ParentCollection, k, n) == None
    requires Grounded(collections[key := v], key)
    ensures Grounded(collections[key := v], k)
    decreases n
  {
    var after := collections[key := v];
    if k != key {
      match Parent(collections, ParentCollection, k)
      case None => assert Up(after, ParentCollection, k, 1) == None;
      case Some(p) =>
        StillGrounded(collections, key, v, p, n - 1);
        var m: nat :| Up(after, ParentCollection, p, m) == None;
        assert Up(after, ParentCollection, k, m + 1) == None;
    }
  }

  lemma {:induction false} WalkAccepts(collections: Objects, key: Key, v: Fields, seen: set<Key>,
                                       p: Key, n: nat)
    requires key in seen && Forest(collections[key := v])
    requires p in collections[key := v] && n > 0
    requires Up(collections[key := v], ParentCollection, p, n) == None
    requires Up(collections[key := v], ParentCollection, p, n - 1) != None
    requires forall x :: x in seen ==> Up(collections[key := v], ParentCollection, x, n) != None
    ensures EndsAtRoot(collections, seen, Str(p)) || p == ""
    decreases n
  {
    var after := collections[key := v];
    assert p !in seen && p in collections;
    var next := Get(collections[p], ParentCollection);
    assert Settled(after, after[p], ParentCollection);
    if Truthy(next) {
      assert Parent(after, ParentCollection, p) == Some(next.s);
      forall x | x in seen + {p} ensures Up(after, ParentCollection, x, n - 1) != None {
        if x in seen && Up(after, ParentCollection, x, n - 1) == None {
          UpStaysNone(after, ParentCollection, x, n - 1, n);
        }
      }
      WalkAccepts(collections, key, v, seen + {p}, next.s, n - 1);
    }
  }

  /** The fewest links after which the chain from `key` has ended. */
  lemma {:induction false} Shortest(objects: Objects, key: Key, n: nat) returns (m: nat)
    requires Up(objects, ParentCollection, key, n) == None
    ensures 0 < m <= n && Up(objects, ParentCollection, key, m) == None
    ensures Up(objects, ParentCollection, key, m - 1) != None
    decreases n
  {
    if Up(objects, ParentCollection, key, n - 1) == None {
      m := Shortest(objects, key, n - 1);
    } else {
      m := n;
    }
  }

  /** A save's ancestor walk accepts a parent exactly when the graph stays a forest. */
  lemma WalkAcceptsExactlyForests(collections: Objects, key: Key, v: Fields)
    requires Forest(collections)
    ensures EndsAtRoot(collections, {key}, Get(v, ParentCollection))
       <==> Forest(collections[key := v])
  {
    var parent, after := Get(v, ParentCollection), collections[key := v];
    if EndsAtRoot(collections, {key}, parent) {
      WalkEnds(collections, {key}, parent, key, v);
      if Truthy(parent) {
        var n: nat :| Up(after, ParentCollection, parent.s, n) == None;
        assert Up(after, ParentCollection, key, n + 1) == None;
      } else {
        assert Up(after, ParentCollection, key, 1) == None;
      }
      forall k | k in after
        ensures Settled(after, after[k], ParentCollection) && Grounded(after, k)
      {
        if k != key {
          assert Settled(collections, collections[k], ParentCollection);
          var n: nat :| Up(collections, ParentCollection, k, n) == None;
          StillGrounded(collections, key, v, k, n);
        }
      }
    }
    if Forest(after) && Truthy(parent) {
      assert Settled(after, after[key], ParentCollection);
      assert Parent(after, ParentCollection, key) == Some(parent.s);
      var n: nat :| Up(after, ParentCollection, key, n) == None;
      var m := Shortest(after, key, n);
      WalkAccepts(collections, key, v, {key}, parent.s, m - 1);
    }
  }

  // ---------------------------------------------------------------- splices

  lemma SplicedParent(collections: Objects, key: Key, version: nat, k: Key)
    requires key in collections && key != "" && k in collections && k != key
    ensures Parent(Spliced(collections, key, version), ParentCollection, k)
         == if Parent(collections, ParentCollection, k) == Some(key)
            then Parent(collections, ParentCollection, key)
            else Parent(collections, ParentCollection, k)
  {
  }

  /** A chain that ends still ends after the splice. */
  lemma {:induction false} SpliceGrounded(collections: Objects, key: Key, version: nat, k: Key, n: nat)
    requires Forest(collections) && key in collections && key != "" && k != key
    requires Up(collections, ParentCollection, k, n) == None
    ensures Grounded(Spliced(collections, key, version), k)
    decreases n
  {
    var after := Spliced(collections, key, version);
    if k !in collections {
      assert Up(after, ParentCollection, k, 1) == None;
    } else {
      SplicedParent(collections, key, version, k);
      match Parent(after, ParentCollection, k)
      case None => assert Up(after, ParentCollection, k, 1) == None;
      case Some(p) =>
        NeverOwnAncestor(collections, key, 1);
        assert Up(collections, ParentCollection, key, 1) == Parent(collections, ParentCollection, key);
        var left := if Parent(collections, ParentCollection, k) == Some(key) then n - 2 else n - 1;
        SpliceGrounded(collections, key, version, p, left);
        var m: nat :| Up(after, ParentCollection, p, m) == None;
        assert Up(after, ParentCollection, k, m + 1) == None;
    }
  }

  lemma NeverOwnAncestor(collections: Objects, key: Key, n: nat)
    requires Forest(collections) && key in collections && n > 0
    ensures Up(collections, ParentCollection, key, n) != Some(key)
  {
    ForestIffAcyclic(collections);
  }

  /** A path between survivors, with `key` cut out of it. */
  lemma {:induction false} SpliceShortens(collections: Objects, key: Key, version: nat,
                                          above: Key, k: Key, n: nat)
    requires Forest(collections) && key in collections && key != ""
    requires k in collections && k != key && above != key && n > 0
    requires Up(collections, ParentCollection, k, n) == Some(above)
    ensures Ancestor(Spliced(collections, key, version), above, k)
    decreases n
  {
    var after := Spliced(collections, key, version);
    SplicedParent(collections, key, version, k);
    var first := Parent(collections, ParentCollection, k).value;
    var left := n - 1;
    if first == key {
      first, left := Parent(collections, ParentCollection, key).value, n - 2;
      assert Up(collections, ParentCollection, key, 1) == Some(first);
      NeverOwnAncestor(collections, key, 1);
    }
    assert Up(collections, ParentCollection, first, left) == Some(above);
    if left == 0 {
      assert Up(after, ParentCollection, k, 1) == Some(above);
    } else {
      SpliceShortens(collections, key, version, above, first, left);
      var m: nat :| m > 0 && Up(after, ParentCollection, first, m) == Some(above);
      assert Up(after, ParentCollection, k, m + 1) == Some(above);
    }
  }

  /** A path in the spliced graph, with `key` put back where it was. */
  lemma {:induction false} SpliceLengthens(collections: Objects, key: Key, version: nat,
                                           above: Key, k: Key, n: nat)
    requires key in collections && key != "" && k in collections && k != key && n > 0
    requires Up(Spliced(collections, key, version), ParentCollection, k, n) == Some(above)
    ensures Ancestor(collections, above, k)
    decreases n
  {
    var after := Spliced(collections, key, version);
    SplicedParent(collections, key, version, k);
    var first := Parent(after, ParentCollection, k).value;
    var steps := if Parent(collections, ParentCollection, k) == Some(key) then 2 else 1;
    assert Up(collections, ParentCollection, k, steps) == Some(first) by {
      assert Up(collections, ParentCollection, key, 1) == Parent(collections, ParentCollection, key);
      UpAdds(collections, ParentCollection, k, 1, steps - 1);
    }
    if n > 1 {
      SpliceLengthens(collections, key, version, above, first, n - 1);
      var m: nat :| m > 0 && Up(collections, ParentCollection, first, m) == Some(above);
      UpAdds(collections, ParentCollection, k, steps, m);
      assert Up(collections, ParentCollection, k, steps + m) == Some(above);
    }
  }

  /**
   Deleting a collection splices it out: the graph stays a forest, ancestry between
   any two survivors is what it was, and exactly the direct children are changed.
   */
  lemma DeletionSplices(collections: Objects, key: Key, version: nat)
    requires Forest(collections) && key in collections && key != ""
    ensures Forest(Spliced(collections, key, version))
    ensures forall above, k :: above in collections && k in collections && above != key && k != key ==>
      (Ancestor(Spliced(collections, key, version), above, k) <==> Ancestor(collections, above, k))
    ensures forall k :: k in collections && k != key ==>
      if Parent(collections, ParentCollection, k) == Some(key)
      then VersionOf(Spliced(collections, key, version)[k]) == version
           && Parent(Spliced(collections, key, version), ParentCollection, k)
              == Parent(collections, ParentCollection, key)
           && forall f :: f != ParentCollection && f != Version ==>
                Get(Spliced(collections, key, version)[k], f) == Get(collections[k], f)
      else Spliced(collections, key, version)[k] == collections[k]
  {
    var after := Spliced(collections, key, version);
    forall k | k in after
      ensures Settled(after, after[k], ParentCollection) && Grounded(after, k)
    {
      NeverOwnAncestor(collections, key, 1);
      assert Up(collections, ParentCollection, key, 1) == Parent(collections, ParentCollection, key);
      assert Settled(collections, collections[k], ParentCollection);
      assert Settled(collections, collections[key], ParentCollection);
      var n: nat :| Up(collections, ParentCollection, k, n) == None;
      SpliceGrounded(collections, key, version, k, n);
    }
    forall above, k | above in collections && k in collections && above != key && k != key
      ensures Ancestor(after, above, k) <==> Ancestor(collections, above, k)
    {
      if Ancestor(collections, above, k) {
        var n: nat :| n > 0 && Up(collections, ParentCollection, k, n) == Some(above);
        SpliceShortens(collections, key, version, above, k, n);
      }
      if Ancestor(after, above, k) {
        var n: nat :| n > 0 && Up(after, ParentCollection, k, n) == Some(above);
        SpliceLengthens(collections, key, version, above, k, n);
      }
    }
  }
}
