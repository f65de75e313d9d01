/**
 The migration that takes items with a parent out of collections, and makes clients
 download the repair by giving each affected library, and the items repaired in it, one
 new version.
 */
module Migration {
  import opened Common

  type Id = int

  datatype ItemRow = ItemRow(library: Id, parent: Option<Id>, version: nat, modified: int)

  datatype Link = Link(collection: Id, item: Id)

  datatype Tables = Tables(libraries: map<Id, nat>, items: map<Id, ItemRow>, links: set<Link>)

  /** The items with a parent that some collection lists. */
  function Affected(t: Tables): set<Id> {
    set l | l in t.links && l.item in t.items && t.items[l.item].parent.Some? :: l.item
  }

  function AffectedLibraries(t: Tables): set<Id> {
    set i | i in Affected(t) && i in t.items :: t.items[i].library
  }

  /** Every item belongs to a library that exists. */
  predicate LibrariesKnown(t: Tables) {
    forall i :: i in t.items ==> t.items[i].library in t.libraries
  }

  /** No item is ahead of its library. */
  predicate VersionsInOrder(t: Tables) {
    LibrariesKnown(t) && forall i :: i in t.items ==> t.items[i].version <= t.libraries[t.items[i].library]
  }

  /** The tables with the libraries in `done` already repaired, but their links still there. */
  function Stamped(t: Tables, done: set<Id>, now: int): Tables
    requires LibrariesKnown(t)
  {
    t.(libraries := map l | l in t.libraries :: if l in done then t.libraries[l] + 1 else t.libraries[l],
       items := map i | i in t.items ::
         if i in Affected(t) && t.items[i].library in done
         then t.items[i].(version := t.libraries[t.items[i].library] + 1, modified := now)
         else t.items[i])
  }

  function Repaired(t: Tables, now: int): Tables
    requires LibrariesKnown(t)
  {
    Stamped(t, AffectedLibraries(t), now).(links := set l | l in t.links && l.item !in Affected(t))
  }

  class Database {
    var libraries: map<Id, nat>
    var items: map<Id, ItemRow>
    var links: set<Link>

    function Contents(): Tables
      reads this
    {
      Tables(libraries, items, links)
    }

    constructor (t: Tables)
      ensures Contents() == t
    {
      libraries, items, links := t.libraries, t.items, t.links;
    }

    method Upgrade(now: int)
      requires LibrariesKnown(Contents())
      modifies this
      ensures Contents() == Repaired(old(Contents()), now)
    {
      hide Affected, Stamped, LibrariesKnown, Repaired;
      ghost var was := Contents();
      var todo := AffectedLibraries(Contents());
      NothingStamped(was, now);
      while todo != {}
        invariant todo <= AffectedLibraries(was)
        invariant Contents() == Stamped(was, AffectedLibraries(was) - todo, now)
      {
        var library :| library in todo;
        ghost var done := AffectedLibraries(was) - todo;
        OneMoreStamped(was, done, library, now);
        UpgradeLibrary(library, now);
        todo := todo - {library};
        assert AffectedLibraries(was) - todo == done + {library};
      }
      assert AffectedLibraries(was) - todo == AffectedLibraries(was);
      Unlink();
      UnlinkingRepairs(was, now);
    }

    /** The two updates the source makes for one library. */
    method UpgradeLibrary(library: Id, now: int)
      requires library in libraries
      modifies this`libraries, this`items
      ensures Contents() == old(Bumped(Contents(), library, now))
    {
      hide Affected;
      ghost var was := Contents();
      libraries := libraries[library := libraries[library] + 1];
      var version := libraries[library];
      var affected := Affected(Contents());
      AffectedByRows(was, Contents());
      items := map i | i in items ::
        if items[i].library == library && i in affected
        then items[i].(version := version, modified := now) else items[i];
    }

    method Unlink()
      modifies this`links
      ensures Contents() == old(Unlinked(Contents()))
    {
      var affected := Affected(Contents());
      links := set l | l in links && l.item !in affected;
    }
  }

  /** One library a version further, and its affected items stamped with that version. */
  function Bumped(t: Tables, library: Id, now: int): Tables
    requires library in t.libraries
  {
    t.(libraries := t.libraries[library := t.libraries[library] + 1],
       items := map i | i in t.items ::
         if t.items[i].library == library && i in Affected(t)
         then t.items[i].(version := t.libraries[library] + 1, modified := now) else t.items[i])
  }

  function Unlinked(t: Tables): Tables {
    t.(links := set l | l in t.links && l.item !in Affected(t))
  }

  lemma NothingStamped(t: Tables, now: int)
    requires LibrariesKnown(t)
    ensures Stamped(t, {}, now) == t
    ensures AffectedLibraries(t) - AffectedLibraries(t) == {}
  {
  }

  lemma AffectedByRows(t: Tables, u: Tables)
    requires t.items == u.items && t.links == u.links
    ensures Affected(t) == Affected(u)
  {
  }

  /** Stamping changes neither parents nor links, so the same items stay affected. */
  lemma SameAffected(t: Tables, done: set<Id>, now: int)
    requires LibrariesKnown(t)
    ensures Affected(Stamped(t, done, now)) == Affected(t)
    ensures AffectedLibraries(Stamped(t, done, now)) == AffectedLibraries(t)
  {
  }

  lemma OneMoreStamped(t: Tables, done: set<Id>, library: Id, now: int)
    requires LibrariesKnown(t) && library !in done && library in AffectedLibraries(t)
    ensures library in Stamped(t, done, now).libraries
    ensures Bumped(Stamped(t, done, now), library, now) == Stamped(t, done + {library}, now)
  {
    SameAffected(t, done, now);
    hide Affected, AffectedLibraries;
  }

  lemma UnlinkingRepairs(t: Tables, now: int)
    requires LibrariesKnown(t)
    ensures Unlinked(Stamped(t, AffectedLibraries(t), now)) == Repaired(t, now)
  {
    SameAffected(t, AffectedLibraries(t), now);
    hide Affected, AffectedLibraries;
  }

  // --------------------------------------------------------------- theorems

  /** Afterwards no item with a parent is in any collection, and every other link is as it was. */
  lemma RepairClearsChildren(t: Tables, now: int)
    requires LibrariesKnown(t)
    ensures forall l :: l in Repaired(t, now).links && l.item in t.items ==> t.items[l.item].parent.None?
    ensures forall l :: l in t.links ==>
      (l in Repaired(t, now).links <==> !(l.item in t.items && t.items[l.item].parent.Some?))
    ensures Repaired(t, now).links <= t.links
    ensures Affected(Repaired(t, now)) == {}
  {
  }

  predicate HoldsAffected(t: Tables, library: Id) {
    exists i :: i in Affected(t) && i in t.items && t.items[i].library == library
  }

  /**
   Each affected library is one version further and no other changed; exactly the
   affected items carry that version, so a client that had read everything up to the old
   one is sent those items and nothing else.
   */
  lemma RepairIsDownloaded(t: Tables, now: int)
    requires VersionsInOrder(t)
    ensures forall l :: l in t.libraries ==>
      Repaired(t, now).libraries[l] == t.libraries[l] + (if HoldsAffected(t, l) then 1 else 0)
    ensures Repaired(t, now).items.Keys == t.items.Keys
    ensures forall i :: i in t.items ==>
      var row := Repaired(t, now).items[i];
      && (row.version > t.libraries[row.library] <==> i in Affected(t))
      && (i in Affected(t) ==> row.version == Repaired(t, now).libraries[row.library] && row.modified == now)
      && (i !in Affected(t) ==> row == t.items[i])
      && row.library == t.items[i].library && row.parent == t.items[i].parent
    ensures VersionsInOrder(Repaired(t, now))
  {
  }

  /** Running the migration again, whenever that is, changes nothing more. */
  lemma RepairIsIdempotent(t: Tables, now: int, later: int)
    requires LibrariesKnown(t)
    ensures LibrariesKnown(Repaired(t, now))
    ensures Repaired(Repaired(t, now), later) == Repaired(t, now)
  {
  }
}
