/**
 The seeded generator of protocol sequences. Whatever the random source answers, it
 always finds an operation that is accepted and still leaves enough steps to restore
 access and send every queued edit before the sequence ends.
 */
module ProtocolGenerate {
  import opened Common
  import opened Json
  import opened Naming
  import opened ProtocolSpec
  import opened ProtocolForest
  import opened ProtocolInvariants
  import opened ProtocolModel
  import opened ProtocolRuns
  import opened ProtocolErrors
  import Opening = ProtocolOpening

  /**
   The random source and the functions of other libraries the generator calls:
   `actor` and `genre` answer the two choices of a step, `shuffle` reorders its
   candidates, `encode` is base64 and `digest` md5.
   */
  datatype Source = Source(actor: nat -> Client, genre: nat -> string,
                           shuffle: (nat, seq<Operation>) -> seq<Operation>,
                           encode: string -> string, digest: string -> string)

  ghost predicate Fair(source: Source) {
    && (forall i :: source.actor(i) == "A" || source.actor(i) == "B")
    && (forall i :: source.genre(i) in {"book", "journalArticle", "report", "webpage"})
    && (forall i, ops :: multiset(source.shuffle(i, ops)) == multiset(ops))
  }

  function TitleOf(seed: int, index: nat): string {
    "Seed " + Signed(seed) + ": " + Decimal(index) + " \U{6771}\U{4eac}"
  }

  function GenKey(index: nat): Key {
    NumberedKey("GEN", index + 2)
  }

  function Edit(seed: int, index: nat): Fields {
    map[AbstractNote := Str(TitleOf(seed, index))]
  }

  function TagColors(title: string): Json {
    Arr([Obj(map["name" := Str(title), "color" := Str("#123456")])])
  }

  function Condition(title: string): Json {
    Arr([Obj(map["condition" := Str("title"), "operator" := Str("contains"), "value" := Str(title)])])
  }

  // ------------------------------------------------------------- candidates

  /** What one step is about to choose from. */
  datatype Turn = Turn(seed: int, index: nat, actor: Client, genre: string)

  function NewCandidates(turn: Turn): seq<Operation> {
    var key, title, actor := GenKey(turn.index), TitleOf(turn.seed, turn.index), turn.actor;
    [Save(actor, Item, key, map[ItemType := Str(turn.genre), Title := Str(title)]),
     Save(actor, Collection, key, map[Name := Str(title)]),
     Save(actor, Search, key, map[Name := Str(title), Conditions := Condition(title)]),
     Setting(actor, "tagColors", TagColors(title))]
  }

  function RegularCandidates(turn: Turn, existing: Key, value: Fields): seq<Operation> {
    var key, title, actor := GenKey(turn.index), TitleOf(turn.seed, turn.index), turn.actor;
    [Save(actor, Item, existing, map[Title := Str(title)]),
     Save(actor, Item, existing, map[Deleted := Bool(!Truthy(Get(value, Deleted)))]),
     Save(actor, Item, existing, map[Tags := Arr([Obj(map["tag" := Str(title)])])]),
     Save(actor, Item, key,
          map[ItemType := Str("note"), ParentItem := Str(existing), Note := Str("<p>" + title + "</p>")]),
     Save(actor, Item, key,
          map[ItemType := Str("attachment"), ParentItem := Str(existing), LinkMode := Str("imported_file"),
              Filename := Str("research.pdf"), ContentType := Str("application/pdf")]),
     Offline(actor, existing, Edit(turn.seed, turn.index))]
  }

  function FilingCandidate(turn: Turn, existing: Key, value: Fields, collection: Key): Operation {
    Save(turn.actor, Item, existing,
         map[Collections := Arr(if Lists(value, collection) then [] else [Str(collection)])])
  }

  function FileCandidates(turn: Turn, existing: Key, source: Source): seq<Operation> {
    var title := TitleOf(turn.seed, turn.index);
    [File(turn.actor, existing, source.encode(title), Some(source.digest(title)),
          1785701798544 + turn.index + 1),
     FullText(turn.actor, existing, title)]
  }

  function FolderCandidates(turn: Turn, existing: Key): seq<Operation> {
    [Delete(turn.actor, Collection, existing),
     Save(turn.actor, Collection, existing, map[Name := Str(TitleOf(turn.seed, turn.index))])]
  }

  predicate ItemCandidate(s: State, turn: Turn, source: Source, existing: Key, op: Operation)
    requires existing in s.items
  {
    var value := s.items[existing];
    || op == Delete(turn.actor, Item, existing)
    || (!IsChildType(value) &&
        (op in RegularCandidates(turn, existing, value) ||
         exists c :: c in s.collections && op == FilingCandidate(turn, existing, value, c)))
    || (Get(value, ItemType) == Str("attachment") && op in FileCandidates(turn, existing, source))
  }

  /** Exactly the operations a step chooses from when it is not forced to recover. */
  predicate Candidate(s: State, turn: Turn, source: Source, op: Operation) {
    || op in NewCandidates(turn)
    || (exists k :: k in s.items && ItemCandidate(s, turn, source, k, op))
    || (exists k :: k in s.collections && op in FolderCandidates(turn, k))
    || (exists k :: k in s.searches && op == Delete(turn.actor, Search, k))
    || (s.settings != map[] && op == Setting(turn.actor, "tagColors", Null))
    || (turn.actor in s.access && op == Access(turn.actor, !s.access[turn.actor]))
    || op == Flush(turn.actor)
  }

  /** Trashing and filing always change something: they go to the other state of what is there. */
  lemma TogglesChange(turn: Turn, existing: Key, value: Fields, collection: Key)
    ensures var trash := RegularCandidates(turn, existing, value)[1].data;
            exists f :: f in trash && trash[f] != Get(value, f)
    ensures var filing := FilingCandidate(turn, existing, value, collection).data;
            exists f :: f in filing && filing[f] != Get(value, f)
    ensures Lists(value, collection) <==>
            !Lists(FilingCandidate(turn, existing, value, collection).data, collection)
  {
    hide TitleOf, GenKey;
    var trash := RegularCandidates(turn, existing, value)[1].data;
    assert Deleted in trash && trash[Deleted] != Get(value, Deleted);
    var filing := FilingCandidate(turn, existing, value, collection).data;
    assert Collections in filing && filing[Collections] != Get(value, Collections);
  }

  method CandidatesForItem(s: State, turn: Turn, source: Source, existing: Key)
    returns (candidates: seq<Operation>)
    requires existing in s.items
    ensures forall op :: op in candidates <==> ItemCandidate(s, turn, source, existing, op)
  {
    hide RegularCandidates, FilingCandidate, FileCandidates;
    var value := s.items[existing];
    candidates := [Delete(turn.actor, Item, existing)];
    if !IsChildType(value) {
      candidates := candidates + RegularCandidates(turn, existing, value);
      var todo := s.collections.Keys;
      while todo != {}
        invariant todo <= s.collections.Keys
        invariant forall op :: op in candidates <==>
          || op == Delete(turn.actor, Item, existing)
          || op in RegularCandidates(turn, existing, value)
          || exists c :: c in s.collections && c !in todo
                         && op == FilingCandidate(turn, existing, value, c)
      {
        var c :| c in todo;
        candidates := candidates + [FilingCandidate(turn, existing, value, c)];
        todo := todo - {c};
      }
    } else if Get(value, ItemType) == Str("attachment") {
      candidates := candidates + FileCandidates(turn, existing, source);
    }
  }

  method Candidates(s: State, turn: Turn, source: Source) returns (candidates: seq<Operation>)
    requires turn.actor in s.access
    ensures forall op :: op in candidates <==> Candidate(s, turn, source, op)
  {
    hide ItemCandidate, NewCandidates, FolderCandidates;
    candidates := NewCandidates(turn);
    var todo := s.items.Keys;
    while todo != {}
      invariant todo <= s.items.Keys
      invariant forall op :: op in candidates <==>
        op in NewCandidates(turn) ||
        exists k :: k in s.items && k !in todo && ItemCandidate(s, turn, source, k, op)
    {
      var existing :| existing in todo;
      var more := CandidatesForItem(s, turn, source, existing);
      candidates := candidates + more;
      todo := todo - {existing};
    }
    ghost var before := candidates;
    todo := s.collections.Keys;
    while todo != {}
      invariant todo <= s.collections.Keys
      invariant forall op :: op in candidates <==>
        op in before || exists k :: k in s.collections && k !in todo && op in FolderCandidates(turn, k)
    {
      var existing :| existing in todo;
      candidates := candidates + FolderCandidates(turn, existing);
      todo := todo - {existing};
    }
    before := candidates;
    todo := s.searches.Keys;
    while todo != {}
      invariant todo <= s.searches.Keys
      invariant forall op :: op in candidates <==>
        op in before || exists k :: k in s.searches && k !in todo && op == Delete(turn.actor, Search, k)
    {
      var existing :| existing in todo;
      candidates := candidates + [Delete(turn.actor, Search, existing)];
      todo := todo - {existing};
    }
    if s.settings != map[] {
      candidates := candidates + [Setting(turn.actor, "tagColors", Null)];
    }
    candidates := candidates + [Access(turn.actor, !s.access[turn.actor]), Flush(turn.actor)];
  }

  // --------------------------------------------------------------- recovery

  predicate HasBoth(s: State) {
    s.access.Keys == {"A", "B"} && s.pending.Keys == {"A", "B"}
  }

  /** How many operations it takes to restore access and send what is queued. */
  function Cost(s: State): (cost: nat)
    requires HasBoth(s)
  {
    (if s.access["A"] then 0 else 1) + (if s.access["B"] then 0 else 1)
    + (if s.pending["A"] == [] then 0 else 1) + (if s.pending["B"] == [] then 0 else 1)
  }

  function Recovery(s: State): (recovery: seq<Operation>)
    requires HasBoth(s)
    ensures |recovery| == Cost(s)
  {
    (if s.access["A"] then [] else [Access("A", true)])
    + (if s.access["B"] then [] else [Access("B", true)])
    + (if s.pending["A"] == [] then [] else [Flush("A")])
    + (if s.pending["B"] == [] then [] else [Flush("B")])
  }

  // -------------------------------------------------------------- invariant

  /** A queued edit of the generator that a flush can still save. */
  ghost predicate EditReady(items: Objects, p: Pending, seed: int, bound: nat) {
    && p.key in items && !IsChildType(items[p.key])
    && (exists j: nat :: j < bound && p.data == Edit(seed, j))
    && Get(items[p.key], AbstractNote) != Get(p.data, AbstractNote)
  }

  ghost predicate QueuesReady(s: State, seed: int, bound: nat) {
    forall c, i :: c in s.pending && 0 <= i < |s.pending[c]| ==>
      EditReady(s.items, s.pending[c][i], seed, bound)
  }

  /** The two clients never queued the same text. */
  ghost predicate QueuesDiffer(s: State) {
    forall c, d, i, j ::
      (c in s.pending && d in s.pending && c != d
       && 0 <= i < |s.pending[c]| && 0 <= j < |s.pending[d]|) ==>
        s.pending[c][i].data != s.pending[d][j].data
  }

  /** Numbers not used yet name no item and no value of the setting. */
  ghost predicate Unused(s: State, seed: int, index: nat) {
    && (forall i: nat :: i >= index && ValidKey(GenKey(i)) ==> GenKey(i) !in s.items)
    && (forall i: nat :: i >= index && "tagColors" in s.settings ==>
          s.settings["tagColors"].value != TagColors(TitleOf(seed, i)))
  }

  ghost predicate Ready(s: State, seed: int, index: nat) {
    && Invariant(s) && ListingsSound(s) && HasBoth(s)
    && QueuesReady(s, seed, index) && QueuesDiffer(s) && Unused(s, seed, index)
  }

  lemma TitlesDiffer(seed: int, i: nat, j: nat)
    requires TitleOf(seed, i) == TitleOf(seed, j)
    ensures i == j
  {
    NumberedTextsDiffer("Seed " + Signed(seed) + ": ", i, j, " \U{6771}\U{4eac}");
  }

  lemma EditsDiffer(seed: int, i: nat, j: nat)
    requires Edit(seed, i) == Edit(seed, j)
    ensures i == j
  {
    hide TitleOf;
    assert Edit(seed, i)[AbstractNote] == Edit(seed, j)[AbstractNote];
    TitlesDiffer(seed, i, j);
  }

  lemma TagColorsDiffer(seed: int, i: nat, j: nat)
    requires TagColors(TitleOf(seed, i)) == TagColors(TitleOf(seed, j))
    ensures i == j
  {
    hide TitleOf;
    assert TagColors(TitleOf(seed, i)).elems[0].members["name"]
        == TagColors(TitleOf(seed, j)).elems[0].members["name"];
    TitlesDiffer(seed, i, j);
  }

  lemma GenKeysDiffer(i: nat, j: nat)
    requires ValidKey(GenKey(i)) && GenKey(i) == GenKey(j)
    ensures i == j
  {
    hide ValidKey, NumberedKey;
    if i + 2 > 99999 {
      NumberedKeyTooLong("GEN", i + 2);
    } else if j + 2 > 99999 {
      NumberedKeyTooLong("GEN", j + 2);
    } else {
      NumberedKeysDiffer("GEN", i + 2, j + 2);
    }
  }

  // ----------------------------------------------------------- forced flush

  lemma SavedField(s: State, kind: Kind, key: Key, data: Fields, version: nat, t: State, f: Field)
    requires SaveObject(s, kind, key, data, version) == Some(t)
    requires Opening.Usual(f)
    ensures key in t.Objects(kind)
    ensures Get(t.Objects(kind)[key], f) == Get(Previous(s, kind, key) + data, f)
  {
  }

  /** An edit of the abstract of a regular item is accepted if it changes the abstract. */
  lemma EditAccepted(s: State, key: Key, data: Fields, version: nat) returns (t: State)
    requires Linked(s.items) && Listed(s.items, s.collections) && key in s.items && !IsChildType(s.items[key])
    requires data.Keys == {AbstractNote} && Get(s.items[key], AbstractNote) != Get(data, AbstractNote)
    ensures SaveObject(s, Item, key, data, version) == Some(t)
    ensures t == s.(items := s.items[key := t.items[key]])
    ensures Linked(t.items) && Listed(t.items, t.collections)
    ensures EditedBy(s.items[key], t.items[key], data, version)
  {
    t := EditSaved(s, key, data, version);
    hide SaveObject, Linked, Listed, IsChildType, EditedBy;
    EditLinked(s, key, data, version, t);
    EditFields(s, key, data, version, t);
  }

  /** The new abstract and version, and everything else as it was, up to normalized relations. */
  ghost predicate EditedBy(v: Fields, w: Fields, data: Fields, version: nat) {
    && Get(w, AbstractNote) == Get(data, AbstractNote) && Get(w, Version) == Num(version)
    && forall f :: f != AbstractNote && f != Version && f != Relations ==>
         (f in w <==> f in v) && Get(w, f) == Get(v, f)
  }

  lemma EditLinked(s: State, key: Key, data: Fields, version: nat, t: State)
    requires Linked(s.items) && Listed(s.items, s.collections) && key in s.items && data.Keys == {AbstractNote}
    requires SaveObject(s, Item, key, data, version) == Some(t)
    ensures key in t.items && t == s.(items := s.items[key := t.items[key]])
    ensures Linked(t.items) && Listed(t.items, t.collections)
  {
    hide SaveObject, Linked, Listed, ItemSound, UniquelyListed;
    SavedItem(s, key, data, version, t);
    LinkedWith(s.items, key, t.items[key]);
    NoListing(data);
    SavedListed(s, Item, key, data, version, t);
  }

  lemma EditFields(s: State, key: Key, data: Fields, version: nat, t: State)
    requires Linked(s.items) && key in s.items && data.Keys == {AbstractNote}
    requires SaveObject(s, Item, key, data, version) == Some(t)
    ensures key in t.items && EditedBy(s.items[key], t.items[key], data, version)
  {
    hide Accepted, Effective, Stamped, Normalized, ListsTexts, Settled, EditedBy;
    SoundAt(s.items, key);
    MergedEdited(s.items[key], data, key, version);
  }

  lemma MergedEdited(v: Fields, data: Fields, key: Key, version: nat)
    requires data.Keys == {AbstractNote} && Get(v, KeyField) == Str(key)
    ensures EditedBy(v, Stamped(Normalized(v + data), key, version), data, version)
  {
    hide Stamped, Normalized;
    NormalizedKeeps(v + data);
    StampedKeeps(Normalized(v + data), key, version);
    assert AbstractNote in data;
  }

  lemma SameType(v: Fields, w: Fields)
    requires Get(v, ItemType) == Get(w, ItemType)
    ensures IsChildType(v) <==> IsChildType(w)
  {
  }

  lemma EditFits(s: State, key: Key, stored: Fields)
    requires Linked(s.items) && Listed(s.items, s.collections) && key in s.items && !IsChildType(s.items[key])
    requires forall f :: f != Relations && f != AbstractNote ==>
      (f in stored <==> f in s.items[key]) && Get(stored, f) == Get(s.items[key], f)
    ensures ItemAccepted(s, stored)
  {
  }

  lemma EditSaved(s: State, key: Key, data: Fields, version: nat) returns (t: State)
    requires Linked(s.items) && Listed(s.items, s.collections) && key in s.items && !IsChildType(s.items[key])
    requires data.Keys == {AbstractNote} && Get(s.items[key], AbstractNote) != Get(data, AbstractNote)
    ensures SaveObject(s, Item, key, data, version) == Some(t)
  {
    hide Settled, Stamped, Normalized, ItemAccepted, IsChildType, Linked, Listed, ListsTexts;
    var merged := s.items[key] + data;
    SoundAt(s.items, key);
    NormalizedKeeps(merged);
    EditFits(s, key, Normalized(merged));
    assert AbstractNote in data && Effective(s.items[key], data);
    t := s.(items := s.items[key := Stamped(Normalized(merged), key, version)]);
  }

  predicate Named(queue: seq<Pending>, key: Key) {
    exists i :: 0 <= i < |queue| && queue[i].key == key
  }

  /** What a flush of ready edits leaves: other items alone, and each edit carried out. */
  ghost predicate Flushed(s: State, queue: seq<Pending>, version: nat, t: State) {
    && t == s.(items := t.items) && t.items.Keys == s.items.Keys
    && (forall k :: k in s.items && !Named(queue, k) ==> t.items[k] == s.items[k])
    && (forall i :: 0 <= i < |queue| ==>
          queue[i].key in s.items
          && EditedBy(s.items[queue[i].key], t.items[queue[i].key], queue[i].data, version))
  }

  lemma {:induction false} ReadyEditsFlush(s: State, queue: seq<Pending>, version: nat, seed: int, bound: nat)
    returns (t: State)
    requires Linked(s.items) && Listed(s.items, s.collections)
    requires forall i :: 0 <= i < |queue| ==> EditReady(s.items, queue[i], seed, bound)
    requires forall i, j :: 0 <= i < j < |queue| ==> queue[i].key != queue[j].key
    ensures SaveAll(s, queue, version) == Some(t) && Flushed(s, queue, version, t)
    decreases |queue|
  {
    hide SaveObject, Linked, Listed, IsChildType, Get, TitleOf, EditedBy;
    if queue == [] {
      t := s;
    } else {
      var first := queue[0];
      assert EditReady(s.items, first, seed, bound);
      var next := EditAccepted(s, first.key, first.data, version);
      hide Flushed;
      forall i | 0 <= i < |queue[1..]| ensures EditReady(next.items, queue[1..][i], seed, bound) {
        assert EditReady(s.items, queue[i + 1], seed, bound);
        assert queue[0].key != queue[i + 1].key;
      }
      t := ReadyEditsFlush(next, queue[1..], version, seed, bound);
      FlushedOnward(s, queue, version, next, t);
    }
  }

  /** What one accepted edit and the flush of the rest leave together. */
  lemma FlushedOnward(s: State, queue: seq<Pending>, version: nat, next: State, t: State)
    requires queue != [] && queue[0].key in s.items && Flushed(next, queue[1..], version, t)
    requires forall i, j :: 0 <= i < j < |queue| ==> queue[i].key != queue[j].key
    requires queue[0].key in next.items && next == s.(items := s.items[queue[0].key := next.items[queue[0].key]])
    requires EditedBy(s.items[queue[0].key], next.items[queue[0].key], queue[0].data, version)
    ensures Flushed(s, queue, version, t)
  {
    hide EditedBy;
    var rest := queue[1..];
    forall i | 0 <= i < |queue|
      ensures queue[i].key in s.items
           && EditedBy(s.items[queue[i].key], t.items[queue[i].key], queue[i].data, version)
    {
      if i > 0 {
        assert rest[i - 1] == queue[i] && queue[0].key != queue[i].key;
      } else {
        assert !Named(rest, queue[0].key) by { assert forall j :: 0 <= j < |rest| ==> rest[j] == queue[j + 1]; }
      }
    }
    forall k | k in s.items && !Named(queue, k) ensures t.items[k] == s.items[k] {
      assert queue[0].key != k;
      assert !Named(rest, k) by { assert forall j :: 0 <= j < |rest| ==> rest[j] == queue[j + 1]; }
    }
  }

  /** A flush by a client that has access and something queued is always accepted. */
  lemma FlushSucceeds(s: State, seed: int, index: nat, client: Client)
    returns (w: State, t: State)
    requires Ready(s, seed, index) && client in s.pending && s.pending[client] != []
    requires client in s.access && s.access[client]
    ensures Step(s, Flush(client)) == Some(t)
    ensures Flushed(s, s.pending[client], s.version + 1, w)
    ensures t == w.(version := s.version + 1, pending := s.pending[client := []])
  {
    hide SaveAll, Flushed, EditReady, GraphSound, RowsDated, EditSound, Listed, QueuesListOnce;
    assert QueueSound(s.items, s.pending[client], s.version);
    assert Linked(s.items) by { LinkedNow(s); }
    w := ReadyEditsFlush(s, s.pending[client], s.version + 1, seed, index);
    t := w.(version := s.version + 1, pending := s.pending[client := []]);
    assert w == s.(items := w.items) by { FlushedApart(s, s.pending[client], w); }
  }

  lemma FlushedApart(s: State, queue: seq<Pending>, w: State)
    requires Flushed(s, queue, s.version + 1, w)
    ensures w == s.(items := w.items)
  {
  }

  lemma LinkedNow(s: State)
    requires Invariant(s)
    ensures Linked(s.items)
  {
  }

  // ----------------------------------------------------------------- steps

  predicate NewItemData(data: Fields) {
    ItemType in data && data[ItemType].Str? && UniquelyListed(data)
  }

  predicate EditItemData(data: Fields) {
    data.Keys <= {Title, Deleted, Tags, Collections} && UniquelyListed(data)
  }

  /** What the proof needs to know of an operation the generator tries at `index`. */
  predicate Tried(s: State, seed: int, index: nat, op: Operation) {
    match op
    case Save(_, Item, key, data) =>
      (key == GenKey(index) && NewItemData(data)) || (key in s.items && EditItemData(data))
    case Offline(_, key, data) => key in s.items && !IsChildType(s.items[key]) && data == Edit(seed, index)
    case Setting(_, _, value) => value == Null || value == TagColors(TitleOf(seed, index))
    case _ => true
  }

  lemma CandidateTried(s: State, turn: Turn, source: Source, op: Operation)
    requires Candidate(s, turn, source, op)
    ensures Tried(s, turn.seed, turn.index, op) && ListsOnce(op)
    ensures op.client == turn.actor
  {
    hide TitleOf, GenKey, TagColors, Condition, Edit, IsChildType, Truthy;
    if k :| k in s.items && ItemCandidate(s, turn, source, k, op) {
      ItemCandidateTried(s, turn, source, k, op);
    } else {
      assert turn.actor == op.client;
    }
  }

  lemma ItemCandidateTried(s: State, turn: Turn, source: Source, k: Key, op: Operation)
    requires k in s.items && ItemCandidate(s, turn, source, k, op)
    ensures Tried(s, turn.seed, turn.index, op) && ListsOnce(op)
    ensures op.client == turn.actor
  {
    hide TitleOf, GenKey, Lists, RegularCandidates, IsChildType, NewItemData;
    if op in RegularCandidates(turn, k, s.items[k]) && !IsChildType(s.items[k]) {
      RegularTried(s, turn, k, op);
    }
  }

  lemma RegularTried(s: State, turn: Turn, k: Key, op: Operation)
    requires k in s.items && !IsChildType(s.items[k]) && op in RegularCandidates(turn, k, s.items[k])
    ensures Tried(s, turn.seed, turn.index, op) && ListsOnce(op)
    ensures op.client == turn.actor
  {
    hide TitleOf, GenKey, Truthy, Get, IsChildType, Distinct;
    var all := RegularCandidates(turn, k, s.items[k]);
    var i :| 0 <= i < 6 && op == all[i];
    if i < 3 {
      assert EditItemData(op.data) by { assert Collections !in op.data; NoListing(op.data); }
    } else if i < 5 {
      assert NewItemData(op.data) by { assert Collections !in op.data; NoListing(op.data); }
    } else {
      assert Collections !in op.data;
      NoListing(op.data);
    }
  }

  lemma NoListing(data: Fields)
    requires Collections !in data
    ensures UniquelyListed(data)
  {
  }

  /** Types and abstracts of the items a step keeps are what they were; a new one is new. */
  ghost predicate Quiet(s: State, t: State, index: nat) {
    && t.pending == s.pending && t.access.Keys == s.access.Keys
    && (forall k :: k in t.items && k in s.items ==>
          && (IsChildType(t.items[k]) <==> IsChildType(s.items[k]))
          && Get(t.items[k], AbstractNote) == Get(s.items[k], AbstractNote))
    && (forall k :: k in t.items && k !in s.items ==> k == GenKey(index) && ValidKey(k))
  }

  ghost predicate SettingQuiet(s: State, t: State, seed: int, index: nat) {
    "tagColors" in t.settings ==>
      || ("tagColors" in s.settings && t.settings["tagColors"] == s.settings["tagColors"])
      || t.settings["tagColors"].value == TagColors(TitleOf(seed, index))
  }

  lemma UnusedNext(s: State, t: State, seed: int, index: nat)
    requires Unused(s, seed, index) && SettingQuiet(s, t, seed, index)
    requires forall k :: k in t.items && k !in s.items ==> k == GenKey(index) && ValidKey(k)
    ensures Unused(t, seed, index + 1)
  {
    hide GenKey, TagColors, TitleOf, ValidKey;
    forall i: nat | i >= index + 1 && ValidKey(GenKey(i)) ensures GenKey(i) !in t.items {
      if GenKey(i) == GenKey(index) {
        GenKeysDiffer(i, index);
      }
    }
    forall i: nat | i >= index + 1 && "tagColors" in t.settings
      ensures t.settings["tagColors"].value != TagColors(TitleOf(seed, i))
    {
      if TagColors(TitleOf(seed, i)) == TagColors(TitleOf(seed, index)) {
        TagColorsDiffer(seed, i, index);
      }
    }
  }

  lemma QuietKeepsReady(s: State, t: State, seed: int, index: nat)
    requires Ready(s, seed, index) && Invariant(t) && ListingsSound(t) && Quiet(s, t, index)
    requires SettingQuiet(s, t, seed, index)
    ensures Ready(t, seed, index + 1)
  {
    hide Invariant, ListingsSound, IsChildType, SettingQuiet, Unused, Edit, ValidKey, GenKey;
    UnusedNext(s, t, seed, index);
    forall c, i | c in t.pending && 0 <= i < |t.pending[c]|
      ensures EditReady(t.items, t.pending[c][i], seed, index + 1)
    {
      assert EditReady(s.items, s.pending[c][i], seed, index);
      assert QueuesSound(t) by { assert Invariant(t); QueuesNow(t); }
      QueuedLive(t, c, i);
    }
  }

  lemma QueuesNow(s: State)
    requires Invariant(s)
    ensures QueuesSound(s)
  {
  }

  lemma OneItemQuiet(s: State, index: nat, key: Key, t: State)
    requires key in t.items && t.items == s.items[key := t.items[key]]
    requires t.pending == s.pending && t.access == s.access
    requires key !in s.items ==> key == GenKey(index) && ValidKey(key)
    requires key in s.items ==>
      Get(t.items[key], ItemType) == Get(s.items[key], ItemType)
      && Get(t.items[key], AbstractNote) == Get(s.items[key], AbstractNote)
    ensures Quiet(s, t, index)
  {
  }

  lemma SaveItemQuiet(s: State, index: nat, key: Key, data: Fields, t: State)
    requires if key in s.items then EditItemData(data) else key == GenKey(index) && ValidKey(key)
    requires SaveObject(s, Item, key, data, s.version + 1) == Some(t)
    ensures Quiet(s, t.(version := s.version + 1), index) && t.settings == s.settings
  {
    hide SaveObject, Accepted, Stamped, GenKey, ValidKey, UniquelyListed, Quiet;
    var v := Saved(s, Item, key, data, s.version + 1, t);
    if key in s.items {
      EditKeepsType(s, key, data, t);
    }
    OneItemQuiet(s, index, key, t.(version := s.version + 1));
  }

  lemma EditKeepsType(s: State, key: Key, data: Fields, t: State)
    requires key in s.items && EditItemData(data) && SaveObject(s, Item, key, data, s.version + 1) == Some(t)
    ensures key in t.items
    ensures Get(t.items[key], ItemType) == Get(s.items[key], ItemType)
    ensures Get(t.items[key], AbstractNote) == Get(s.items[key], AbstractNote)
  {
    hide SaveObject, UniquelyListed;
    SavedField(s, Item, key, data, s.version + 1, t, ItemType);
    SavedField(s, Item, key, data, s.version + 1, t, AbstractNote);
    assert ItemType !in data && AbstractNote !in data;
  }

  lemma SaveOtherQuiet(s: State, kind: Kind, key: Key, data: Fields, t: State, index: nat)
    requires kind != Item && SaveObject(s, kind, key, data, s.version + 1) == Some(t)
    ensures Quiet(s, t.(version := s.version + 1), index) && t.settings == s.settings
  {
  }

  lemma UnusedNow(s: State, seed: int, index: nat)
    requires Unused(s, seed, index)
    ensures ValidKey(GenKey(index)) ==> GenKey(index) !in s.items
  {
  }

  lemma DeleteQuiet(s: State, kind: Kind, key: Key, t: State, index: nat)
    requires DeleteObject(s, kind, key, s.version + 1) == Some(t)
    ensures Quiet(s, t.(version := s.version + 1), index) && t.settings == s.settings
  {
    hide Unfiled, Lists, Spliced, Subtree, Queued, GenKey, IsChildType;
    if kind == Collection {
      forall k | k in s.items
        ensures IsChildType(t.items[k]) <==> IsChildType(s.items[k])
        ensures Get(t.items[k], AbstractNote) == Get(s.items[k], AbstractNote)
      {
        UnfiledKeeps(s.items[k], key);
        SameType(t.items[k], s.items[k]);
      }
    }
  }

  lemma FileQuiet(s: State, key: Key, content: string, digest: Option<string>, mtime: int, t: State, index: nat)
    requires ChangeFile(s, key, content, digest, mtime, s.version + 1) == Some(t)
    ensures Quiet(s, t.(version := s.version + 1), index) && t.settings == s.settings
  {
    hide FileStamped, GenKey, IsChildType;
    FileStampedKeeps(s.items[key], digest.value, mtime, s.version + 1);
    SameType(t.items[key], s.items[key]);
  }

  lemma SettingIsQuiet(s: State, name: string, value: Json, t: State, seed: int, index: nat)
    requires ChangeSetting(s, name, value, s.version + 1) == Some(t)
    requires value == Null || value == TagColors(TitleOf(seed, index))
    ensures Quiet(s, t.(version := s.version + 1), index) && SettingQuiet(s, t, seed, index)
  {
  }

  lemma SaveQuiet(s: State, seed: int, index: nat, op: Operation, t: State)
    requires op.Save? && ValidKey(op.key) && Tried(s, seed, index, op) && Unused(s, seed, index)
    requires SaveObject(s, op.kind, op.key, op.data, s.version + 1) == Some(t)
    ensures Quiet(s, t.(version := s.version + 1), index) && t.settings == s.settings
  {
    hide Quiet, Unused, SaveObject, GenKey, ValidKey, EditItemData, NewItemData;
    if op.kind == Item {
      UnusedNow(s, seed, index);
      SaveItemQuiet(s, index, op.key, op.data, t);
    } else {
      SaveOtherQuiet(s, op.kind, op.key, op.data, t, index);
    }
  }

  lemma WriteQuiet(s: State, seed: int, index: nat, op: Operation, t: State)
    requires !op.Access? && !op.Offline? && !op.Flush? && (NamesObject(op) ==> ValidKey(op.key))
    requires Tried(s, seed, index, op) && Unused(s, seed, index)
    requires Write(s, op, s.version + 1) == Some(t)
    ensures Quiet(s, t.(version := s.version + 1), index)
    ensures SettingQuiet(s, t.(version := s.version + 1), seed, index)
  {
    hide Quiet, Unused, SaveObject, DeleteObject, ChangeFile, ChangeSetting, GenKey, ValidKey, TagColors,
      IsChildType, EditItemData, NewItemData, Edit, TitleOf;
    match op
    case Save(_, _, _, _) => SaveQuiet(s, seed, index, op, t);
    case Delete(_, kind, key) => DeleteQuiet(s, kind, key, t, index);
    case File(_, key, content, digest, mtime) => FileQuiet(s, key, content, digest, mtime, t, index);
    case Setting(_, name, value) => SettingIsQuiet(s, name, value, t, seed, index);
    case FullText(_, key, content) =>
      assert t == s.(fulltext := t.fulltext);
      NothingQuiet(s, t.(version := s.version + 1), index);
  }

  lemma NothingQuiet(s: State, t: State, index: nat)
    requires t.items == s.items && t.pending == s.pending && t.access.Keys == s.access.Keys
    ensures Quiet(s, t, index)
  {
  }

  /** Queueing an edit of a text that was never used before. */
  lemma OfflineKeepsReady(s: State, seed: int, index: nat, client: Client, key: Key, t: State)
    requires Ready(s, seed, index) && client in s.pending && Invariant(t) && ListingsSound(t)
    requires key in s.items && !IsChildType(s.items[key])
    requires Enqueue(s, client, key, Edit(seed, index)) == Some(t)
    ensures Ready(t, seed, index + 1)
  {
    hide Invariant, ListingsSound, IsChildType, Unused, TitleOf;
    var data := Edit(seed, index);
    assert AbstractNote in data;
    forall c, i | c in t.pending && 0 <= i < |t.pending[c]|
      ensures EditReady(t.items, t.pending[c][i], seed, index + 1)
      ensures t.pending[c][i].data == data || EditReady(s.items, t.pending[c][i], seed, index)
    {
      if c != client || i < |s.pending[c]| {
        assert EditReady(s.items, s.pending[c][i], seed, index);
      }
    }
    forall c, i | c in s.pending && 0 <= i < |s.pending[c]| ensures s.pending[c][i].data != data {
      assert EditReady(s.items, s.pending[c][i], seed, index);
      var j: nat :| j < index && s.pending[c][i].data == Edit(seed, j);
      if Edit(seed, j) == Edit(seed, index) {
        EditsDiffer(seed, j, index);
      }
    }
    assert QueuesDiffer(t);
    assert Unused(t, seed, index + 1) by { UnusedLater(s, t, seed, index); }
  }

  lemma UnusedLater(s: State, t: State, seed: int, index: nat)
    requires Unused(s, seed, index) && t.items.Keys == s.items.Keys && t.settings == s.settings
    ensures Unused(t, seed, index + 1)
  {
  }

  lemma FlushKeepsReady(s: State, seed: int, index: nat, client: Client, w: State, t: State)
    requires Ready(s, seed, index) && client in s.pending && Invariant(t) && ListingsSound(t)
    requires Flushed(s, s.pending[client], s.version + 1, w)
    requires t == w.(version := s.version + 1, pending := s.pending[client := []])
    ensures Ready(t, seed, index + 1)
  {
    hide Invariant, ListingsSound, Unused;
    forall c, i | c in t.pending && 0 <= i < |t.pending[c]|
      ensures EditReady(t.items, t.pending[c][i], seed, index + 1)
    {
      FlushedStaysReady(s, seed, index, client, w, c, i);
    }
    UnusedLater(s, t, seed, index);
  }

  /** What the other client queued can still be sent, whether or not its item was edited. */
  lemma FlushedStaysReady(s: State, seed: int, index: nat, client: Client, w: State, c: Client, i: nat)
    requires QueuesReady(s, seed, index) && QueuesDiffer(s) && client in s.pending
    requires Flushed(s, s.pending[client], s.version + 1, w)
    requires c in s.pending && c != client && i < |s.pending[c]|
    ensures EditReady(w.items, s.pending[c][i], seed, index + 1)
  {
    hide IsChildType, Edit, Get;
    var p, queue := s.pending[c][i], s.pending[client];
    assert EditReady(s.items, p, seed, index);
    if Named(queue, p.key) {
      var j :| 0 <= j < |queue| && queue[j].key == p.key;
      assert EditedBy(s.items[p.key], w.items[p.key], queue[j].data, s.version + 1);
      assert EditReady(s.items, queue[j], seed, index);
      SameEdit(seed, index, p, queue[j]);
      SameType(w.items[p.key], s.items[p.key]);
    }
  }

  lemma SameEdit(seed: int, index: nat, p: Pending, q: Pending)
    requires exists j: nat :: j < index && p.data == Edit(seed, j)
    requires exists j: nat :: j < index && q.data == Edit(seed, j)
    ensures Get(p.data, AbstractNote) == Get(q.data, AbstractNote) <==> p.data == q.data
  {
  }

  lemma AccessKeepsReady(s: State, seed: int, index: nat, op: Operation, t: State)
    requires Ready(s, seed, index) && op.Access? && Step(s, op) == Some(t) && Invariant(t) && ListingsSound(t)
    ensures Ready(t, seed, index + 1)
  {
  }

  lemma WriteKeepsReady(s: State, seed: int, index: nat, op: Operation, t: State)
    requires Ready(s, seed, index) && Tried(s, seed, index, op) && Invariant(t) && ListingsSound(t)
    requires !op.Access? && !op.Offline? && !op.Flush? && Step(s, op) == Some(t)
    ensures Ready(t, seed, index + 1)
  {
    hide Invariant, ListingsSound, Step, Write, Tried, Quiet, SettingQuiet, QueuesReady, QueuesDiffer, Unused, ValidKey;
    var w := StepWrites(s, op, t);
    WriteQuiet(s, seed, index, op, w);
    QuietKeepsReady(s, t, seed, index);
  }

  /** Every accepted operation the generator may pick keeps it ready for the next number. */
  lemma StepKeepsReady(s: State, seed: int, index: nat, op: Operation, t: State)
    requires Ready(s, seed, index) && Tried(s, seed, index, op) && ListsOnce(op)
    requires Step(s, op) == Some(t)
    ensures Ready(t, seed, index + 1)
  {
    hide Invariant, ListingsSound, Step, Write, SaveAll, Enqueue, QueuesReady, QueuesDiffer, Unused, ListsOnce,
      ValidKey, HasBoth, IsChildType, TitleOf, TagColors, Edit, GenKey, Flushed;
    StepKeepsInvariant(s, op, t);
    StepKeepsListings(s, op, t);
    if op.Access? {
      AccessKeepsReady(s, seed, index, op, t);
    } else if op.Offline? {
      StepQueues(s, op, t);
      OfflineKeepsReady(s, seed, index, op.client, op.key, t);
    } else if op.Flush? {
      FlushStepKeepsReady(s, seed, index, op.client, t);
    } else {
      WriteKeepsReady(s, seed, index, op, t);
    }
  }

  lemma FlushStepKeepsReady(s: State, seed: int, index: nat, client: Client, t: State)
    requires Ready(s, seed, index) && Step(s, Flush(client)) == Some(t) && Invariant(t) && ListingsSound(t)
    ensures Ready(t, seed, index + 1)
  {
    hide Ready, Invariant, ListingsSound, SaveAll, Flushed;
    var w, u := FlushSucceeds(s, seed, index, client);
    FlushKeepsReady(s, seed, index, client, w, t);
  }

  // ---------------------------------------------------------------- progress

  lemma AccessAccepted(s: State, client: Client, allowed: bool)
    requires HasBoth(s) && client in s.access && s.access[client] != allowed
    ensures Step(s, Access(client, allowed)) == Some(s.(access := s.access[client := allowed]))
  {
  }

  lemma FreshSettingAccepted(s: State, seed: int, index: nat, actor: Client)
    requires HasBoth(s) && Unused(s, seed, index) && actor in s.access && s.access[actor]
    ensures var op := Setting(actor, "tagColors", TagColors(TitleOf(seed, index)));
            Step(s, op).Some? && Step(s, op).value.access == s.access && Step(s, op).value.pending == s.pending
  {
  }

  /** An operation the generator can take with `remaining` steps to go. */
  predicate Takes(s: State, op: Operation, remaining: nat) {
    match Step(s, op)
    case None => false
    case Some(t) => HasBoth(t) && Cost(t) < remaining
  }

  /** With steps to spare, the acting client can always restore its access or set new colours. */
  lemma SpareStep(s: State, turn: Turn, source: Source, remaining: nat) returns (op: Operation)
    requires Ready(s, turn.seed, turn.index) && turn.actor in s.access && Cost(s) < remaining
    ensures Candidate(s, turn, source, op) && Takes(s, op, remaining)
  {
    hide Invariant, ListingsSound, Step, QueuesReady, QueuesDiffer, Unused, TitleOf, GenKey, TagColors, ItemCandidate;
    if s.access[turn.actor] {
      FreshSettingAccepted(s, turn.seed, turn.index, turn.actor);
      op := NewCandidates(turn)[3];
    } else {
      AccessAccepted(s, turn.actor, true);
      op := Access(turn.actor, true);
    }
  }

  /** With none to spare, the first thing to recover is accepted and leaves one less. */
  lemma ForcedStep(s: State, seed: int, index: nat, remaining: nat) returns (op: Operation)
    requires Ready(s, seed, index) && 0 < Cost(s) <= remaining
    ensures op in Recovery(s) && Takes(s, op, remaining)
    ensures Cost(Step(s, op).value) == Cost(s) - 1
  {
    hide Invariant, ListingsSound, Step, QueuesReady, QueuesDiffer, Unused, Flushed;
    op := Recovery(s)[0];
    if op.Access? {
      AccessAccepted(s, op.client, true);
    } else {
      var w, t := FlushSucceeds(s, seed, index, op.client);
      FlushedApart(s, s.pending[op.client], w);
    }
  }

  lemma CandidatePlain(s: State, turn: Turn, source: Source, op: Operation)
    requires Candidate(s, turn, source, op)
    ensures PlainOperation(op)
  {
    hide TitleOf, GenKey, TagColors, Condition, ItemCandidate;
    if k :| k in s.items && ItemCandidate(s, turn, source, k, op) {
      ItemCandidatePlain(s, turn, source, k, op);
    }
  }

  lemma ItemCandidatePlain(s: State, turn: Turn, source: Source, k: Key, op: Operation)
    requires k in s.items && ItemCandidate(s, turn, source, k, op)
    ensures PlainOperation(op)
  {
    hide TitleOf, GenKey, Lists, RegularCandidates, IsChildType;
    if op in RegularCandidates(turn, k, s.items[k]) {
      RegularPlain(turn, k, s.items[k], op);
    }
  }

  lemma RegularPlain(turn: Turn, existing: Key, value: Fields, op: Operation)
    requires op in RegularCandidates(turn, existing, value)
    ensures PlainOperation(op)
  {
    hide Plain;
    var i :| 0 <= i < 6 && op == RegularCandidates(turn, existing, value)[i];
    if i < 3 || i == 5 {
      EditPlain(turn, existing, value, i);
    } else {
      ChildPlain(turn, existing, value, i);
    }
  }

  lemma EditPlain(turn: Turn, existing: Key, value: Fields, i: nat)
    requires i < 3 || i == 5
    ensures Plain(RegularCandidates(turn, existing, value)[i].data)
  {
    hide TitleOf, GenKey, Truthy, Get;
  }

  lemma ChildPlain(turn: Turn, existing: Key, value: Fields, i: nat)
    requires 3 <= i < 5
    ensures Plain(RegularCandidates(turn, existing, value)[i].data)
  {
    hide TitleOf, GenKey, Truthy, Get;
  }

  lemma RecoveryTried(s: State, turn: Turn, op: Operation)
    requires HasBoth(s) && op in Recovery(s)
    ensures Tried(s, turn.seed, turn.index, op) && ListsOnce(op) && PlainOperation(op)
  {
  }

  // -------------------------------------------------------------- generator

  lemma RunAppends(s: State, ops: seq<Operation>, op: Operation, m: State, t: State)
    requires Run(s, ops) == Some(m) && Step(m, op) == Some(t)
    ensures Run(s, ops + [op]) == Some(t)
  {
    hide Step;
    RunJoins(s, ops, m, [op]);
    assert Run(t, []) == Some(t);
  }

  /** The fixed opening, with the file it uploads encoded and hashed by the source's functions. */
  function Beginning(source: Source): (ops: seq<Operation>)
    ensures |ops| == 32
  {
    var text := "%PDF-1.4\ninitial\n";
    Opening.Prologue(Opening.NAMES, source.encode(text), source.digest(text))
  }

  lemma BeginningReady(source: Source, seed: int) returns (s: State)
    ensures Run(INITIAL, Beginning(source)) == Some(s) && Ready(s, seed, 0) && Cost(s) == 0
  {
    hide Invariant, ListingsSound, Run, ListsOnce, PlainOperation, GenKey, TagColors, TitleOf, Opening.Prologue,
      Opening.NAMES, Opening.Colored;
    var text := "%PDF-1.4\ninitial\n";
    Opening.NamesApart();
    s := Opening.PrologueRuns(Opening.NAMES, source.encode(text), source.digest(text));
    Opening.PrologueProper(Opening.NAMES, source.encode(text), source.digest(text));
    InitialInvariant();
    RunKeepsInvariant(INITIAL, Beginning(source), s);
    InitialListings();
    RunKeepsListings(INITIAL, Beginning(source), s);
    forall i: nat ensures GenKey(i) !in s.items {
      GeneratedKey(i);
    }
    forall i: nat ensures Opening.Colored("recreated", "#ff6666") != TagColors(TitleOf(seed, i)) {
      ColorsDiffer(TitleOf(seed, i));
    }
  }

  lemma BeginningPlain(source: Source, s: State)
    requires Run(INITIAL, Beginning(source)) == Some(s)
    ensures PlainState(s)
  {
    hide Run, ListsOnce, PlainOperation, PlainState, Crashes, Opening.Prologue, Opening.NAMES;
    var text := "%PDF-1.4\ninitial\n";
    Opening.PrologueProper(Opening.NAMES, source.encode(text), source.digest(text));
    var flush := Flush("A");
    assert PlainOperation(flush) && PlainState(INITIAL) by { InitialPlain(flush); }
    RunNeverCrashes(INITIAL, Beginning(source), flush, s);
  }

  lemma InitialPlain(op: Operation)
    requires op.Flush?
    ensures PlainOperation(op) && PlainState(INITIAL)
  {
  }

  lemma GeneratedKey(i: nat)
    ensures GenKey(i) != "" && GenKey(i)[0] == 'G'
  {
  }

  lemma ColorsDiffer(title: string)
    ensures Opening.Colored("recreated", "#ff6666") != TagColors(title)
  {
    var ours, theirs := Opening.Colored("recreated", "#ff6666").elems[0], TagColors(title).elems[0];
    assert ours.members["color"] == Str("#ff6666") && theirs.members["color"] == Str("#123456");
    assert "#ff6666"[1] != "#123456"[1];
  }

  /** Operations the model is known to accept, applied one by one to a new model. */
  method ApplyAll(ops: seq<Operation>) returns (model: ProtocolModel)
    requires Run(INITIAL, ops).Some?
    ensures Run(INITIAL, ops) == Some(model.Abs())
  {
    hide Step;
    model := new ProtocolModel();
    for i := 0 to |ops|
      invariant fresh(model) && Run(INITIAL, ops[..i]) == Some(model.Abs())
    {
      ghost var m := model.Abs();
      RunJoins(INITIAL, ops[..i], m, ops[i..]);
      assert ops[..i] + ops[i..] == ops;
      var accepted := model.Apply(ops[i]);
      RunAppends(INITIAL, ops[..i], ops[i], m, model.Abs());
      assert ops[..i] + [ops[i]] == ops[..i + 1];
    }
    assert ops[..|ops|] == ops;
  }

  /** The first of the operations that are accepted from `s` and leave enough of the `remaining` steps. */
  ghost predicate FirstToTake(s: State, tried: seq<Operation>, remaining: nat, op: Operation) {
    exists i :: 0 <= i < |tried| && tried[i] == op && Takes(s, op, remaining)
                && forall j :: 0 <= j < i ==> !Takes(s, tried[j], remaining)
  }

  /**
   The operation the random source leads to: the first to take in the order it shuffles the
   candidates of the step to, or of the recovery once there are no more steps than that needs.
   */
  ghost predicate Chosen(s: State, turn: Turn, source: Source, remaining: nat, op: Operation)
    requires HasBoth(s)
  {
    if remaining <= Cost(s) then FirstToTake(s, Recovery(s), remaining, op)
    else exists candidates ::
      && (forall c :: c in candidates <==> Candidate(s, turn, source, c))
      && FirstToTake(s, source.shuffle(turn.index, candidates), remaining, op)
  }

  function TurnAt(seed: int, index: nat, source: Source): Turn {
    Turn(seed, index, source.actor(index), source.genre(index))
  }

  /** Operation `i`, of `steps` in all, is chosen in the state that the ones before it lead to. */
  ghost predicate ChosenAt(ops: seq<Operation>, seed: int, steps: nat, source: Source, i: nat)
    requires 32 <= i < |ops| && i < steps
  {
    var before := Run(INITIAL, ops[..i]);
    before.Some? && HasBoth(before.value)
    && Chosen(before.value, TurnAt(seed, i - 32, source), source, steps - i, ops[i])
  }

  ghost predicate AllChosen(ops: seq<Operation>, seed: int, steps: nat, source: Source)
    requires |ops| <= steps
  {
    forall i :: 32 <= i < |ops| ==> ChosenAt(ops, seed, steps, source, i)
  }

  lemma ChosenLonger(ops: seq<Operation>, op: Operation, seed: int, steps: nat, source: Source, s: State)
    requires 32 <= |ops| < steps && AllChosen(ops, seed, steps, source)
    requires Run(INITIAL, ops) == Some(s) && HasBoth(s)
    requires Chosen(s, TurnAt(seed, |ops| - 32, source), source, steps - |ops|, op)
    ensures AllChosen(ops + [op], seed, steps, source)
  {
    hide Chosen, Run;
    var longer := ops + [op];
    forall i | 32 <= i < |longer| ensures ChosenAt(longer, seed, steps, source, i) {
      assert longer[..i] == ops[..i];
      assert ops[..|ops|] == ops;
      if i < |ops| {
        assert ChosenAt(ops, seed, steps, source, i);
      }
    }
  }

  /** The recovery is access for those without it and a flush for those with edits. */
  lemma RecoveryExactly(s: State, op: Operation)
    requires HasBoth(s)
    ensures op in Recovery(s) <==>
      && op.client in {"A", "B"}
      && ((op == Access(op.client, true) && !s.access[op.client])
          || (op == Flush(op.client) && s.pending[op.client] != []))
  {
  }

  /** Access comes before a flush, and A before B. */
  lemma RecoveryOrdered(s: State, i: nat, j: nat)
    requires HasBoth(s) && i < j < |Recovery(s)|
    ensures var a, b := Recovery(s)[i], Recovery(s)[j];
            (a.Access? && b.Flush?) || (a.Access? == b.Access? && a.client == "A" && b.client == "B")
  {
  }

  /**
   For every answer of the random source the generator returns exactly `steps`
   operations, each accepted by the model and the one the source leads to from there, and
   ends with both clients' access restored and nothing queued. Running out of operations
   is the `assert false`.
   */
  method GenerateProtocolSequence(seed: int, steps: nat, source: Source)
    returns (operations: Option<seq<Operation>>)
    requires Fair(source)
    ensures operations.None? <==> steps < 32
    ensures operations.Some? ==>
      && |operations.value| == steps && Beginning(source) <= operations.value
      && Run(INITIAL, operations.value).Some?
      && Run(INITIAL, operations.value).value.access == map["A" := true, "B" := true]
      && Run(INITIAL, operations.value).value.pending == map["A" := [], "B" := []]
      && AllChosen(operations.value, seed, steps, source)
  {
    hide Step, Run, Unused, QueuesReady, QueuesDiffer, Invariant, ListingsSound, Candidate, Tried, TitleOf, Takes,
      ListsOnce, Beginning, Recovery, PlainState, Chosen;
    if steps < 32 {
      return None;
    }
    ghost var start := BeginningReady(source, seed);
    BeginningPlain(source, start);
    var ops := Beginning(source);
    var model := ApplyAll(ops);
    for index := 0 to steps - 32
      invariant |ops| == 32 + index && Beginning(source) <= ops
      invariant Run(INITIAL, ops) == Some(model.Abs())
      invariant Ready(model.Abs(), seed, index) && Cost(model.Abs()) <= steps - |ops|
      invariant PlainState(model.Abs()) && AllChosen(ops, seed, steps, source)
    {
      var turn := Turn(seed, index, source.actor(index), source.genre(index));
      var remaining := steps - |ops|;
      ghost var before, shorter := model.Abs(), ops;
      model, ops := OneStep(model, turn, source, ops, remaining);
      ChosenLonger(shorter, ops[|shorter|], seed, steps, source, before);
      assert ops == shorter + [ops[|shorter|]];
    }
    return Some(ops);
  }

  lemma ShuffleKeeps(source: Source, index: nat, ops: seq<Operation>)
    requires Fair(source)
    ensures forall op :: op in source.shuffle(index, ops) <==> op in ops
  {
    assert forall op :: op in source.shuffle(index, ops) <==> op in multiset(source.shuffle(index, ops));
  }

  /** One step: try the candidates in the shuffled order and take the first that will do. */
  method OneStep(before: ProtocolModel, turn: Turn, source: Source, ops: seq<Operation>, remaining: nat)
    returns (model: ProtocolModel, longer: seq<Operation>)
    requires Fair(source) && turn.actor in {"A", "B"}
    requires Run(INITIAL, ops) == Some(before.Abs())
    requires Ready(before.Abs(), turn.seed, turn.index) && 0 < remaining && Cost(before.Abs()) <= remaining
    requires PlainState(before.Abs())
    ensures |longer| == |ops| + 1 && longer[..|ops|] == ops
    ensures Run(INITIAL, longer) == Some(model.Abs())
    ensures Chosen(before.Abs(), turn, source, remaining, longer[|ops|])
    ensures Ready(model.Abs(), turn.seed, turn.index + 1) && Cost(model.Abs()) < remaining
    ensures PlainState(model.Abs())
  {
    hide Step, Run, Unused, QueuesReady, QueuesDiffer, Invariant, ListingsSound, Candidate, Tried, ListsOnce,
      Takes, PlainState, PlainOperation;
    ghost var s := before.Abs();
    var candidates := Candidates(before.Abs(), turn, source);
    ghost var listed := candidates;
    ShuffleKeeps(source, turn.index, candidates);
    candidates := source.shuffle(turn.index, candidates);
    var recovery := Recovery(before.Abs());
    ghost var way;
    if remaining <= |recovery| {
      candidates := recovery;
      way := ForcedStep(s, turn.seed, turn.index, remaining);
    } else {
      way := SpareStep(s, turn, source, remaining);
    }
    forall i | 0 <= i < |candidates|
      ensures Tried(s, turn.seed, turn.index, candidates[i]) && ListsOnce(candidates[i])
      ensures PlainOperation(candidates[i])
    {
      assert candidates[i] in candidates;
      if remaining <= |recovery| {
        RecoveryTried(s, turn, candidates[i]);
      } else {
        CandidateTried(s, turn, source, candidates[i]);
        CandidatePlain(s, turn, source, candidates[i]);
      }
    }
    var op;
    model, op := TakeFirst(before, turn, candidates, remaining, way);
    RunAppends(INITIAL, ops, op, s, model.Abs());
    longer := ops + [op];
    assert FirstToTake(s, candidates, remaining, op);
    assert remaining > |recovery| ==> candidates == source.shuffle(turn.index, listed);
  }

  lemma TakesMeans(s: State, op: Operation, remaining: nat)
    ensures Takes(s, op, remaining) <==>
      Step(s, op).Some? && HasBoth(Step(s, op).value) && Cost(Step(s, op).value) < remaining
  {
  }

  /**
   The first candidate that is accepted and leaves enough steps; there is one, `way`.
   No candidate ends in an exception that is not caught.
   */
  method TakeFirst(before: ProtocolModel, ghost turn: Turn, candidates: seq<Operation>, remaining: nat,
                   ghost way: Operation)
    returns (model: ProtocolModel, op: Operation)
    requires Ready(before.Abs(), turn.seed, turn.index) && PlainState(before.Abs())
    requires forall i :: 0 <= i < |candidates| ==>
      && Tried(before.Abs(), turn.seed, turn.index, candidates[i])
      && ListsOnce(candidates[i]) && PlainOperation(candidates[i])
    requires way in candidates && Takes(before.Abs(), way, remaining)
    ensures Step(before.Abs(), op) == Some(model.Abs())
    ensures FirstToTake(before.Abs(), candidates, remaining, op)
    ensures forall i :: 0 <= i < |candidates| ==> !Crashes(before.Abs(), candidates[i])
    ensures Ready(model.Abs(), turn.seed, turn.index + 1) && Cost(model.Abs()) < remaining
    ensures PlainState(model.Abs())
  {
    hide Step, Takes, Tried, ListsOnce, Invariant, ListingsSound, QueuesReady, QueuesDiffer, Unused, PlainState,
      PlainOperation, Crashes;
    forall i | 0 <= i < |candidates| ensures !Crashes(before.Abs(), candidates[i]) {
      PlainNeverCrashes(before.Abs(), candidates[i]);
    }
    for i := 0 to |candidates|
      invariant forall j :: 0 <= j < i ==> !Takes(before.Abs(), candidates[j], remaining)
    {
      var trial := new ProtocolModel.Copy(before);
      var accepted := trial.Apply(candidates[i]);
      TakesMeans(before.Abs(), candidates[i], remaining);
      if accepted {
        StepKeepsReady(before.Abs(), turn.seed, turn.index, candidates[i], trial.Abs());
        StepKeepsPlain(before.Abs(), candidates[i], trial.Abs());
        if Cost(trial.Abs()) <= remaining - 1 {
          return trial, candidates[i];
        }
      }
    }
    assert false;
  }
}
