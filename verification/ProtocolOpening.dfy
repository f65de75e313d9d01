/**
 The 32 operations every generated protocol sequence opens with: the model accepts
 each of them, and they leave both clients with access and nothing queued.
 */
module ProtocolOpening {
  import opened Common
  import opened Json
  import opened Naming
  import opened ProtocolSpec
  import opened ProtocolDeletion
  import opened ProtocolInvariants
  import opened ProtocolRuns
  import opened ProtocolErrors

  /** The keys the opening uses. */
  datatype Names = Names(root: Key, branch: Key, paper: Key, other: Key, child: Key,
                         pdf: Key, mark: Key, search: Key)

  const NAMES := Names("BASE2345", "BRANCH23", "PARENT23", "NTHER234", "CHILD234",
                       "ATTACH23", "ANN23456", "SEARCH23")

  /** Valid, told apart within each kind, and none of them a generated key. */
  predicate Apart(n: Names) {
    && Usable(n.root) && Usable(n.branch) && Usable(n.paper) && Usable(n.other)
    && Usable(n.child) && Usable(n.pdf) && Usable(n.mark) && Usable(n.search)
    && n.root != n.branch
    && n.paper !in {n.other, n.child, n.pdf, n.mark} && n.other !in {n.child, n.pdf, n.mark}
    && n.child !in {n.pdf, n.mark} && n.pdf != n.mark
  }

  predicate Usable(key: Key) {
    ValidKey(key) && key != "" && key[0] != 'G'
  }

  // ------------------------------------------------------------- payloads

  function Retitled(text: string): Fields {
    map[Title := Str(text)]
  }

  function Book(text: string): Fields {
    map[ItemType := Str("book"), Title := Str(text)]
  }

  function Root(): Fields {
    map[Name := Str("Root")]
  }

  function Branch(n: Names): Fields {
    map[Name := Str("Branch"), ParentCollection := Str(n.root)]
  }

  function Paper(n: Names): Fields {
    map[ItemType := Str("book"), Title := Str("\U{DC}ber \U{6771}\U{4eac}"), Collections := Arr([Str(n.branch)])]
  }

  function Child(n: Names): Fields {
    map[ItemType := Str("note"), ParentItem := Str(n.paper), Note := Str("<p>\U{7814}\U{7a76}</p>")]
  }

  function Pdf(n: Names): Fields {
    map[ItemType := Str("attachment"), ParentItem := Str(n.paper), LinkMode := Str("imported_file"),
        Filename := Str("research.pdf"), ContentType := Str("application/pdf")]
  }

  function Highlight(n: Names): Fields {
    map[ItemType := Str("annotation"), ParentItem := Str(n.pdf),
        Other("annotationType") := Str("highlight"), Other("annotationText") := Str("\U{6771}\U{4eac}"),
        Other("annotationComment") := Str("\U{DC}ber"), Other("annotationColor") := Str("#ffd400"),
        Other("annotationPageLabel") := Str("1"),
        Other("annotationSortIndex") := Str("00000|000001|00000"),
        Other("annotationPosition") := Str("{\"pageIndex\":0,\"rects\":[[1,2,3,4]]}")]
  }

  function Where(name: string, condition: string, operator: string, value: string): Fields {
    map[Name := Str(name),
        Conditions := Arr([Obj(map["condition" := Str(condition), "operator" := Str(operator),
                                   "value" := Str(value)])])]
  }

  function Query(): Fields {
    Where("Research", "title", "contains", "\U{DC}ber")
  }

  function Colored(name: string, color: string): Json {
    Arr([Obj(map["name" := Str(name), "color" := Str(color)])])
  }

  function Tagged(): Fields {
    map[Tags := Arr([Obj(map["tag" := Str("\U{7814}\U{7a76}")])]),
        Relations := Obj(map["dc:relation" := Arr([Str("https://example.org/related")])])]
  }

  function Cleared(): Fields {
    map[Tags := Arr([]), Relations := Obj(map[]), Collections := Arr([])]
  }

  // ------------------------------------------------------------ operations

  function Folders(n: Names): seq<Operation> {
    [Save("A", Collection, n.root, Root()),
     Save("A", Collection, n.branch, Branch(n))]
  }

  function Books(n: Names): seq<Operation> {
    [Save("A", Item, n.paper, Paper(n)),
     Save("A", Item, n.other, Book("Other"))]
  }

  function Attachments(n: Names): seq<Operation> {
    [Save("A", Item, n.child, Child(n)),
     Save("A", Item, n.pdf, Pdf(n)),
     Save("A", Item, n.mark, Highlight(n))]
  }

  function Preferences(n: Names): seq<Operation> {
    [Save("A", Search, n.search, Query()),
     Setting("A", "tagColors", Colored("\U{7814}\U{7a76}", "#123456"))]
  }

  function Contents(n: Names, content: string, digest: string): seq<Operation> {
    [File("A", n.pdf, content, Some(digest), 1785701798544),
     FullText("A", n.pdf, "\U{DC}ber \U{6771}\U{4eac} \U{7814}\U{7a76}")]
  }

  function Conflict(n: Names): seq<Operation> {
    [Offline("A", n.paper, Retitled("Offline A")),
     Save("B", Item, n.paper, map[AbstractNote := Str("Remote B")]),
     Flush("A")]
  }

  function Revoked(n: Names): seq<Operation> {
    [Offline("B", n.other, Retitled("Queued B")),
     Access("B", false),
     Access("B", true),
     Flush("B")]
  }

  function Moves(n: Names): seq<Operation> {
    [Save("A", Item, n.child, map[ParentItem := Str(n.other)]),
     Save("A", Item, n.mark, map[Other("annotationComment") := Str("Changed \U{7814}\U{7a76}"),
                                 Other("annotationColor") := Str("#ff6666")]),
     Save("A", Collection, n.branch, map[ParentCollection := Bool(false)]),
     Save("A", Search, n.search, Where("Changed", "tag", "is", "\U{7814}\U{7a76}"))]
  }

  function Edits(n: Names): seq<Operation> {
    [Save("A", Item, n.paper, Tagged()),
     Save("A", Item, n.paper, map[Deleted := Bool(true)]),
     Save("A", Item, n.paper, map[Deleted := Bool(false)]),
     Save("A", Item, n.paper, Cleared())]
  }

  function Recreated(): seq<Operation> {
    [Setting("A", "tagColors", Null),
     Setting("A", "tagColors", Colored("recreated", "#ff6666"))]
  }

  function Deletions(n: Names): seq<Operation> {
    [Delete("A", Search, n.search),
     Delete("A", Collection, n.root),
     Delete("A", Item, n.paper),
     Delete("A", Item, n.other)]
  }

  function Prologue(n: Names, content: string, digest: string): (ops: seq<Operation>)
    ensures |ops| == 32
  {
    Folders(n) + Books(n) + Attachments(n) + Preferences(n) + Contents(n, content, digest) +
    Conflict(n) + Revoked(n) + Moves(n) + Edits(n) + Recreated() + Deletions(n)
  }

  // ----------------------------------------------------------------- views

  /** Both clients have access and nothing queued. */
  predicate Calm(s: State) {
    s.access == map["A" := true, "B" := true] && s.pending == map["A" := [], "B" := []]
  }

  /** Neither stamped nor normalized by a save. */
  predicate Usual(f: Field) {
    f != Relations && f != KeyField && f != Version
  }

  /** `v` holds what `w` says, up to its key, version and relations. */
  ghost predicate Shows(v: Fields, w: Fields) {
    && (forall f :: Usual(f) ==> (f in v <==> f in w) && Get(v, f) == Get(w, f))
    && (Relations in v ==> v[Relations].Obj?)
  }

  ghost predicate AllShow(objects: Objects, shown: Objects) {
    objects.Keys == shown.Keys && forall k :: k in shown ==> Shows(objects[k], shown[k])
  }

  function Of(shown: Objects, key: Key): Fields {
    if key in shown then shown[key] else map[]
  }

  function Edited(shown: Objects, key: Key, data: Fields): Objects
    requires key in shown
  {
    shown[key := shown[key] + data]
  }

  lemma MergedShows(v: Fields, w: Fields, data: Fields, key: Key, version: nat)
    requires Shows(v, w) && (Relations in data ==> data[Relations].Obj?)
    ensures Shows(Stamped(Normalized(v + data), key, version), w + data)
  {
  }

  /** What decides whether an item is accepted. */
  predicate SamePlace(v: Fields, w: Fields) {
    && (ItemType in v <==> ItemType in w) && Get(v, ItemType) == Get(w, ItemType)
    && (Collections in v <==> Collections in w) && Get(v, Collections) == Get(w, Collections)
    && Get(v, ParentItem) == Get(w, ParentItem) && Get(v, LinkMode) == Get(w, LinkMode)
  }

  lemma ShownFits(s: State, shown: Objects, v: Fields, w: Fields)
    requires AllShow(s.items, shown) && ItemAccepted(s.(items := shown), w) && SamePlace(v, w)
    ensures ItemAccepted(s, v)
  {
  }

  /** A save that changes the field `change`, on what is known of the items. */
  lemma SaveItem(s: State, shown: Objects, key: Key, data: Fields, version: nat, change: Field)
    returns (t: State)
    requires AllShow(s.items, shown)
    requires Usual(change)
    requires change in data && Get(Of(shown, key), change) != data[change]
    requires Relations in data ==> data[Relations].Obj?
    requires ItemAccepted(s.(items := shown), Of(shown, key) + data)
    ensures SaveObject(s, Item, key, data, version) == Some(t)
    ensures t == s.(items := t.items) && AllShow(t.items, shown[key := Of(shown, key) + data])
  {
    hide Stamped, Normalized, ItemAccepted, Shows, SamePlace;
    var v, w := Previous(s, Item, key), Of(shown, key);
    assert Shows(v, w) by { NothingShows(); }
    ShowsField(v, w, change);
    MergedShows(v, w, data, key, version);
    ShowsRelations(v, w, data);
    MergedPlace(v, w, data);
    ShownFits(s, shown, Normalized(v + data), w + data);
    t := s.(items := s.items[key := Stamped(Normalized(v + data), key, version)]);
  }

  lemma NothingShows()
    ensures Shows(map[], map[])
  {
  }

  lemma ShowsField(v: Fields, w: Fields, f: Field)
    requires Shows(v, w) && Usual(f)
    ensures (f in v <==> f in w) && Get(v, f) == Get(w, f)
  {
  }

  lemma ShowsRelations(v: Fields, w: Fields, data: Fields)
    requires Shows(v, w) && (Relations in data ==> data[Relations].Obj?)
    ensures Relations in v + data ==> (v + data)[Relations].Obj?
  {
  }

  lemma MergedPlace(v: Fields, w: Fields, data: Fields)
    requires Shows(v, w)
    ensures SamePlace(Normalized(v + data), w + data)
  {
    hide Normalized, Get;
    NormalizedKeeps(v + data);
    ShowsMerged(v, w, data, ItemType);
    ShowsMerged(v, w, data, Collections);
    ShowsMerged(v, w, data, ParentItem);
    ShowsMerged(v, w, data, LinkMode);
  }

  lemma ShowsMerged(v: Fields, w: Fields, data: Fields, f: Field)
    requires Shows(v, w) && Usual(f)
    ensures (f in v + data <==> f in w + data) && Get(v + data, f) == Get(w + data, f)
  {
  }

  lemma SaveStep(s: State, shown: Objects, client: Client, key: Key, data: Fields, change: Field)
    returns (t: State)
    requires AllShow(s.items, shown) && ValidKey(key)
    requires May(s, client)
    requires Usual(change)
    requires change in data && Get(Of(shown, key), change) != data[change]
    requires Relations in data ==> data[Relations].Obj?
    requires ItemAccepted(s.(items := shown), Of(shown, key) + data)
    ensures Step(s, Save(client, Item, key, data)) == Some(t)
    ensures t == s.(version := s.version + 1, items := t.items)
    ensures AllShow(t.items, shown[key := Of(shown, key) + data])
  {
    hide SaveObject, ItemAccepted, Get, Of, AllShow, ValidKey;
    var saved := SaveItem(s, shown, key, data, s.version + 1, change);
    t := saved.(version := s.version + 1);
  }

  // -------------------------------------------------------------- the shelf

  predicate Regular(v: Fields, branch: Key) {
    && ItemType in v && v[ItemType] == Str("book") && Get(v, ParentItem) == Null
    && (Collections !in v || v[Collections] == Arr([]) || v[Collections] == Arr([Str(branch)]))
  }

  predicate Under(v: Fields, itemType: string, parents: set<Key>) {
    && ItemType in v && v[ItemType] == Str(itemType) && Collections !in v
    && Get(v, ParentItem).Str? && v[ParentItem].s in parents
  }

  /** The five items of the opening, each of its type and under its parent. */
  predicate Tidy(n: Names, shown: Objects) {
    && shown.Keys == {n.paper, n.other, n.child, n.pdf, n.mark}
    && Regular(shown[n.paper], n.branch)
    && Regular(shown[n.other], n.branch) && Collections !in shown[n.other]
    && Under(shown[n.child], "note", {n.paper, n.other})
    && Under(shown[n.pdf], "attachment", {n.paper})
    && Under(shown[n.mark], "annotation", {n.pdf})
  }

  lemma TypesDiffer()
    ensures "book" != "note" && "book" != "attachment" && "book" != "annotation"
    ensures "note" != "attachment" && "note" != "annotation" && "attachment" != "annotation"
  {
  }

  lemma RegularFits(s: State, v: Fields, branch: Key)
    requires Regular(v, branch) && branch in s.collections
    ensures ItemAccepted(s, v)
  {
  }

  lemma UnderFits(s: State, v: Fields, itemType: string, parent: Key, branch: Key)
    requires Under(v, itemType, {parent}) && parent in s.items && parent != ""
    requires if itemType == "annotation" then Get(s.items[parent], ItemType) == Str("attachment")
             else Regular(s.items[parent], branch)
    ensures ItemAccepted(s, v)
  {
  }

  lemma TidyFits(n: Names, s: State, key: Key)
    requires Apart(n) && Tidy(n, s.items) && key in s.items && n.branch in s.collections
    ensures ItemAccepted(s, s.items[key])
    ensures Get(s.items[key], ParentItem) != Str(key)
  {
    hide ItemAccepted, ValidKey;
    var v := s.items[key];
    if key == n.paper || key == n.other {
      RegularFits(s, v, n.branch);
    } else if key == n.child {
      UnderFits(s, v, "note", v[ParentItem].s, n.branch);
    } else if key == n.pdf {
      UnderFits(s, v, "attachment", n.paper, n.branch);
    } else {
      UnderFits(s, v, "annotation", n.pdf, n.branch);
    }
  }

  lemma NewStep(s: State, shown: Objects, key: Key, data: Fields) returns (t: State)
    requires Calm(s) && AllShow(s.items, shown) && Usable(key) && key !in shown
    requires Relations !in data && Get(data, ItemType).Str?
    requires ItemAccepted(s.(items := shown), data)
    ensures Step(s, Save("A", Item, key, data)) == Some(t)
    ensures t == s.(version := s.version + 1, items := t.items) && AllShow(t.items, shown[key := data])
  {
    hide Step, ItemAccepted, AllShow, ValidKey;
    assert map[] + data == data;
    t := SaveStep(s, shown, "A", key, data, ItemType);
  }

  lemma ElsewhereFits(s: State, items: Objects, key: Key, v: Fields)
    requires ItemAccepted(s, v) && Get(v, ParentItem) != Str(key)
    requires forall k :: k in s.items && k != key ==> k in items && items[k] == s.items[k]
    ensures ItemAccepted(s.(items := items), v)
  {
  }

  lemma EditStep(n: Names, s: State, shown: Objects, client: Client, key: Key, data: Fields, change: Field)
    returns (t: State)
    requires Apart(n) && AllShow(s.items, shown) && key in shown && Usable(key) && n.branch in s.collections
    requires May(s, client)
    requires Usual(change)
    requires change in data && Get(shown[key], change) != data[change]
    requires Relations in data ==> data[Relations].Obj?
    requires Tidy(n, Edited(shown, key, data))
    ensures Step(s, Save(client, Item, key, data)) == Some(t)
    ensures t == s.(version := s.version + 1, items := t.items)
    ensures AllShow(t.items, Edited(shown, key, data))
  {
    hide Step, ItemAccepted, AllShow, ValidKey, Get, Tidy;
    var after := Edited(shown, key, data);
    TidyFits(n, s.(items := after), key);
    ElsewhereFits(s.(items := after), shown, key, after[key]);
    assert s.(items := after).(items := shown) == s.(items := shown);
    t := SaveStep(s, shown, client, key, data, change);
  }

  /** A payload that touches nothing the shelf depends on. */
  lemma StaysTidy(n: Names, shown: Objects, key: Key, data: Fields)
    requires Apart(n) && Tidy(n, shown) && key in shown
    requires ItemType !in data && ParentItem !in data && Collections !in data
    ensures Tidy(n, Edited(shown, key, data))
  {
  }

  /** The shelf as it stands in `s`, next to the collection it is filed in. */
  ghost predicate On(n: Names, s: State, shown: Objects) {
    Apart(n) && AllShow(s.items, shown) && Tidy(n, shown) && n.branch in s.collections
  }

  predicate Harmless(data: Fields) {
    && (Relations in data ==> data[Relations].Obj?)
    && ItemType !in data && ParentItem !in data && Collections !in data
  }

  /** An edit of one item that leaves everything in its place. */
  lemma PlainStep(n: Names, s: State, shown: Objects, client: Client, key: Key, data: Fields, change: Field)
    returns (t: State, after: Objects)
    requires On(n, s, shown) && key in shown && May(s, client)
    requires Usual(change) && change in data && Get(shown[key], change) != data[change] && Harmless(data)
    ensures Step(s, Save(client, Item, key, data)) == Some(t)
    ensures t == s.(version := s.version + 1, items := t.items)
    ensures On(n, t, after) && after == Edited(shown, key, data)
    ensures key in after && after[key] == shown[key] + data
  {
    hide Step, Usable, AllShow, Tidy, Get;
    OnKeys(n, s, shown);
    StaysTidy(n, shown, key, data);
    t := EditStep(n, s, shown, client, key, data, change);
    after := Edited(shown, key, data);
  }

  lemma OnKeys(n: Names, s: State, shown: Objects)
    requires On(n, s, shown)
    ensures n.paper in shown && n.other in shown && n.child in shown && n.pdf in shown && n.mark in shown
    ensures forall k :: k in shown ==> Usable(k)
    ensures s.items.Keys == shown.Keys
  {
    hide Usable;
  }

  // -------------------------------------------------------------- the parts

  lemma NewFolder(s: State, key: Key, data: Fields) returns (t: State)
    requires Calm(s) && Usable(key) && key !in s.collections && Name in data && Relations !in data
    requires EndsAtRoot(s.collections, {key}, Get(data, ParentCollection))
    ensures Step(s, Save("A", Collection, key, data)) == Some(t)
    ensures t == s.(version := s.version + 1, collections := s.collections[key := Stamped(data, key, s.version + 1)])
  {
    hide Step, Stamped, ValidKey, ItemAccepted, EndsAtRoot, Get;
    t := Stored(s, Collection, key, data);
    SaveNew(s, Collection, key, data);
  }

  lemma BranchFields(n: Names)
    ensures Name in Branch(n) && Relations !in Branch(n) && Get(Branch(n), ParentCollection) == Str(n.root)
  {
    assert ParentCollection in Branch(n);
  }

  /** A walk up that meets one live key without a parent of its own. */
  lemma OneUp(collections: Objects, seen: set<Key>, parent: Key)
    requires parent in collections && parent !in seen && Get(collections[parent], ParentCollection) == Null
    ensures EndsAtRoot(collections, seen, Str(parent))
  {
    assert EndsAtRoot(collections, seen + {parent}, Null);
  }

  lemma RootRuns(n: Names, s: State) returns (t: State)
    requires Apart(n) && Calm(s) && s.collections == map[]
    ensures Step(s, Save("A", Collection, n.root, Root())) == Some(t) && Calm(t)
    ensures t == s.(version := t.version, collections := t.collections)
    ensures t.collections.Keys == {n.root} && Get(t.collections[n.root], ParentCollection) == Null
  {
    hide Step, Usable, Root, Get, Stamped, EndsAtRoot;
    RootFields();
    assert EndsAtRoot(s.collections, {n.root}, Null) by { NoneUp(s.collections, {n.root}); }
    t := NewFolder(s, n.root, Root());
    StampedKeeps(Root(), n.root, s.version + 1);
  }

  lemma BranchRuns(n: Names, s: State) returns (t: State)
    requires Apart(n) && Calm(s) && s.collections.Keys == {n.root}
    requires Get(s.collections[n.root], ParentCollection) == Null
    ensures Step(s, Save("A", Collection, n.branch, Branch(n))) == Some(t)
    ensures t == s.(version := t.version, collections := t.collections)
    ensures t.collections.Keys == {n.root, n.branch}
    ensures Get(t.collections[n.branch], ParentCollection) == Str(n.root)
    ensures Relations !in t.collections[n.branch]
  {
    hide Step, Usable, Branch, Get, Stamped, EndsAtRoot;
    BranchFields(n);
    OneUp(s.collections, {n.branch}, n.root);
    t := NewFolder(s, n.branch, Branch(n));
    StampedKeeps(Branch(n), n.branch, s.version + 1);
  }

  lemma FoldersRun(n: Names, s: State) returns (t: State)
    requires Apart(n) && Calm(s) && s.collections == map[]
    ensures Run(s, Folders(n)) == Some(t)
    ensures t == s.(version := t.version, collections := t.collections)
    ensures t.collections.Keys == {n.root, n.branch}
    ensures Get(t.collections[n.branch], ParentCollection) == Str(n.root)
    ensures Relations !in t.collections[n.branch]
  {
    hide Step, Branch, Root, Get, Calm, Apart;
    var m := RootRuns(n, s);
    t := BranchRuns(n, m);
    RunTwo(s, Folders(n), m, t);
  }

  lemma NoneUp(collections: Objects, seen: set<Key>)
    ensures EndsAtRoot(collections, seen, Null)
  {
  }

  lemma RootFields()
    ensures Name in Root() && Relations !in Root() && Get(Root(), ParentCollection) == Null
  {
  }

  function Shelf(n: Names): Objects {
    map[n.paper := Paper(n), n.other := Book("Other")]
  }

  lemma ShelfRegular(n: Names)
    ensures Regular(Paper(n), n.branch) && Regular(Book("Other"), n.branch)
    ensures Relations !in Paper(n) && Relations !in Book("Other")
    ensures Get(Paper(n), ItemType).Str? && Get(Book("Other"), ItemType).Str?
  {
  }

  lemma BooksRun(n: Names, s: State) returns (t: State)
    requires Apart(n) && Calm(s) && s.items == map[] && n.branch in s.collections
    ensures Run(s, Books(n)) == Some(t) && t == s.(version := t.version, items := t.items)
    ensures AllShow(t.items, Shelf(n))
  {
    hide Step, ItemAccepted, Usable, Paper, Book, Regular, Get, AllShow;
    ShelfRegular(n);
    assert AllShow(s.items, map[]) by { NoneShown(); }
    RegularFits(s.(items := map[]), Paper(n), n.branch);
    var m := NewStep(s, map[], n.paper, Paper(n));
    var shown := map[n.paper := Paper(n)];
    assert map[][n.paper := Paper(n)] == shown;
    RegularFits(m.(items := shown), Book("Other"), n.branch);
    t := NewStep(m, shown, n.other, Book("Other"));
    assert shown[n.other := Book("Other")] == Shelf(n);
    RunTwo(s, Books(n), m, t);
  }

  lemma NoneShown()
    ensures AllShow(map[], map[])
  {
  }

  function Library(n: Names): Objects {
    Shelf(n)[n.child := Child(n)][n.pdf := Pdf(n)][n.mark := Highlight(n)]
  }

  /** Where the payloads of the three child items put them. */
  lemma Placed(n: Names)
    ensures Under(Child(n), "note", {n.paper}) && Get(Child(n), ParentItem) == Str(n.paper)
    ensures Under(Pdf(n), "attachment", {n.paper}) && Get(Pdf(n), ParentItem) == Str(n.paper)
    ensures Under(Highlight(n), "annotation", {n.pdf}) && Get(Highlight(n), ParentItem) == Str(n.pdf)
    ensures Relations !in Child(n) && Relations !in Pdf(n) && Relations !in Highlight(n)
  {
    hide Highlight;
    HighlightPlaced(n);
  }

  lemma HighlightPlaced(n: Names)
    ensures Under(Highlight(n), "annotation", {n.pdf}) && Get(Highlight(n), ParentItem) == Str(n.pdf)
    ensures Relations !in Highlight(n)
  {
  }

  lemma LibraryTidy(n: Names)
    requires Apart(n)
    ensures Tidy(n, Library(n))
  {
    hide Usable, Child, Pdf, Highlight;
    Placed(n);
  }

  lemma AttachmentsRun(n: Names, s: State) returns (t: State)
    requires Apart(n) && Calm(s) && AllShow(s.items, Shelf(n)) && n.branch in s.collections
    ensures Run(s, Attachments(n)) == Some(t) && t == s.(version := t.version, items := t.items)
    ensures AllShow(t.items, Library(n))
  {
    hide Step, ItemAccepted, AllShow, ValidKey, Child, Pdf, Highlight, Paper, Book, Regular;
    Placed(n);
    ShelfRegular(n);
    TypesDiffer();
    var withChild := Shelf(n)[n.child := Child(n)];
    var withPdf := withChild[n.pdf := Pdf(n)];
    UnderFits(s.(items := Shelf(n)), Child(n), "note", n.paper, n.branch);
    var a := NewStep(s, Shelf(n), n.child, Child(n));
    UnderFits(a.(items := withChild), Pdf(n), "attachment", n.paper, n.branch);
    var b := NewStep(a, withChild, n.pdf, Pdf(n));
    UnderFits(b.(items := withPdf), Highlight(n), "annotation", n.pdf, n.branch);
    t := NewStep(b, withPdf, n.mark, Highlight(n));
    RunThree(s, Attachments(n), a, b, t);
  }

  lemma SettingStep(s: State, name: string, value: Json) returns (t: State)
    requires Calm(s)
    requires if value == Null then name in s.settings else name !in s.settings
    ensures Step(s, Setting("A", name, value)) == Some(t)
    ensures t == s.(version := s.version + 1, settings := t.settings, deletedSettings := t.deletedSettings)
    ensures value == Null ==> t.settings == s.settings - {name}
    ensures value != Null ==> name in t.settings && t.settings[name].value == value
  {
    t := ChangeSetting(s, name, value, s.version + 1).value.(version := s.version + 1);
  }

  lemma QueryFields()
    ensures Name in Query() && Relations !in Query() && Get(Query(), Name) == Str("Research")
  {
  }

  lemma NewSearch(s: State, key: Key, data: Fields) returns (t: State)
    requires Calm(s) && Usable(key) && key !in s.searches && Name in data && Relations !in data
    ensures Step(s, Save("A", Search, key, data)) == Some(t)
    ensures t == s.(version := s.version + 1, searches := t.searches)
    ensures t.searches.Keys == s.searches.Keys + {key}
    ensures Get(t.searches[key], Name) == Get(data, Name) && Relations !in t.searches[key]
  {
    hide Step, Stored, ValidKey, ItemAccepted, EndsAtRoot, Get;
    SaveNew(s, Search, key, data);
    t := StoredSearch(s, key, data);
  }

  lemma StoredSearch(s: State, key: Key, data: Fields) returns (t: State)
    requires Relations !in data
    ensures t == Stored(s, Search, key, data) == s.(version := s.version + 1, searches := t.searches)
    ensures t.searches.Keys == s.searches.Keys + {key}
    ensures Get(t.searches[key], Name) == Get(data, Name) && Relations !in t.searches[key]
  {
    hide Stamped;
    StampedKeeps(data, key, s.version + 1);
    t := Stored(s, Search, key, data);
  }

  lemma PreferencesRun(n: Names, s: State) returns (t: State)
    requires Apart(n) && Calm(s) && s.searches == map[] && s.settings == map[]
    ensures Run(s, Preferences(n)) == Some(t)
    ensures t == s.(version := t.version, searches := t.searches, settings := t.settings,
                    deletedSettings := t.deletedSettings)
    ensures t.searches.Keys == {n.search} && Get(t.searches[n.search], Name) == Str("Research")
    ensures Relations !in t.searches[n.search] && "tagColors" in t.settings
  {
    hide Step, Usable, Query, Get;
    QueryFields();
    var m := NewSearch(s, n.search, Query());
    t := SettingStep(m, "tagColors", Colored("\U{7814}\U{7a76}", "#123456"));
    RunTwo(s, Preferences(n), m, t);
  }

  function Uploaded(digest: string): Fields {
    map[Md5 := Str(digest), Mtime := Num(1785701798544),
        ContentType := Str("application/pdf"), Filename := Str("research.pdf")]
  }

  lemma UploadShows(v: Fields, w: Fields, digest: string, version: nat)
    requires Shows(v, w)
    ensures Shows(FileStamped(v, digest, 1785701798544, version), w + Uploaded(digest))
  {
    var u := FileStamped(v, digest, 1785701798544, version);
    assert Relations in u ==> u[Relations].Obj?;
    forall f | Usual(f)
      ensures (f in u <==> f in w + Uploaded(digest)) && Get(u, f) == Get(w + Uploaded(digest), f)
    {
      UploadField(v, w, digest, version, f);
    }
    hide FileStamped, Uploaded, Get;
  }

  lemma UploadField(v: Fields, w: Fields, digest: string, version: nat, f: Field)
    requires Usual(f) && (f in v <==> f in w) && Get(v, f) == Get(w, f)
    ensures var u, x := FileStamped(v, digest, 1785701798544, version), w + Uploaded(digest);
            (f in u <==> f in x) && Get(u, f) == Get(x, f)
  {
  }

  lemma FileStep(s: State, key: Key, content: string, digest: string, mtime: int) returns (t: State)
    requires Calm(s) && Usable(key) && IsAttachment(s, key) && key !in s.files
    ensures Step(s, File("A", key, content, Some(digest), mtime)) == Some(t)
    ensures t == s.(version := s.version + 1, items := t.items, files := t.files)
    ensures t.items == s.items[key := FileStamped(s.items[key], digest, mtime, s.version + 1)]
  {
    hide FileStamped, IsAttachment, ValidKey;
    t := ChangeFile(s, key, content, Some(digest), mtime, s.version + 1).value.(version := s.version + 1);
  }

  lemma TextStep(s: State, key: Key, content: string) returns (t: State)
    requires Calm(s) && Usable(key) && IsAttachment(s, key) && key !in s.fulltext
    ensures Step(s, FullText("A", key, content)) == Some(t)
    ensures t == s.(version := s.version + 1, fulltext := t.fulltext)
  {
    hide IsAttachment, ValidKey;
    t := ChangeFullText(s, key, content, s.version + 1).value.(version := s.version + 1);
  }

  lemma ContentsRun(n: Names, s: State, shown: Objects, content: string, digest: string) returns (t: State)
    requires Apart(n) && Calm(s) && AllShow(s.items, shown) && Tidy(n, shown)
    requires s.files == map[] && s.fulltext == map[]
    ensures Run(s, Contents(n, content, digest)) == Some(t)
    ensures t == s.(version := t.version, items := t.items, files := t.files, fulltext := t.fulltext)
    ensures AllShow(t.items, Edited(shown, n.pdf, Uploaded(digest)))
  {
    hide Step, Shows, FileStamped, Uploaded, Usable, Regular;
    ShowsField(s.items[n.pdf], shown[n.pdf], ItemType);
    var m := FileStep(s, n.pdf, content, digest, 1785701798544);
    UploadShows(s.items[n.pdf], shown[n.pdf], digest, s.version + 1);
    UploadType(shown[n.pdf], digest);
    ShowsField(m.items[n.pdf], shown[n.pdf] + Uploaded(digest), ItemType);
    t := TextStep(m, n.pdf, "\U{DC}ber \U{6771}\U{4eac} \U{7814}\U{7a76}");
    RunTwo(s, Contents(n, content, digest), m, t);
  }

  lemma UploadType(w: Fields, digest: string)
    ensures Get(w + Uploaded(digest), ItemType) == Get(w, ItemType)
  {
  }

  /** Sending the one edit that is queued. */
  lemma FlushOne(n: Names, s: State, shown: Objects, client: Client, p: Pending, change: Field)
    returns (t: State)
    requires Apart(n) && AllShow(s.items, shown) && p.key in shown && Usable(p.key) && n.branch in s.collections
    requires May(s, client) && s.pending[client] == [p]
    requires Usual(change) && Relations !in p.data
    requires change in p.data && Get(shown[p.key], change) != p.data[change]
    requires Tidy(n, Edited(shown, p.key, p.data))
    ensures Step(s, Flush(client)) == Some(t)
    ensures t == s.(version := s.version + 1, items := t.items, pending := s.pending[client := []])
    ensures AllShow(t.items, Edited(shown, p.key, p.data))
  {
    hide ItemAccepted, AllShow, ValidKey, Get, Tidy, SaveObject, Step;
    var after := Edited(shown, p.key, p.data);
    TidyFits(n, s.(items := after), p.key);
    ElsewhereFits(s.(items := after), shown, p.key, after[p.key]);
    assert s.(items := after).(items := shown) == s.(items := shown);
    var saved := SaveItem(s, shown, p.key, p.data, s.version + 1, change);
    SentOne(s, client, p, saved);
    t := saved.(version := s.version + 1, pending := s.pending[client := []]);
  }

  lemma SentOne(s: State, client: Client, p: Pending, saved: State)
    requires May(s, client) && s.pending[client] == [p]
    requires SaveObject(s, Item, p.key, p.data, s.version + 1) == Some(saved)
    ensures Step(s, Flush(client)) == Some(saved.(version := s.version + 1, pending := s.pending[client := []]))
  {
    hide SaveObject;
    assert s.pending[client][1..] == [];
    assert SaveAll(saved, [], s.version + 1) == Some(saved);
  }

  lemma QueueFirst(s: State, client: Client, key: Key, data: Fields, change: Field) returns (t: State)
    requires Usable(key) && key in s.items && client in s.pending && client in s.access
    requires s.pending[client] == []
    requires data.Keys == {change} && Get(s.items[key], change) != data[change]
    ensures Step(s, Offline(client, key, data)) == Some(t)
    ensures t == s.(pending := s.pending[client := [Pending(key, data, s.version, VersionOf(s.items[key]))]])
  {
    hide ValidKey, Get, VersionOf;
    assert change in data && forall f :: f in data ==> f == change;
    var p := Pending(key, data, s.version, VersionOf(s.items[key]));
    assert [] + [p] == [p];
    t := s.(pending := s.pending[client := [p]]);
  }

  /** What the paper, the note and the highlight must still show before the items are moved. */
  predicate Untouched(n: Names, shown: Objects) {
    && n.child in shown && Get(shown[n.child], ParentItem) == Str(n.paper)
    && n.mark in shown && Get(shown[n.mark], Other("annotationColor")) == Str("#ffd400")
    && n.paper in shown && Tags !in shown[n.paper] && Deleted !in shown[n.paper]
  }

  lemma StaysUntouched(n: Names, shown: Objects, key: Key, data: Fields)
    requires Untouched(n, shown) && key in shown
    requires data.Keys !! {ParentItem, Other("annotationColor"), Tags, Deleted}
    ensures Untouched(n, Edited(shown, key, data))
  {
  }

  lemma RetitledFields(text: string)
    ensures Retitled(text).Keys == {Title} && Retitled(text)[Title] == Str(text)
  {
  }

  lemma SentCalm(queues: map<Client, seq<Pending>>, client: Client)
    requires client in {"A", "B"} && queues.Keys == {"A", "B"}
    requires forall c :: c in queues && c != client ==> queues[c] == []
    ensures queues[client := []] == map["A" := [], "B" := []]
  {
  }

  lemma RemoteSaved(n: Names, s: State, shown: Objects) returns (t: State, after: Objects)
    requires On(n, s, shown) && May(s, "B") && Untouched(n, shown)
    requires n.paper in shown && n.other in shown && AbstractNote !in shown[n.paper]
    ensures Step(s, Conflict(n)[1]) == Some(t)
    ensures t == s.(version := s.version + 1, items := t.items)
    ensures On(n, t, after) && Untouched(n, after) && n.paper in after && n.other in after
    ensures Get(after[n.paper], Title) == Get(shown[n.paper], Title)
    ensures n.paper != n.other ==> after[n.other] == shown[n.other]
  {
    hide Step, On, Untouched;
    var remote := map[AbstractNote := Str("Remote B")];
    t, after := PlainStep(n, s, shown, "B", n.paper, remote, AbstractNote);
    StaysUntouched(n, shown, n.paper, remote);
  }

  lemma ConflictRun(n: Names, s: State, shown: Objects) returns (t: State, after: Objects)
    requires On(n, s, shown) && Calm(s) && Untouched(n, shown) && n.paper in shown && n.other in shown
    requires Get(shown[n.paper], Title) != Str("Offline A") && AbstractNote !in shown[n.paper]
    ensures Run(s, Conflict(n)) == Some(t) && t == s.(version := t.version, items := t.items)
    ensures On(n, t, after) && Untouched(n, after) && n.other in after
    ensures n.paper != n.other ==> after[n.other] == shown[n.other]
  {
    hide Step, On, Untouched, VersionOf, Get, Retitled;
    var a := PaperQueued(n, s, shown);
    var b, edited := RemoteSaved(n, a, shown);
    t, after := ConflictSent(n, b, edited, s.version, VersionOf(s.items[n.paper]));
    RunThree(s, Conflict(n), a, b, t);
  }

  lemma PaperQueued(n: Names, s: State, shown: Objects) returns (t: State)
    requires On(n, s, shown) && Calm(s) && n.paper in shown
    requires Get(shown[n.paper], Title) != Str("Offline A")
    ensures Step(s, Conflict(n)[0]) == Some(t) && n.paper in s.items && On(n, t, shown) && May(t, "B")
    ensures t == s.(pending := map["A" := [Pending(n.paper, Retitled("Offline A"), s.version,
                                                   VersionOf(s.items[n.paper]))], "B" := []])
  {
    hide Step, Usable, AllShow, Tidy, VersionOf, Get, Retitled;
    RetitledFields("Offline A");
    OnKeys(n, s, shown);
    ShownKeys(s.items, shown, n.paper, Title);
    t := QueueFirst(s, "A", n.paper, Retitled("Offline A"), Title);
  }

  /** The retitling queued before goes through on top of what was saved since. */
  lemma ConflictSent(n: Names, s: State, shown: Objects, base: nat, version: int)
    returns (t: State, after: Objects)
    requires On(n, s, shown) && s.access == map["A" := true, "B" := true]
    requires s.pending == map["A" := [Pending(n.paper, Retitled("Offline A"), base, version)], "B" := []]
    requires n.paper in shown && Get(shown[n.paper], Title) != Str("Offline A") && Untouched(n, shown)
    ensures Step(s, Flush("A")) == Some(t) && Calm(t)
    ensures t == s.(version := t.version, items := t.items, pending := t.pending)
    ensures On(n, t, after) && Untouched(n, after) && n.other in shown && n.other in after
    ensures n.paper != n.other ==> after[n.other] == shown[n.other]
  {
    hide Step, On, Untouched, Get, Retitled;
    OnKeys(n, s, shown);
    t, after := RetitledSent(n, s, shown, "A", s.pending["A"][0], "Offline A");
    SentCalm(s.pending, "A");
  }

  lemma RetitledSent(n: Names, s: State, shown: Objects, client: Client, p: Pending, text: string)
    returns (t: State, after: Objects)
    requires On(n, s, shown) && May(s, client) && s.pending[client] == [p] && p.data == Retitled(text)
    requires p.key in shown && Get(shown[p.key], Title) != Str(text) && Untouched(n, shown)
    ensures Step(s, Flush(client)) == Some(t)
    ensures t == s.(version := s.version + 1, items := t.items, pending := s.pending[client := []])
    ensures On(n, t, after) && Untouched(n, after) && after == Edited(shown, p.key, Retitled(text))
  {
    hide Step, Usable, AllShow, Tidy, Untouched, Get, Retitled, Edited;
    OnKeys(n, s, shown);
    RetitledFields(text);
    StaysTidy(n, shown, p.key, Retitled(text));
    StaysUntouched(n, shown, p.key, Retitled(text));
    t := FlushOne(n, s, shown, client, p, Title);
    after := Edited(shown, p.key, Retitled(text));
  }

  lemma TidyKeys(n: Names, shown: Objects)
    requires Tidy(n, shown)
    ensures shown.Keys == {n.paper, n.other, n.child, n.pdf, n.mark}
  {
  }

  lemma ShownKeys(objects: Objects, shown: Objects, key: Key, f: Field)
    requires AllShow(objects, shown) && Usual(f)
    ensures objects.Keys == shown.Keys
    ensures key in objects ==> Get(objects[key], f) == Get(shown[key], f)
  {
  }

  lemma AccessStep(s: State, client: Client, allowed: bool)
    requires client in s.pending && client in s.access && s.access[client] != allowed
    ensures Step(s, Access(client, allowed)) == Some(s.(access := s.access[client := allowed]))
  {
  }

  lemma RevokedRun(n: Names, s: State, shown: Objects) returns (t: State, after: Objects)
    requires On(n, s, shown) && Calm(s) && Untouched(n, shown)
    requires n.other in shown && Get(shown[n.other], Title) != Str("Queued B")
    ensures Run(s, Revoked(n)) == Some(t) && t == s.(version := t.version, items := t.items)
    ensures On(n, t, after) && Untouched(n, after)
  {
    hide Step, Usable, AllShow, Tidy, Untouched, VersionOf, Edited, Get, Retitled;
    RetitledFields("Queued B");
    ShownKeys(s.items, shown, n.other, Title);
    OnKeys(n, s, shown);
    var a := QueueFirst(s, "B", n.other, Retitled("Queued B"), Title);
    AccessStep(a, "B", false);
    var b := a.(access := a.access["B" := false]);
    AccessStep(b, "B", true);
    var c := b.(access := b.access["B" := true]);
    SentCalm(c.pending, "B");
    t, after := RetitledSent(n, c, shown, "B", c.pending["B"][0], "Queued B");
    RunFour(s, Revoked(n), a, b, c, t);
  }

  lemma MovesTidy(n: Names, shown: Objects)
    requires Apart(n) && Tidy(n, shown)
    ensures Tidy(n, Edited(shown, n.child, map[ParentItem := Str(n.other)]))
  {
  }

  lemma BranchStep(n: Names, s: State) returns (t: State)
    requires Apart(n) && Calm(s) && n.branch in s.collections
    requires Get(s.collections[n.branch], ParentCollection) == Str(n.root)
    requires Relations !in s.collections[n.branch]
    ensures Step(s, Moves(n)[2]) == Some(t)
    ensures t == s.(version := s.version + 1, collections := t.collections)
    ensures t.collections.Keys == s.collections.Keys
  {
    hide Step, Stamped, ValidKey;
    var data := map[ParentCollection := Bool(false)];
    assert ParentCollection in data;
    SaveMerged(s, Collection, n.branch, data);
    t := Stored(s, Collection, n.branch, s.collections[n.branch] + data);
  }

  lemma QueryStep(n: Names, s: State) returns (t: State)
    requires Apart(n) && Calm(s) && n.search in s.searches
    requires Get(s.searches[n.search], Name) == Str("Research") && Relations !in s.searches[n.search]
    ensures Step(s, Moves(n)[3]) == Some(t)
    ensures t == s.(version := s.version + 1, searches := t.searches) && t.searches.Keys == s.searches.Keys
  {
    hide Step, Stamped, ValidKey;
    var data := Where("Changed", "tag", "is", "\U{7814}\U{7a76}");
    assert Name in data && "Changed"[0] != "Research"[0];
    SaveMerged(s, Search, n.search, data);
    t := Stored(s, Search, n.search, s.searches[n.search] + data);
  }

  lemma MovesRun(n: Names, s: State, shown: Objects) returns (t: State, after: Objects)
    requires On(n, s, shown) && Calm(s) && Untouched(n, shown)
    requires Get(s.collections[n.branch], ParentCollection) == Str(n.root) && Relations !in s.collections[n.branch]
    requires n.search in s.searches
    requires Get(s.searches[n.search], Name) == Str("Research") && Relations !in s.searches[n.search]
    ensures Run(s, Moves(n)) == Some(t)
    ensures t == s.(version := t.version, items := t.items, collections := t.collections, searches := t.searches)
    ensures t.collections.Keys == s.collections.Keys && t.searches.Keys == s.searches.Keys
    ensures On(n, t, after) && n.paper in after && after[n.paper] == shown[n.paper]
  {
    hide Step, Usable, AllShow, Tidy;
    OnKeys(n, s, shown);
    var up := map[ParentItem := Str(n.other)];
    MovesTidy(n, shown);
    var a := EditStep(n, s, shown, "A", n.child, up, ParentItem);
    var b;
    b, after := HighlightStep(n, a, Edited(shown, n.child, up));
    hide Get;
    var c := BranchStep(n, b);
    t := QueryStep(n, c);
    RunFour(s, Moves(n), a, b, c, t);
  }

  lemma HighlightStep(n: Names, s: State, shown: Objects) returns (t: State, after: Objects)
    requires On(n, s, shown) && May(s, "A")
    requires n.mark in shown && Get(shown[n.mark], Other("annotationColor")) == Str("#ffd400")
    ensures Step(s, Moves(n)[1]) == Some(t) && t == s.(version := t.version, items := t.items)
    ensures On(n, t, after)
    ensures n.paper in shown && n.paper != n.mark ==> n.paper in after && after[n.paper] == shown[n.paper]
  {
    hide Step, On, Get;
    assert "#ff6666"[3] != "#ffd400"[3];
    t, after := PlainStep(n, s, shown, "A", n.mark, Moves(n)[1].data, Other("annotationColor"));
  }

  lemma ClearedTidy(n: Names, shown: Objects)
    requires Apart(n) && Tidy(n, shown)
    ensures Tidy(n, Edited(shown, n.paper, Cleared()))
    ensures Get(shown[n.paper] + Cleared(), Collections) == Arr([])
  {
  }

  lemma PaperEdits(w: Fields)
    requires Tags !in w && Deleted !in w
    ensures Tags in Tagged() && Tags in Cleared() && Get(w, Tags) == Null != Tagged()[Tags]
    ensures Harmless(Tagged()) && Get(w + Tagged(), Deleted) == Null
    ensures Get(w + Tagged() + map[Deleted := Bool(true)] + map[Deleted := Bool(false)], Tags) != Cleared()[Tags]
  {
  }

  lemma TrashedAndBack(n: Names, s: State, shown: Objects) returns (m: State, t: State, after: Objects)
    requires On(n, s, shown) && May(s, "A") && n.paper in shown && Get(shown[n.paper], Deleted) == Null
    ensures Step(s, Edits(n)[1]) == Some(m) && Step(m, Edits(n)[2]) == Some(t)
    ensures t == s.(version := t.version, items := t.items) && On(n, t, after)
    ensures n.paper in after
         && after[n.paper] == shown[n.paper] + map[Deleted := Bool(true)] + map[Deleted := Bool(false)]
  {
    hide Step, On, Edited, Tagged, Cleared;
    var on, off := map[Deleted := Bool(true)], map[Deleted := Bool(false)];
    var first;
    m, first := PlainStep(n, s, shown, "A", n.paper, on, Deleted);
    t, after := PlainStep(n, m, first, "A", n.paper, off, Deleted);
  }

  lemma EditsRun(n: Names, s: State, shown: Objects) returns (t: State, after: Objects)
    requires On(n, s, shown) && Calm(s)
    requires n.paper in shown && Tags !in shown[n.paper] && Deleted !in shown[n.paper]
    ensures Run(s, Edits(n)) == Some(t) && t == s.(version := t.version, items := t.items)
    ensures On(n, t, after) && n.paper in after && Get(after[n.paper], Collections) == Arr([])
  {
    hide Step, On, Tagged, Cleared, Get, Harmless, Edited;
    PaperEdits(shown[n.paper]);
    var a, first := PlainStep(n, s, shown, "A", n.paper, Tagged(), Tags);
    var b, c, third := TrashedAndBack(n, a, first);
    t, after := ClearStep(n, c, third);
    RunFour(s, Edits(n), a, b, c, t);
  }

  lemma ClearStep(n: Names, s: State, shown: Objects) returns (t: State, after: Objects)
    requires On(n, s, shown) && May(s, "A") && n.paper in shown
    requires Tags in Cleared() && Get(shown[n.paper], Tags) != Cleared()[Tags]
    ensures Step(s, Save("A", Item, n.paper, Cleared())) == Some(t)
    ensures t == s.(version := s.version + 1, items := t.items)
    ensures On(n, t, after) && n.paper in after && Get(after[n.paper], Collections) == Arr([])
  {
    hide Step, Usable, AllShow, Tidy;
    OnKeys(n, s, shown);
    ClearedTidy(n, shown);
    t := EditStep(n, s, shown, "A", n.paper, Cleared(), Tags);
    after := Edited(shown, n.paper, Cleared());
  }

  lemma RecreatedRun(s: State) returns (t: State)
    requires Calm(s) && "tagColors" in s.settings
    ensures Run(s, Recreated()) == Some(t)
    ensures t == s.(version := t.version, settings := t.settings, deletedSettings := t.deletedSettings)
    ensures "tagColors" in t.settings && t.settings["tagColors"].value == Colored("recreated", "#ff6666")
  {
    hide Step;
    var m := SettingStep(s, "tagColors", Null);
    t := SettingStep(m, "tagColors", Colored("recreated", "#ff6666"));
    RunTwo(s, Recreated(), m, t);
  }

  /** No item is filed anywhere, and every parent link can be looked up. */
  predicate Loose(items: Objects) {
    forall k :: k in items ==>
      && (Get(items[k], Collections) == Null || Get(items[k], Collections) == Arr([]))
      && Hashable(Get(items[k], ParentItem))
  }

  lemma DropSearch(s: State, key: Key) returns (t: State)
    requires Calm(s) && Usable(key) && key in s.searches
    ensures Step(s, Delete("A", Search, key)) == Some(t)
    ensures t == s.(version := s.version + 1, searches := t.searches, deletedSearches := t.deletedSearches)
  {
    hide ValidKey;
    t := s.(version := s.version + 1, searches := s.searches - {key},
            deletedSearches := s.deletedSearches + {key});
  }

  lemma DropFolder(s: State, key: Key) returns (t: State)
    requires Calm(s) && Usable(key) && key in s.collections && Loose(s.items)
    ensures Step(s, Delete("A", Collection, key)) == Some(t)
    ensures t == s.(version := s.version + 1, collections := t.collections,
                    deletedCollections := t.deletedCollections)
  {
    hide ValidKey, Spliced, Unfiled, Lists, Loose;
    LooseStays(s.items, key);
    t := s.(version := s.version + 1, collections := Spliced(s.collections, key, s.version + 1),
            deletedCollections := s.deletedCollections + {key});
  }

  lemma LooseStays(items: Objects, key: Key)
    requires Loose(items)
    ensures (map k | k in items :: Unfiled(items[k], key)) == items
    ensures forall k :: k in items ==> !Lists(items[k], key)
  {
  }

  lemma DropItem(s: State, key: Key) returns (t: State)
    requires Calm(s) && Usable(key) && key in s.items && Loose(s.items)
    ensures Step(s, Delete("A", Item, key)) == Some(t)
    ensures Calm(t) && t.settings == s.settings && t.items.Keys <= s.items.Keys && Loose(t.items)
    ensures forall k :: k in s.items && k != key && Get(s.items[k], ParentItem) == Null ==> k in t.items
  {
    hide ValidKey, Subtree;
    var doomed := Subtree(s.items, {key});
    forall k | k in s.items && k != key && Get(s.items[k], ParentItem) == Null ensures k !in doomed {
      SubtreeLeast(s.items, {key}, s.items.Keys - {k} + {key});
    }
    t := s.(version := s.version + 1, items := s.items - doomed, files := s.files - doomed,
            fulltext := s.fulltext - doomed, deletedItems := s.deletedItems + doomed);
    assert DeleteItem(s, key) == Some(t.(version := s.version));
  }

  lemma TidyUnfiled(n: Names, items: Objects, shown: Objects)
    requires AllShow(items, shown) && Tidy(n, shown) && Get(shown[n.paper], Collections) == Arr([])
    ensures Loose(items) && items.Keys == shown.Keys && Get(items[n.other], ParentItem) == Null
  {
    hide Get, Shows;
    forall k | k in items
      ensures Get(items[k], Collections) == Get(shown[k], Collections)
      ensures Get(items[k], ParentItem) == Get(shown[k], ParentItem)
    {
      ShowsField(items[k], shown[k], Collections);
      ShowsField(items[k], shown[k], ParentItem);
    }
    assert Loose(shown) by { TidyLoose(n, shown); }
    assert Get(shown[n.other], ParentItem) == Null;
  }

  lemma TidyLoose(n: Names, shown: Objects)
    requires Tidy(n, shown) && Get(shown[n.paper], Collections) == Arr([])
    ensures Loose(shown)
  {
  }

  lemma DeletionsRun(n: Names, s: State, shown: Objects) returns (t: State)
    requires Apart(n) && Calm(s) && AllShow(s.items, shown) && Tidy(n, shown)
    requires Get(shown[n.paper], Collections) == Arr([]) && n.root in s.collections && n.search in s.searches
    ensures Run(s, Deletions(n)) == Some(t)
    ensures Calm(t) && t.items.Keys <= shown.Keys && t.settings == s.settings
  {
    hide Step, ValidKey, AllShow, Tidy, Loose;
    TidyUnfiled(n, s.items, shown);
    TidyKeys(n, shown);
    var a := DropSearch(s, n.search);
    var b := DropFolder(a, n.root);
    var c := DropItem(b, n.paper);
    t := DropItem(c, n.other);
    RunFour(s, Deletions(n), a, b, c, t);
  }

  // -------------------------------------------------------------- the whole

  lemma LibraryFields(n: Names)
    requires Apart(n)
    ensures Get(Paper(n), Title) != Str("Offline A") && AbstractNote !in Paper(n)
    ensures Tags !in Paper(n) && Deleted !in Paper(n)
    ensures Get(Book("Other"), Title) != Str("Queued B")
    ensures Get(Child(n), ParentItem) == Str(n.paper)
    ensures Get(Highlight(n), Other("annotationColor")) == Str("#ffd400")
  {
    assert "\U{DC}ber \U{6771}\U{4eac}"[0] != "Offline A"[0] && "Other"[0] != "Queued B"[0];
    assert Title in Paper(n) && Title in Book("Other") && ParentItem in Child(n);
    assert Other("annotationColor") in Highlight(n);
  }

  lemma LibraryUntouched(n: Names)
    requires Apart(n)
    ensures Untouched(n, Library(n)) && Library(n)[n.paper] == Paper(n) && Library(n)[n.other] == Book("Other")
  {
  }

  lemma SharedRuns(n: Names, s: State, content: string, digest: string) returns (t: State, after: Objects)
    requires Apart(n) && Calm(s) && AllShow(s.items, Library(n)) && s.files == map[] && s.fulltext == map[]
    requires n.branch in s.collections
    ensures Run(s, Contents(n, content, digest) + Conflict(n) + Revoked(n)) == Some(t)
    ensures t == s.(version := t.version, items := t.items, files := t.files, fulltext := t.fulltext)
    ensures On(n, t, after) && Untouched(n, after)
  {
    hide Run, AllShow, Tidy, Usable, Untouched, Contents, Conflict, Revoked, Library, Paper, Book, Uploaded, Get;
    LibraryTidy(n);
    LibraryFields(n);
    LibraryUntouched(n);
    OnKeys(n, s, Library(n));
    var a := ContentsRun(n, s, Library(n), content, digest);
    var first := Edited(Library(n), n.pdf, Uploaded(digest));
    UploadTidy(n, Library(n), digest);
    UploadFields(digest);
    StaysUntouched(n, Library(n), n.pdf, Uploaded(digest));
    var b, second := ConflictRun(n, a, first);
    t, after := RevokedRun(n, b, second);
    RunJoins(s, Contents(n, content, digest), a, Conflict(n));
    RunJoins(s, Contents(n, content, digest) + Conflict(n), b, Revoked(n));
  }

  lemma UploadFields(digest: string)
    ensures Uploaded(digest).Keys == {Md5, Mtime, ContentType, Filename}
  {
  }

  /** The opening up to the deletions. */
  lemma MiddleRuns(n: Names, s: State, content: string, digest: string) returns (t: State, after: Objects)
    requires Apart(n) && Calm(s) && AllShow(s.items, Library(n)) && s.files == map[] && s.fulltext == map[]
    requires s.collections.Keys == {n.root, n.branch}
    requires Get(s.collections[n.branch], ParentCollection) == Str(n.root)
    requires Relations !in s.collections[n.branch]
    requires s.searches.Keys == {n.search} && Get(s.searches[n.search], Name) == Str("Research")
    requires Relations !in s.searches[n.search]
    ensures Run(s, Contents(n, content, digest) + Conflict(n) + Revoked(n) + Moves(n) + Edits(n)) == Some(t)
    ensures Calm(t) && t.settings == s.settings && n.root in t.collections && n.search in t.searches
    ensures On(n, t, after) && n.paper in after && Get(after[n.paper], Collections) == Arr([])
  {
    hide Run, On, Usable, Contents, Conflict, Revoked, Moves, Edits, Get, AllShow;
    var c, third := SharedRuns(n, s, content, digest);
    var d, fourth := MovesRun(n, c, third);
    t, after := EditsRun(n, d, fourth);
    var shared := Contents(n, content, digest) + Conflict(n) + Revoked(n);
    RunJoins(s, shared, c, Moves(n));
    RunJoins(s, shared + Moves(n), d, Edits(n));
  }

  lemma UploadTidy(n: Names, shown: Objects, digest: string)
    requires Apart(n) && Tidy(n, shown)
    ensures Tidy(n, Edited(shown, n.pdf, Uploaded(digest)))
  {
    hide Tidy, Usable;
    TidyKeys(n, shown);
    StaysTidy(n, shown, n.pdf, Uploaded(digest));
  }

  lemma BeginningRuns(n: Names) returns (t: State)
    requires Apart(n)
    ensures Run(INITIAL, Folders(n) + Books(n) + Attachments(n) + Preferences(n)) == Some(t)
    ensures Calm(t) && AllShow(t.items, Library(n)) && t.files == map[] && t.fulltext == map[]
    ensures t.collections.Keys == {n.root, n.branch}
    ensures Get(t.collections[n.branch], ParentCollection) == Str(n.root)
    ensures Relations !in t.collections[n.branch]
    ensures t.searches.Keys == {n.search} && Get(t.searches[n.search], Name) == Str("Research")
    ensures Relations !in t.searches[n.search] && "tagColors" in t.settings
  {
    hide Run, AllShow, Usable, Folders, Books, Attachments, Preferences, Library, Shelf;
    var a := FoldersRun(n, INITIAL);
    var b := BooksRun(n, a);
    var c := AttachmentsRun(n, b);
    t := PreferencesRun(n, c);
    RunJoins(INITIAL, Folders(n), a, Books(n));
    RunJoins(INITIAL, Folders(n) + Books(n), b, Attachments(n));
    RunJoins(INITIAL, Folders(n) + Books(n) + Attachments(n), c, Preferences(n));
  }

  /** The model accepts the whole opening, which leaves nothing to recover. */
  lemma PrologueRuns(n: Names, content: string, digest: string) returns (t: State)
    requires Apart(n)
    ensures Run(INITIAL, Prologue(n, content, digest)) == Some(t)
    ensures Calm(t) && t.items.Keys <= {n.paper, n.other, n.child, n.pdf, n.mark}
    ensures "tagColors" in t.settings && t.settings["tagColors"].value == Colored("recreated", "#ff6666")
  {
    hide Run, AllShow, Usable, Folders, Books, Attachments, Preferences, Contents, Conflict, Revoked, Moves,
      Edits, Recreated, Deletions, Library, Tidy;
    var a := BeginningRuns(n);
    var b, after := MiddleRuns(n, a, content, digest);
    TidyKeys(n, after);
    var c := RecreatedRun(b);
    t := DeletionsRun(n, c, after);
    var beginning := Folders(n) + Books(n) + Attachments(n) + Preferences(n);
    var middle := Contents(n, content, digest) + Conflict(n) + Revoked(n) + Moves(n) + Edits(n);
    RunJoins(INITIAL, beginning, a, middle);
    RunJoins(INITIAL, beginning + middle, b, Recreated());
    RunJoins(INITIAL, beginning + middle + Recreated(), c, Deletions(n));
    assert beginning + middle + Recreated() + Deletions(n) == Prologue(n, content, digest);
  }

  // ------------------------------------------------------------------- keys

  lemma NamesApart()
    ensures Apart(NAMES)
  {
  }

  // --------------------------------------------------------------- payloads

  /** Payloads that list no collection twice and are of the ordinary kinds. */
  predicate AllProper(ops: seq<Operation>) {
    forall i :: 0 <= i < |ops| ==> ListsOnce(ops[i]) && PlainOperation(ops[i])
  }

  lemma JoinedProper(ops: seq<Operation>, more: seq<Operation>)
    requires AllProper(ops) && AllProper(more)
    ensures AllProper(ops + more)
  {
  }

  lemma FoldersProper(n: Names)
    ensures AllProper(Folders(n)) && AllProper(Books(n)) && AllProper(Preferences(n))
  {
  }

  lemma AttachmentsProper(n: Names)
    ensures AllProper(Attachments(n))
  {
    forall i | 0 <= i < 3 ensures ListsOnce(Attachments(n)[i]) && PlainOperation(Attachments(n)[i]) {
      hide Child, Pdf, Highlight;
      PayloadPlain(n, i);
    }
  }

  lemma PayloadPlain(n: Names, i: nat)
    requires i < 3
    ensures Plain(Attachments(n)[i].data) && UniquelyListed(Attachments(n)[i].data)
  {
    hide Highlight;
    HighlightPlain(n);
  }

  lemma HighlightPlain(n: Names)
    ensures Plain(Highlight(n)) && UniquelyListed(Highlight(n))
  {
  }

  lemma ContentsProper(n: Names, content: string, digest: string)
    ensures AllProper(Contents(n, content, digest)) && AllProper(Conflict(n)) && AllProper(Revoked(n))
  {
  }

  lemma MovesProper(n: Names)
    ensures AllProper(Moves(n)) && AllProper(Recreated()) && AllProper(Deletions(n))
  {
  }

  lemma EditsProper(n: Names)
    ensures AllProper(Edits(n))
  {
  }

  lemma PrologueProper(n: Names, content: string, digest: string)
    ensures AllProper(Prologue(n, content, digest))
  {
    hide AllProper, Folders, Books, Attachments, Preferences, Contents, Conflict, Revoked, Moves, Edits, Recreated,
      Deletions;
    FoldersProper(n);
    AttachmentsProper(n);
    ContentsProper(n, content, digest);
    MovesProper(n);
    EditsProper(n);
    JoinedProper(Folders(n), Books(n));
    var a := Folders(n) + Books(n);
    JoinedProper(a, Attachments(n));
    var b := a + Attachments(n);
    JoinedProper(b, Preferences(n));
    var c := b + Preferences(n);
    JoinedProper(c, Contents(n, content, digest));
    var d := c + Contents(n, content, digest);
    JoinedProper(d, Conflict(n));
    var e := d + Conflict(n);
    JoinedProper(e, Revoked(n));
    var g := e + Revoked(n);
    JoinedProper(g, Moves(n));
    var h := g + Moves(n);
    JoinedProper(h, Edits(n));
    var i := h + Edits(n);
    JoinedProper(i, Recreated());
    JoinedProper(i + Recreated(), Deletions(n));
  }
}
