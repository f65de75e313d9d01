/**
 The sync protocol as a step function on values: what one operation does to the
 library, or that it is rejected. The class in ProtocolModel.dfy does the same
 in place; the theorems about runs are proved on this function.
 */
module ProtocolSpec {
  import opened Common
  import opened Json
  import opened Naming

  type Key = string
  type Client = string

  /** The field names the protocol inspects, and every other one. */
  datatype Field =
    | ItemType | ParentItem | ParentCollection | Collections | LinkMode | Relations
    | KeyField | Version | Md5 | Mtime | ContentType | Filename
    | Title | AbstractNote | Deleted | Tags | Note | Name | Conditions
    | Other(name: string)

  type Fields = map<Field, Json>
  type Objects = map<Key, Fields>

  datatype Kind = Item | Collection | Search

  datatype Pending = Pending(key: Key, data: Fields, base: nat, version: int)
  datatype Preference = Preference(value: Json, version: nat)
  datatype Index = Index(content: string, indexedChars: nat, totalChars: nat, version: nat)
  datatype Upload = Upload(content: string, mtime: int)

  /**
   One library, its deletion log and the clients' offline queues.
   */
  datatype State = State(
    version: nat,
    items: Objects,
    collections: Objects,
    searches: Objects,
    settings: map<string, Preference>,
    fulltext: map<Key, Index>,
    files: map<Key, Upload>,
    deletedItems: set<Key>,
    deletedCollections: set<Key>,
    deletedSearches: set<Key>,
    deletedSettings: set<string>,
    pending: map<Client, seq<Pending>>,
    access: map<Client, bool>)
  {
    function Objects(kind: Kind): Objects {
      match kind case Item => items case Collection => collections case Search => searches
    }

    function WithObjects(kind: Kind, objects: Objects): State {
      match kind
      case Item => this.(items := objects)
      case Collection => this.(collections := objects)
      case Search => this.(searches := objects)
    }

    function Log(kind: Kind): set<Key> {
      match kind
      case Item => deletedItems
      case Collection => deletedCollections
      case Search => deletedSearches
    }
  }

  const INITIAL := State(0, map[], map[], map[], map[], map[], map[], {}, {}, {}, {},
                         map["A" := [], "B" := []], map["A" := true, "B" := true])

  /**
   `digest` is the md5 of the decoded content, absent when `content` is not base64;
   a `value` of `Null` deletes the setting.
   */
  datatype Operation =
    | Access(client: Client, allowed: bool)
    | Offline(client: Client, key: Key, data: Fields)
    | Flush(client: Client)
    | Save(client: Client, kind: Kind, key: Key, data: Fields)
    | Setting(client: Client, name: string, value: Json)
    | FullText(client: Client, key: Key, content: string)
    | File(client: Client, key: Key, content: string, digest: Option<string>, mtime: int)
    | Delete(client: Client, kind: Kind, key: Key)

  predicate NamesObject(op: Operation) {
    op.Offline? || op.Save? || op.FullText? || op.File? || op.Delete?
  }

  function Get(v: Fields, field: Field): Json {
    if field in v then v[field] else Null
  }

  function VersionOf(v: Fields): int {
    if Get(v, Version).Num? then Get(v, Version).n else 0
  }

  // ---------------------------------------------------------------- links

  /** The object that `key` names as its parent, if it names one. */
  function Parent(objects: Objects, field: Field, key: Key): Option<Key> {
    if key in objects && Get(objects[key], field).Str? && Get(objects[key], field).s != ""
    then Some(Get(objects[key], field).s) else None
  }

  /** The ancestor `n` links above `key`. */
  function Up(objects: Objects, field: Field, key: Key, n: nat): Option<Key>
    decreases n
  {
    if n == 0 then Some(key)
    else match Parent(objects, field, key)
         case None => None
         case Some(p) => Up(objects, field, p, n - 1)
  }

  /** The keys whose parent link names a member of `above`. */
  function Children(objects: Objects, field: Field, above: set<Key>): set<Key> {
    set k | k in objects && Get(objects[k], field).Str? && Get(objects[k], field).s in above
  }

  /** Everything reached from `doomed` by adding children until there are no more. */
  function Subtree(objects: Objects, doomed: set<Key>): (all: set<Key>)
    ensures doomed <= all <= doomed + objects.Keys
    decreases objects.Keys - doomed
  {
    var children := Children(objects, ParentItem, doomed) - doomed;
    if children == {} then doomed
    else
      assert objects.Keys - (doomed + children) < objects.Keys - doomed by {
        var k :| k in children;
        assert k in objects.Keys - doomed;
      }
      Subtree(objects, doomed + children)
  }

  /** The walk up from a proposed parent: ends at a root, meets only live, unseen keys. */
  predicate EndsAtRoot(collections: Objects, seen: set<Key>, parent: Json)
    decreases collections.Keys - seen
  {
    !Truthy(parent) ||
    (parent.Str? && parent.s !in seen && parent.s in collections &&
     assert parent.s in collections.Keys - seen;
     EndsAtRoot(collections, seen + {parent.s}, Get(collections[parent.s], ParentCollection)))
  }

  // ----------------------------------------------------------------- save

  /** A relation given as a one-element list is stored as that element. */
  function Normalized(v: Fields): Fields {
    if Relations in v && v[Relations].Obj? then
      var m := v[Relations].members;
      v[Relations := Obj(map p | p in m ::
        if m[p].Arr? && |m[p].elems| == 1 then m[p].elems[0] else m[p])]
    else v
  }

  /** Every key that iterating over the `collections` value yields is a collection. */
  predicate ListsOnly(v: Fields, collections: Objects) {
    Collections !in v ||
    match v[Collections]
    case Arr(xs) => forall i :: 0 <= i < |xs| ==> xs[i].Str? && xs[i].s in collections
    case Str(s) => forall i :: 0 <= i < |s| ==> [s[i]] in collections
    case Obj(m) => forall k :: k in m ==> k in collections
    case _ => false
  }

  predicate IsChildType(v: Fields) {
    Get(v, ItemType) == Str("note") || Get(v, ItemType) == Str("attachment") ||
    Get(v, ItemType) == Str("annotation")
  }

  /** A note, or an attachment that is not an image embedded in a note. */
  predicate NeedsRegularParent(v: Fields) {
    Get(v, ItemType) == Str("note") ||
    (Get(v, ItemType) == Str("attachment") && Get(v, LinkMode) != Str("embedded_image"))
  }

  predicate HasParent(v: Fields) {
    Truthy(Get(v, ParentItem))
  }

  predicate ItemAccepted(s: State, v: Fields) {
    && ItemType in v
    && (HasParent(v) ==>
          && Get(v, ParentItem).Str?
          && Get(v, ParentItem).s in s.items
          && (NeedsRegularParent(v) ==>
                var parent := s.items[Get(v, ParentItem).s];
                Hashable(Get(parent, ItemType)) && !IsChildType(parent))
          && !Truthy(Get(v, Collections)))
    && (Get(v, ItemType) == Str("annotation") ==>
          && HasParent(v)
          && Get(s.items[Get(v, ParentItem).s], ItemType) == Str("attachment"))
    && ListsOnly(v, s.collections)
  }

  predicate Accepted(s: State, kind: Kind, key: Key, v: Fields) {
    match kind
    case Item => ItemAccepted(s, v)
    case Collection => EndsAtRoot(s.collections, {key}, Get(v, ParentCollection))
    case Search => true
  }

  predicate Effective(previous: Fields, data: Fields) {
    data != map[] &&
    !(previous != map[] && forall f :: f in data ==> Get(previous, f) == data[f])
  }

  function Previous(s: State, kind: Kind, key: Key): Fields {
    if key in s.Objects(kind) then s.Objects(kind)[key] else map[]
  }

  function Stamped(v: Fields, key: Key, version: nat): Fields {
    v[KeyField := Str(key)][Version := Num(version)]
  }

  function SaveObject(s: State, kind: Kind, key: Key, data: Fields, version: nat): Option<State> {
    var previous := Previous(s, kind, key);
    var merged := previous + data;
    if !Effective(previous, data) || (Relations in merged && !merged[Relations].Obj?) then None
    else
      var v := Normalized(merged);
      if !Accepted(s, kind, key, v) then None
      else Some(s.WithObjects(kind, s.Objects(kind)[key := Stamped(v, key, version)]))
  }

  function SaveAll(s: State, queue: seq<Pending>, version: nat): Option<State>
    decreases |queue|
  {
    if queue == [] then Some(s)
    else match SaveObject(s, Item, queue[0].key, queue[0].data, version)
         case None => None
         case Some(t) => SaveAll(t, queue[1..], version)
  }

  // --------------------------------------------------------------- delete

  predicate OccursAt(s: string, part: string, i: nat) {
    i + |part| <= |s| && s[i..i + |part|] == part
  }

  /** What `key in collections` asks of the stored value. */
  predicate Lists(v: Fields, key: Key) {
    match Get(v, Collections)
    case Arr(xs) => Str(key) in xs
    case Str(s) => exists i :: 0 <= i <= |s| && OccursAt(s, key, i)
    case Obj(m) => key in m
    case _ => false
  }

  function RemoveFirst(xs: seq<Json>, x: Json): seq<Json> {
    if xs == [] then [] else if xs[0] == x then xs[1..] else [xs[0]] + RemoveFirst(xs[1..], x)
  }

  function Unfiled(v: Fields, key: Key): Fields {
    if Get(v, Collections).Arr? && Str(key) in v[Collections].elems
    then v[Collections := Arr(RemoveFirst(v[Collections].elems, Str(key)))]
    else v
  }

  function Reparented(v: Fields, key: Key, parent: Json, version: nat): Fields {
    if Get(v, ParentCollection) == Str(key)
    then v[ParentCollection := parent][Version := Num(version)]
    else v
  }

  function GrandParent(collections: Objects, key: Key): Json
    requires key in collections
  {
    if ParentCollection in collections[key] then collections[key][ParentCollection] else Bool(false)
  }

  /** Some client still has an offline edit of one of `keys` to send. */
  predicate Queued(s: State, keys: set<Key>) {
    exists c, i ::
      c in s.pending && 0 <= i < |s.pending[c]| && s.pending[c][i].key in keys
  }

  function DeleteItem(s: State, key: Key): Option<State>
    requires key in s.items
  {
    var doomed := Subtree(s.items, {key});
    if (exists k :: k in s.items && !Hashable(Get(s.items[k], ParentItem))) || Queued(s, doomed)
    then None
    else Some(s.(items := s.items - doomed, files := s.files - doomed,
                 fulltext := s.fulltext - doomed, deletedItems := s.deletedItems + doomed))
  }

  /** The collections once `key` was deleted at version `version`. */
  function Spliced(collections: Objects, key: Key, version: nat): Objects
    requires key in collections
  {
    map k | k in collections && k != key ::
      Reparented(collections[k], key, GrandParent(collections, key), version)
  }

  function DeleteCollection(s: State, key: Key, version: nat): Option<State>
    requires key in s.collections
  {
    if exists k :: k in s.items && Lists(s.items[k], key) && !s.items[k][Collections].Arr? then None
    else
      Some(s.(collections := Spliced(s.collections, key, version),
              items := map k | k in s.items :: Unfiled(s.items[k], key),
              deletedCollections := s.deletedCollections + {key}))
  }

  function DeleteObject(s: State, kind: Kind, key: Key, version: nat): Option<State> {
    if key !in s.Objects(kind) then None
    else match kind
         case Item => DeleteItem(s, key)
         case Collection => DeleteCollection(s, key, version)
         case Search =>
           Some(s.(searches := s.searches - {key}, deletedSearches := s.deletedSearches + {key}))
  }

  // ----------------------------------------------------------------- step

  function ChangeSetting(s: State, name: string, value: Json, version: nat): Option<State> {
    if value == Null then
      if name !in s.settings then None
      else Some(s.(settings := s.settings - {name}, deletedSettings := s.deletedSettings + {name}))
    else if name in s.settings && s.settings[name].value == value then None
    else Some(s.(settings := s.settings[name := Preference(value, version)],
                 deletedSettings := s.deletedSettings - {name}))
  }

  predicate IsAttachment(s: State, key: Key) {
    key in s.items && Get(s.items[key], ItemType) == Str("attachment")
  }

  function ChangeFullText(s: State, key: Key, content: string, version: nat): Option<State> {
    if !IsAttachment(s, key) || (key in s.fulltext && s.fulltext[key].content == content) then None
    else Some(s.(fulltext := s.fulltext[key := Index(content, |content|, |content|, version)]))
  }

  function FileStamped(v: Fields, digest: string, mtime: int, version: nat): Fields {
    v[Md5 := Str(digest)][Mtime := Num(mtime)][ContentType := Str("application/pdf")]
     [Filename := Str("research.pdf")][Version := Num(version)]
  }

  function ChangeFile(s: State, key: Key, content: string, digest: Option<string>, mtime: int,
                      version: nat): Option<State>
  {
    if !IsAttachment(s, key) || digest.None? ||
       (key in s.files && s.files[key].content == content) then None
    else Some(s.(files := s.files[key := Upload(content, mtime)],
                 items := s.items[key := FileStamped(s.items[key], digest.value, mtime, version)]))
  }

  /** The operations that write to the library, before the version is raised. */
  function Write(s: State, op: Operation, version: nat): Option<State>
    requires !op.Access? && !op.Offline? && !op.Flush?
  {
    match op
    case Save(_, kind, key, data) => SaveObject(s, kind, key, data, version)
    case Setting(_, name, value) => ChangeSetting(s, name, value, version)
    case FullText(_, key, content) => ChangeFullText(s, key, content, version)
    case File(_, key, content, digest, mtime) => ChangeFile(s, key, content, digest, mtime, version)
    case Delete(_, kind, key) => DeleteObject(s, kind, key, version)
  }

  function Enqueue(s: State, client: Client, key: Key, data: Fields): Option<State>
    requires client in s.pending
  {
    if || key !in s.items
       || data == map[]
       || (exists f :: f in data && Get(s.items[key], f) == data[f])
       || (exists i :: 0 <= i < |s.pending[client]| && s.pending[client][i].key == key)
    then None
    else Some(s.(pending := s.pending[client := s.pending[client] +
           [Pending(key, data, s.version, VersionOf(s.items[key]))]]))
  }

  function Step(s: State, op: Operation): Option<State> {
    var client := op.client;
    if client !in s.pending || client !in s.access || (NamesObject(op) && !ValidKey(op.key)) then None
    else match op
      case Access(_, allowed) =>
        if allowed == s.access[client] then None
        else Some(s.(access := s.access[client := allowed]))
      case Offline(_, key, data) => Enqueue(s, client, key, data)
      case Flush(_) =>
        if !s.access[client] || s.pending[client] == [] then None
        else (
          match SaveAll(s, s.pending[client], s.version + 1)
          case None => None
          case Some(t) => Some(t.(version := s.version + 1, pending := s.pending[client := []])))
      case _ =>
        if !s.access[client] then None
        else (
          match Write(s, op, s.version + 1)
          case None => None
          case Some(t) => Some(t.(version := s.version + 1)))
  }

  function Run(s: State, ops: seq<Operation>): Option<State>
    decreases |ops|
  {
    if ops == [] then Some(s)
    else match Step(s, ops[0])
         case None => None
         case Some(t) => Run(t, ops[1..])
  }
}
