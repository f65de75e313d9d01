/**
 Comparing what several sources say a library holds: the canonical form that makes
 unset and absent the same, the differences reported, and the verdict.
 */
module CompareLibraries {
  import opened Common
  import opened Json

  // --------------------------------------------------------- canonical form

  /** The values a dictionary does not keep. */
  predicate IsEmpty(v: Json) {
    v == Str("") || v == Null || v == Arr([]) || v == Obj(map[])
  }

  /** The values a list does not keep. */
  predicate Blank(v: Json) {
    v == Str("") || v == Null
  }

  function Prune(v: Json): Json
    decreases v, 1
  {
    match v
    case Obj(members) =>
      Obj(map name | name in members && !IsEmpty(Prune(members[name])) :: Prune(members[name]))
    case Arr(elems) => Arr(PruneAll(elems))
    case _ => v
  }

  function PruneAll(elems: seq<Json>): seq<Json>
    decreases elems, 0
  {
    if elems == [] then []
    else if Blank(elems[0]) then PruneAll(elems[1..])
    else [Prune(elems[0])] + PruneAll(elems[1..])
  }

  /** A value that says nothing: pruning leaves nothing of it. */
  predicate Vanishes(v: Json)
    decreases v
  {
    match v
    case Obj(members) => forall name :: name in members ==> Vanishes(members[name])
    case Arr(elems) => forall i :: 0 <= i < |elems| ==> Blank(elems[i])
    case _ => Blank(v)
  }

  /** The value a dictionary says something with under `name`. */
  predicate Says(members: map<string, Json>, name: string) {
    name in members && !Vanishes(members[name])
  }

  /** Two values that differ at most in what says nothing. */
  predicate Alike(a: Json, b: Json)
    decreases a, 1
  {
    if a.Obj? && b.Obj? then
      && (forall name :: name in a.members ==>
            (Says(a.members, name) <==> Says(b.members, name)) &&
            (Says(a.members, name) ==> Alike(a.members[name], b.members[name])))
      && (forall name :: name in b.members ==> (Says(b.members, name) ==> Says(a.members, name)))
    else if a.Arr? && b.Arr? then AlikeAll(a.elems, b.elems)
    else a == b
  }

  /** Two lists alike element by element, blanks left out. */
  predicate AlikeAll(xs: seq<Json>, ys: seq<Json>)
    decreases xs, 0, |ys|
  {
    if ys != [] && Blank(ys[0]) then AlikeAll(xs, ys[1..])
    else if xs == [] then ys == []
    else if Blank(xs[0]) then AlikeAll(xs[1..], ys)
    else ys != [] && Alike(xs[0], ys[0]) && AlikeAll(xs[1..], ys[1..])
  }

  lemma {:induction false} PruneAllEmpty(elems: seq<Json>)
    ensures PruneAll(elems) == [] <==> forall i :: 0 <= i < |elems| ==> Blank(elems[i])
  {
    if elems != [] {
      PruneAllEmpty(elems[1..]);
      if Blank(elems[0]) {
        assert forall i :: 1 <= i < |elems| ==> elems[i] == elems[1..][i - 1];
      }
    }
  }

  lemma {:induction false} VanishesExactly(v: Json)
    ensures IsEmpty(Prune(v)) <==> Vanishes(v)
    decreases v
  {
    match v
    case Obj(members) =>
      forall name | name in members ensures IsEmpty(Prune(members[name])) <==> Vanishes(members[name]) {
        VanishesExactly(members[name]);
      }
      var pruned := Prune(v).members;
      if Vanishes(v) {
        assert pruned == map[];
      } else {
        var name :| name in members && !Vanishes(members[name]);
        assert name in pruned;
      }
    case Arr(elems) => PruneAllEmpty(elems);
    case _ =>
  }

  /** What is kept of a list element is never blank itself. */
  lemma PrunedNotBlank(v: Json)
    requires !Blank(v)
    ensures !Blank(Prune(v))
  {
  }

  lemma {:induction false} PruneIdempotent(v: Json)
    ensures Prune(Prune(v)) == Prune(v)
    decreases v, 1
  {
    match v
    case Obj(members) =>
      forall name | name in members ensures Prune(Prune(members[name])) == Prune(members[name]) {
        PruneIdempotent(members[name]);
      }
    case Arr(elems) => PruneAllIdempotent(elems);
    case _ =>
  }

  lemma {:induction false} PruneAllIdempotent(elems: seq<Json>)
    ensures PruneAll(PruneAll(elems)) == PruneAll(elems)
    decreases elems, 0
  {
    if elems != [] {
      PruneAllIdempotent(elems[1..]);
      if !Blank(elems[0]) {
        PrunedNotBlank(elems[0]);
        PruneIdempotent(elems[0]);
        assert PruneAll(elems)[1..] == PruneAll(elems[1..]);
      }
    }
  }

  /** A key whose value says nothing might as well be absent. */
  lemma EmptyKeyIgnored(members: map<string, Json>, name: string, v: Json)
    requires Vanishes(v)
    ensures Prune(Obj(members[name := v])) == Prune(Obj(members - {name}))
  {
    VanishesExactly(v);
  }

  /** Two values have the same canonical form exactly when they differ only in what says nothing. */
  lemma {:induction false} PruneDecides(a: Json, b: Json)
    ensures Prune(a) == Prune(b) <==> Alike(a, b)
    decreases a, 1
  {
    if a.Obj? && b.Obj? {
      var m, n := a.members, b.members;
      forall name | name in m ensures IsEmpty(Prune(m[name])) <==> Vanishes(m[name]) {
        VanishesExactly(m[name]);
      }
      forall name | name in n ensures IsEmpty(Prune(n[name])) <==> Vanishes(n[name]) {
        VanishesExactly(n[name]);
      }
      forall name | name in m && name in n ensures Prune(m[name]) == Prune(n[name]) <==> Alike(m[name], n[name]) {
        PruneDecides(m[name], n[name]);
      }
      var p, q := Prune(a).members, Prune(b).members;
      assert forall name :: name in p <==> Says(m, name);
      assert forall name :: name in q <==> Says(n, name);
      if p == q {
        forall name | name in m
          ensures Says(m, name) <==> Says(n, name)
          ensures Says(m, name) ==> Alike(m[name], n[name])
        {
          assert name in p <==> name in q;
          assert name in p ==> p[name] == q[name];
        }
      }
      if Alike(a, b) {
        assert p.Keys == q.Keys;
        forall name | name in p ensures p[name] == q[name] {
          assert Says(m, name);
        }
        assert p == q;
      }
    } else if a.Arr? && b.Arr? {
      PruneAllDecides(a.elems, b.elems);
    }
  }

  lemma {:induction false} PruneAllDecides(xs: seq<Json>, ys: seq<Json>)
    ensures PruneAll(xs) == PruneAll(ys) <==> AlikeAll(xs, ys)
    decreases xs, 0, |ys|
  {
    if ys != [] && Blank(ys[0]) {
      PruneAllDecides(xs, ys[1..]);
    } else if xs == [] {
    } else if Blank(xs[0]) {
      PruneAllDecides(xs[1..], ys);
    } else if ys != [] {
      PruneDecides(xs[0], ys[0]);
      PruneAllDecides(xs[1..], ys[1..]);
      assert PruneAll(xs)[1..] == PruneAll(xs[1..]) && PruneAll(ys)[1..] == PruneAll(ys[1..]);
    }
  }

  // ------------------------------------------------------------ differences

  /** One canonical object, and one source's objects of a kind by key. */
  type Canonical = map<string, Json>
  type Objects = map<string, Canonical>

  datatype Source = Source(name: string, objects: Objects)

  /** A line of the report: who has and who lacks an object, or what each holds in a field. */
  datatype Line =
    | Absence(key: string, present: seq<string>, absent: seq<string>)
    | Difference(key: string, field: string, values: seq<Option<Json>>)

  function Find(s: Source, key: string): Option<Canonical> {
    if key in s.objects then Some(s.objects[key]) else None
  }

  function FieldOf(s: Source, key: string, field: string): Option<Json> {
    if key in s.objects && field in s.objects[key] then Some(s.objects[key][field]) else None
  }

  predicate AgreeOnKey(sources: seq<Source>, key: string) {
    forall i :: 0 <= i < |sources| ==> Find(sources[i], key) == Find(sources[0], key)
  }

  predicate AgreeOnField(sources: seq<Source>, key: string, field: string) {
    forall i :: 0 <= i < |sources| ==> FieldOf(sources[i], key, field) == FieldOf(sources[0], key, field)
  }

  /** An object nothing is left of counts as absent. */
  predicate Holds(s: Source, key: string) {
    key in s.objects && s.objects[key] != map[]
  }

  function Holders(sources: seq<Source>, key: string, holding: bool): seq<string> {
    if sources == [] then []
    else (if Holds(sources[0], key) == holding then [sources[0].name] else []) + Holders(sources[1..], key, holding)
  }

  predicate HeldByAll(sources: seq<Source>, key: string) {
    forall i :: 0 <= i < |sources| ==> Holds(sources[i], key)
  }

  /** The fields any source has for a key. */
  function FieldsOf(sources: seq<Source>, key: string): set<string> {
    set i, f | 0 <= i < |sources| && key in sources[i].objects && f in sources[i].objects[key] :: f
  }

  function Values(sources: seq<Source>, key: string, field: string): seq<Option<Json>> {
    seq(|sources|, i requires 0 <= i < |sources| => FieldOf(sources[i], key, field))
  }

  /** The lines a key is worth: none, one if some source lacks it, else one for each field at odds. */
  ghost predicate LineFor(sources: seq<Source>, key: string, line: Line) {
    !AgreeOnKey(sources, key) &&
    if HeldByAll(sources, key) then
      exists f :: f in FieldsOf(sources, key) && !AgreeOnField(sources, key, f)
        && line == Difference(key, f, Values(sources, key, f))
    else line == Absence(key, Holders(sources, key, true), Holders(sources, key, false))
  }

  /** Sources at odds about an object they all hold are at odds about one of its fields. */
  lemma SomeFieldDiffers(sources: seq<Source>, key: string)
    requires HeldByAll(sources, key) && !AgreeOnKey(sources, key)
    ensures exists f :: f in FieldsOf(sources, key) && !AgreeOnField(sources, key, f)
  {
    var i :| 0 <= i < |sources| && Find(sources[i], key) != Find(sources[0], key);
    assert Holds(sources[i], key) && Holds(sources[0], key);
    var v, w := sources[i].objects[key], sources[0].objects[key];
    if f :| f in v.Keys + w.Keys && (f in v) != (f in w) {
      assert FieldOf(sources[i], key, f) != FieldOf(sources[0], key, f);
      assert f in FieldsOf(sources, key);
    } else {
      assert v.Keys == w.Keys by {
        assert forall f :: f in v.Keys + w.Keys ==> (f in v) == (f in w);
      }
      assert v != w;
      assert (forall f :: f in v ==> v[f] == w[f]) ==> v == w;
      var f :| f in v && v[f] != w[f];
      assert FieldOf(sources[i], key, f) != FieldOf(sources[0], key, f);
      assert f in FieldsOf(sources, key);
    }
  }

  /** A key gets a line exactly when the sources do not agree on it. */
  lemma LinesExactly(sources: seq<Source>, key: string)
    ensures (exists line :: LineFor(sources, key, line)) <==> !AgreeOnKey(sources, key)
  {
    hide AgreeOnKey, AgreeOnField, FieldsOf, Values, Holders;
    if !AgreeOnKey(sources, key) {
      if HeldByAll(sources, key) {
        SomeFieldDiffers(sources, key);
        var f :| f in FieldsOf(sources, key) && !AgreeOnField(sources, key, f);
        assert LineFor(sources, key, Difference(key, f, Values(sources, key, f)));
      } else {
        assert LineFor(sources, key, Absence(key, Holders(sources, key, true), Holders(sources, key, false)));
      }
    }
  }

  /** Each source is named once, among those that hold the key or among those that lack it. */
  lemma {:induction false} HoldersExactly(sources: seq<Source>, key: string, name: string)
    ensures name in Holders(sources, key, true) <==>
      exists i :: 0 <= i < |sources| && sources[i].name == name
                  && key in sources[i].objects && sources[i].objects[key] != map[]
    ensures name in Holders(sources, key, false) <==>
      exists i :: 0 <= i < |sources| && sources[i].name == name
                  && (key in sources[i].objects ==> sources[i].objects[key] == map[])
    ensures |Holders(sources, key, true)| + |Holders(sources, key, false)| == |sources|
  {
    if sources != [] {
      var rest := sources[1..];
      HoldersExactly(rest, key, name);
      assert forall i :: 0 <= i < |rest| ==> rest[i] == sources[i + 1];
      assert forall i :: 0 < i < |sources| ==> sources[i] == rest[i - 1];
    }
  }

  /**
   What a line says: an object that some source lacks, with who has it and who does not, or
   a field of an object that all hold, with what each has there, if anything.
   */
  lemma LineSays(sources: seq<Source>, key: string, line: Line)
    requires LineFor(sources, key, line)
    ensures line.key == key
    ensures line.Absence? <==>
      exists i :: 0 <= i < |sources| && (key in sources[i].objects ==> sources[i].objects[key] == map[])
    ensures line.Absence? ==>
      && |line.present| + |line.absent| == |sources|
      && (forall name :: name in line.present <==>
            exists i :: 0 <= i < |sources| && sources[i].name == name
                        && key in sources[i].objects && sources[i].objects[key] != map[])
      && (forall name :: name in line.absent <==>
            exists i :: 0 <= i < |sources| && sources[i].name == name
                        && (key in sources[i].objects ==> sources[i].objects[key] == map[]))
    ensures line.Difference? ==>
      && |line.values| == |sources|
      && (forall i :: 0 <= i < |sources| ==>
            && key in sources[i].objects
            && line.values[i] == if line.field in sources[i].objects[key]
                                 then Some(sources[i].objects[key][line.field]) else None)
      && exists i :: 0 <= i < |sources| && line.values[i] != line.values[0]
  {
    hide Holders;
    forall name {
      HoldersExactly(sources, key, name);
    }
    HoldersExactly(sources, key, "");
    if line.Difference? {
      var i :| 0 <= i < |sources| && FieldOf(sources[i], key, line.field) != FieldOf(sources[0], key, line.field);
      assert line.values[i] != line.values[0];
    }
  }

  /** Every field on which two sources that all hold the object differ is due a line. */
  lemma FieldIsDue(sources: seq<Source>, key: string, field: string, i: nat, j: nat)
    requires forall k :: 0 <= k < |sources| ==> key in sources[k].objects && sources[k].objects[key] != map[]
    requires i < |sources| && j < |sources| && field in sources[i].objects[key]
    requires field in sources[j].objects[key] ==> sources[j].objects[key][field] != sources[i].objects[key][field]
    ensures exists line :: LineFor(sources, key, line) && line.Difference? && line.field == field
  {
    assert FieldOf(sources[i], key, field) != FieldOf(sources[j], key, field);
    assert Find(sources[i], key) != Find(sources[j], key);
    assert LineFor(sources, key, Difference(key, field, Values(sources, key, field)));
  }

  function KeysOf(sources: seq<Source>): set<string> {
    set i, k | 0 <= i < |sources| && k in sources[i].objects :: k
  }

  predicate NoRepeats(report: seq<Line>) {
    forall i, j :: 0 <= i < j < |report| ==> report[i] != report[j]
  }

  method FieldDifferences(sources: seq<Source>, key: string) returns (lines: seq<Line>)
    requires HeldByAll(sources, key) && !AgreeOnKey(sources, key)
    ensures forall line :: line in lines <==> LineFor(sources, key, line)
    ensures NoRepeats(lines)
  {
    hide AgreeOnField, FieldsOf, Values, HeldByAll, AgreeOnKey;
    lines := [];
    var todo := FieldsOf(sources, key);
    while todo != {}
      invariant todo <= FieldsOf(sources, key)
      invariant forall line :: line in lines <==>
        exists f :: f in FieldsOf(sources, key) && f !in todo && !AgreeOnField(sources, key, f)
          && line == Difference(key, f, Values(sources, key, f))
      invariant NoRepeats(lines)
    {
      var field :| field in todo;
      if !AgreeOnField(sources, key, field) {
        assert forall line :: line in lines ==> line.field != field;
        lines := lines + [Difference(key, field, Values(sources, key, field))];
      }
      todo := todo - {field};
    }
  }

  /**
   Every object the sources do not agree on, and nothing else: no line at all exactly
   when they agree on every key.
   */
  method Differences(sources: seq<Source>) returns (report: seq<Line>)
    ensures forall line :: line in report <==> exists k :: k in KeysOf(sources) && LineFor(sources, k, line)
    ensures NoRepeats(report)
    ensures report == [] <==> forall k :: AgreeOnKey(sources, k)
  {
    hide AgreeOnKey, LineFor, KeysOf, HeldByAll, Holders;
    report := [];
    var todo := KeysOf(sources);
    while todo != {}
      invariant todo <= KeysOf(sources)
      invariant forall line :: line in report <==>
        exists k :: k in KeysOf(sources) && k !in todo && LineFor(sources, k, line)
      invariant NoRepeats(report)
    {
      var key :| key in todo;
      var lines := LinesAbout(sources, key);
      AppendedApart(sources, report, lines, key, todo);
      report := report + lines;
      todo := todo - {key};
    }
    NoLinesIffAgreed(sources, report);
  }

  method LinesAbout(sources: seq<Source>, key: string) returns (lines: seq<Line>)
    ensures forall line :: line in lines <==> LineFor(sources, key, line)
    ensures NoRepeats(lines)
  {
    if AgreeOnKey(sources, key) {
      lines := [];
    } else if !HeldByAll(sources, key) {
      lines := [Absence(key, Holders(sources, key, true), Holders(sources, key, false))];
    } else {
      lines := FieldDifferences(sources, key);
    }
  }

  lemma LineNamesKey(sources: seq<Source>, key: string, line: Line)
    requires LineFor(sources, key, line)
    ensures line.key == key
  {
  }

  lemma AppendedApart(sources: seq<Source>, report: seq<Line>, lines: seq<Line>, key: string, todo: set<string>)
    requires NoRepeats(report) && NoRepeats(lines) && key in todo
    requires forall line :: line in report ==> exists k :: k !in todo && LineFor(sources, k, line)
    requires forall line :: line in lines ==> LineFor(sources, key, line)
    ensures NoRepeats(report + lines)
  {
    hide LineFor;
    var all := report + lines;
    forall i, j | 0 <= i < j < |all| ensures all[i] != all[j] {
      if i < |report| && j >= |report| {
        assert all[i] in report && all[j] in lines;
        var k :| k !in todo && LineFor(sources, k, all[i]);
        LineNamesKey(sources, k, all[i]);
        LineNamesKey(sources, key, all[j]);
      }
    }
  }

  lemma NoLinesIffAgreed(sources: seq<Source>, report: seq<Line>)
    requires forall line :: line in report <==> exists k :: k in KeysOf(sources) && LineFor(sources, k, line)
    ensures report == [] <==> forall k :: AgreeOnKey(sources, k)
  {
    hide LineFor;
    forall k ensures (exists line :: LineFor(sources, k, line)) <==> !AgreeOnKey(sources, k) {
      LinesExactly(sources, k);
    }
    if report != [] {
      assert report[0] in report;
      var k :| k in KeysOf(sources) && LineFor(sources, k, report[0]);
      assert !AgreeOnKey(sources, k);
    }
    if k :| !AgreeOnKey(sources, k) {
      assert k in KeysOf(sources) by { KnownSomewhere(sources, k); }
      var line :| LineFor(sources, k, line);
      assert line in report;
    }
  }

  lemma KnownSomewhere(sources: seq<Source>, key: string)
    requires !AgreeOnKey(sources, key)
    ensures key in KeysOf(sources)
  {
  }

  // ---------------------------------------------------------------- verdict

  datatype Snapshot = Snapshot(name: string, version: nat, items: Objects, collections: Objects, searches: Objects)

  datatype Kind = Items | Collections | Searches

  function ObjectsOf(s: Snapshot, kind: Kind): Objects {
    match kind case Items => s.items case Collections => s.collections case Searches => s.searches
  }

  function Unversioned(objects: Objects): Objects {
    map k | k in objects :: objects[k] - {"version"}
  }

  function WithoutVersions(s: Snapshot): Snapshot {
    s.(items := Unversioned(s.items), collections := Unversioned(s.collections),
       searches := Unversioned(s.searches))
  }

  function SourcesFor(snapshots: seq<Snapshot>, kind: Kind): seq<Source> {
    seq(|snapshots|, i requires 0 <= i < |snapshots| => Source(snapshots[i].name, ObjectsOf(snapshots[i], kind)))
  }

  /** All sources hold the same objects of every kind. */
  predicate SameObjects(snapshots: seq<Snapshot>) {
    forall i, kind :: 0 <= i < |snapshots| ==> ObjectsOf(snapshots[i], kind) == ObjectsOf(snapshots[0], kind)
  }

  predicate SameVersion(snapshots: seq<Snapshot>) {
    forall i :: 0 <= i < |snapshots| ==> snapshots[i].version == snapshots[0].version
  }

  lemma AgreedIsSame(snapshots: seq<Snapshot>, kind: Kind)
    ensures (forall k :: AgreeOnKey(SourcesFor(snapshots, kind), k))
       <==> forall i :: 0 <= i < |snapshots| ==> ObjectsOf(snapshots[i], kind) == ObjectsOf(snapshots[0], kind)
  {
    var sources := SourcesFor(snapshots, kind);
    if forall k :: AgreeOnKey(sources, k) {
      forall i | 0 <= i < |snapshots| ensures ObjectsOf(snapshots[i], kind) == ObjectsOf(snapshots[0], kind) {
        var a, b := sources[i].objects, sources[0].objects;
        forall k ensures (k in a <==> k in b) && (k in a ==> a[k] == b[k]) {
          assert AgreeOnKey(sources, k);
          assert Find(sources[i], k) == Find(sources[0], k);
        }
        assert a == b;
      }
    } else {
      var k :| !AgreeOnKey(sources, k);
      var i :| 0 <= i < |sources| && Find(sources[i], k) != Find(sources[0], k);
      assert ObjectsOf(snapshots[i], kind) != ObjectsOf(snapshots[0], kind);
    }
  }

  /** The same keys, and under each the same fields with the same values, but for the versions if ignored. */
  ghost predicate Converged(a: Objects, b: Objects, ignoreVersions: bool) {
    && (forall key :: key in a <==> key in b)
    && forall key, field :: key in a && key in b && !(ignoreVersions && field == "version") ==>
         && (field in a[key] <==> field in b[key])
         && (field in a[key] && field in b[key] ==> a[key][field] == b[key][field])
  }

  ghost predicate AllConverged(snapshots: seq<Snapshot>, ignoreVersions: bool) {
    forall i, j :: 0 <= i < |snapshots| && 0 <= j < |snapshots| ==>
      && Converged(snapshots[i].items, snapshots[j].items, ignoreVersions)
      && Converged(snapshots[i].collections, snapshots[j].collections, ignoreVersions)
      && Converged(snapshots[i].searches, snapshots[j].searches, ignoreVersions)
  }

  lemma UnversionedAgree(a: Objects, b: Objects)
    ensures Unversioned(a) == Unversioned(b) <==> Converged(a, b, true)
  {
    var v, w := Unversioned(a), Unversioned(b);
    if v == w {
      forall key ensures key in a <==> key in b {
        assert key in v <==> key in w;
      }
      forall key, field | key in a && key in b && field != "version"
        ensures (field in a[key] <==> field in b[key])
        ensures field in a[key] && field in b[key] ==> a[key][field] == b[key][field]
      {
        assert v[key] == w[key];
        assert field in v[key] <==> field in a[key];
        assert field in w[key] <==> field in b[key];
      }
    }
    if Converged(a, b, true) {
      forall key | key in v ensures key in w && v[key] == w[key] {
        assert forall field :: field in v[key] <==> field in w[key];
      }
      assert v.Keys == w.Keys;
    }
  }

  lemma EqualAgree(a: Objects, b: Objects)
    ensures a == b <==> Converged(a, b, false)
  {
    if Converged(a, b, false) {
      forall key | key in a ensures key in b && a[key] == b[key] {
        assert forall field :: field in a[key] <==> field in b[key];
      }
      assert a.Keys == b.Keys;
    }
  }

  /** What `SameObjects` compares, for two of the sources. */
  lemma SameExactly(snapshots: seq<Snapshot>, compared: seq<Snapshot>, ignoreVersions: bool)
    requires |compared| == |snapshots|
    requires forall i :: 0 <= i < |snapshots| ==>
      compared[i] == if ignoreVersions then WithoutVersions(snapshots[i]) else snapshots[i]
    ensures SameObjects(compared) <==> AllConverged(snapshots, ignoreVersions)
  {
    hide Converged, Unversioned;
    forall i, j | 0 <= i < |snapshots| && 0 <= j < |snapshots|
      ensures SameAs(compared[i], compared[j]) <==>
        && Converged(snapshots[i].items, snapshots[j].items, ignoreVersions)
        && Converged(snapshots[i].collections, snapshots[j].collections, ignoreVersions)
        && Converged(snapshots[i].searches, snapshots[j].searches, ignoreVersions)
    {
      if ignoreVersions {
        UnversionedAgree(snapshots[i].items, snapshots[j].items);
        UnversionedAgree(snapshots[i].collections, snapshots[j].collections);
        UnversionedAgree(snapshots[i].searches, snapshots[j].searches);
      } else {
        EqualAgree(snapshots[i].items, snapshots[j].items);
        EqualAgree(snapshots[i].collections, snapshots[j].collections);
        EqualAgree(snapshots[i].searches, snapshots[j].searches);
      }
    }
    SamePairwise(compared);
  }

  predicate SameAs(a: Snapshot, b: Snapshot) {
    a.items == b.items && a.collections == b.collections && a.searches == b.searches
  }

  lemma SamePairwise(snapshots: seq<Snapshot>)
    ensures SameObjects(snapshots) <==>
      forall i, j :: 0 <= i < |snapshots| && 0 <= j < |snapshots| ==> SameAs(snapshots[i], snapshots[j])
  {
    SameObjectsByKind(snapshots);
    if forall i, j :: 0 <= i < |snapshots| && 0 <= j < |snapshots| ==> SameAs(snapshots[i], snapshots[j]) {
      forall i | 0 <= i < |snapshots| ensures SameAs(snapshots[i], snapshots[0]) {
      }
    }
  }

  /**
   The exit code says whether the sources converged: zero exactly when all hold the same
   objects with the same fields and, unless versions are ignored, are at the same version.
   */
  method Report(snapshots: seq<Snapshot>, ignoreVersions: bool) returns (exitCode: int)
    ensures exitCode == 0 || exitCode == 1
    ensures exitCode == 0 <==>
      && AllConverged(snapshots, ignoreVersions)
      && (ignoreVersions || forall i, j :: 0 <= i < |snapshots| && 0 <= j < |snapshots| ==>
            snapshots[i].version == snapshots[j].version)
  {
    hide AgreeOnKey, SourcesFor, ObjectsOf, WithoutVersions, AllConverged;
    var compared := snapshots;
    if ignoreVersions {
      compared := seq(|snapshots|, i requires 0 <= i < |snapshots| => WithoutVersions(snapshots[i]));
    }
    var divergences := 0;
    if !SameVersion(compared) && !ignoreVersions {
      divergences := divergences + 1;
    }
    var items := Differences(SourcesFor(compared, Items));
    var collections := Differences(SourcesFor(compared, Collections));
    var searches := Differences(SourcesFor(compared, Searches));
    divergences := divergences + |items| + |collections| + |searches|;
    SameExactly(snapshots, compared, ignoreVersions);
    assert divergences == 0 <==> items == [] && collections == [] && searches == []
                                 && (ignoreVersions || SameVersion(snapshots));
    AgreedIsSame(compared, Items);
    AgreedIsSame(compared, Collections);
    AgreedIsSame(compared, Searches);
    assert items == [] && collections == [] && searches == [] <==> SameObjects(compared) by {
      SameObjectsByKind(compared);
    }
    return if divergences > 0 then 1 else 0;
  }

  lemma SameObjectsByKind(snapshots: seq<Snapshot>)
    ensures SameObjects(snapshots) <==>
      && (forall i :: 0 <= i < |snapshots| ==> ObjectsOf(snapshots[i], Items) == ObjectsOf(snapshots[0], Items))
      && (forall i :: 0 <= i < |snapshots| ==>
            ObjectsOf(snapshots[i], Collections) == ObjectsOf(snapshots[0], Collections))
      && (forall i :: 0 <= i < |snapshots| ==> ObjectsOf(snapshots[i], Searches) == ObjectsOf(snapshots[0], Searches))
  {
  }
}
