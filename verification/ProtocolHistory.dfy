/**
 What the deletion log remembers over a whole run.
 */
module ProtocolHistory {
  import opened Common
  import opened Json
  import opened ProtocolSpec

  /** The keys under which a run saved objects of one kind. */
  function SavedKeys(ops: seq<Operation>, kind: Kind): set<Key> {
    set op | op in ops && op.Save? && op.kind == kind :: op.key
  }

  /** The settings a run gave a value. */
  function SetNames(ops: seq<Operation>): set<string> {
    set op | op in ops && op.Setting? && op.value != Null :: op.name
  }

  function Known(s: State, kind: Kind): set<Key> {
    s.Objects(kind).Keys + s.Log(kind)
  }

  /** Queued edits are for items the library has or had. */
  predicate QueuesKnown(s: State) {
    forall c, i :: c in s.pending && 0 <= i < |s.pending[c]| ==> s.pending[c][i].key in Known(s, Item)
  }

  predicate SettingsApart(s: State) {
    s.settings.Keys !! s.deletedSettings
  }

  lemma SavedIsKnown(s: State, kind: Kind, key: Key, data: Fields, version: nat, t: State)
    requires SaveObject(s, kind, key, data, version) == Some(t)
    ensures forall other ::
      Known(t, other) == Known(s, other) + (if other == kind then {key} else {})
    ensures t.pending == s.pending && t.settings == s.settings && t.deletedSettings == s.deletedSettings
  {
  }

  lemma {:induction false} SavedAllIsKnown(s: State, queue: seq<Pending>, version: nat, t: State)
    requires SaveAll(s, queue, version) == Some(t)
    requires forall i :: 0 <= i < |queue| ==> queue[i].key in Known(s, Item)
    ensures forall kind :: Known(t, kind) == Known(s, kind)
    ensures t.pending == s.pending && t.settings == s.settings && t.deletedSettings == s.deletedSettings
    decreases |queue|
  {
    hide SaveObject, Known;
    if queue != [] {
      var next := SaveObject(s, Item, queue[0].key, queue[0].data, version).value;
      SavedIsKnown(s, Item, queue[0].key, queue[0].data, version, next);
      assert Known(next, Item) == Known(s, Item);
      SavedAllIsKnown(next, queue[1..], version, t);
    }
  }

  lemma DeletedIsKnown(s: State, kind: Kind, key: Key, version: nat, t: State)
    requires DeleteObject(s, kind, key, version) == Some(t)
    ensures forall other :: Known(t, other) == Known(s, other)
    ensures t.pending == s.pending && t.settings == s.settings && t.deletedSettings == s.deletedSettings
  {
  }

  lemma SettingIsKnown(s: State, name: string, value: Json, version: nat, t: State)
    requires SettingsApart(s) && ChangeSetting(s, name, value, version) == Some(t)
    ensures SettingsApart(t) && t == s.(settings := t.settings, deletedSettings := t.deletedSettings)
    ensures t.settings.Keys + t.deletedSettings
         == s.settings.Keys + s.deletedSettings + (if value == Null then {} else {name})
  {
  }

  lemma ContentAloneIsKnown(s: State, op: Operation, version: nat, t: State)
    requires SettingsApart(s) && (op.FullText? || op.File?) && Write(s, op, version) == Some(t)
    ensures SettingsApart(t) && t.pending == s.pending && SetNames([op]) == {}
    ensures forall kind :: Known(t, kind) == Known(s, kind) && SavedKeys([op], kind) == {}
    ensures t.settings.Keys + t.deletedSettings == s.settings.Keys + s.deletedSettings
  {
  }

  lemma WriteIsKnown(s: State, op: Operation, version: nat, t: State)
    requires !op.Access? && !op.Offline? && !op.Flush?
    requires SettingsApart(s) && Write(s, op, version) == Some(t)
    ensures SettingsApart(t) && t.pending == s.pending
    ensures forall kind :: Known(t, kind) == Known(s, kind) + SavedKeys([op], kind)
    ensures t.settings.Keys + t.deletedSettings
         == s.settings.Keys + s.deletedSettings + SetNames([op])
  {
    hide SaveObject, DeleteObject, ChangeSetting, ChangeFullText, ChangeFile, Known;
    match op
    case Save(_, kind, key, data) =>
      assert SetNames([op]) == {};
      SavedIsKnown(s, kind, key, data, version, t);
      forall other ensures SavedKeys([op], other) == if other == kind then {key} else {} {
        assert op in [op];
      }
    case Delete(_, kind, key) =>
      assert SetNames([op]) == {};
      DeletedIsKnown(s, kind, key, version, t);
      assert forall other :: SavedKeys([op], other) == {};
    case Setting(_, name, value) =>
      assert op in [op];
      assert SetNames([op]) == if value == Null then {} else {name};
      SettingIsKnown(s, name, value, version, t);
      assert forall other :: SavedKeys([op], other) == {};
      forall other ensures Known(t, other) == Known(s, other) { SameKnown(s, t, other); }
    case FullText(_, _, _) => ContentAloneIsKnown(s, op, version, t);
    case File(_, _, _, _, _) => ContentAloneIsKnown(s, op, version, t);
  }

  lemma SameKnown(s: State, t: State, kind: Kind)
    requires t.Objects(kind).Keys == s.Objects(kind).Keys && t.Log(kind) == s.Log(kind)
    ensures Known(t, kind) == Known(s, kind)
  {
  }

  lemma StepIsKnown(s: State, op: Operation, t: State)
    requires QueuesKnown(s) && SettingsApart(s) && Step(s, op) == Some(t)
    ensures QueuesKnown(t) && SettingsApart(t)
    ensures forall kind :: Known(t, kind) == Known(s, kind) + SavedKeys([op], kind)
    ensures t.settings.Keys + t.deletedSettings
         == s.settings.Keys + s.deletedSettings + SetNames([op])
  {
    hide Write, SaveAll;
    assert op in [op];
    if op.Flush? {
      var w := SaveAll(s, s.pending[op.client], s.version + 1).value;
      SavedAllIsKnown(s, s.pending[op.client], s.version + 1, w);
      assert forall kind :: Known(t, kind) == Known(w, kind);
    } else if !op.Access? && !op.Offline? {
      var w := Write(s, op, s.version + 1).value;
      WriteIsKnown(s, op, s.version + 1, w);
      assert forall kind :: Known(t, kind) == Known(w, kind);
      assert Known(w, Item) == Known(s, Item) + SavedKeys([op], Item);
    }
  }

  lemma {:induction false} RunIsKnown(s: State, ops: seq<Operation>, t: State)
    requires QueuesKnown(s) && SettingsApart(s) && Run(s, ops) == Some(t)
    ensures SettingsApart(t)
    ensures forall kind :: Known(t, kind) == Known(s, kind) + SavedKeys(ops, kind)
    ensures t.settings.Keys + t.deletedSettings
         == s.settings.Keys + s.deletedSettings + SetNames(ops)
    decreases |ops|
  {
    hide Step, Known, QueuesKnown, SettingsApart;
    if ops == [] {
      assert forall kind :: SavedKeys(ops, kind) == {};
    } else {
      var next := Step(s, ops[0]).value;
      StepIsKnown(s, ops[0], next);
      RunIsKnown(next, ops[1..], t);
      assert ops == [ops[0]] + ops[1..];
      forall kind ensures SavedKeys(ops, kind) == SavedKeys([ops[0]], kind) + SavedKeys(ops[1..], kind) {
      }
      assert SetNames(ops) == SetNames([ops[0]]) + SetNames(ops[1..]);
    }
  }

  /**
   After any run the keys ever saved are exactly the live ones and those in the
   deletion log, and a setting that ever had a value is in exactly one of the two.
   */
  lemma NothingIsForgotten(ops: seq<Operation>, t: State)
    requires Run(INITIAL, ops) == Some(t)
    ensures forall kind :: t.Objects(kind).Keys + t.Log(kind) == SavedKeys(ops, kind)
    ensures t.settings.Keys + t.deletedSettings == SetNames(ops)
    ensures t.settings.Keys !! t.deletedSettings
  {
    hide Run;
    RunIsKnown(INITIAL, ops, t);
    forall kind ensures t.Objects(kind).Keys + t.Log(kind) == SavedKeys(ops, kind) {
      assert Known(t, kind) == Known(INITIAL, kind) + SavedKeys(ops, kind);
      match kind case Item => case Collection => case Search =>
    }
  }
}
