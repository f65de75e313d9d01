/**
 The generator of item sequences and the validator that judges them. The two keep
 separate states; the theorem is that the generator's follows the validator's.
 */
module Sequences {
  import opened Common
  import opened Json
  import opened Naming

  datatype Action = MakeCollection | Create | Edit | File | Trash | Delete | Other(name: string)

  /** An operation as the validator reads it: a field that is not given is `Null`. */
  datatype ItemOperation = ItemOperation(action: Action, key: string, title: Json, value: Json)

  const COLLECTION_KEY := "CNLLECT2"

  // -------------------------------------------------------------- validator

  datatype Entry = Entry(title: Json, filed: Json, deleted: Json)

  datatype Replay = Replay(state: map<string, Entry>, seen: set<string>, collection: bool)

  const NOTHING := Replay(map[], {}, false)

  /** What one operation makes of the validator's state, or that it is refused. */
  function Admit(r: Replay, op: ItemOperation): Option<Replay> {
    if !ValidKey(op.key) then None
    else match op.action
      case MakeCollection =>
        if r.collection || op.key != COLLECTION_KEY then None else Some(r.(collection := true))
      case Create =>
        if op.key in r.seen || !op.title.Str? then None
        else Some(r.(seen := r.seen + {op.key},
                     state := r.state[op.key := Entry(op.title, Bool(false), Bool(false))]))
      case Delete =>
        if op.key !in r.state then None else Some(r.(state := r.state - {op.key}))
      case Edit =>
        if op.key !in r.state || !op.title.Str? || r.state[op.key].title == op.title then None
        else Some(r.(state := r.state[op.key := r.state[op.key].(title := op.title)]))
      case File =>
        if op.key !in r.state || !r.collection || !op.value.Bool? || r.state[op.key].filed == op.value
        then None
        else Some(r.(state := r.state[op.key := r.state[op.key].(filed := op.value)]))
      case Trash =>
        if op.key !in r.state || !op.value.Bool? || r.state[op.key].deleted == op.value then None
        else Some(r.(state := r.state[op.key := r.state[op.key].(deleted := op.value)]))
      case Other(_) => None
  }

  function AdmitAll(r: Replay, ops: seq<ItemOperation>): Option<Replay>
    decreases |ops|
  {
    if ops == [] then Some(r)
    else match Admit(r, ops[0])
         case None => None
         case Some(next) => AdmitAll(next, ops[1..])
  }

  predicate Valid(ops: seq<ItemOperation>) {
    ops != [] && AdmitAll(NOTHING, ops).Some?
  }

  // ---------------------------------------------------------- what is valid

  /** What an item has that an operation can set. */
  datatype Aspect = Titled | Filed | Trashed

  /** Whether the operation gives the key that value. */
  predicate Sets(op: ItemOperation, key: string, aspect: Aspect, value: Json) {
    op.key == key &&
    match aspect
    case Titled => (op.action == Create || op.action == Edit) && op.title == value
    case Filed => (op.action == Create && value == Bool(false)) || (op.action == File && op.value == value)
    case Trashed => (op.action == Create && value == Bool(false)) || (op.action == Trash && op.value == value)
  }

  predicate Touches(op: ItemOperation, key: string, aspect: Aspect) {
    op.key == key &&
    match aspect
    case Titled => op.action == Create || op.action == Edit
    case Filed => op.action == Create || op.action == File
    case Trashed => op.action == Create || op.action == Trash
  }

  /** The key was created before operation `n` and not deleted since. */
  ghost predicate LiveAt(ops: seq<ItemOperation>, n: nat, key: string)
    requires n <= |ops|
  {
    exists i :: 0 <= i < n && ops[i].action == Create && ops[i].key == key
                && forall j :: i < j < n ==> !(ops[j].action == Delete && ops[j].key == key)
  }

  /** The last value that an operation before the `n`th gave the key. */
  ghost predicate LastSet(ops: seq<ItemOperation>, n: nat, key: string, aspect: Aspect, value: Json)
    requires n <= |ops|
  {
    exists i :: 0 <= i < n && Sets(ops[i], key, aspect, value)
                && forall j :: i < j < n ==> !Touches(ops[j], key, aspect)
  }

  /** What is asked of the `n`th operation, given the ones before it. */
  ghost predicate Proper(ops: seq<ItemOperation>, n: nat)
    requires n < |ops|
  {
    var op := ops[n];
    && ValidKey(op.key)
    && match op.action
       case MakeCollection => op.key == "CNLLECT2" && forall i :: 0 <= i < n ==> ops[i].action != MakeCollection
       case Create => op.title.Str? && forall i :: 0 <= i < n ==> !(ops[i].action == Create && ops[i].key == op.key)
       case Delete => LiveAt(ops, n, op.key)
       case Edit => LiveAt(ops, n, op.key) && op.title.Str? && !LastSet(ops, n, op.key, Titled, op.title)
       case File =>
         && LiveAt(ops, n, op.key) && (exists i :: 0 <= i < n && ops[i].action == MakeCollection)
         && op.value.Bool? && !LastSet(ops, n, op.key, Filed, op.value)
       case Trash => LiveAt(ops, n, op.key) && op.value.Bool? && !LastSet(ops, n, op.key, Trashed, op.value)
       case Other(_) => false
  }

  ghost predicate AllProper(ops: seq<ItemOperation>, n: nat)
    requires n <= |ops|
  {
    forall i :: 0 <= i < n ==> Proper(ops, i)
  }

  /** What the validator's state says of the operations it has taken. */
  ghost predicate Tells(r: Replay, ops: seq<ItemOperation>, n: nat)
    requires n <= |ops|
  {
    && (r.collection <==> exists i :: 0 <= i < n && ops[i].action == MakeCollection)
    && (forall key :: key in r.seen <==> exists i :: 0 <= i < n && ops[i].action == Create && ops[i].key == key)
    && (forall key :: key in r.state <==> LiveAt(ops, n, key))
    && forall key :: key in r.state ==>
         && LastSet(ops, n, key, Titled, r.state[key].title)
         && LastSet(ops, n, key, Filed, r.state[key].filed)
         && LastSet(ops, n, key, Trashed, r.state[key].deleted)
  }

  lemma SetsTouches(op: ItemOperation, key: string, aspect: Aspect, value: Json)
    requires Sets(op, key, aspect, value)
    ensures Touches(op, key, aspect)
    ensures forall other :: Sets(op, key, aspect, other) ==> other == value
  {
  }

  lemma LastOnce(ops: seq<ItemOperation>, n: nat, key: string, aspect: Aspect, a: Json, b: Json)
    requires n <= |ops| && LastSet(ops, n, key, aspect, a) && LastSet(ops, n, key, aspect, b)
    ensures a == b
  {
    hide Sets, Touches;
    var i :| 0 <= i < n && Sets(ops[i], key, aspect, a) && forall k :: i < k < n ==> !Touches(ops[k], key, aspect);
    var j :| 0 <= j < n && Sets(ops[j], key, aspect, b) && forall k :: j < k < n ==> !Touches(ops[k], key, aspect);
    SetsTouches(ops[i], key, aspect, a);
    SetsTouches(ops[j], key, aspect, b);
  }

  lemma LastNext(ops: seq<ItemOperation>, n: nat, key: string, aspect: Aspect, value: Json)
    requires n < |ops|
    ensures Touches(ops[n], key, aspect) && Sets(ops[n], key, aspect, value) ==>
      LastSet(ops, n + 1, key, aspect, value)
    ensures !Touches(ops[n], key, aspect) && LastSet(ops, n, key, aspect, value) ==>
      LastSet(ops, n + 1, key, aspect, value)
  {
    hide Sets, Touches;
    if !Touches(ops[n], key, aspect) && LastSet(ops, n, key, aspect, value) {
      var i :| 0 <= i < n && Sets(ops[i], key, aspect, value)
               && forall k :: i < k < n ==> !Touches(ops[k], key, aspect);
      assert forall k :: i < k < n + 1 ==> !Touches(ops[k], key, aspect);
    }
  }

  lemma LiveNext(ops: seq<ItemOperation>, n: nat, key: string)
    requires n < |ops|
    ensures LiveAt(ops, n + 1, key) <==>
      if ops[n].key == key && ops[n].action == Create then true
      else if ops[n].key == key && ops[n].action == Delete then false
      else LiveAt(ops, n, key)
  {
    if LiveAt(ops, n, key) && !(ops[n].key == key && ops[n].action == Delete) {
      var i :| 0 <= i < n && ops[i].action == Create && ops[i].key == key
               && forall j :: i < j < n ==> !(ops[j].action == Delete && ops[j].key == key);
      assert forall j :: i < j < n + 1 ==> !(ops[j].action == Delete && ops[j].key == key);
    }
  }

  lemma AdmittedIffProper(r: Replay, ops: seq<ItemOperation>, n: nat)
    requires n < |ops| && Tells(r, ops, n)
    ensures Admit(r, ops[n]).Some? <==> Proper(ops, n)
  {
    hide ValidKey, LiveAt, LastSet;
    var op := ops[n];
    if op.key in r.state {
      var entry := r.state[op.key];
      if LastSet(ops, n, op.key, Titled, op.title) {
        LastOnce(ops, n, op.key, Titled, op.title, entry.title);
      }
      if LastSet(ops, n, op.key, Filed, op.value) {
        LastOnce(ops, n, op.key, Filed, op.value, entry.filed);
      }
      if LastSet(ops, n, op.key, Trashed, op.value) {
        LastOnce(ops, n, op.key, Trashed, op.value, entry.deleted);
      }
    }
  }

  lemma AdmittedTells(r: Replay, ops: seq<ItemOperation>, n: nat, next: Replay)
    requires n < |ops| && Tells(r, ops, n) && Admit(r, ops[n]) == Some(next)
    ensures Tells(next, ops, n + 1)
  {
    hide ValidKey, LiveAt, LastSet;
    forall key ensures key in next.state <==> LiveAt(ops, n + 1, key) {
      LiveNext(ops, n, key);
    }
    forall key | key in next.state
      ensures LastSet(ops, n + 1, key, Titled, next.state[key].title)
      ensures LastSet(ops, n + 1, key, Filed, next.state[key].filed)
      ensures LastSet(ops, n + 1, key, Trashed, next.state[key].deleted)
    {
      LastNext(ops, n, key, Titled, next.state[key].title);
      LastNext(ops, n, key, Filed, next.state[key].filed);
      LastNext(ops, n, key, Trashed, next.state[key].deleted);
    }
  }

  lemma NothingTells(ops: seq<ItemOperation>)
    ensures Tells(NOTHING, ops, 0)
  {
  }

  lemma {:induction false} ReplaysIffProper(ops: seq<ItemOperation>, n: nat)
    requires n <= |ops|
    ensures AdmitAll(NOTHING, ops[..n]).Some? <==> AllProper(ops, n)
    ensures AdmitAll(NOTHING, ops[..n]).Some? ==> Tells(AdmitAll(NOTHING, ops[..n]).value, ops, n)
    decreases n
  {
    hide Admit, Tells, Proper;
    if n == 0 {
      NothingTells(ops);
    } else {
      ReplaysIffProper(ops, n - 1);
      assert ops[..n] == ops[..n - 1] + [ops[n - 1]];
      AdmitAppends(NOTHING, ops[..n - 1], ops[n - 1]);
      if AdmitAll(NOTHING, ops[..n - 1]).Some? {
        var r := AdmitAll(NOTHING, ops[..n - 1]).value;
        AdmittedIffProper(r, ops, n - 1);
        if Admit(r, ops[n - 1]).Some? {
          AdmittedTells(r, ops, n - 1, Admit(r, ops[n - 1]).value);
        }
      }
    }
  }

  /** A sequence is valid exactly when it has operations and each is proper after those before it. */
  lemma ValidIffProper(ops: seq<ItemOperation>)
    ensures Valid(ops) <==> ops != [] && forall n :: 0 <= n < |ops| ==> Proper(ops, n)
  {
    hide Proper;
    ReplaysIffProper(ops, |ops|);
    assert ops[..|ops|] == ops;
  }

  method ValidSequence(operations: seq<ItemOperation>) returns (valid: bool)
    ensures valid == Valid(operations)
    ensures valid <==> operations != [] && forall n :: 0 <= n < |operations| ==> Proper(operations, n)
  {
    hide Proper;
    ValidIffProper(operations);
    if operations == [] {
      return false;
    }
    var state: map<string, Entry>, seen: set<string>, collection := map[], {}, false;
    for i := 0 to |operations|
      invariant AdmitAll(Replay(state, seen, collection), operations[i..]) == AdmitAll(NOTHING, operations)
    {
      var op := operations[i];
      assert operations[i..][0] == op && operations[i..][1..] == operations[i + 1..];
      if !ValidKey(op.key) {
        return false;
      }
      match op.action {
        case MakeCollection =>
          if collection || op.key != COLLECTION_KEY {
            return false;
          }
          collection := true;
        case Create =>
          if op.key in seen || !op.title.Str? {
            return false;
          }
          seen := seen + {op.key};
          state := state[op.key := Entry(op.title, Bool(false), Bool(false))];
        case Delete =>
          if op.key !in state {
            return false;
          }
          state := state - {op.key};
        case Edit =>
          if op.key !in state || !op.title.Str? || state[op.key].title == op.title {
            return false;
          }
          state := state[op.key := state[op.key].(title := op.title)];
        case File =>
          if op.key !in state || !collection || !op.value.Bool? || state[op.key].filed == op.value {
            return false;
          }
          state := state[op.key := state[op.key].(filed := op.value)];
        case Trash =>
          if op.key !in state || !op.value.Bool? || state[op.key].deleted == op.value {
            return false;
          }
          state := state[op.key := state[op.key].(deleted := op.value)];
        case Other(_) =>
          return false;
      }
    }
    assert operations[|operations|..] == [];
    return true;
  }

  // -------------------------------------------------------------- generator

  datatype Flags = Flags(filed: bool, deleted: bool)

  /** The random source: an action for every step, and a choice among the live keys. */
  datatype Choices = Choices(action: nat -> Action, pick: (nat, set<string>) -> string)

  ghost predicate FairChoices(c: Choices) {
    && (forall i :: c.action(i) in {Create, Edit, File, Trash, Delete})
    && (forall i, keys :: keys != {} ==> c.pick(i, keys) in keys)
  }

  function StepTitle(seed: int, index: nat): string {
    "seed " + Signed(seed) + ", step " + Decimal(index) + ": \U{dc}ber \U{6771}\U{4eac}"
  }

  function SeqKey(index: nat): string {
    NumberedKey("SEQ", index + 2)
  }

  lemma StepTitlesDiffer(seed: int, i: nat, j: nat)
    requires StepTitle(seed, i) == StepTitle(seed, j)
    ensures i == j
  {
    NumberedTextsDiffer("seed " + Signed(seed) + ", step ", i, j, ": \U{dc}ber \U{6771}\U{4eac}");
  }

  /** The validator's entry for a key the generator believes to be in state `flags`. */
  ghost predicate Follows(entry: Entry, flags: Flags, seed: int, bound: nat) {
    && entry.filed == Bool(flags.filed) && entry.deleted == Bool(flags.deleted)
    && exists j: nat :: j < bound && entry.title == Str(StepTitle(seed, j))
  }

  ghost predicate Simulates(state: map<string, Flags>, r: Replay, seed: int, bound: nat) {
    && r.collection && r.state.Keys == state.Keys
    && (forall k :: k in state ==> Follows(r.state[k], state[k], seed, bound))
    && (forall k :: k in r.seen ==> ValidKey(k) && exists j: nat :: j < bound && k == SeqKey(j))
    && state.Keys <= r.seen
  }

  lemma {:induction false} AdmitAppends(r: Replay, ops: seq<ItemOperation>, op: ItemOperation)
    ensures AdmitAll(r, ops + [op]) ==
            match AdmitAll(r, ops) case None => None case Some(m) => Admit(m, op)
    decreases |ops|
  {
    hide Admit;
    if ops == [] {
      assert ops + [op] == [op];
      if Admit(r, op).Some? {
        assert AdmitAll(Admit(r, op).value, []) == Admit(r, op);
      }
    } else {
      assert (ops + [op])[1..] == ops[1..] + [op];
      if Admit(r, ops[0]).Some? {
        AdmitAppends(Admit(r, ops[0]).value, ops[1..], op);
      }
    }
  }

  lemma SeqKeysDiffer(i: nat, j: nat)
    requires ValidKey(SeqKey(i)) && SeqKey(i) == SeqKey(j)
    ensures i == j
  {
    hide ValidKey, NumberedKey;
    if i + 2 > 99999 {
      NumberedKeyTooLong("SEQ", i + 2);
    } else if j + 2 > 99999 {
      NumberedKeyTooLong("SEQ", j + 2);
    } else {
      NumberedKeysDiffer("SEQ", i + 2, j + 2);
    }
  }

  lemma SeqKeyValid(index: nat)
    ensures ValidKey(SeqKey(index)) <==> index + 2 <= 99999
  {
    hide ValidKey, NumberedKey;
    if index + 2 <= 99999 {
      assert forall i :: 0 <= i < 3 ==> "SEQ"[i] in KEY_ALPHABET by {
        assert KEY_ALPHABET[25] == 'S' && KEY_ALPHABET[12] == 'E' && KEY_ALPHABET[23] == 'Q';
      }
      NumberedKeyValid("SEQ", index + 2);
    } else {
      NumberedKeyTooLong("SEQ", index + 2);
    }
  }

  /** The first item key, and one whose number has both digits that are replaced. */
  lemma FirstKeys()
    ensures SeqKey(0) == "SEQAAAA2" && SeqKey(8) == "SEQAAABA"
  {
    hide Padded;
    PaddedStep(0, 1);
    PaddedStep(0, 2);
    PaddedStep(0, 3);
    PaddedStep(0, 4);
    PaddedStep(1, 4);
    PaddedStep(2, 5);
    PaddedStep(10, 5);
    assert Padded(0, 3) == "000";
    assert Padded(2, 5) == "00002" && Padded(10, 5) == "00010";
  }

  lemma PaddedStep(n: nat, width: nat)
    ensures width > 1 ==> Padded(n, width) == Padded(n / 10, width - 1) + [Digit(n % 10)]
    ensures n < 10 ==> Padded(n, 1) == [Digit(n)]
  {
  }

  lemma CollectionKeyValid()
    ensures ValidKey(COLLECTION_KEY)
  {
  }

  lemma CreateFollows(state: map<string, Flags>, r: Replay, seed: int, index: nat)
    requires Simulates(state, r, seed, index) && index + 2 <= 99999
    ensures var op := ItemOperation(Create, SeqKey(index), Str(StepTitle(seed, index)), Null);
            var after := state[SeqKey(index) := Flags(false, false)];
            Admit(r, op).Some? && Simulates(after, Admit(r, op).value, seed, index + 1)
  {
    hide StepTitle, SeqKey, ValidKey;
    SeqKeyValid(index);
    var key := SeqKey(index);
    if key in r.seen {
      var j: nat :| j < index && key == SeqKey(j);
      SeqKeysDiffer(index, j);
    }
    var next := Admit(r, ItemOperation(Create, key, Str(StepTitle(seed, index)), Null)).value;
    var after := state[key := Flags(false, false)];
    forall k | k in after ensures Follows(next.state[k], after[k], seed, index + 1) {
      if k != key {
        assert Follows(r.state[k], state[k], seed, index);
      }
    }
  }

  lemma EntryFollows(entry: Entry, flags: Flags, seed: int, index: nat)
    requires Follows(entry, flags, seed, index)
    ensures Follows(entry, flags, seed, index + 1)
    ensures Follows(entry.(title := Str(StepTitle(seed, index))), flags, seed, index + 1)
    ensures Follows(entry.(filed := Bool(!flags.filed)), flags.(filed := !flags.filed), seed, index + 1)
    ensures Follows(entry.(deleted := Bool(!flags.deleted)), flags.(deleted := !flags.deleted), seed, index + 1)
    ensures entry.title != Str(StepTitle(seed, index))
    ensures entry.filed == Bool(flags.filed) && entry.deleted == Bool(flags.deleted)
  {
    hide StepTitle;
    var j: nat :| j < index && entry.title == Str(StepTitle(seed, j));
    if StepTitle(seed, j) == StepTitle(seed, index) {
      StepTitlesDiffer(seed, j, index);
    }
  }

  lemma ChangeFollows(state: map<string, Flags>, r: Replay, seed: int, index: nat, op: ItemOperation,
                      after: map<string, Flags>)
    requires Simulates(state, r, seed, index) && op.key in state
    requires match op.action
      case Edit => op.title == Str(StepTitle(seed, index)) && after == state
      case File => op.value == Bool(!state[op.key].filed)
                   && after == state[op.key := state[op.key].(filed := !state[op.key].filed)]
      case Trash => op.value == Bool(!state[op.key].deleted)
                    && after == state[op.key := state[op.key].(deleted := !state[op.key].deleted)]
      case Delete => after == state - {op.key}
      case _ => false
    ensures Admit(r, op).Some? && Simulates(after, Admit(r, op).value, seed, index + 1)
  {
    hide StepTitle, SeqKey, ValidKey, Follows;
    EntryFollows(r.state[op.key], state[op.key], seed, index);
    var next := Admit(r, op).value;
    forall k | k in after ensures Follows(next.state[k], after[k], seed, index + 1) {
      EntryFollows(r.state[k], state[k], seed, index);
    }
  }

  // ------------------------------------------------------------ what it makes

  /** The operations made so far, and what the generator believes of the items they leave. */
  datatype Made = Made(ops: seq<ItemOperation>, state: map<string, Flags>)

  function ActionAt(choices: Choices, state: map<string, Flags>, index: nat): Action {
    if state == map[] then Create else choices.action(index)
  }

  ghost function Taken(seed: int, choices: Choices, m: Made, index: nat): Made
    requires FairChoices(choices)
  {
    var action := ActionAt(choices, m.state, index);
    var key := if action == Create then SeqKey(index) else choices.pick(index, m.state.Keys);
    var title := Str(StepTitle(seed, index));
    if action == Create then
      Made(m.ops + [ItemOperation(Create, key, title, Null)], m.state[key := Flags(false, false)])
    else
      var flags := m.state[key];
      if action == Delete then
        Made(m.ops + [ItemOperation(Delete, key, Null, Null)], m.state - {key})
      else if action == Edit then
        Made(m.ops + [ItemOperation(Edit, key, title, Null)], m.state)
      else if action == File then
        Made(m.ops + [ItemOperation(File, key, Null, Bool(!flags.filed))],
             m.state[key := flags.(filed := !flags.filed)])
      else
        Made(m.ops + [ItemOperation(Trash, key, Null, Bool(!flags.deleted))],
             m.state[key := flags.(deleted := !flags.deleted)])
  }

  /** What the generator has after the collection and `n` more operations. */
  ghost function Generated(seed: int, choices: Choices, n: nat): (m: Made)
    requires FairChoices(choices)
    ensures |m.ops| == n + 1
  {
    if n == 0 then Made([ItemOperation(MakeCollection, COLLECTION_KEY, Null, Null)], map[])
    else Taken(seed, choices, Generated(seed, choices, n - 1), n - 1)
  }

  /** What the generator believes is what the operations made so far say of each key. */
  ghost predicate Knows(m: Made) {
    && (forall key :: key in m.state <==> LiveAt(m.ops, |m.ops|, key))
    && forall key :: key in m.state ==>
         && LastSet(m.ops, |m.ops|, key, Filed, Bool(m.state[key].filed))
         && LastSet(m.ops, |m.ops|, key, Trashed, Bool(m.state[key].deleted))
  }

  lemma LiveLonger(ops: seq<ItemOperation>, op: ItemOperation, key: string)
    ensures LiveAt(ops + [op], |ops|, key) <==> LiveAt(ops, |ops|, key)
  {
    assert forall i :: 0 <= i < |ops| ==> (ops + [op])[i] == ops[i];
  }

  lemma LastLonger(ops: seq<ItemOperation>, op: ItemOperation, key: string, aspect: Aspect, value: Json)
    requires LastSet(ops, |ops|, key, aspect, value)
    ensures LastSet(ops + [op], |ops|, key, aspect, value)
  {
    hide Sets, Touches;
    var i :| 0 <= i < |ops| && Sets(ops[i], key, aspect, value)
             && forall j :: i < j < |ops| ==> !Touches(ops[j], key, aspect);
    assert (ops + [op])[i] == ops[i];
  }

  lemma TakenKnows(seed: int, choices: Choices, m: Made, index: nat)
    requires FairChoices(choices) && Knows(m)
    ensures Knows(Taken(seed, choices, m, index))
  {
    hide LiveAt, LastSet, StepTitle, SeqKey;
    TakenAppends(seed, choices, m, index);
    var t := Taken(seed, choices, m, index);
    var op, n := t.ops[|m.ops|], |m.ops|;
    forall key ensures key in t.state <==> LiveAt(t.ops, n + 1, key) {
      LiveNext(t.ops, n, key);
      LiveLonger(m.ops, op, key);
    }
    forall key | key in t.state
      ensures LastSet(t.ops, n + 1, key, Filed, Bool(t.state[key].filed))
      ensures LastSet(t.ops, n + 1, key, Trashed, Bool(t.state[key].deleted))
    {
      LastNext(t.ops, n, key, Filed, Bool(t.state[key].filed));
      LastNext(t.ops, n, key, Trashed, Bool(t.state[key].deleted));
      if key in m.state {
        LastLonger(m.ops, op, key, Filed, Bool(m.state[key].filed));
        LastLonger(m.ops, op, key, Trashed, Bool(m.state[key].deleted));
      }
    }
  }

  lemma {:induction false} GeneratedKnows(seed: int, choices: Choices, n: nat)
    requires FairChoices(choices)
    ensures Knows(Generated(seed, choices, n))
  {
    hide Taken, Knows;
    if n == 0 {
      StartKnows(Generated(seed, choices, 0));
    } else {
      GeneratedKnows(seed, choices, n - 1);
      TakenKnows(seed, choices, Generated(seed, choices, n - 1), n - 1);
    }
  }

  lemma StartKnows(m: Made)
    requires m == Made([ItemOperation(MakeCollection, COLLECTION_KEY, Null, Null)], map[])
    ensures Knows(m)
  {
  }

  /** The operation that choice number `n` makes of the operations before it. */
  ghost predicate FollowsChoice(ops: seq<ItemOperation>, op: ItemOperation, seed: int, choices: Choices, n: nat) {
    exists live: set<string> ::
      && (forall key :: key in live <==> LiveAt(ops, |ops|, key))
      && FollowsAmong(ops, op, live, seed, choices, n)
  }

  ghost predicate FollowsAmong(ops: seq<ItemOperation>, op: ItemOperation, live: set<string>, seed: int,
                               choices: Choices, n: nat)
  {
    && op.action == (if live == {} then Create else choices.action(n))
    && op.key == (if op.action == Create then SeqKey(n) else choices.pick(n, live))
    && op.title == (if op.action == Create || op.action == Edit then Str(StepTitle(seed, n)) else Null)
    && (op.action == File ==> op.value.Bool? && LastSet(ops, |ops|, op.key, Filed, Bool(!op.value.b)))
    && (op.action == Trash ==> op.value.Bool? && LastSet(ops, |ops|, op.key, Trashed, Bool(!op.value.b)))
    && (op.action != File && op.action != Trash ==> op.value == Null)
  }

  /** Operation `i`, not counting the collection, is what choice `i` makes. */
  ghost predicate FollowsAt(ops: seq<ItemOperation>, i: nat, seed: int, choices: Choices) {
    i + 1 < |ops| && FollowsChoice(ops[..i + 1], ops[i + 1], seed, choices, i)
  }

  lemma TakenFollowsChoice(seed: int, choices: Choices, m: Made, index: nat)
    requires FairChoices(choices) && Knows(m)
    ensures |Taken(seed, choices, m, index).ops| == |m.ops| + 1
    ensures FollowsChoice(m.ops, Taken(seed, choices, m, index).ops[|m.ops|], seed, choices, index)
  {
    hide LiveAt, LastSet, StepTitle, SeqKey;
    var op, live := Taken(seed, choices, m, index).ops[|m.ops|], m.state.Keys;
    assert live == {} <==> m.state == map[];
    assert op.action == File ==> Bool(!op.value.b) == Bool(m.state[op.key].filed);
    assert op.action == Trash ==> Bool(!op.value.b) == Bool(m.state[op.key].deleted);
    assert FollowsAmong(m.ops, op, live, seed, choices, index);
  }

  /** The collection comes first, and each further operation is the one its choice makes. */
  lemma {:induction false} GeneratedFollowsChoices(seed: int, choices: Choices, n: nat, i: nat)
    requires FairChoices(choices) && i < n
    ensures var ops := Generated(seed, choices, n).ops;
            && ops[0] == ItemOperation(MakeCollection, "CNLLECT2", Null, Null)
            && FollowsAt(ops, i, seed, choices)
    decreases n
  {
    hide FollowsChoice, Taken, Knows;
    var m := Generated(seed, choices, n - 1);
    var ops := Generated(seed, choices, n).ops;
    GeneratedKnows(seed, choices, n - 1);
    TakenAppends(seed, choices, m, n - 1);
    TakenFollowsChoice(seed, choices, m, n - 1);
    assert ops[..n] == m.ops;
    if n > 1 {
      GeneratedFollowsChoices(seed, choices, n - 1, if i < n - 1 then i else 0);
      assert ops[0] == m.ops[0];
      if i < n - 1 {
        assert ops[..i + 1] == m.ops[..i + 1] && ops[i + 1] == m.ops[i + 1];
      }
    } else {
      assert m == Generated(seed, choices, 0);
      assert ops[..1] == m.ops && ops[0] == ops[..1][0] == m.ops[0];
      assert FollowsChoice(ops[..i + 1], ops[i + 1], seed, choices, i);
    }
  }

  /** How many items are left after `n` choices, read off the choices alone. */
  function Live(choices: Choices, n: nat): nat {
    if n == 0 then 0
    else
      var before := Live(choices, n - 1);
      if before == 0 || choices.action(n - 1) == Create then before + 1
      else if choices.action(n - 1) == Delete then before - 1
      else before
  }

  predicate CreatesAt(choices: Choices, index: nat) {
    Live(choices, index) == 0 || choices.action(index) == Create
  }

  /** The choices make an item under a number that does not fit a key. */
  predicate Outgrows(choices: Choices, steps: nat) {
    exists index :: 0 <= index < steps - 1 && index + 2 > 99999 && CreatesAt(choices, index)
  }

  lemma FirstReplay() returns (r: Replay)
    ensures AdmitAll(NOTHING, [ItemOperation(MakeCollection, COLLECTION_KEY, Null, Null)]) == Some(r)
    ensures forall seed :: Simulates(map[], r, seed, 0)
  {
    CollectionKeyValid();
    hide ValidKey;
    r := NOTHING.(collection := true);
    assert AdmitAll(r, []) == Some(r);
  }

  lemma TooLongRefused(r: Replay, op: ItemOperation, index: nat)
    requires op.key == SeqKey(index) && index + 2 > 99999
    ensures Admit(r, op) == None
  {
    hide ValidKey, SeqKey;
    SeqKeyValid(index);
  }

  /** The operation that `Taken` adds, and what the validator makes of it. */
  lemma TakenFollows(seed: int, choices: Choices, m: Made, index: nat, r: Replay) returns (op: ItemOperation)
    requires FairChoices(choices) && Simulates(m.state, r, seed, index) && |m.state| == Live(choices, index)
    ensures Taken(seed, choices, m, index).ops == m.ops + [op]
    ensures CreatesAt(choices, index) && index + 2 > 99999 ==> Admit(r, op) == None
    ensures !(CreatesAt(choices, index) && index + 2 > 99999) ==>
      && Admit(r, op).Some? && |Taken(seed, choices, m, index).state| == Live(choices, index + 1)
      && Simulates(Taken(seed, choices, m, index).state, Admit(r, op).value, seed, index + 1)
  {
    hide StepTitle, SeqKey, Admit, Simulates;
    var t := Taken(seed, choices, m, index);
    op := t.ops[|m.ops|];
    var action := ActionAt(choices, m.state, index);
    assert action == Create <==> CreatesAt(choices, index) by { assert m.state == map[] <==> |m.state| == 0; }
    if action != Create {
      assert m.state.Keys != {};
      ChangeFollows(m.state, r, seed, index, op, t.state);
      SizeChanged(m.state, op.key, if op.key in t.state then t.state[op.key] else m.state[op.key]);
    } else if index + 2 <= 99999 {
      CreateFollows(m.state, r, seed, index);
      SizeGrown(m.state, r, seed, index);
    } else {
      TooLongRefused(r, op, index);
    }
  }

  lemma SizeChanged(state: map<string, Flags>, key: string, flags: Flags)
    requires key in state
    ensures |state - {key}| == |state| - 1 && |state[key := flags]| == |state|
  {
    assert state == (state - {key})[key := state[key]];
    assert state[key := flags] == (state - {key})[key := flags];
  }

  lemma SizeGrown(state: map<string, Flags>, r: Replay, seed: int, index: nat)
    requires Simulates(state, r, seed, index) && index + 2 <= 99999
    ensures |state[SeqKey(index) := Flags(false, false)]| == |state| + 1
  {
    hide SeqKey, Follows, ValidKey;
    if SeqKey(index) in state {
      assert SeqKey(index) in r.seen;
      var j: nat :| j < index && SeqKey(index) == SeqKey(j);
      SeqKeysDiffer(index, j);
    }
  }

  /** The validator follows the generator until it makes a key that is too long. */
  lemma {:induction false} GeneratedFollows(seed: int, choices: Choices, n: nat) returns (r: Replay)
    requires FairChoices(choices)
    ensures Outgrows(choices, n + 1) ==> AdmitAll(NOTHING, Generated(seed, choices, n).ops) == None
    ensures !Outgrows(choices, n + 1) ==>
      && AdmitAll(NOTHING, Generated(seed, choices, n).ops) == Some(r)
      && Simulates(Generated(seed, choices, n).state, r, seed, n)
      && |Generated(seed, choices, n).state| == Live(choices, n)
  {
    hide Admit, Simulates, CreatesAt, Taken, SeqKey, StepTitle;
    if n == 0 {
      r := FirstReplay();
    } else {
      var m := Generated(seed, choices, n - 1);
      r := GeneratedFollows(seed, choices, n - 1);
      TakenAppends(seed, choices, m, n - 1);
      var op := Taken(seed, choices, m, n - 1).ops[n];
      AdmitAppends(NOTHING, m.ops, op);
      OutgrowsNext(choices, n);
      if !Outgrows(choices, n) {
        var made := TakenFollows(seed, choices, m, n - 1, r);
        assert made == op by { assert (m.ops + [made])[n] == (m.ops + [op])[n]; }
        if Admit(r, op).Some? {
          r := Admit(r, op).value;
        }
      }
    }
  }

  lemma TakenAppends(seed: int, choices: Choices, m: Made, index: nat)
    requires FairChoices(choices)
    ensures var ops := Taken(seed, choices, m, index).ops;
            |ops| == |m.ops| + 1 && ops == m.ops + [ops[|m.ops|]]
  {
  }

  lemma OutgrowsNext(choices: Choices, n: nat)
    requires n > 0
    ensures Outgrows(choices, n + 1) <==>
      Outgrows(choices, n) || (CreatesAt(choices, n - 1) && n + 1 > 99999)
  {
    hide CreatesAt;
    if CreatesAt(choices, n - 1) && n + 1 > 99999 {
      assert 0 <= n - 1 < n + 1 - 1;
    }
  }

  /** For one source: valid exactly when its choices make nothing under a number above 99999. */
  lemma GeneratedIsValidIff(seed: int, choices: Choices, steps: nat)
    requires FairChoices(choices) && steps >= 2
    ensures Valid(Generated(seed, choices, steps - 1).ops) <==> !Outgrows(choices, steps)
  {
    hide Outgrows, Admit, Simulates;
    var r := GeneratedFollows(seed, choices, steps - 1);
  }

  ghost function Any(keys: set<string>): (key: string)
    ensures keys != {} ==> key in keys
  {
    if keys == {} then "" else var key :| key in keys; key
  }

  /** For all sources: every one yields a valid sequence exactly up to 99999 steps. */
  lemma EverySourceIff(seed: int, steps: nat)
    requires steps >= 2
    ensures (forall choices :: FairChoices(choices) ==> Valid(Generated(seed, choices, steps - 1).ops))
       <==> steps <= 99999
  {
    hide Valid, Generated;
    forall choices | FairChoices(choices)
      ensures steps <= 99999 ==> Valid(Generated(seed, choices, steps - 1).ops)
    {
      GeneratedIsValidIff(seed, choices, steps);
    }
    if steps > 99999 {
      var creator := AlwaysCreate();
      GeneratedIsValidIff(seed, creator, steps);
      assert CreatesAt(creator, steps - 2);
      assert !Valid(Generated(seed, creator, steps - 1).ops);
    }
  }

  ghost function AlwaysCreate(): (c: Choices)
    ensures FairChoices(c) && forall i :: c.action(i) == Create
  {
    Choices(i => Create, (i, keys) => Any(keys))
  }

  /**
   For every answer of the random source the generator returns exactly `steps`
   operations. The validator accepts them precisely when the choices make no item under
   a number above 99999, and so always up to 99999 steps.
   */
  method GenerateSequence(seed: int, steps: nat, choices: Choices) returns (result: Option<seq<ItemOperation>>)
    requires FairChoices(choices)
    ensures result.None? <==> steps < 2
    ensures result.Some? ==> result.value == Generated(seed, choices, steps - 1).ops
    ensures result.Some? ==> |result.value| == steps && (Valid(result.value) <==> !Outgrows(choices, steps))
    ensures result.Some? && steps <= 99999 ==> Valid(result.value)
    ensures result.Some? ==>
      && result.value[0] == ItemOperation(MakeCollection, "CNLLECT2", Null, Null)
      && forall i :: 0 <= i < steps - 1 ==> FollowsAt(result.value, i, seed, choices)
  {
    hide StepTitle, SeqKey, Valid, FollowsAt;
    if steps < 2 {
      return None;
    }
    var ops := [ItemOperation(MakeCollection, COLLECTION_KEY, Null, Null)];
    var state: map<string, Flags> := map[];
    for index := 0 to steps - 1
      invariant Made(ops, state) == Generated(seed, choices, index)
    {
      var action := if state != map[] then choices.action(index) else Create;
      var key := if action != Create then choices.pick(index, state.Keys) else SeqKey(index);
      var op := ItemOperation(action, key, Null, Null);
      if action == Create {
        state := state[key := Flags(false, false)];
      } else if action == Delete {
        state := state - {key};
      } else if action == File {
        state := state[key := state[key].(filed := !state[key].filed)];
        op := op.(value := Bool(state[key].filed));
      } else if action == Trash {
        state := state[key := state[key].(deleted := !state[key].deleted)];
        op := op.(value := Bool(state[key].deleted));
      }
      if action == Create || action == Edit {
        op := op.(title := Str(StepTitle(seed, index)));
      }
      ops := ops + [op];
    }
    GeneratedIsValidIff(seed, choices, steps);
    forall i | 0 <= i < steps - 1
      ensures FollowsAt(ops, i, seed, choices)
    {
      GeneratedFollowsChoices(seed, choices, steps - 1, i);
    }
    GeneratedFollowsChoices(seed, choices, steps - 1, 0);
    return Some(ops);
  }
}
