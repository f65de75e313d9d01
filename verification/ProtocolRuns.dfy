/**
 Building runs of the protocol: one accepted operation after another, and one run
 after another.
 */
module ProtocolRuns {
  import opened Common
  import opened Naming
  import opened ProtocolSpec

  /** What a write asks of its client. */
  predicate May(s: State, client: Client) {
    client in s.pending && client in s.access && s.access[client]
  }

  function Stored(s: State, kind: Kind, key: Key, v: Fields): State {
    s.WithObjects(kind, s.Objects(kind)[key := Stamped(v, key, s.version + 1)]).(version := s.version + 1)
  }

  /** A save whose merged object is acceptable and has no relations. */
  lemma SaveMerged(s: State, kind: Kind, key: Key, data: Fields)
    requires May(s, "A") && ValidKey(key) && Effective(Previous(s, kind, key), data)
    requires Relations !in Previous(s, kind, key) + data
    requires Accepted(s, kind, key, Previous(s, kind, key) + data)
    ensures Step(s, Save("A", kind, key, data)) == Some(Stored(s, kind, key, Previous(s, kind, key) + data))
  {
  }

  /** Saving under a new key, when the payload itself is acceptable. */
  lemma SaveNew(s: State, kind: Kind, key: Key, data: Fields)
    requires May(s, "A") && ValidKey(key) && key !in s.Objects(kind)
    requires data != map[] && Relations !in data && Accepted(s, kind, key, data)
    ensures Step(s, Save("A", kind, key, data)) == Some(Stored(s, kind, key, data))
  {
    hide Accepted, Stamped, ValidKey, Step;
    assert map[] + data == data;
    SaveMerged(s, kind, key, data);
  }

  lemma SaveNewItem(s: State, key: Key, data: Fields) returns (t: State)
    requires May(s, "A") && ValidKey(key) && key !in s.items && Relations !in data && ItemAccepted(s, data)
    ensures Step(s, Save("A", Item, key, data)) == Some(t)
    ensures t == s.(version := s.version + 1, items := s.items[key := Stamped(data, key, s.version + 1)])
  {
    hide Stamped, ValidKey, Step, EndsAtRoot;
    assert data != map[];
    SaveNew(s, Item, key, data);
    t := Stored(s, Item, key, data);
  }

  lemma SaveMergedItem(s: State, key: Key, data: Fields) returns (t: State)
    requires May(s, "A") && ValidKey(key) && key in s.items && Effective(s.items[key], data)
    requires Relations !in s.items[key] + data && ItemAccepted(s, s.items[key] + data)
    ensures Step(s, Save("A", Item, key, data)) == Some(t)
    ensures t == s.(version := s.version + 1,
                    items := s.items[key := Stamped(s.items[key] + data, key, s.version + 1)])
  {
    hide Stamped, ValidKey, Step, EndsAtRoot, Effective, ItemAccepted;
    SaveMerged(s, Item, key, data);
    t := Stored(s, Item, key, s.items[key] + data);
  }

  lemma {:induction false} RunOf(s: State, ops: seq<Operation>, states: seq<State>)
    requires |states| == |ops| + 1 && states[0] == s
    requires forall i :: 0 <= i < |ops| ==> Step(states[i], ops[i]) == Some(states[i + 1])
    ensures Run(s, ops) == Some(states[|ops|])
    decreases |ops|
  {
    hide Step;
    if ops != [] {
      assert Step(states[0], ops[0]) == Some(states[1]);
      forall i | 0 <= i < |ops[1..]| ensures Step(states[1..][i], ops[1..][i]) == Some(states[1..][i + 1]) {
        assert Step(states[i + 1], ops[i + 1]) == Some(states[i + 2]);
      }
      RunOf(states[1], ops[1..], states[1..]);
    }
  }

  lemma {:induction false} RunJoins(s: State, ops: seq<Operation>, m: State, more: seq<Operation>)
    requires Run(s, ops) == Some(m)
    ensures Run(s, ops + more) == Run(m, more)
    decreases |ops|
  {
    hide Step;
    if ops == [] {
      assert ops + more == more;
    } else {
      assert (ops + more)[1..] == ops[1..] + more;
      RunJoins(Step(s, ops[0]).value, ops[1..], m, more);
    }
  }

  lemma RunTwo(s: State, ops: seq<Operation>, m: State, t: State)
    requires |ops| == 2 && Step(s, ops[0]) == Some(m) && Step(m, ops[1]) == Some(t)
    ensures Run(s, ops) == Some(t)
  {
    hide Step;
    RunOf(s, ops, [s, m, t]);
  }

  lemma RunThree(s: State, ops: seq<Operation>, a: State, b: State, t: State)
    requires |ops| == 3 && Step(s, ops[0]) == Some(a) && Step(a, ops[1]) == Some(b) && Step(b, ops[2]) == Some(t)
    ensures Run(s, ops) == Some(t)
  {
    hide Step;
    RunOf(s, ops, [s, a, b, t]);
  }

  lemma RunFour(s: State, ops: seq<Operation>, a: State, b: State, c: State, t: State)
    requires |ops| == 4 && Step(s, ops[0]) == Some(a) && Step(a, ops[1]) == Some(b)
    requires Step(b, ops[2]) == Some(c) && Step(c, ops[3]) == Some(t)
    ensures Run(s, ops) == Some(t)
  {
    hide Step;
    RunOf(s, ops, [s, a, b, c, t]);
  }
}
