/**
 Replaying a sequence, and shrinking it when the replay breaks an invariant. A replay
 is a function of the steps: it runs against a fresh server.
 */
module SequenceRunner {
  import opened Common
  import opened Shrinker

  /** What a failed replay reports: the invariant it broke, and how. */
  datatype Failure<I> = Failure(broken: I, detail: string)

  datatype Report<Op, I> = Report(
    passed: bool,
    operations: seq<Op>,
    failure: Option<Failure<I>>,
    minimized: Option<seq<Op>>)

  /** One attempt: an invalid sequence is not replayed at all. */
  function Attempt<Op, I>(steps: seq<Op>, validate: seq<Op> -> bool,
                          replay: seq<Op> -> Option<Failure<I>>): Option<Failure<I>>
  {
    if validate(steps) then replay(steps) else None
  }

  predicate Reproduces<Op, I(==)>(steps: seq<Op>, broken: I, validate: seq<Op> -> bool,
                                  replay: seq<Op> -> Option<Failure<I>>)
  {
    var observed := Attempt(steps, validate, replay);
    observed.Some? && observed.value.broken == broken
  }

  /**
   An invalid sequence is refused. A failing one is reported with a shrunk version that
   is itself a valid sequence, part of the original, and breaks the same invariant.
   */
  method RunSequence<Op(==), I(==)>(operations: seq<Op>, validate: seq<Op> -> bool,
                                    replay: seq<Op> -> Option<Failure<I>>)
    returns (report: Option<Report<Op, I>>)
    ensures report.None? <==> !validate(operations)
    ensures report.Some? ==>
      && report.value.operations == operations && report.value.failure == replay(operations)
      && (report.value.passed <==> replay(operations).None?)
      && (report.value.minimized.Some? <==> replay(operations).Some?)
    ensures report.Some? && report.value.minimized.Some? ==>
      var reduced := report.value.minimized.value;
      && Subsequence(reduced, operations) && validate(reduced)
      && replay(reduced).Some? && replay(reduced).value.broken == replay(operations).value.broken
      && (|reduced| >= 2 ==>
            OneMinimal(reduced, steps => Reproduces(steps, replay(operations).value.broken, validate, replay)))
  {
    hide Subsequence, OneMinimal;
    if !validate(operations) {
      return None;
    }
    var failure := Attempt(operations, validate, replay);
    if failure.None? {
      return Some(Report(true, operations, None, None));
    }
    var broken := replay(operations).value.broken;
    var reproduces := steps => Reproduces(steps, broken, validate, replay);
    var reduced, calls := Minimize(operations, reproduces);
    assert reproduces(reduced);
    OneMinimalFor(reduced, reproduces, steps => Reproduces(steps, replay(operations).value.broken, validate, replay));
    return Some(Report(false, operations, failure, Some(reduced)));
  }

  lemma OneMinimalFor<T>(s: seq<T>, p: seq<T> -> bool, q: seq<T> -> bool)
    requires forall part :: p(part) == q(part)
    ensures OneMinimal(s, p) <==> OneMinimal(s, q)
  {
  }
}
