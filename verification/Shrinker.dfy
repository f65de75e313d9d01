/**
 Shrinking a failing sequence by delta debugging, and the run that uses it. The
 predicate is a function of the candidate: it is asked about fresh servers.
 */
module Shrinker {
  import opened Common

  /** `part` is what is left of `whole` after taking some elements out. */
  predicate Subsequence<T(==)>(part: seq<T>, whole: seq<T>) {
    if part == [] then true
    else if whole == [] then false
    else if part[0] == whole[0] && Subsequence(part[1..], whole[1..]) then true
    else Subsequence(part, whole[1..])
  }

  function Cut<T>(s: seq<T>, start: nat, width: nat): seq<T>
    requires start < |s|
  {
    s[..start] + (if start + width <= |s| then s[start + width..] else [])
  }

  lemma {:induction false} SubsequenceSelf<T>(s: seq<T>)
    ensures Subsequence(s, s)
  {
    if s != [] {
      SubsequenceSelf(s[1..]);
    }
  }

  lemma {:induction false} SubsequenceAgain<T>(first: seq<T>, second: seq<T>, third: seq<T>)
    requires Subsequence(first, second) && Subsequence(second, third)
    ensures Subsequence(first, third)
    decreases |third|
  {
    if first != [] {
      if second[0] == third[0] && Subsequence(second[1..], third[1..]) {
        if first[0] == second[0] && Subsequence(first[1..], second[1..]) {
          SubsequenceAgain(first[1..], second[1..], third[1..]);
        } else {
          SubsequenceAgain(first, second[1..], third[1..]);
        }
      } else {
        SubsequenceAgain(first, second, third[1..]);
      }
    }
  }

  lemma {:induction false} SuffixIsSubsequence<T>(s: seq<T>, n: nat)
    requires n <= |s|
    ensures Subsequence(s[n..], s)
    decreases n
  {
    if n == 0 {
      SubsequenceSelf(s);
    } else {
      SuffixIsSubsequence(s[1..], n - 1);
      assert s[1..][n - 1..] == s[n..];
    }
  }

  lemma {:induction false} CutIsSubsequence<T>(s: seq<T>, start: nat, width: nat)
    requires start < |s|
    ensures Subsequence(Cut(s, start, width), s)
    decreases start
  {
    if start == 0 {
      var n := if width <= |s| then width else |s|;
      SuffixIsSubsequence(s, n);
      assert Cut(s, start, width) == s[n..];
    } else {
      CutIsSubsequence(s[1..], start - 1, width);
      assert Cut(s, start, width)[1..] == Cut(s[1..], start - 1, width);
    }
  }

  // ------------------------------------------------------------ call budget

  function Ceiling(a: nat, b: nat): nat
    requires b > 0
  {
    (a + b - 1) / b
  }

  /** Calls still possible with `n` steps left in `parts` parts, before anything is removed. */
  function Rounds(n: nat, parts: nat): int {
    if parts >= n then n else 2 * n + (n + 1) / 2 - parts
  }

  /** Twice a bound on the calls still to come. */
  function Budget(n: nat, parts: nat): int {
    n * n - n + 2 * Rounds(n, parts)
  }

  lemma CeilingBounds(a: nat, b: nat)
    requires b > 0
    ensures Ceiling(a, b) * b >= a && (a > 0 ==> Ceiling(a, b) > 0 && (Ceiling(a, b) - 1) * b < a)
  {
  }

  /** Cutting `n` steps into pieces of the width for `parts` parts makes at most `parts` pieces. */
  lemma PiecesBound(n: nat, parts: nat, width: nat, k: nat)
    requires 2 <= parts <= n && width == Ceiling(n, parts) && k * width < n
    ensures k < parts
  {
  }

  lemma WidthBound(n: nat, parts: nat, width: nat)
    requires 2 <= parts <= n && 1 <= width && (width - 1) * parts < n
    ensures width + parts <= n + 1
  {
    var spare := n - parts;
    assert (spare + 1) * parts == spare * parts + parts;
    TimesMonotone(1, parts, spare);
    if width + parts > n + 1 {
      TimesMonotone(spare + 1, width - 1, parts);
    }
  }

  lemma WidthExact(n: nat, parts: nat, width: nat)
    requires 2 <= parts <= n && 1 <= width && (width - 1) * parts < n <= width * parts
    ensures parts == n ==> width == 1
    ensures parts < n ==> width >= 2
    ensures parts < n <= 2 * parts ==> width == 2
  {
  }

  lemma PartsFit(n: nat, parts: nat, width: nat)
    requires 2 <= parts <= n && width == Ceiling(n, parts)
    ensures 1 <= width && width + parts <= n + 1
    ensures parts == n ==> width == 1
    ensures parts < n ==> width >= 2
    ensures parts < n <= 2 * parts ==> width == 2
  {
    CeilingBounds(n, parts);
    hide Ceiling;
    WidthBound(n, parts, width);
    WidthExact(n, parts, width);
  }

  // --------------------------------------------------------------- minimize

  /** Taking any one step out of `s` makes it stop failing. */
  predicate OneMinimal<T>(s: seq<T>, fails: seq<T> -> bool) {
    forall i :: 0 <= i < |s| ==> !fails(Cut(s, i, 1))
  }

  /**
   The first piece, of those `width` wide, without which the rest still fails;
   `asked` counts the questions.
   */
  method FirstToDrop<T>(current: seq<T>, parts: nat, width: nat, fails: seq<T> -> bool)
    returns (candidate: Option<seq<T>>, asked: nat)
    requires 2 <= parts <= |current| && width == Ceiling(|current|, parts)
    ensures asked <= parts && (asked > 0 ==> (asked - 1) * width < |current|)
    ensures candidate.Some? ==>
      && fails(candidate.value) && Subsequence(candidate.value, current)
      && |current| - width <= |candidate.value| < |current|
    ensures candidate.None? ==> forall k: nat :: k * width < |current| ==> !fails(Cut(current, k * width, width))
  {
    hide Ceiling, Subsequence;
    PartsFit(|current|, parts, width);
    var start := 0;
    asked := 0;
    while start < |current|
      invariant start == asked * width
      invariant asked <= parts && (asked > 0 ==> (asked - 1) * width < |current|)
      invariant forall k: nat :: k < asked && k * width < |current| ==> !fails(Cut(current, k * width, width))
      decreases |current| - start
    {
      PiecesBound(|current|, parts, width, asked);
      var rest := Cut(current, start, width);
      CutIsSubsequence(current, start, width);
      asked := asked + 1;
      if fails(rest) {
        return Some(rest), asked;
      }
      start := start + width;
    }
    forall k: nat | k * width < |current| ensures !fails(Cut(current, k * width, width)) {
      if k >= asked {
        TimesMonotone(asked, k, width);
      }
    }
    return None, asked;
  }

  lemma SquareDrops(n: nat, m: nat)
    requires m < n
    ensures m * m - m + 2 * n - 2 <= n * n - n
  {
    if m > 0 {
      TimesMonotone(m, n - 1, m - 1);
      TimesMonotone(m - 1, n - 2, n - 1);
      assert m * (m - 1) <= (n - 1) * (n - 2);
    }
    assert (n - 1) * (n - 2) == n * n - 3 * n + 2;
    assert m * (m - 1) == m * m - m;
  }

  /** The parts after a piece was dropped. */
  function Coarser(parts: nat): nat {
    if parts > 2 then parts - 1 else 2
  }

  lemma DropLowersBudget(n: nat, parts: nat, m: nat, asked: nat)
    requires 2 <= parts <= n && parts <= m + 1 && m < n && asked <= parts
    ensures if m >= 2 then Coarser(parts) <= m && 2 * asked + Budget(m, Coarser(parts)) <= Budget(n, parts)
            else 2 * asked <= Budget(n, parts)
  {
    SquareDrops(n, m);
    TimesMonotone(1, n, n);
  }

  lemma FinerLowersBudget(n: nat, parts: nat, width: nat, asked: nat)
    requires 2 <= parts < n && width == Ceiling(n, parts) && asked <= parts
    requires asked > 0 ==> (asked - 1) * width < n
    ensures var finer := if 2 * parts <= n then 2 * parts else n;
            2 * asked + Budget(n, finer) <= Budget(n, parts)
  {
    PartsFit(n, parts, width);
    if n <= 2 * parts {
      assert width == 2;
    }
  }

  /**
   Delta debugging: what comes back is a subsequence that still fails if the input did,
   from which no single step can be taken away, after at most n * n / 2 + 2 * n questions.
   */
  method Minimize<T>(steps: seq<T>, fails: seq<T> -> bool) returns (current: seq<T>, calls: nat)
    ensures Subsequence(current, steps)
    ensures fails(steps) ==> fails(current)
    ensures |current| >= 2 ==> OneMinimal(current, fails)
    ensures 2 * calls <= |steps| * |steps| + 4 * |steps|
  {
    hide Subsequence, Ceiling, Budget, OneMinimal;
    current, calls := steps, 0;
    var parts := 2;
    SubsequenceSelf(steps);
    InitialBudget(|steps|);
    while |current| >= 2
      invariant Subsequence(current, steps) && (fails(steps) ==> fails(current))
      invariant 2 <= parts && (|current| >= 2 ==> parts <= |current|)
      invariant 2 * calls + (if |current| >= 2 then Budget(|current|, parts) else 0)
             <= |steps| * |steps| + 4 * |steps|
      decreases |current|, |current| - parts
    {
      var width := Ceiling(|current|, parts);
      PartsFit(|current|, parts, width);
      var candidate, asked := FirstToDrop(current, parts, width, fails);
      calls := calls + asked;
      match candidate {
        case Some(rest) =>
          DropLowersBudget(|current|, parts, |rest|, asked);
          SubsequenceAgain(rest, current, steps);
          current, parts := rest, Coarser(parts);
        case None =>
          if parts >= |current| {
            SinglesKept(current, width, fails);
            LastBudget(parts, asked);
            return;
          }
          FinerLowersBudget(|current|, parts, width, asked);
          parts := if 2 * parts <= |current| then 2 * parts else |current|;
      }
    }
  }

  lemma InitialBudget(n: nat)
    ensures n >= 2 ==> Budget(n, 2) <= n * n + 4 * n
  {
  }

  lemma LastBudget(n: nat, asked: nat)
    requires 2 <= n && asked <= n
    ensures 2 * asked <= Budget(n, n)
  {
  }

  lemma SinglesKept<T>(current: seq<T>, width: nat, fails: seq<T> -> bool)
    requires width == 1
    requires forall k: nat :: k * width < |current| ==> !fails(Cut(current, k * width, width))
    ensures OneMinimal(current, fails)
  {
    forall i | 0 <= i < |current| ensures !fails(Cut(current, i, 1)) {
      assert i * width == i;
    }
  }
}
