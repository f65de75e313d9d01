/**
 Matching a SQL `LIKE` pattern through SQLite's `GLOB`. Both pattern languages are given
 in full; the theorem is that the translation from one to the other keeps the matches.
 */
module LikeGlob {
  import opened Common

  // ------------------------------------------------------------------- GLOB

  /**
   The inside of a bracket class from just after `[` (and after a leading `^` or `]`):
   whether `c` is one of the characters or ranges listed, and what follows the `]`.
   `prior` is the character a following `-` would start a range from.
   */
  function Scan(p: string, c: char, prior: Option<char>, seen: bool): Option<(bool, string)>
    decreases |p|
  {
    if p == "" then None
    else if p[0] == ']' then Some((seen, p[1..]))
    else if p[0] == '-' && |p| >= 2 && p[1] != ']' && prior.Some? then
      Scan(p[2..], c, None, seen || prior.value <= c <= p[1])
    else
      Scan(p[1..], c, Some(p[0]), seen || c == p[0])
  }

  /** A bracket class after its `[`: whether it admits `c`, and the pattern after it. */
  function Bracket(p: string, c: char): Option<(bool, string)> {
    var invert := p != "" && p[0] == '^';
    var q := if invert then p[1..] else p;
    var first := q != "" && q[0] == ']';
    match Scan(if first then q[1..] else q, c, None, first && c == ']')
    case None => None
    case Some((seen, rest)) => Some((seen != invert, rest))
  }

  lemma {:induction false} ScanShortens(p: string, c: char, prior: Option<char>, seen: bool)
    ensures Scan(p, c, prior, seen).Some? ==> |Scan(p, c, prior, seen).value.1| < |p|
    decreases |p|
  {
    if p != "" && p[0] != ']' {
      if p[0] == '-' && |p| >= 2 && p[1] != ']' && prior.Some? {
        ScanShortens(p[2..], c, None, seen || prior.value <= c <= p[1]);
      } else {
        ScanShortens(p[1..], c, Some(p[0]), seen || c == p[0]);
      }
    }
  }

  lemma BracketShortens(p: string, c: char)
    ensures Bracket(p, c).Some? ==> |Bracket(p, c).value.1| < |p|
  {
    var invert := p != "" && p[0] == '^';
    var q := if invert then p[1..] else p;
    var first := q != "" && q[0] == ']';
    ScanShortens(if first then q[1..] else q, c, None, first && c == ']');
  }

  /** `s GLOB p`: `*` is any run, `?` any character, `[` opens a class, the rest is literal. */
  predicate Glob(p: string, s: string)
    decreases |p| + |s|
  {
    if p == "" then s == ""
    else if p[0] == '*' then Glob(p[1..], s) || (s != "" && Glob(p, s[1..]))
    else if s == "" then false
    else if p[0] == '?' then Glob(p[1..], s[1..])
    else if p[0] == '[' then
      BracketShortens(p[1..], s[0]);
      match Bracket(p[1..], s[0])
      case None => false
      case Some((admits, rest)) => admits && Glob(rest, s[1..])
    else p[0] == s[0] && Glob(p[1..], s[1..])
  }

  // ------------------------------------------------------------------- LIKE

  datatype Token = AnyRun | AnyOne | Exactly(c: char)

  /** A `LIKE` pattern taken apart; a backslash at the end stands for itself. */
  function Tokens(pattern: string): seq<Token>
    decreases |pattern|
  {
    if pattern == "" then []
    else if pattern[0] == '\\' then
      if |pattern| == 1 then [Exactly('\\')] else [Exactly(pattern[1])] + Tokens(pattern[2..])
    else
      [if pattern[0] == '%' then AnyRun else if pattern[0] == '_' then AnyOne else Exactly(pattern[0])]
      + Tokens(pattern[1..])
  }

  predicate Fits(token: Token, piece: string) {
    match token
    case AnyRun => true
    case AnyOne => |piece| == 1
    case Exactly(c) => piece == [c]
  }

  function Joined(pieces: seq<string>): string {
    if pieces == [] then "" else pieces[0] + Joined(pieces[1..])
  }

  predicate Splits(tokens: seq<Token>, pieces: seq<string>, s: string) {
    && |pieces| == |tokens| && Joined(pieces) == s
    && forall i :: 0 <= i < |tokens| ==> Fits(tokens[i], pieces[i])
  }

  /**
   `s LIKE pattern` as the standard defines it: the subject can be cut into one piece
   for each part of the pattern.
   */
  ghost predicate Like(pattern: string, s: string) {
    exists pieces :: Splits(Tokens(pattern), pieces, s)
  }

  /** The subject starts with a piece that fits the part, and the rest fits the rest. */
  ghost predicate Starts(token: Token, rest: string, s: string) {
    exists k :: 0 <= k <= |s| && Fits(token, s[..k]) && Like(rest, s[k..])
  }

  lemma LikeStarts(token: Token, rest: string, pattern: string, s: string)
    requires Tokens(pattern) == [token] + Tokens(rest)
    ensures Like(pattern, s) <==> Starts(token, rest, s)
  {
    var tokens := Tokens(pattern);
    assert tokens[1..] == Tokens(rest);
    if pieces :| Splits(tokens, pieces, s) {
      var k := |pieces[0]|;
      assert s == pieces[0] + Joined(pieces[1..]);
      assert s[..k] == pieces[0] && s[k..] == Joined(pieces[1..]);
      assert Splits(Tokens(rest), pieces[1..], s[k..]);
    }
    if k :| 0 <= k <= |s| && Fits(token, s[..k]) && Like(rest, s[k..]) {
      var pieces :| Splits(Tokens(rest), pieces, s[k..]);
      var all := [s[..k]] + pieces;
      assert all[1..] == pieces && s == s[..k] + s[k..];
      assert Splits(tokens, all, s);
    }
  }

  lemma StartsExactly(token: Token, rest: string, s: string)
    ensures token.AnyRun? ==> (Starts(token, rest, s) <==> exists k :: 0 <= k <= |s| && Like(rest, s[k..]))
    ensures token.AnyOne? ==> (Starts(token, rest, s) <==> s != "" && Like(rest, s[1..]))
    ensures token.Exactly? ==> (Starts(token, rest, s) <==> s != "" && s[0] == token.c && Like(rest, s[1..]))
  {
    hide Like;
    if s != "" {
      assert s[..1] == [s[0]];
    }
    if token.AnyRun? {
      if k :| 0 <= k <= |s| && Like(rest, s[k..]) {
        assert Fits(token, s[..k]);
      }
    }
  }

  lemma LikeNothing(s: string)
    ensures Like("", s) <==> s == ""
  {
    if pieces :| Splits(Tokens(""), pieces, s) {
      assert pieces == [];
    }
    if s == "" {
      var none: seq<string> := [];
      assert Joined(none) == "" && Splits(Tokens(""), none, s);
    }
  }

  /**
   `LIKE` by its rules: what nothing, `%`, `_`, an escaped character, any other character
   and a lone backslash ask of the subject, at the front of a pattern.
   */
  lemma LikeByRules(c: char, rest: string, s: string)
    ensures Like("", s) <==> s == ""
    ensures Like("%" + rest, s) <==> exists k :: 0 <= k <= |s| && Like(rest, s[k..])
    ensures Like("_" + rest, s) <==> s != "" && Like(rest, s[1..])
    ensures Like("\\" + [c] + rest, s) <==> s != "" && s[0] == c && Like(rest, s[1..])
    ensures Like("\\", s) <==> s == "\\"
    ensures c !in "%_\\" ==> (Like([c] + rest, s) <==> s != "" && s[0] == c && Like(rest, s[1..]))
  {
    hide Like, Starts;
    LikeNothing(s);
    LeadingRun(rest, s);
    LeadingOne(rest, s);
    LeadingEscape(c, rest, s);
    LastBackslash(s);
    if c !in "%_\\" {
      LeadingCharacter(c, rest, s);
    }
  }

  lemma LeadingRun(rest: string, s: string)
    ensures Like("%" + rest, s) <==> exists k :: 0 <= k <= |s| && Like(rest, s[k..])
  {
    hide Like, Starts;
    assert ("%" + rest)[1..] == rest;
    LikeStarts(AnyRun, rest, "%" + rest, s);
    StartsExactly(AnyRun, rest, s);
  }

  lemma LeadingOne(rest: string, s: string)
    ensures Like("_" + rest, s) <==> s != "" && Like(rest, s[1..])
  {
    hide Like, Starts;
    assert ("_" + rest)[1..] == rest;
    LikeStarts(AnyOne, rest, "_" + rest, s);
    StartsExactly(AnyOne, rest, s);
  }

  lemma LeadingEscape(c: char, rest: string, s: string)
    ensures Like("\\" + [c] + rest, s) <==> s != "" && s[0] == c && Like(rest, s[1..])
  {
    hide Like, Starts;
    assert ("\\" + [c] + rest)[2..] == rest;
    LikeStarts(Exactly(c), rest, "\\" + [c] + rest, s);
    StartsExactly(Exactly(c), rest, s);
  }

  lemma LeadingCharacter(c: char, rest: string, s: string)
    requires c !in "%_\\"
    ensures Like([c] + rest, s) <==> s != "" && s[0] == c && Like(rest, s[1..])
  {
    hide Like, Starts;
    assert ([c] + rest)[1..] == rest;
    assert "%_\\"[0] == '%' && "%_\\"[1] == '_' && "%_\\"[2] == '\\';
    LikeStarts(Exactly(c), rest, [c] + rest, s);
    StartsExactly(Exactly(c), rest, s);
  }

  lemma LastBackslash(s: string)
    ensures Like("\\", s) <==> s == "\\"
  {
    hide Like, Starts;
    assert Tokens("\\") == [Exactly('\\')] + Tokens("");
    LikeStarts(Exactly('\\'), "", "\\", s);
    StartsExactly(Exactly('\\'), "", s);
    LikeNothing(if s == "" then s else s[1..]);
  }

  // ------------------------------------------------------------ translation

  /** What stands for itself in a `GLOB` pattern only inside brackets. */
  function GlobLiteral(c: char): string {
    if c == '*' then "[*]" else if c == '?' then "[?]" else if c == '[' then "[[]" else [c]
  }

  function GlobToken(token: Token): string {
    match token
    case AnyRun => "*"
    case AnyOne => "?"
    case Exactly(c) => GlobLiteral(c)
  }

  function GlobTokens(tokens: seq<Token>): string {
    if tokens == [] then "" else GlobToken(tokens[0]) + GlobTokens(tokens[1..])
  }

  /** The bracketed literal admits exactly its character. */
  lemma LiteralMatches(c: char, rest: string, s: string)
    ensures Glob(GlobLiteral(c) + rest, s) <==> s != "" && s[0] == c && Glob(rest, s[1..])
  {
    var p := GlobLiteral(c) + rest;
    if c == '*' || c == '?' || c == '[' {
      assert p[0] == '[' && p[1..] == [c, ']'] + rest;
      if s != "" {
        var q := [c, ']'] + rest;
        assert q[1..] == "]" + rest && ("]" + rest)[1..] == rest;
        assert Scan("]" + rest, s[0], Some(c), s[0] == c) == Some((s[0] == c, rest));
        assert Scan(q, s[0], None, false) == Scan(q[1..], s[0], Some(c), s[0] == c);
        assert Bracket(q, s[0]) == Some((s[0] == c, rest));
      }
    } else {
      assert p[0] == c && p[1..] == rest;
    }
  }

  lemma {:induction false} RunMatches(tokens: seq<Token>, s: string)
    requires tokens != [] && tokens[0] == AnyRun
    ensures Glob(GlobTokens(tokens), s) <==>
            exists n :: 0 <= n <= |s| && Glob(GlobTokens(tokens[1..]), s[n..])
    decreases |s|
  {
    var p, rest := GlobTokens(tokens), GlobTokens(tokens[1..]);
    assert p[0] == '*' && p[1..] == rest;
    if s == "" {
      assert s[0..] == s;
    } else {
      RunMatches(tokens, s[1..]);
      if Glob(p, s) {
        if Glob(rest, s) {
          assert s[0..] == s;
        } else {
          var n :| 0 <= n <= |s[1..]| && Glob(rest, s[1..][n..]);
          assert s[1..][n..] == s[n + 1..];
        }
      }
      if n :| 0 <= n <= |s| && Glob(rest, s[n..]) {
        if n == 0 {
          assert s[0..] == s;
        } else {
          assert s[1..][n - 1..] == s[n..];
        }
      }
    }
  }

  /** A match gives the pieces, and pieces give a match. */
  lemma {:induction false} GlobSplits(tokens: seq<Token>, s: string)
    ensures Glob(GlobTokens(tokens), s) <==> exists pieces :: Splits(tokens, pieces, s)
    decreases |tokens|
  {
    if tokens == [] {
      if s == "" {
        assert Splits(tokens, [], s);
      }
    } else {
      if Glob(GlobTokens(tokens), s) {
        var n := HeadLength(tokens, s);
        GlobSplits(tokens[1..], s[n..]);
        var pieces :| Splits(tokens[1..], pieces, s[n..]);
        assert Splits(tokens, [s[..n]] + pieces, s) by { Prepended(tokens, s, n, pieces); }
      }
      if pieces :| Splits(tokens, pieces, s) {
        var n := |pieces[0]|;
        assert s[..n] == pieces[0] && s[n..] == Joined(pieces[1..]);
        assert Splits(tokens[1..], pieces[1..], s[n..]);
        GlobSplits(tokens[1..], s[n..]);
        HeadMatches(tokens, s, n);
      }
    }
  }

  lemma Prepended(tokens: seq<Token>, s: string, n: nat, pieces: seq<string>)
    requires tokens != [] && n <= |s| && Fits(tokens[0], s[..n]) && Splits(tokens[1..], pieces, s[n..])
    ensures Splits(tokens, [s[..n]] + pieces, s)
  {
  }

  lemma HeadLength(tokens: seq<Token>, s: string) returns (n: nat)
    requires tokens != [] && Glob(GlobTokens(tokens), s)
    ensures n <= |s| && Fits(tokens[0], s[..n]) && Glob(GlobTokens(tokens[1..]), s[n..])
  {
    var p := GlobTokens(tokens);
    match tokens[0]
    case AnyRun =>
      RunMatches(tokens, s);
      n :| 0 <= n <= |s| && Glob(GlobTokens(tokens[1..]), s[n..]);
    case AnyOne =>
      assert p[0] == '?' && p[1..] == GlobTokens(tokens[1..]);
      n := 1;
    case Exactly(c) =>
      LiteralMatches(c, GlobTokens(tokens[1..]), s);
      n := 1;
      assert s[..1] == [s[0]];
  }

  lemma HeadMatches(tokens: seq<Token>, s: string, n: nat)
    requires tokens != [] && n <= |s| && Fits(tokens[0], s[..n])
    requires Glob(GlobTokens(tokens[1..]), s[n..])
    ensures Glob(GlobTokens(tokens), s)
  {
    var p := GlobTokens(tokens);
    match tokens[0]
    case AnyRun => RunMatches(tokens, s);
    case AnyOne => assert p[0] == '?' && p[1..] == GlobTokens(tokens[1..]);
    case Exactly(c) =>
      assert s[..1][0] == c;
      LiteralMatches(c, GlobTokens(tokens[1..]), s);
  }

  /** The translated pattern matches under `GLOB` exactly what the original does under `LIKE`. */
  lemma TranslationKeepsMatches(pattern: string, s: string)
    ensures Glob(GlobTokens(Tokens(pattern)), s) <==> Like(pattern, s)
  {
    GlobSplits(Tokens(pattern), s);
  }

  method TranslateLike(pattern: string) returns (translated: string)
    ensures forall s :: Glob(translated, s) <==> Like(pattern, s)
  {
    hide Glob, Like, Tokens, GlobTokens, GlobLiteral;
    translated := "";
    assert pattern[0..] == pattern;
    var i := 0;
    while i < |pattern|
      invariant i <= |pattern|
      invariant translated + GlobTokens(Tokens(pattern[i..])) == GlobTokens(Tokens(pattern))
      decreases |pattern| - i
    {
      var character := pattern[i];
      ghost var before := pattern[i..];
      i := i + 1;
      assert before[1..] == pattern[i..];
      if character == '\\' {
        character := '\\';
        if i < |pattern| {
          character := pattern[i];
          i := i + 1;
          assert before[2..] == pattern[i..];
        }
        FirstToken(before, Exactly(character), pattern[i..]);
        translated := translated + GlobLiteral(character);
      } else if character == '%' {
        FirstToken(before, AnyRun, pattern[i..]);
        translated := translated + "*";
      } else if character == '_' {
        FirstToken(before, AnyOne, pattern[i..]);
        translated := translated + "?";
      } else {
        FirstToken(before, Exactly(character), pattern[i..]);
        translated := translated + GlobLiteral(character);
      }
    }
    assert translated == GlobTokens(Tokens(pattern)) by { NoTokens(pattern[i..], translated); }
    forall s ensures Glob(translated, s) <==> Like(pattern, s) {
      TranslationKeepsMatches(pattern, s);
    }
  }

  lemma NoTokens(p: string, translated: string)
    requires p == ""
    ensures translated + GlobTokens(Tokens(p)) == translated
  {
  }

  /** How the translation goes on when `p` starts with `token` and `rest` is left. */
  lemma FirstToken(p: string, token: Token, rest: string)
    requires p != ""
    requires if p[0] == '\\' then
        if |p| == 1 then token == Exactly('\\') && rest == "" else token == Exactly(p[1]) && rest == p[2..]
      else
        rest == p[1..] && token == if p[0] == '%' then AnyRun else if p[0] == '_' then AnyOne else Exactly(p[0])
    ensures GlobTokens(Tokens(p)) == GlobToken(token) + GlobTokens(Tokens(rest))
  {
  }
}
