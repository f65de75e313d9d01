/**
 Bytes to base64url and back, by way of the browser's `btoa` and `atob`.
 */
module Base64Url {
  import opened Common

  type Byte = n: nat | n < 256

  /** The character that stands for six bits (section 4 of RFC 4648). */
  function Symbol(n: nat): (c: char)
    requires n < 64
  {
    if n < 26 then ('A' as int + n) as char
    else if n < 52 then ('a' as int + n - 26) as char
    else if n < 62 then ('0' as int + n - 52) as char
    else if n == 62 then '+' else '/'
  }

  function Value(c: char): (v: Option<nat>)
    ensures v.Some? ==> v.value < 64
  {
    if 'A' <= c <= 'Z' then Some(c as int - 'A' as int)
    else if 'a' <= c <= 'z' then Some(c as int - 'a' as int + 26)
    else if '0' <= c <= '9' then Some(c as int - '0' as int + 52)
    else if c == '+' then Some(62) else if c == '/' then Some(63) else None
  }

  lemma ValueHasSymbol(c: char)
    requires Value(c).Some?
    ensures Symbol(Value(c).value) == c
  {
  }

  // ------------------------------------------------------------ btoa, atob

  /** Three bytes as four groups of six bits. */
  function Sextets(x: Byte, y: Byte, z: Byte): (q: (nat, nat, nat, nat))
    ensures q.0 < 64 && q.1 < 64 && q.2 < 64 && q.3 < 64
  {
    (x / 4, x % 4 * 16 + y / 16, y % 16 * 4 + z / 64, z % 64)
  }

  function FourSymbols(x: Byte, y: Byte, z: Byte): (s: string)
    ensures |s| == 4
  {
    var q := Sextets(x, y, z);
    [Symbol(q.0), Symbol(q.1), Symbol(q.2), Symbol(q.3)]
  }

  /** `btoa`: three bytes to four characters; in the last group zero bits and `=` fill up. */
  function Btoa(data: seq<Byte>): string {
    if data == [] then ""
    else if |data| == 1 then FourSymbols(data[0], 0, 0)[..2] + "=="
    else if |data| == 2 then FourSymbols(data[0], data[1], 0)[..3] + "="
    else FourSymbols(data[0], data[1], data[2]) + Btoa(data[3..])
  }

  predicate AllSymbols(s: string) {
    forall i :: 0 <= i < |s| ==> Value(s[i]).Some?
  }

  function Bits(c: char): (v: nat)
    requires Value(c).Some?
    ensures v < 64
  {
    Value(c).value
  }

  /** Six bits at a time; what is short of a byte at the end is dropped. */
  function Decoded(s: string): seq<Byte>
    requires AllSymbols(s) && |s| % 4 != 1
  {
    if s == "" then []
    else
      var first := Bits(s[0]) * 4 + Bits(s[1]) / 16;
      if |s| == 2 then [first]
      else
        var second := Bits(s[1]) % 16 * 16 + Bits(s[2]) / 4;
        if |s| == 3 then [first, second]
        else [first, second, Bits(s[2]) % 4 * 64 + Bits(s[3])] + Decoded(s[4..])
  }

  predicate AsciiSpace(c: char) {
    c == ' ' || c == '\t' || c == '\n' || c == '\U{c}' || c == '\r'
  }

  function WithoutSpace(s: string): string {
    if s == "" then "" else (if AsciiSpace(s[0]) then "" else [s[0]]) + WithoutSpace(s[1..])
  }

  /** One or two `=` come off the end of a whole number of groups. */
  function Unpadded(s: string): string {
    if |s| % 4 != 0 || s == "" || s[|s| - 1] != '=' then s
    else if s[|s| - 2] == '=' then s[..|s| - 2] else s[..|s| - 1]
  }

  /** `atob`: white space is ignored, and a stray character or a lone one at the end is refused. */
  function Atob(s: string): Option<seq<Byte>> {
    var data := Unpadded(WithoutSpace(s));
    if |data| % 4 == 1 || !AllSymbols(data) then None else Some(Decoded(data))
  }

  // ------------------------------------------------------------- base64url

  function ToUrlChar(c: char): char {
    if c == '+' then '-' else if c == '/' then '_' else c
  }

  function FromUrlChar(c: char): char {
    if c == '-' then '+' else if c == '_' then '/' else c
  }

  function Mapped(f: char -> char, s: string): (t: string)
    ensures |t| == |s| && forall i :: 0 <= i < |s| ==> t[i] == f(s[i])
  {
    if s == "" then "" else [f(s[0])] + Mapped(f, s[1..])
  }

  function StripPadding(s: string): string {
    if s != "" && s[|s| - 1] == '=' then StripPadding(s[..|s| - 1]) else s
  }

  function Encode(data: seq<Byte>): string {
    StripPadding(Mapped(ToUrlChar, Btoa(data)))
  }

  function Repeated(c: char, n: nat): (s: string)
    ensures |s| == n
  {
    seq(n, _ => c)
  }

  function Decode(value: string): Option<seq<Byte>> {
    Atob(Mapped(FromUrlChar, value) + Repeated('=', (4 - |value| % 4) % 4))
  }

  /** `toBase64Url`: one character for every byte, then `btoa`. */
  method ToBase64Url(bytes: array<Byte>) returns (encoded: string)
    ensures encoded == Encode(bytes[..])
  {
    var binary: seq<Byte> := [];
    for i := 0 to bytes.Length
      invariant binary == bytes[..i]
    {
      binary := binary + [bytes[i]];
    }
    assert binary == bytes[..];
    encoded := StripPadding(Mapped(ToUrlChar, Btoa(binary)));
  }

  /** `toBytes`: null where `atob` would throw. */
  method ToBytes(value: string) returns (bytes: array?<Byte>)
    ensures bytes == null <==> Decode(value).None?
    ensures bytes != null ==> fresh(bytes) && bytes[..] == Decode(value).value
  {
    var binary := Decode(value);
    if binary.None? {
      return null;
    }
    bytes := new Byte[|binary.value|];
    for i := 0 to bytes.Length
      invariant bytes[..i] == binary.value[..i]
    {
      bytes[i] := binary.value[i];
    }
    assert bytes[..] == bytes[..bytes.Length] && binary.value[..|binary.value|] == binary.value;
  }

  // ---------------------------------------------------------------- proofs

  predicate UrlSymbols(s: string) {
    forall i :: 0 <= i < |s| ==> Value(FromUrlChar(s[i])).Some? && s[i] != '+' && s[i] != '/'
  }

  /** The encoding without its padding, group by group. */
  function Groups(data: seq<Byte>): string {
    if data == [] then ""
    else if |data| == 1 then FourSymbols(data[0], 0, 0)[..2]
    else if |data| == 2 then FourSymbols(data[0], data[1], 0)[..3]
    else FourSymbols(data[0], data[1], data[2]) + Groups(data[3..])
  }

  function PadLength(n: nat): nat {
    if n % 3 == 0 then 0 else 3 - n % 3
  }

  lemma {:induction false} BtoaPads(data: seq<Byte>)
    ensures Btoa(data) == Groups(data) + Repeated('=', PadLength(|data|))
  {
    hide FourSymbols;
    if |data| >= 3 {
      BtoaPads(data[3..]);
    }
  }

  lemma SextetsBack(x: Byte, y: Byte, z: Byte)
    ensures var q := Sextets(x, y, z);
            q.0 * 4 + q.1 / 16 == x && q.1 % 16 * 16 + q.2 / 4 == y && q.2 % 4 * 64 + q.3 == z
  {
  }

  lemma FourHaveValues(x: Byte, y: Byte, z: Byte)
    ensures var f, q := FourSymbols(x, y, z), Sextets(x, y, z);
            && Value(f[0]) == Some(q.0) && Value(f[1]) == Some(q.1)
            && Value(f[2]) == Some(q.2) && Value(f[3]) == Some(q.3)
  {
  }

  lemma {:induction false} GroupsAreSymbols(data: seq<Byte>)
    ensures AllSymbols(Groups(data))
    ensures |Groups(data)| == |data| + (|data| + 2) / 3
    ensures |Groups(data)| % 4 != 1
  {
    hide Symbol, Value, Sextets;
    if data != [] {
      var y, z := if |data| > 1 then data[1] else 0, if |data| > 2 then data[2] else 0;
      FourHaveValues(data[0], y, z);
      if |data| >= 3 {
        GroupsAreSymbols(data[3..]);
      }
    }
  }

  /** What the first four characters, or the last two or three, decode to. */
  lemma DecodedByFour(s: string)
    requires AllSymbols(s) && |s| % 4 != 1 && s != ""
    ensures |s| == 2 ==> Decoded(s) == [Bits(s[0]) * 4 + Bits(s[1]) / 16]
    ensures |s| == 3 ==>
      Decoded(s) == [Bits(s[0]) * 4 + Bits(s[1]) / 16, Bits(s[1]) % 16 * 16 + Bits(s[2]) / 4]
    ensures |s| >= 4 ==>
      |s[4..]| % 4 != 1 &&
      Decoded(s) == [Bits(s[0]) * 4 + Bits(s[1]) / 16, Bits(s[1]) % 16 * 16 + Bits(s[2]) / 4,
                     Bits(s[2]) % 4 * 64 + Bits(s[3])] + Decoded(s[4..])
  {
  }

  lemma {:induction false} GroupsDecode(data: seq<Byte>)
    requires AllSymbols(Groups(data)) && |Groups(data)| % 4 != 1
    ensures Decoded(Groups(data)) == data
  {
    hide Symbol, Value, Sextets, Decoded;
    if data == [] {
      NothingDecoded();
    } else {
      var s := Groups(data);
      var y, z := if |data| > 1 then data[1] else 0, if |data| > 2 then data[2] else 0;
      FourHaveValues(data[0], y, z);
      SextetsBack(data[0], y, z);
      GroupsAreSymbols(data);
      DecodedByFour(s);
      if |data| >= 3 {
        assert s[4..] == Groups(data[3..]);
        GroupsAreSymbols(data[3..]);
        GroupsDecode(data[3..]);
      }
    }
  }

  lemma NothingDecoded()
    ensures Decoded("") == []
  {
  }

  lemma {:induction false} StripAll(s: string, n: nat)
    requires s == "" || s[|s| - 1] != '='
    ensures StripPadding(s + Repeated('=', n)) == s
  {
    var t := s + Repeated('=', n);
    if n > 0 {
      assert t[..|t| - 1] == s + Repeated('=', n - 1);
      StripAll(s, n - 1);
    } else {
      assert t == s;
    }
  }

  lemma {:induction false} NoSpaceKept(s: string)
    requires forall i :: 0 <= i < |s| ==> !AsciiSpace(s[i])
    ensures WithoutSpace(s) == s
  {
    if s != "" {
      NoSpaceKept(s[1..]);
    }
  }

  lemma WholeGroups(n: nat)
    requires n % 4 != 1
    ensures var k := (4 - n % 4) % 4; k <= 2 && (n + k) % 4 == 0
  {
  }

  /** Symbols padded out to whole groups decode as the symbols alone. */
  lemma AtobPadded(s: string, n: nat)
    requires AllSymbols(s) && n == (4 - |s| % 4) % 4 && |s| % 4 != 1
    ensures Atob(s + Repeated('=', n)) == Some(Decoded(s))
  {
    hide Decoded, WithoutSpace, Unpadded;
    SymbolsUnpadded(s, n);
    SymbolsUnspaced(s, n);
    NoSpaceKept(s + Repeated('=', n));
  }

  lemma SymbolsUnspaced(s: string, n: nat)
    requires AllSymbols(s)
    ensures var t := s + Repeated('=', n); forall i :: 0 <= i < |t| ==> !AsciiSpace(t[i])
  {
  }

  lemma SymbolsUnpadded(s: string, n: nat)
    requires AllSymbols(s) && n == (4 - |s| % 4) % 4 && |s| % 4 != 1
    ensures Unpadded(s + Repeated('=', n)) == s
  {
    hide Value;
    WholeGroups(|s|);
    PaddingIsNoSymbol();
    var t := s + Repeated('=', n);
    assert |t| % 4 == 0;
    if n == 0 {
      assert t == s;
      if s != "" {
        assert Value(s[|s| - 1]).Some?;
      }
    } else if n == 1 {
      assert t[|t| - 1] == '=' && t[|t| - 2] == s[|s| - 1];
      assert Value(s[|s| - 1]).Some?;
      assert t[..|t| - 1] == s;
    } else {
      assert t[|t| - 1] == '=' && t[|t| - 2] == '=';
      assert t[..|t| - 2] == s;
    }
  }

  lemma UrlAndBack(s: string)
    requires AllSymbols(s)
    ensures Mapped(FromUrlChar, Mapped(ToUrlChar, s)) == s
    ensures UrlSymbols(Mapped(ToUrlChar, s))
  {
  }

  lemma EncodedGroups(data: seq<Byte>)
    ensures AllSymbols(Groups(data)) && Encode(data) == Mapped(ToUrlChar, Groups(data))
  {
    hide Mapped, Groups, Value;
    BtoaPads(data);
    GroupsAreSymbols(data);
    var g, n := Groups(data), PadLength(|data|);
    var url := Mapped(ToUrlChar, g);
    assert Mapped(ToUrlChar, Btoa(data)) == url + Repeated('=', n);
    if url != "" {
      assert Value(g[|g| - 1]).Some? && Value('=').None? by { PaddingIsNoSymbol(); }
    }
    StripAll(url, n);
  }

  lemma PaddingIsNoSymbol()
    ensures Value('=').None?
  {
  }

  /**
   Decoding an encoding gives the bytes back; the encoding uses only the URL alphabet and
   no padding, takes one character for every six bits begun, and never leaves one over.
   */
  lemma RoundTrip(data: seq<Byte>)
    ensures Decode(Encode(data)) == Some(data)
    ensures UrlSymbols(Encode(data)) && '=' !in Encode(data)
    ensures |Encode(data)| == (8 * |data| + 5) / 6 && |Encode(data)| % 4 != 1
  {
    hide Mapped, Groups, Value, Atob;
    EncodedGroups(data);
    GroupsAreSymbols(data);
    var g := Groups(data);
    UrlAndBack(g);
    AtobPadded(g, (4 - |g| % 4) % 4);
    GroupsDecode(data);
    if '=' in Encode(data) {
      var i :| 0 <= i < |Encode(data)| && Encode(data)[i] == '=';
      PaddingIsNoSymbol();
    }
  }

  // ------------------------------------------------- what decodes, and how

  /** The bits of the last character that make no byte are zero. */
  predicate Canonical(s: string)
    requires AllSymbols(s)
  {
    && (|s| % 4 == 2 ==> Bits(s[|s| - 1]) % 16 == 0)
    && (|s| % 4 == 3 ==> Bits(s[|s| - 1]) % 4 == 0)
  }

  /** The bytes of four groups of six bits. */
  function Bytes(a: nat, b: nat, c: nat, d: nat): (nat, nat, nat) {
    (a * 4 + b / 16, b % 16 * 16 + c / 4, c % 4 * 64 + d)
  }

  lemma Split4(q: nat, r: nat)
    requires r < 4
    ensures (q * 4 + r) / 4 == q && (q * 4 + r) % 4 == r
  {
  }

  lemma Split16(q: nat, r: nat)
    requires r < 16
    ensures (q * 16 + r) / 16 == q && (q * 16 + r) % 16 == r
  {
  }

  lemma Split64(q: nat, r: nat)
    requires r < 64
    ensures (q * 64 + r) / 64 == q && (q * 64 + r) % 64 == r
  {
  }

  lemma BytesBack(a: nat, b: nat, c: nat, d: nat)
    requires a < 64 && b < 64 && c < 64 && d < 64
    ensures var (x, y, z) := Bytes(a, b, c, d);
            x < 256 && y < 256 && z < 256 && Sextets(x, y, z) == (a, b, c, d)
  {
    Split4(a, b / 16);
    Split16(b % 16, c / 4);
    Split64(c % 4, d);
  }

  lemma BytesCut(a: nat, b: nat, c: nat)
    requires a < 64 && b < 64 && c < 64
    ensures var (x, y, z) := Bytes(a, b, c, 0);
            x < 256 && y < 256 && Sextets(x, 0, 0) == (a, b / 16 * 16, 0, 0)
            && Sextets(x, y, 0) == (a, b, c / 4 * 4, 0)
  {
  }

  lemma FourSymbolsOf(x: Byte, y: Byte, z: Byte, s: string)
    requires |s| == 4 && AllSymbols(s)
    ensures Sextets(x, y, z) == (Bits(s[0]), Bits(s[1]), Bits(s[2]), Bits(s[3])) ==> FourSymbols(x, y, z) == s
  {
    hide Symbol, Sextets;
    ValueHasSymbol(s[0]);
    ValueHasSymbol(s[1]);
    ValueHasSymbol(s[2]);
    ValueHasSymbol(s[3]);
  }

  lemma SymbolsDiffer(m: nat, n: nat)
    requires m < 64 && n < 64 && Symbol(m) == Symbol(n)
    ensures m == n
  {
  }

  lemma DecodedTwo(s: string)
    requires AllSymbols(s) && |s| == 2
    ensures Groups(Decoded(s)) == s <==> Bits(s[1]) % 16 == 0
  {
    hide Symbol, Value, Sextets, Decoded;
    var a, b := Bits(s[0]), Bits(s[1]);
    BytesCut(a, b, 0);
    DecodedByFour(s);
    var x := Bytes(a, b, 0, 0).0;
    assert Decoded(s) == [x];
    ValueHasSymbol(s[0]);
    ValueHasSymbol(s[1]);
    assert Groups(Decoded(s)) == [s[0], Symbol(b / 16 * 16)];
    if Symbol(b / 16 * 16) == s[1] {
      SymbolsDiffer(b / 16 * 16, b);
    }
  }

  lemma DecodedThree(s: string)
    requires AllSymbols(s) && |s| == 3
    ensures Groups(Decoded(s)) == s <==> Bits(s[2]) % 4 == 0
  {
    hide Symbol, Value, Sextets, Decoded;
    var a, b, c := Bits(s[0]), Bits(s[1]), Bits(s[2]);
    BytesCut(a, b, c);
    DecodedByFour(s);
    var (x, y, z) := Bytes(a, b, c, 0);
    assert Decoded(s) == [x, y];
    ValueHasSymbol(s[0]);
    ValueHasSymbol(s[1]);
    ValueHasSymbol(s[2]);
    assert Groups(Decoded(s)) == [s[0], s[1], Symbol(c / 4 * 4)];
    if Symbol(c / 4 * 4) == s[2] {
      SymbolsDiffer(c / 4 * 4, c);
    }
  }

  /** Four characters at the front come back as they are, whatever follows them. */
  lemma FourComeBack(s: string)
    requires AllSymbols(s) && |s| % 4 != 1 && |s| >= 4
    ensures |s[4..]| % 4 != 1 && Groups(Decoded(s)) == s[..4] + Groups(Decoded(s[4..]))
  {
    hide Symbol, Value, Sextets, Decoded;
    DecodedByFour(s);
    var (x, y, z) := Bytes(Bits(s[0]), Bits(s[1]), Bits(s[2]), Bits(s[3]));
    BytesBack(Bits(s[0]), Bits(s[1]), Bits(s[2]), Bits(s[3]));
    hide Bits, AllSymbols;
    FourSymbolsOf(x, y, z, s[..4]);
    assert Decoded(s)[3..] == Decoded(s[4..]);
  }

  lemma {:induction false} DecodedGroups(s: string)
    requires AllSymbols(s) && |s| % 4 != 1
    ensures Groups(Decoded(s)) == s <==> Canonical(s)
    decreases |s|
  {
    hide Symbol, Value, Sextets, Decoded, Bytes, Bits;
    if s == "" {
      NothingDecoded();
    } else if |s| == 2 {
      DecodedTwo(s);
    } else if |s| == 3 {
      DecodedThree(s);
    } else {
      hide Groups;
      FourComeBack(s);
      DecodedGroups(s[4..]);
      assert s == s[..4] + s[4..];
      assert Groups(Decoded(s))[4..] == Groups(Decoded(s[4..]));
    }
  }

  lemma DecodeSymbols(value: string)
    requires UrlSymbols(value)
    ensures var s := Mapped(FromUrlChar, value);
            AllSymbols(s) && Decode(value) == if |s| % 4 == 1 then None else Some(Decoded(s))
  {
    hide Mapped, Value, Decoded, Atob;
    var s := Mapped(FromUrlChar, value);
    if |s| % 4 == 1 {
      LoneRefused(s);
    } else {
      AtobPadded(s, (4 - |s| % 4) % 4);
    }
  }

  lemma UrlThere(value: string)
    requires UrlSymbols(value)
    ensures Mapped(ToUrlChar, Mapped(FromUrlChar, value)) == value
  {
  }

  /**
   Over the URL alphabet every string decodes that does not leave one character over, and
   it is the encoding of what it decodes to exactly when no stray bits are set at its end.
   */
  lemma DecodesThenEncodes(value: string)
    requires UrlSymbols(value)
    ensures Decode(value).Some? <==> |value| % 4 != 1
    ensures Decode(value).Some? ==>
      (Encode(Decode(value).value) == value <==>
       AllSymbols(Mapped(FromUrlChar, value)) && Canonical(Mapped(FromUrlChar, value)))
  {
    hide Mapped, Groups, Canonical, Decoded, Decode, Encode, AllSymbols, UrlSymbols, ToUrlChar, FromUrlChar;
    var s := Mapped(FromUrlChar, value);
    DecodeSymbols(value);
    UrlThere(value);
    if |s| % 4 != 1 {
      EncodedGroups(Decoded(s));
      DecodedGroups(s);
      UrlAndBack(Groups(Decoded(s)));
    }
  }

  lemma LoneRefused(s: string)
    requires AllSymbols(s) && |s| % 4 == 1
    ensures Atob(s + Repeated('=', 3)) == None
  {
    hide Decoded;
    var t := s + Repeated('=', 3);
    SymbolsUnspaced(s, 3);
    NoSpaceKept(t);
    PaddingIsNoSymbol();
    assert t[|t| - 1] == '=' && t[|t| - 2] == '=' && t[|t| - 3] == '=';
    var left := t[..|t| - 2];
    assert Unpadded(t) == left && left[|left| - 1] == '=';
  }

  lemma Symbols()
    ensures Symbol(25) == 'Z' && Symbol(32) == 'g' && Symbol(38) == 'm' && Symbol(60) == '8' && Symbol(61) == '9'
    ensures Symbol(47) == 'v' && Symbol(24) == 'Y' && Symbol(50) == 'y' && Symbol(5) == 'F' && Symbol(4) == 'E'
    ensures Symbol(0) == 'A' && Symbol(62) == '+' && Symbol(63) == '/'
  {
    hide Symbol;
    ValueHasSymbol('Z');
    ValueHasSymbol('g');
    ValueHasSymbol('m');
    ValueHasSymbol('8');
    ValueHasSymbol('9');
    ValueHasSymbol('v');
    ValueHasSymbol('Y');
    ValueHasSymbol('y');
    ValueHasSymbol('F');
    ValueHasSymbol('E');
    ValueHasSymbol('A');
    ValueHasSymbol('+');
    ValueHasSymbol('/');
  }

  /** `btoa` on the test vectors of section 10 of RFC 4648, the beginnings of "foobar". */
  lemma Vectors()
    ensures Btoa([102]) == "Zg" + "==" && Btoa([102, 111]) == "Zm8" + "=" && Btoa([102, 111, 111]) == "Zm9v"
    ensures Btoa([102, 111, 111] + [98]) == "Zm9v" + "Yg" + "=="
    ensures Btoa([102, 111, 111] + [98, 97]) == "Zm9v" + "YmE" + "="
    ensures Btoa([102, 111, 111] + [98, 97, 114]) == "Zm9v" + "YmFy"
  {
    hide Btoa, FourSymbols;
    Foobar();
    BtoaShort(102, 111, 111);
    BtoaShort(98, 97, 114);
    BtoaLonger(102, 111, 111, [98]);
    BtoaLonger(102, 111, 111, [98, 97]);
    BtoaLonger(102, 111, 111, [98, 97, 114]);
  }

  lemma Foobar()
    ensures FourSymbols(102, 0, 0)[..2] == "Zg" && FourSymbols(102, 111, 0)[..3] == "Zm8"
    ensures FourSymbols(102, 111, 111) == "Zm9v"
    ensures FourSymbols(98, 0, 0)[..2] == "Yg" && FourSymbols(98, 97, 0)[..3] == "YmE"
    ensures FourSymbols(98, 97, 114) == "YmFy"
  {
    hide Symbol;
    Symbols();
    assert Sextets(102, 0, 0).0 == 25 && Sextets(102, 0, 0).1 == 32;
    assert Sextets(102, 111, 0).0 == 25 && Sextets(102, 111, 0).1 == 38 && Sextets(102, 111, 0).2 == 60;
    assert Sextets(102, 111, 111) == (25, 38, 61, 47);
    assert Sextets(98, 0, 0).0 == 24 && Sextets(98, 0, 0).1 == 32;
    assert Sextets(98, 97, 0).0 == 24 && Sextets(98, 97, 0).1 == 38 && Sextets(98, 97, 0).2 == 4;
    assert Sextets(98, 97, 114) == (24, 38, 5, 50);
  }

  lemma BtoaShort(x: Byte, y: Byte, z: Byte)
    ensures Btoa([x]) == FourSymbols(x, 0, 0)[..2] + "=="
    ensures Btoa([x, y]) == FourSymbols(x, y, 0)[..3] + "="
    ensures Btoa([x, y, z]) == FourSymbols(x, y, z)
  {
  }

  lemma BtoaLonger(x: Byte, y: Byte, z: Byte, data: seq<Byte>)
    requires data != []
    ensures Btoa([x, y, z] + data) == FourSymbols(x, y, z) + Btoa(data)
  {
    assert ([x, y, z] + data)[3..] == data;
  }
}
