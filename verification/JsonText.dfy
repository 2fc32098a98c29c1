/** The canonical texts of json.dumps(sort_keys=True, separators=(",", ":")) with ASCII escapes, and
    what json.loads makes of them. */
module JsonText {
  import opened Basics
  import opened JsonModel

  const QUOTE: Code := 34
  const BACKSLASH: Code := 92
  const COMMA: Code := 44
  const COLON: Code := 58
  const MINUS: Code := 45
  const LBRACKET: Code := 91
  const RBRACKET: Code := 93
  const LBRACE: Code := 123
  const RBRACE: Code := 125
  const U: Code := 117

  const NULL: Text := [110, 117, 108, 108]
  const TRUE: Text := [116, 114, 117, 101]
  const FALSE: Text := [102, 97, 108, 115, 101]

  // ---- strings ----

  predicate High(c: int) { 0xD800 <= c < 0xDC00 }
  predicate Low(c: int) { 0xDC00 <= c < 0xE000 }

  function HexDigit(n: int): Code
    requires 0 <= n < 16
  {
    if n < 10 then (48 + n) as Code else (87 + n) as Code
  }

  function HexValue(c: Code): Option<int> {
    if 48 <= c < 58 then Some(c as int - 48)
    else if 97 <= c < 103 then Some(c as int - 87)
    else if 65 <= c < 71 then Some(c as int - 55)
    else None
  }

  /** Four hexadecimal digits after a backslash and a u. */
  function Unit(n: int): Text
    requires 0 <= n < 0x1_0000
  {
    [BACKSLASH, U, HexDigit(n / 4096), HexDigit(n / 256 % 16), HexDigit(n / 16 % 16), HexDigit(n % 16)]
  }

  // The letter of a two-character escape, for the codes that have one.
  function Letter(c: Code): Option<Code> {
    if c == QUOTE || c == BACKSLASH then Some(c)
    else if c == 8 then Some(98)
    else if c == 12 then Some(102)
    else if c == 10 then Some(110)
    else if c == 13 then Some(114)
    else if c == 9 then Some(116)
    else None
  }

  function HighOf(c: int): int
    requires 0x1_0000 <= c < 0x11_0000
    ensures High(HighOf(c))
  {
    0xD800 + (c - 0x1_0000) / 1024
  }

  function LowOf(c: int): int
    requires 0x1_0000 <= c < 0x11_0000
    ensures Low(LowOf(c))
  {
    0xDC00 + (c - 0x1_0000) % 1024
  }

  function Joined(high: int, low: int): (c: int)
    requires High(high) && Low(low)
    ensures 0x1_0000 <= c < 0x11_0000 && HighOf(c) == high && LowOf(c) == low
  {
    0x1_0000 + (high - 0xD800) * 1024 + (low - 0xDC00)
  }

  function Escaped(c: Code): Text {
    if Letter(c).Some? then [BACKSLASH, Letter(c).value]
    else if 32 <= c <= 126 then [c]
    else if c < 0x1_0000 then Unit(c as int)
    else Unit(HighOf(c as int)) + Unit(LowOf(c as int))
  }

  function Escape(t: Text): Text {
    if t == [] then [] else Escaped(t[0]) + Escape(t[1..])
  }

  function Quoted(t: Text): Text { [QUOTE] + Escape(t) + [QUOTE] }

  /** What reading back makes of adjacent surrogates: one astral character. */
  function Fuse(t: Text): Text {
    if |t| >= 2 && High(t[0] as int) && Low(t[1] as int) then [Joined(t[0] as int, t[1] as int) as Code] + Fuse(t[2..])
    else if t == [] then []
    else [t[0]] + Fuse(t[1..])
  }

  /** No high surrogate directly before a low one. */
  predicate Unpaired(t: Text) {
    forall i :: 0 <= i < |t| - 1 && High(t[i] as int) ==> !Low(t[i + 1] as int)
  }

  // ---- reading strings ----

  datatype Read<T> = Got(value: T, rest: Text) | Bad

  // What a backslash and the letter stand for; a slash may be escaped too.
  function OfLetter(c: Code): Option<int> {
    if c == QUOTE || c == BACKSLASH || c == 47 then Some(c as int)
    else if c == 98 then Some(8)
    else if c == 102 then Some(12)
    else if c == 110 then Some(10)
    else if c == 114 then Some(13)
    else if c == 116 then Some(9)
    else None
  }

  predicate StartsUnit(s: Text) { |s| >= 2 && s[0] == BACKSLASH && s[1] == U }

  function ReadUnit(s: Text): (r: Read<int>)
    ensures r.Got? ==> |r.rest| < |s| && 0 <= r.value < 0x1_0000
  {
    if |s| < 6 || !StartsUnit(s) then Bad
    else
      var a, b, c, d := HexValue(s[2]), HexValue(s[3]), HexValue(s[4]), HexValue(s[5]);
      if a.None? || b.None? || c.None? || d.None? then Bad
      else Got(a.value * 4096 + b.value * 256 + c.value * 16 + d.value, s[6..])
  }

  function ReadChar(s: Text): (r: Read<int>)
    ensures r.Got? ==> |r.rest| < |s| && 0 <= r.value < 0x11_0000
  {
    if s == [] then Bad
    else if s[0] != BACKSLASH then Got(s[0] as int, s[1..])
    else if StartsUnit(s) then
      var first := ReadUnit(s);
      if first.Got? && High(first.value) && StartsUnit(first.rest) then
        var second := ReadUnit(first.rest);
        if second.Got? && Low(second.value) then Got(Joined(first.value, second.value), second.rest) else first
      else first
    else if |s| >= 2 && OfLetter(s[1]).Some? then Got(OfLetter(s[1]).value, s[2..])
    else Bad
  }

  /** The rest of a string after its opening quote. */
  function ReadString(s: Text): (r: Read<Text>)
    ensures r.Got? ==> |r.rest| < |s|
    decreases |s|
  {
    if s == [] then Bad
    else if s[0] == QUOTE then Got([], s[1..])
    else
      var c := ReadChar(s);
      if c.Bad? then Bad
      else
        var more := ReadString(c.rest);
        if more.Bad? then Bad else Got([c.value as Code] + more.value, more.rest)
  }

  lemma ReadUnitBack(n: int, rest: Text)
    requires 0 <= n < 0x1_0000
    ensures ReadUnit(Unit(n) + rest) == Got(n, rest)
  {
    var s := Unit(n) + rest;
    FourDigits(n);
    HexBack(n / 4096);
    HexBack(n / 256 % 16);
    HexBack(n / 16 % 16);
    HexBack(n % 16);
    assert s[6..] == rest;
  }

  lemma FourDigits(n: int)
    requires 0 <= n < 0x1_0000
    ensures n / 4096 * 4096 + n / 256 % 16 * 256 + n / 16 % 16 * 16 + n % 16 == n
  {
    Shifted(n, 16);
    Shifted(n, 256);
  }

  lemma Shifted(n: int, d: int)
    requires 0 <= n && (d == 16 || d == 256)
    ensures n / d / 16 == n / (d * 16)
  {
  }

  lemma HexBack(n: int)
    requires 0 <= n < 16
    ensures HexValue(HexDigit(n)) == Some(n)
  {
  }

  /** The text that follows does not complete a surrogate pair. */
  predicate NoLow(rest: Text) {
    StartsUnit(rest) ==> ReadUnit(rest).Bad? || !Low(ReadUnit(rest).value)
  }

  lemma ReadLetter(c: Code, rest: Text)
    requires Letter(c).Some?
    ensures ReadChar([BACKSLASH, Letter(c).value] + rest) == Got(c as int, rest)
  {
    var s := [BACKSLASH, Letter(c).value] + rest;
    assert s[2..] == rest && s[1] == Letter(c).value;
  }

  lemma ReadRaw(c: Code, rest: Text)
    requires c != BACKSLASH
    ensures ReadChar([c] + rest) == Got(c as int, rest)
  {
    assert ([c] + rest)[1..] == rest;
  }

  lemma ReadBasic(n: int, rest: Text)
    requires 0 <= n < 0x1_0000 && (High(n) ==> NoLow(rest))
    ensures ReadChar(Unit(n) + rest) == Got(n, rest)
  {
    ReadUnitBack(n, rest);
  }

  lemma ReadCharBack(c: Code, rest: Text)
    requires High(c as int) ==> NoLow(rest)
    ensures ReadChar(Escaped(c) + rest) == Got(c as int, rest)
  {
    if Letter(c).Some? {
      ReadLetter(c, rest);
    } else if 32 <= c <= 126 {
      ReadRaw(c, rest);
    } else if c < 0x1_0000 {
      ReadBasic(c as int, rest);
    } else {
      ReadAstral(HighOf(c as int), LowOf(c as int), rest);
      assert Escaped(c) + rest == Unit(HighOf(c as int)) + (Unit(LowOf(c as int)) + rest);
    }
  }

  lemma ReadAstral(high: int, low: int, rest: Text)
    requires High(high) && Low(low)
    ensures ReadChar(Unit(high) + (Unit(low) + rest)) == Got(Joined(high, low), rest)
  {
    ReadUnitBack(high, Unit(low) + rest);
    ReadUnitBack(low, rest);
  }

  lemma EscapedStarts(c: Code, rest: Text)
    requires !Low(c as int)
    ensures NoLow(Escaped(c) + rest)
  {
    var s := Escaped(c) + rest;
    if Letter(c).None? && (c < 32 || c > 126) {
      if c < 0x1_0000 {
        ReadUnitBack(c as int, rest);
      } else {
        assert s == Unit(HighOf(c as int)) + (Unit(LowOf(c as int)) + rest);
        ReadUnitBack(HighOf(c as int), Unit(LowOf(c as int)) + rest);
      }
    }
  }

  /** Two escaped surrogates read as one character. */
  lemma ReadPair(high: Code, low: Code, rest: Text)
    requires High(high as int) && Low(low as int)
    ensures ReadChar(Escaped(high) + (Escaped(low) + rest)) == Got(Joined(high as int, low as int), rest)
  {
    ReadAstral(high as int, low as int, rest);
  }

  lemma NotQuote(c: Code, rest: Text)
    ensures (Escaped(c) + rest)[0] != QUOTE
  {
  }

  lemma ReadStringStep(s: Text, c: Code, after: Text, t: Text, rest: Text)
    requires s != [] && s[0] != QUOTE && ReadChar(s) == Got(c as int, after) && ReadString(after) == Got(t, rest)
    ensures ReadString(s) == Got([c] + t, rest)
  {
  }

  lemma {:induction false} EscapeSplit(t: Text, tail: Text)
    requires t != []
    ensures Escape(t) + tail == Escaped(t[0]) + (Escape(t[1..]) + tail)
  {
  }

  lemma PairFirst(t: Text, tail: Text)
    requires |t| >= 2 && High(t[0] as int) && Low(t[1] as int)
    ensures ReadChar(Escape(t) + tail) == Got(Joined(t[0] as int, t[1] as int), Escape(t[2..]) + tail)
  {
    ReadPair(t[0], t[1], Escape(t[2..]) + tail);
    EscapeSplit(t, tail);
    EscapeSplit(t[1..], tail);
    assert t[1..][1..] == t[2..];
  }

  lemma OneFirst(t: Text, tail: Text)
    requires t != [] && !(|t| >= 2 && High(t[0] as int) && Low(t[1] as int))
    requires tail != [] && tail[0] == QUOTE
    ensures ReadChar(Escape(t) + tail) == Got(t[0] as int, Escape(t[1..]) + tail)
  {
    FollowedByNoLow(t[1..], tail);
    ReadCharBack(t[0], Escape(t[1..]) + tail);
    EscapeSplit(t, tail);
  }

  lemma StartsUnquoted(t: Text, tail: Text)
    requires t != []
    ensures Escape(t) + tail != [] && (Escape(t) + tail)[0] != QUOTE
  {
    EscapeSplit(t, tail);
    NotQuote(t[0], Escape(t[1..]) + tail);
  }

  /** A quoted text reads back as itself with adjacent surrogates fused. */
  lemma {:induction false} ReadStringBack(t: Text, tail: Text)
    requires tail != [] && tail[0] == QUOTE
    ensures ReadString(Escape(t) + tail) == Got(Fuse(t), tail[1..])
    decreases |t|
  {
    if t == [] {
      assert Escape(t) + tail == tail;
    } else if |t| >= 2 && High(t[0] as int) && Low(t[1] as int) {
      PairFirst(t, tail);
      StartsUnquoted(t, tail);
      ReadStringBack(t[2..], tail);
      ReadStringStep(Escape(t) + tail, Joined(t[0] as int, t[1] as int) as Code, Escape(t[2..]) + tail, Fuse(t[2..]),
                     tail[1..]);
    } else {
      OneFirst(t, tail);
      StartsUnquoted(t, tail);
      ReadStringBack(t[1..], tail);
      ReadStringStep(Escape(t) + tail, t[0], Escape(t[1..]) + tail, Fuse(t[1..]), tail[1..]);
    }
  }

  lemma EscapeTwo(t: Text)
    requires |t| >= 2
    ensures Escape(t) == Escaped(t[0]) + (Escaped(t[1]) + Escape(t[2..]))
  {
    assert t[1..][1..] == t[2..];
  }

  lemma FollowedByNoLow(t: Text, tail: Text)
    requires tail != [] && tail[0] == QUOTE
    ensures t == [] || !Low(t[0] as int) ==> NoLow(Escape(t) + tail)
  {
    if t == [] {
      assert Escape(t) + tail == tail;
    } else if !Low(t[0] as int) {
      EscapeSplit(t, tail);
      EscapedStarts(t[0], Escape(t[1..]) + tail);
    }
  }

  lemma EscapedJoined(high: Code, low: Code)
    requires High(high as int) && Low(low as int)
    ensures Escaped(Joined(high as int, low as int) as Code) == Escaped(high) + Escaped(low)
  {
  }

  lemma Regroup(a: Text, b: Text, c: Text)
    ensures (a + b) + c == a + (b + c)
  {
  }

  lemma FusedPair(t: Text)
    requires |t| >= 2 && High(t[0] as int) && Low(t[1] as int)
    ensures Escape(Fuse(t)) == Escaped(t[0]) + (Escaped(t[1]) + Escape(Fuse(t[2..])))
  {
    var c := Joined(t[0] as int, t[1] as int) as Code;
    Grow(c, Fuse(t[2..]));
    EscapedJoined(t[0], t[1]);
    Regroup(Escaped(t[0]), Escaped(t[1]), Escape(Fuse(t[2..])));
  }

  lemma {:induction false} EscapeFused(t: Text)
    ensures Escape(Fuse(t)) == Escape(t)
    decreases |t|
  {
    if |t| >= 2 && High(t[0] as int) && Low(t[1] as int) {
      EscapeFused(t[2..]);
      FusedPair(t);
      EscapeTwo(t);
    } else if t != [] {
      EscapeFused(t[1..]);
      Grow(t[0], Fuse(t[1..]));
    }
  }

  lemma Grow(c: Code, t: Text)
    ensures Escape([c] + t) == Escaped(c) + Escape(t)
  {
    assert ([c] + t)[1..] == t;
  }

  lemma QuotedReads(t: Text)
    ensures ReadString(Quoted(t)[1..]) == Got(Fuse(t), [])
  {
    ReadStringBack(t, [QUOTE]);
    assert Quoted(t)[1..] == Escape(t) + [QUOTE];
  }

  /** Two texts have the same quoted form exactly when they are equal once surrogate pairs are
      fused: the canonical form is one-to-one on texts without such pairs, and not beyond them. */
  lemma QuotedEqualIff(a: Text, b: Text)
    ensures Quoted(a) == Quoted(b) <==> Fuse(a) == Fuse(b)
  {
    QuotedReads(a);
    QuotedReads(b);
    EscapeFused(a);
    EscapeFused(b);
  }

  lemma {:induction false} FuseFixes(t: Text)
    ensures Fuse(t) == t <==> Unpaired(t)
    decreases |t|
  {
    FuseShrinks(t);
    if |t| >= 2 && High(t[0] as int) && Low(t[1] as int) {
      FuseShrinks(t[2..]);
    } else if t != [] {
      FuseFixes(t[1..]);
      assert t == [t[0]] + t[1..];
      if Unpaired(t[1..]) {
        forall i | 0 <= i < |t| - 1 && High(t[i] as int) ensures !Low(t[i + 1] as int) {
          if i > 0 { assert t[i] == t[1..][i - 1] && t[i + 1] == t[1..][i]; }
        }
      }
      if Unpaired(t) {
        forall i | 0 <= i < |t[1..]| - 1 && High(t[1..][i] as int) ensures !Low(t[1..][i + 1] as int) {
          assert t[i + 1] == t[1..][i] && t[i + 2] == t[1..][i + 1];
        }
      }
    }
  }

  lemma {:induction false} FuseShrinks(t: Text)
    ensures |Fuse(t)| <= |t|
    decreases |t|
  {
    if |t| >= 2 && High(t[0] as int) && Low(t[1] as int) {
      FuseShrinks(t[2..]);
    } else if t != [] {
      FuseShrinks(t[1..]);
    }
  }

  /** Different texts with one canonical form: a surrogate pair and the character it encodes. */
  lemma PairsCollide()
    ensures Quoted([0xD83D, 0xDE00]) == Quoted([0x1F600])
  {
    assert Fuse([0xD83D, 0xDE00]) == [0x1F600] + Fuse([]);
    FuseFixes([0x1F600]);
    QuotedEqualIff([0xD83D, 0xDE00], [0x1F600]);
  }
}
