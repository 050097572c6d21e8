// Combined skill case ids (runner/eval_input.py:370-385): ULEB128 length, UTF-16BE payload, unpadded base64url,
// and the decoder that shows when two pairs share an id.

module Characters {
  // A Python string is a list of code points, lone surrogates included.
  type CodePoint = n: nat | n <= 0x10FFFF
  type Byte = n: nat | n < 0x100

  predicate High(n: nat) { 0xD800 <= n < 0xDC00 }
  predicate Low(n: nat) { 0xDC00 <= n < 0xE000 }
}

module CaseId {
  import opened Wrappers
  import opened Characters

  type Unit = n: nat | n < 0x10000
  type Sextet = n: nat | n < 0x40

  // ---------- UTF-16 (section 2.1 of RFC 2781, surrogates passed through) ----------

  function UnitsOf(c: CodePoint): seq<Unit> {
    if c < 0x10000 then [c]
    else
      var rest := c - 0x10000;
      [0xD800 + rest / 0x400, 0xDC00 + rest % 0x400]
  }

  function Utf16(s: seq<CodePoint>): seq<Unit> {
    if s == [] then [] else Utf16(s[..|s| - 1]) + UnitsOf(s[|s| - 1])
  }

  function Join(high: int, low: int): int {
    0x10000 + (high - 0xD800) * 0x400 + (low - 0xDC00)
  }

  // Read from the right: a low unit joins a high one before it.
  function FromUtf16(units: seq<Unit>): seq<CodePoint> {
    var n := |units|;
    if n == 0 then []
    else if n >= 2 && Low(units[n - 1]) && High(units[n - 2]) then
      FromUtf16(units[..n - 2]) + [Join(units[n - 2], units[n - 1])]
    else FromUtf16(units[..n - 1]) + [units[n - 1]]
  }

  // No lone high surrogate directly before a lone low one.
  predicate PairFree(s: seq<CodePoint>) {
    forall i :: 0 <= i < |s| - 1 ==> !(High(s[i]) && Low(s[i + 1]))
  }

  // The last unit is a high surrogate only if the last code point is one.
  lemma LastUnit(s: seq<CodePoint>)
    requires s != []
    ensures Utf16(s) != []
    ensures High(Utf16(s)[|Utf16(s)| - 1]) <==> High(s[|s| - 1])
  {}

  lemma Utf16Snoc(front: seq<CodePoint>, last: CodePoint)
    ensures Utf16(front + [last]) == Utf16(front) + UnitsOf(last)
  {}

  lemma FromJoined(before: seq<Unit>, high: Unit, low: Unit)
    requires High(high) && Low(low)
    ensures FromUtf16(before + [high, low]) == FromUtf16(before) + [Join(high, low)]
  {}

  lemma FromSingle(before: seq<Unit>, unit: Unit)
    requires Low(unit) && before != [] ==> !High(before[|before| - 1])
    ensures FromUtf16(before + [unit]) == FromUtf16(before) + [unit]
  {}

  lemma JoinedBack(c: CodePoint)
    requires c >= 0x10000
    ensures var u := UnitsOf(c);
            |u| == 2 && High(u[0]) && Low(u[1]) && Join(u[0], u[1]) == c
  {}

  lemma SplitBack(high: Unit, low: Unit)
    requires High(high) && Low(low)
    ensures 0x10000 <= Join(high, low) <= 0x10FFFF
    ensures UnitsOf(Join(high, low)) == [high, low]
  {}

  lemma {:induction false} Utf16RoundTrip(s: seq<CodePoint>)
    requires PairFree(s)
    ensures FromUtf16(Utf16(s)) == s
  {
    if s != [] {
      hide Utf16, FromUtf16, UnitsOf, Join;
      var front, last := s[..|s| - 1], s[|s| - 1];
      assert s == front + [last];
      assert forall i :: 0 <= i < |front| ==> front[i] == s[i];
      Utf16RoundTrip(front);
      Utf16Snoc(front, last);
      if last < 0x10000 {
        PlainUnits(last);
        if front != [] { LastUnit(front); } else { NoUnits(); }
        FromSingle(Utf16(front), last);
      } else {
        JoinedBack(last);
        assert UnitsOf(last) == [UnitsOf(last)[0], UnitsOf(last)[1]];
        FromJoined(Utf16(front), UnitsOf(last)[0], UnitsOf(last)[1]);
      }
    } else {
      NoUnits();
    }
  }

  lemma PlainUnits(c: CodePoint)
    requires c < 0x10000
    ensures UnitsOf(c) == [c]
  {}

  lemma NoUnits()
    ensures Utf16([]) == [] && FromUtf16([]) == []
  {}

  // What the decoder returns never holds such a pair.
  lemma {:induction false} DecodedIsPairFree(units: seq<Unit>)
    ensures PairFree(FromUtf16(units))
    ensures units != [] ==> FromUtf16(units) != []
    ensures units != [] && High(FromUtf16(units)[|FromUtf16(units)| - 1]) ==> High(units[|units| - 1])
  {
    var n := |units|;
    if n >= 2 && Low(units[n - 1]) && High(units[n - 2]) {
      DecodedIsPairFree(units[..n - 2]);
    } else if n > 0 {
      DecodedIsPairFree(units[..n - 1]);
    }
  }

  // The encoding can be undone exactly on strings without such a pair.
  lemma Utf16Exactly(s: seq<CodePoint>)
    ensures FromUtf16(Utf16(s)) == s <==> PairFree(s)
  {
    DecodedIsPairFree(Utf16(s));
    if PairFree(s) { Utf16RoundTrip(s); }
  }

  // ---------- bytes ----------

  function BigEndian(units: seq<Unit>): seq<Byte> {
    if units == [] then [] else [units[0] / 0x100, units[0] % 0x100] + BigEndian(units[1..])
  }

  function Word(high: int, low: int): int {
    high * 0x100 + low
  }

  function FromBigEndian(bytes: seq<Byte>): seq<Unit>
    requires |bytes| % 2 == 0
  {
    if bytes == [] then [] else [Word(bytes[0], bytes[1])] + FromBigEndian(bytes[2..])
  }

  lemma {:induction false} BigEndianRoundTrip(units: seq<Unit>)
    ensures |BigEndian(units)| == 2 * |units|
    ensures FromBigEndian(BigEndian(units)) == units
  {
    if units != [] {
      BigEndianRoundTrip(units[1..]);
      assert BigEndian(units)[2..] == BigEndian(units[1..]);
    }
  }

  // Section 7.6 of DWARF 5: seven bits a byte, the top bit while more follow.
  function Uleb(n: nat): seq<Byte> {
    if n < 0x80 then [n] else [n % 0x80 + 0x80] + Uleb(n / 0x80)
  }

  function TakeUleb(bytes: seq<Byte>): Option<(nat, seq<Byte>)> {
    if bytes == [] then None
    else if bytes[0] < 0x80 then Some((bytes[0], bytes[1..]))
    else
      var more := TakeUleb(bytes[1..]);
      if more.None? then None else Some((bytes[0] - 0x80 + 0x80 * more.value.0, more.value.1))
  }

  lemma {:induction false} UlebRoundTrip(n: nat, rest: seq<Byte>)
    ensures TakeUleb(Uleb(n) + rest) == Some((n, rest))
  {
    var bytes := Uleb(n) + rest;
    if n < 0x80 {
      assert bytes[1..] == rest;
    } else {
      UlebRoundTrip(n / 0x80, rest);
      assert bytes[1..] == Uleb(n / 0x80) + rest;
    }
  }

  // `_uleb128`: the masks and shifts of a non-negative number are remainders and quotients.
  method EncodeUleb(n: nat) returns (encoded: seq<Byte>)
    ensures encoded == Uleb(n)
  {
    encoded := [];
    var value := n;
    while value >= 0x80
      invariant encoded + Uleb(value) == Uleb(n)
    {
      encoded := encoded + [value % 0x80 + 0x80];
      value := value / 0x80;
    }
    encoded := encoded + [value];
  }

  function PartOf(units: seq<Unit>): seq<Byte> {
    Uleb(|units|) + BigEndian(units)
  }

  function TakePart(bytes: seq<Byte>): Option<(seq<Unit>, seq<Byte>)> {
    var length := TakeUleb(bytes);
    if length.None? || 2 * length.value.0 > |length.value.1| then None
    else
      var (n, rest) := length.value;
      Some((FromBigEndian(rest[..2 * n]), rest[2 * n..]))
  }

  lemma PartRoundTrip(units: seq<Unit>, rest: seq<Byte>)
    ensures TakePart(PartOf(units) + rest) == Some((units, rest))
  {
    var raw := BigEndian(units);
    BigEndianRoundTrip(units);
    assert PartOf(units) + rest == Uleb(|units|) + (raw + rest);
    UlebRoundTrip(|units|, raw + rest);
    assert (raw + rest)[..2 * |units|] == raw && (raw + rest)[2 * |units|..] == rest;
  }

  // ---------- base64url (sections 3.2 and 5 of RFC 4648) ----------

  function Letter(n: Sextet): char {
    if n < 26 then ('A' as int + n) as char
    else if n < 52 then ('a' as int + n - 26) as char
    else if n < 62 then ('0' as int + n - 52) as char
    else if n == 62 then '-'
    else '_'
  }

  function ValueOf(c: char): Option<Sextet> {
    if 'A' <= c <= 'Z' then Some(c as int - 'A' as int)
    else if 'a' <= c <= 'z' then Some(c as int - 'a' as int + 26)
    else if '0' <= c <= '9' then Some(c as int - '0' as int + 52)
    else if c == '-' then Some(62)
    else if c == '_' then Some(63)
    else None
  }

  function Sextets(bytes: seq<Byte>): seq<Sextet> {
    if bytes == [] then []
    else if |bytes| == 1 then [bytes[0] / 4, bytes[0] % 4 * 16]
    else if |bytes| == 2 then [bytes[0] / 4, bytes[0] % 4 * 16 + bytes[1] / 16, bytes[1] % 16 * 4]
    else [bytes[0] / 4, bytes[0] % 4 * 16 + bytes[1] / 16, bytes[1] % 16 * 4 + bytes[2] / 64, bytes[2] % 64]
         + Sextets(bytes[3..])
  }

  function First(a: int, b: int): int { a * 4 + b / 16 }
  function Second(b: int, c: int): int { b % 16 * 16 + c / 4 }
  function Third(c: int, d: int): int { c % 4 * 64 + d }

  function Octets(xs: seq<Sextet>): Option<seq<Byte>> {
    if xs == [] then Some([])
    else if |xs| == 1 then None
    else if |xs| == 2 then Some([First(xs[0], xs[1])])
    else if |xs| == 3 then Some([First(xs[0], xs[1]), Second(xs[1], xs[2])])
    else
      var more := Octets(xs[4..]);
      if more.None? then None
      else Some([First(xs[0], xs[1]), Second(xs[1], xs[2]), Third(xs[2], xs[3])] + more.value)
  }

  lemma GroupBack(a: Byte, b: Byte, c: Byte)
    ensures First(a / 4, a % 4 * 16 + b / 16) == a
    ensures Second(a % 4 * 16 + b / 16, b % 16 * 4 + c / 64) == b
    ensures Third(b % 16 * 4 + c / 64, c % 64) == c
  {}

  lemma {:induction false} SextetsRoundTrip(bytes: seq<Byte>)
    ensures Octets(Sextets(bytes)) == Some(bytes)
  {
    hide First, Second, Third;
    if |bytes| == 1 {
      GroupBack(bytes[0], 0, 0);
      assert bytes == [bytes[0]];
    } else if |bytes| == 2 {
      GroupBack(bytes[0], bytes[1], 0);
      assert bytes == [bytes[0], bytes[1]];
    } else if |bytes| >= 3 {
      SextetsRoundTrip(bytes[3..]);
      GroupBack(bytes[0], bytes[1], bytes[2]);
      assert Sextets(bytes)[4..] == Sextets(bytes[3..]);
      assert bytes == [bytes[0], bytes[1], bytes[2]] + bytes[3..];
    }
  }

  function Letters(xs: seq<Sextet>): string {
    seq(|xs|, i requires 0 <= i < |xs| => Letter(xs[i]))
  }

  function Values(text: string): Option<seq<Sextet>> {
    if text == "" then Some([])
    else
      var front, last := Values(text[..|text| - 1]), ValueOf(text[|text| - 1]);
      if front.None? || last.None? then None else Some(front.value + [last.value])
  }

  lemma {:induction false} LettersRoundTrip(xs: seq<Sextet>)
    ensures Values(Letters(xs)) == Some(xs)
  {
    if xs != [] {
      var front := xs[..|xs| - 1];
      LettersRoundTrip(front);
      assert Letters(xs)[..|xs| - 1] == Letters(front);
      assert xs == front + [xs[|xs| - 1]];
    }
  }

  // The padded text: as many equals signs as bytes are missing from the last group of three.
  function Padded(bytes: seq<Byte>): string {
    Letters(Sextets(bytes)) + if |bytes| % 3 == 1 then "==" else if |bytes| % 3 == 2 then "=" else ""
  }

  // `rstrip("=")`
  function StripPadding(text: string): string {
    if text != "" && text[|text| - 1] == '=' then StripPadding(text[..|text| - 1]) else text
  }

  lemma PaddingStripped(bytes: seq<Byte>)
    ensures StripPadding(Padded(bytes)) == Letters(Sextets(bytes))
  {
    var text := Letters(Sextets(bytes));
    assert StripPadding(text) == text;
    assert (text + "=")[..|text|] == text;
    assert (text + "==")[..|text| + 1] == text + "=";
    assert StripPadding(text + "=") == text;
    assert StripPadding(text + "==") == text;
    assert text + "" == text;
  }

  // ---------- the id ----------

  const PREFIX := "sk1_"

  function Payload(skill: seq<CodePoint>, source: seq<CodePoint>): seq<Byte> {
    PartOf(Utf16(skill)) + PartOf(Utf16(source))
  }

  function Id(skill: seq<CodePoint>, source: seq<CodePoint>): string {
    PREFIX + StripPadding(Padded(Payload(skill, source)))
  }

  // `combined_skill_case_id`; the source id is already text.
  method CombinedSkillCaseId(skill: seq<CodePoint>, source: seq<CodePoint>) returns (id: string)
    ensures id == Id(skill, source)
  {
    var parts: seq<seq<Byte>> := [];
    var values := [skill, source];
    for i := 0 to 2
      invariant |parts| == 2 * i
      invariant i >= 1 ==> parts[0] + parts[1] == PartOf(Utf16(skill))
      invariant i == 2 ==> parts[2] + parts[3] == PartOf(Utf16(source))
    {
      var units := Utf16(values[i]);
      var raw := BigEndian(units);
      BigEndianRoundTrip(units);
      var length := EncodeUleb(|raw| / 2);
      parts := parts + [length, raw];
    }
    var payload := parts[0] + parts[1] + parts[2] + parts[3];
    assert payload == Payload(skill, source);
    return PREFIX + StripPadding(Padded(payload));
  }

  // The decoder: the two sequences of code units an id was made from.
  function Decode(id: string): Option<(seq<Unit>, seq<Unit>)> {
    if |id| < |PREFIX| || id[..|PREFIX|] != PREFIX then None
    else
      var xs := Values(id[|PREFIX|..]);
      var bytes := if xs.None? then None else Octets(xs.value);
      var first := if bytes.None? then None else TakePart(bytes.value);
      var second := if first.None? then None else TakePart(first.value.1);
      if second.None? || second.value.1 != [] then None else Some((first.value.0, second.value.0))
  }

  lemma IdRoundTrip(skill: seq<CodePoint>, source: seq<CodePoint>)
    ensures Decode(Id(skill, source)) == Some((Utf16(skill), Utf16(source)))
  {
    var bytes := Payload(skill, source);
    var id := Id(skill, source);
    PaddingStripped(bytes);
    assert id[..|PREFIX|] == PREFIX && id[|PREFIX|..] == Letters(Sextets(bytes));
    LettersRoundTrip(Sextets(bytes));
    SextetsRoundTrip(bytes);
    PartRoundTrip(Utf16(skill), PartOf(Utf16(source)));
    PartRoundTrip(Utf16(source), []);
    assert PartOf(Utf16(source)) + [] == PartOf(Utf16(source));
  }

  // TWO PAIRS SHARE AN ID exactly when their UTF-16 code units are the same.
  lemma SameIdExactly(skill: seq<CodePoint>, source: seq<CodePoint>, skill2: seq<CodePoint>, source2: seq<CodePoint>)
    ensures Id(skill, source) == Id(skill2, source2)
            <==> Utf16(skill) == Utf16(skill2) && Utf16(source) == Utf16(source2)
  {
    IdRoundTrip(skill, source);
    IdRoundTrip(skill2, source2);
  }

  // Among strings without a lone high surrogate before a lone low one, ids are injective.
  lemma IdsAreInjective(skill: seq<CodePoint>, source: seq<CodePoint>, skill2: seq<CodePoint>, source2: seq<CodePoint>)
    requires PairFree(skill) && PairFree(source) && PairFree(skill2) && PairFree(source2)
    requires Id(skill, source) == Id(skill2, source2)
    ensures skill == skill2 && source == source2
  {
    SameIdExactly(skill, source, skill2, source2);
    Utf16Exactly(skill);
    Utf16Exactly(source);
    Utf16Exactly(skill2);
    Utf16Exactly(source2);
  }

  // Outside them they are not: every pair of strings shares its id with a pair without such a place in either
  // string, and that is another pair exactly when one of the two strings has one.
  lemma PairsCollide(skill: seq<CodePoint>, source: seq<CodePoint>)
    ensures var skill2, source2 := FromUtf16(Utf16(skill)), FromUtf16(Utf16(source));
            && PairFree(skill2) && PairFree(source2) && Id(skill2, source2) == Id(skill, source)
            && ((skill2 != skill || source2 != source) <==> !PairFree(skill) || !PairFree(source))
  {
    PairFreeTwin(skill);
    PairFreeTwin(source);
  }

  lemma PairFreeTwin(text: seq<CodePoint>)
    ensures PairFree(FromUtf16(Utf16(text))) && Utf16(FromUtf16(Utf16(text))) == Utf16(text)
    ensures FromUtf16(Utf16(text)) != text <==> !PairFree(text)
  {
    UnitsOfDecoded(Utf16(text));
    Utf16Exactly(text);
    Utf16Exactly(FromUtf16(Utf16(text)));
  }

  lemma {:induction false} UnitsOfDecoded(units: seq<Unit>)
    ensures Utf16(FromUtf16(units)) == units
  {
    hide Utf16, FromUtf16, UnitsOf, Join;
    var n := |units|;
    if n >= 2 && Low(units[n - 1]) && High(units[n - 2]) {
      var front := units[..n - 2];
      UnitsOfDecoded(front);
      assert units == front + [units[n - 2], units[n - 1]];
      FromJoined(front, units[n - 2], units[n - 1]);
      SplitBack(units[n - 2], units[n - 1]);
      Utf16Snoc(FromUtf16(front), Join(units[n - 2], units[n - 1]));
    } else if n > 0 {
      var front := units[..n - 1];
      UnitsOfDecoded(front);
      assert units == front + [units[n - 1]];
      FromSingle(front, units[n - 1]);
      PlainUnits(units[n - 1]);
      Utf16Snoc(FromUtf16(front), units[n - 1]);
    } else {
      NoUnits();
    }
  }
}
