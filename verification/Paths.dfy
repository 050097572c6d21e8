// Artifact paths (runner/eval_artifacts.py:588-618, 692-717): the percent-encoded case component and the paths of
// single and paired jobs.

module Paths {
  import opened Wrappers
  import opened Sequences
  import opened Characters

  // ---------- UTF-8 ----------

  function Utf8Char(c: CodePoint): seq<Byte> {
    if c < 0x80 then [c]
    else if c < 0x800 then [0xC0 + c / 0x40, 0x80 + c % 0x40]
    else if c < 0x10000 then [0xE0 + c / 0x1000, 0x80 + c / 0x40 % 0x40, 0x80 + c % 0x40]
    else [0xF0 + c / 0x40000, 0x80 + c / 0x1000 % 0x40, 0x80 + c / 0x40 % 0x40, 0x80 + c % 0x40]
  }

  function Utf8(s: seq<CodePoint>): seq<Byte> {
    if s == [] then [] else Utf8Char(s[0]) + Utf8(s[1..])
  }

  function Two(a: int, b: int): int { (a - 0xC0) * 0x40 + (b - 0x80) }
  function Three(a: int, b: int, c: int): int { (a - 0xE0) * 0x1000 + (b - 0x80) * 0x40 + (c - 0x80) }
  function Four(a: int, b: int, c: int, d: int): int {
    (a - 0xF0) * 0x40000 + (b - 0x80) * 0x1000 + (c - 0x80) * 0x40 + (d - 0x80)
  }

  // Decodes what `Utf8` writes.
  function FromUtf8(bytes: seq<Byte>): Option<seq<int>> {
    if bytes == [] then Some([])
    else
      var n := if bytes[0] < 0x80 then 1 else if bytes[0] < 0xE0 then 2 else if bytes[0] < 0xF0 then 3 else 4;
      if |bytes| < n then None
      else
        var head := if n == 1 then bytes[0] else if n == 2 then Two(bytes[0], bytes[1])
                    else if n == 3 then Three(bytes[0], bytes[1], bytes[2])
                    else Four(bytes[0], bytes[1], bytes[2], bytes[3]);
        var more := FromUtf8(bytes[n..]);
        if more.None? then None else Some([head] + more.value)
  }

  lemma CharBack(c: CodePoint)
    ensures var b := Utf8Char(c);
            if c < 0x80 then b == [c]
            else if c < 0x800 then |b| == 2 && 0xC0 <= b[0] < 0xE0 && Two(b[0], b[1]) == c
            else if c < 0x10000 then |b| == 3 && 0xE0 <= b[0] < 0xF0 && Three(b[0], b[1], b[2]) == c
            else |b| == 4 && 0xF0 <= b[0] && Four(b[0], b[1], b[2], b[3]) == c
  {
    if c < 0x10000 { Quotients(c); } else { Quotients(c); }
  }

  lemma Quotients(c: CodePoint)
    ensures c == c / 0x40 * 0x40 + c % 0x40
    ensures c / 0x40 == c / 0x1000 * 0x40 + c / 0x40 % 0x40
    ensures c / 0x1000 == c / 0x40000 * 0x40 + c / 0x1000 % 0x40
  {}

  lemma CharReads(c: CodePoint, rest: seq<Byte>)
    requires FromUtf8(rest).Some?
    ensures FromUtf8(Utf8Char(c) + rest) == Some([c] + FromUtf8(rest).value)
  {
    hide Two, Three, Four;
    CharBack(c);
    var bytes := Utf8Char(c) + rest;
    assert bytes[|Utf8Char(c)|..] == rest;
  }

  lemma {:induction false} Utf8RoundTrip(s: seq<CodePoint>)
    ensures FromUtf8(Utf8(s)) == Some(s)
  {
    hide Utf8Char, FromUtf8;
    if s == [] {
      NothingReads();
    } else {
      Utf8RoundTrip(s[1..]);
      CharReads(s[0], Utf8(s[1..]));
      assert s == [s[0]] + s[1..];
    }
  }

  lemma NothingReads()
    ensures FromUtf8([]) == Some([])
  {}

  // ---------- percent-encoding (sections 2.1 and 2.3 of RFC 3986) ----------

  predicate Unreserved(n: nat) {
    || 'A' as int <= n <= 'Z' as int || 'a' as int <= n <= 'z' as int || '0' as int <= n <= '9' as int
    || n == '_' as int || n == '.' as int || n == '-' as int || n == '~' as int
  }

  function HexDigit(n: nat): char
    requires n < 16
  {
    if n < 10 then ('0' as int + n) as char else ('A' as int + n - 10) as char
  }

  function HexValue(c: char): Option<nat> {
    if '0' <= c <= '9' then Some(c as int - '0' as int)
    else if 'A' <= c <= 'F' then Some(c as int - 'A' as int + 10)
    else None
  }

  function QuoteByte(b: Byte): string {
    if Unreserved(b) then [b as char] else ['%', HexDigit(b / 16), HexDigit(b % 16)]
  }

  // `quote(text, safe="")` on the encoded text
  function Quoted(bytes: seq<Byte>): string {
    if bytes == [] then "" else QuoteByte(bytes[0]) + Quoted(bytes[1..])
  }

  function Unquoted(text: string): Option<seq<int>> {
    if text == "" then Some([])
    else if text[0] != '%' then
      var more := Unquoted(text[1..]);
      if more.None? then None else Some([text[0] as int] + more.value)
    else if |text| < 3 || HexValue(text[1]).None? || HexValue(text[2]).None? then None
    else
      var more := Unquoted(text[3..]);
      if more.None? then None else Some([16 * HexValue(text[1]).value + HexValue(text[2]).value] + more.value)
  }

  lemma HexBack(n: nat)
    requires n < 16
    ensures HexValue(HexDigit(n)) == Some(n) && HexDigit(n) != '/'
  {}

  lemma {:induction false} QuotedRoundTrip(bytes: seq<Byte>)
    ensures Unquoted(Quoted(bytes)) == Some(bytes)
    ensures '/' !in Quoted(bytes)
  {
    if bytes != [] {
      QuotedRoundTrip(bytes[1..]);
      var b := bytes[0];
      HexBack(b / 16);
      HexBack(b % 16);
      assert Quoted(bytes)[|QuoteByte(b)|..] == Quoted(bytes[1..]);
      assert bytes == [b] + bytes[1..];
    }
  }

  // ---------- the case component ----------

  datatype PathError = EmptyCaseId | NotEncodable | TooLong | BadIteration

  const MAX_CASE_COMPONENT_BYTES := 200

  // Text that UTF-8 can carry: a lone surrogate makes the encoder raise.
  predicate Encodable(s: seq<CodePoint>) {
    forall i :: 0 <= i < |s| ==> !High(s[i]) && !Low(s[i])
  }

  function ComponentText(caseId: seq<CodePoint>): string {
    "case-" + Quoted(Utf8(caseId))
  }

  // `_case_component`
  function CaseComponent(caseId: seq<CodePoint>): Result<string, PathError> {
    if caseId == [] then Failure(EmptyCaseId)
    else if !Encodable(caseId) then Failure(NotEncodable)
    else if |ComponentText(caseId)| > MAX_CASE_COMPONENT_BYTES then Failure(TooLong)
    else Success(ComponentText(caseId))
  }

  // The case id a component was made from.
  function CaseOf(component: string): Option<seq<int>> {
    if |component| < 5 || component[..5] != "case-" then None
    else
      var bytes := Unquoted(component[5..]);
      if bytes.None? || exists i :: 0 <= i < |bytes.value| && !(0 <= bytes.value[i] < 0x100) then None
      else FromUtf8(seq(|bytes.value|, i requires 0 <= i < |bytes.value| => bytes.value[i]))
  }

  // A COMPONENT DETERMINES ITS CASE ID, and is one path component: no slash, and neither "." nor "..".
  lemma ComponentRoundTrip(caseId: seq<CodePoint>)
    ensures CaseOf(ComponentText(caseId)) == Some(caseId)
    ensures '/' !in ComponentText(caseId) && ComponentText(caseId) != "." && ComponentText(caseId) != ".."
  {
    hide Utf8, Quoted, Unquoted, FromUtf8;
    var text := ComponentText(caseId);
    var bytes := Utf8(caseId);
    QuotedRoundTrip(bytes);
    Utf8RoundTrip(caseId);
    assert text[..5] == "case-" && text[5..] == Quoted(bytes);
    assert seq(|bytes|, i requires 0 <= i < |bytes| => bytes[i]) == bytes;
    assert |"."| == 1 && |".."| == 2;
  }

  // ---------- paths ----------

  function Decimal(n: nat): string {
    if n < 10 then [('0' as int + n) as char] else Decimal(n / 10) + [('0' as int + n % 10) as char]
  }

  function DecimalValue(text: string): int {
    if text == "" then 0
    else 10 * DecimalValue(text[..|text| - 1]) + (text[|text| - 1] as int - '0' as int)
  }

  lemma {:induction false} DecimalRoundTrip(n: nat)
    ensures DecimalValue(Decimal(n)) == n
  {
    if n < 10 {
      assert Decimal(n)[..0] == "";
    } else {
      DecimalRoundTrip(n / 10);
      assert Decimal(n)[..|Decimal(n)| - 1] == Decimal(n / 10);
    }
  }

  const JOBS_DIR := "jobs"
  const PAIRS_DIR := "pairs"

  function FileName(iteration: nat): string {
    "iteration-" + Decimal(iteration) + ".json"
  }

  function RelativePath(directory: string, caseId: seq<CodePoint>, iteration: int): Result<string, PathError> {
    if caseId == [] then Failure(EmptyCaseId)
    else if iteration < 1 then Failure(BadIteration)
    else
      match CaseComponent(caseId)
      case Failure(e) => Failure(e)
      case Success(component) => Success(directory + "/" + component + "/" + FileName(iteration))
  }

  // `job_relative_path` and `paired_job_relative_path`, as POSIX paths
  function JobPath(caseId: seq<CodePoint>, iteration: int): Result<string, PathError> {
    RelativePath(JOBS_DIR, caseId, iteration)
  }

  function PairedPath(caseId: seq<CodePoint>, iteration: int): Result<string, PathError> {
    RelativePath(PAIRS_DIR, caseId, iteration)
  }

  lemma FileNamesDiffer(i: nat, j: nat)
    requires FileName(i) == FileName(j)
    ensures i == j
  {
    var f, g := FileName(i), FileName(j);
    assert f == "iteration-" + Decimal(i) + ".json" && g == "iteration-" + Decimal(j) + ".json";
    assert Decimal(i) == f[10..|f| - 5] && Decimal(j) == g[10..|g| - 5];
    DecimalRoundTrip(i);
    DecimalRoundTrip(j);
  }

  lemma PathDetermines(d: string, e: string, a: seq<CodePoint>, b: seq<CodePoint>, i: int, j: int)
    requires '/' !in d && '/' !in e
    requires RelativePath(d, a, i).Success? && RelativePath(d, a, i) == RelativePath(e, b, j)
    ensures d == e && a == b && i == j
  {
    hide ComponentText, FileName;
    var x, y := ComponentText(a), ComponentText(b);
    ComponentRoundTrip(a);
    ComponentRoundTrip(b);
    assert d + "/" + x + "/" + FileName(i) == d + ['/'] + (x + ['/'] + FileName(i));
    assert e + "/" + y + "/" + FileName(j) == e + ['/'] + (y + ['/'] + FileName(j));
    SameAroundSeparator('/', d, e, x + ['/'] + FileName(i), y + ['/'] + FileName(j));
    SameAroundSeparator('/', x, y, FileName(i), FileName(j));
    FileNamesDiffer(i, j);
  }

  // DISTINCT (case, iteration) identities never share a path, and job and paired paths never meet.
  lemma PathsAreInjective(a: seq<CodePoint>, b: seq<CodePoint>, i: int, j: int)
    ensures JobPath(a, i).Success? && JobPath(a, i) == JobPath(b, j) ==> a == b && i == j
    ensures PairedPath(a, i).Success? && PairedPath(a, i) == PairedPath(b, j) ==> a == b && i == j
    ensures JobPath(a, i).Success? ==> JobPath(a, i) != PairedPath(b, j)
  {
    hide RelativePath;
    assert '/' !in JOBS_DIR && '/' !in PAIRS_DIR && |JOBS_DIR| != |PAIRS_DIR|;
    if JobPath(a, i).Success? && JobPath(a, i) == JobPath(b, j) { PathDetermines(JOBS_DIR, JOBS_DIR, a, b, i, j); }
    if PairedPath(a, i).Success? && PairedPath(a, i) == PairedPath(b, j) {
      PathDetermines(PAIRS_DIR, PAIRS_DIR, a, b, i, j);
    }
    if JobPath(a, i).Success? && JobPath(a, i) == PairedPath(b, j) { PathDetermines(JOBS_DIR, PAIRS_DIR, a, b, i, j); }
  }
}
