// The hand-written YAML printer (runner/eval_output.py:1010-1062) and a line-oriented reader of what it prints.

module YamlText {
  import opened Wrappers
  import opened Json

  // ---------- strings: json.dumps with ensure_ascii=False ----------

  function HexDigit(n: nat): char
    requires n < 16
  {
    if n < 10 then ('0' as int + n) as char else ('a' as int + n - 10) as char
  }

  function HexValue(c: char): Option<nat> {
    if '0' <= c <= '9' then Some(c as int - '0' as int)
    else if 'a' <= c <= 'f' then Some(c as int - 'a' as int + 10)
    else None
  }

  function EscapeChar(c: char): string {
    if c == '"' then ['\\', '"']
    else if c == '\\' then ['\\', '\\']
    else if c == '\n' then ['\\', 'n']
    else if c == '\r' then ['\\', 'r']
    else if c == '\t' then ['\\', 't']
    else if c as int == 12 then ['\\', 'f']
    else if c as int == 8 then ['\\', 'b']
    else if c as int < 32 then ['\\', 'u', '0', '0', HexDigit(c as int / 16), HexDigit(c as int % 16)]
    else [c]
  }

  function Escape(text: string): string {
    if text == "" then "" else EscapeChar(text[0]) + Escape(text[1..])
  }

  function Quote(text: string): string {
    ['"'] + Escape(text) + ['"']
  }

  // One character, written plainly or escaped, and what follows it.
  function ReadChar(s: string): Option<(char, string)> {
    if s == "" || s[0] == '"' || s[0] as int < 32 then None
    else if s[0] != '\\' then Some((s[0], s[1..]))
    else if |s| < 2 then None
    else
      match s[1]
      case '"' => Some(('"', s[2..]))
      case '\\' => Some(('\\', s[2..]))
      case 'n' => Some(('\n', s[2..]))
      case 'r' => Some(('\r', s[2..]))
      case 't' => Some(('\t', s[2..]))
      case 'f' => Some((12 as char, s[2..]))
      case 'b' => Some((8 as char, s[2..]))
      case 'u' =>
        if |s| < 6 || s[2] != '0' || s[3] != '0' || HexValue(s[4]).None? || HexValue(s[5]).None? then None
        else Some(((16 * HexValue(s[4]).value + HexValue(s[5]).value) as char, s[6..]))
      case _ => None
  }

  // The characters up to the closing quote, and what follows it.
  function ReadChars(s: string): Option<(string, string)>
    decreases |s|
  {
    if s != "" && s[0] == '"' then Some(("", s[1..]))
    else
      var head := ReadChar(s);
      if head.None? then None
      else
        var more := ReadChars(head.value.1);
        if more.None? then None else Some(([head.value.0] + more.value.0, more.value.1))
  }

  lemma CharReadsBack(c: char, rest: string)
    ensures ReadChar(EscapeChar(c) + rest) == Some((c, rest))
    ensures |EscapeChar(c)| > 0 && EscapeChar(c)[0] != '"' && '\n' !in EscapeChar(c)
  {}

  lemma {:induction false} QuotedReadsBack(text: string, rest: string)
    ensures ReadChars(Escape(text) + ['"'] + rest) == Some((text, rest))
    ensures '\n' !in Escape(text)
  {
    hide ReadChar, EscapeChar;
    if text == "" {
      assert Escape(text) + ['"'] + rest == ['"'] + rest;
    } else {
      var after := Escape(text[1..]) + ['"'] + rest;
      assert Escape(text) + ['"'] + rest == EscapeChar(text[0]) + after;
      CharReadsBack(text[0], after);
      assert (EscapeChar(text[0]) + after)[0] == EscapeChar(text[0])[0];
      QuotedReadsBack(text[1..], rest);
      assert text == [text[0]] + text[1..];
    }
  }

  // ---------- lines ----------

  function Join(lines: seq<string>): string {
    if lines == [] then ""
    else if |lines| == 1 then lines[0]
    else lines[0] + "\n" + Join(lines[1..])
  }

  function Split(text: string): seq<string> {
    if text == "" then [""]
    else
      var more := Split(text[1..]);
      if text[0] == '\n' then [""] + more else [[text[0]] + more[0]] + more[1..]
  }

  lemma {:induction false} SplitLine(line: string, rest: string)
    requires '\n' !in line
    ensures Split(line + "\n" + rest) == [line] + Split(rest)
    ensures Split(line) == [line]
  {
    if line == "" {
      assert ("\n" + rest)[1..] == rest;
      assert line + "\n" + rest == "\n" + rest;
    } else {
      SplitLine(line[1..], rest);
      assert (line + "\n" + rest)[1..] == line[1..] + "\n" + rest;
      assert line == [line[0]] + line[1..];
    }
  }

  predicate NewlineFree(lines: seq<string>) {
    forall i :: 0 <= i < |lines| ==> '\n' !in lines[i]
  }

  lemma {:induction false} SplitJoin(lines: seq<string>)
    requires lines != [] && NewlineFree(lines)
    ensures Split(Join(lines)) == lines
  {
    SplitLine(lines[0], Join(lines[1..]));
    if |lines| > 1 {
      SplitJoin(lines[1..]);
      assert lines == [lines[0]] + lines[1..];
    }
  }

  lemma {:induction false} JoinConcat(a: seq<string>, b: seq<string>)
    requires a != [] && b != []
    ensures Join(a + b) == Join(a) + "\n" + Join(b)
  {
    if |a| == 1 {
      assert (a + b)[1..] == b;
    } else {
      assert (a + b)[1..] == a[1..] + b;
      JoinConcat(a[1..], b);
    }
  }

  // Joining blocks that are joined already is joining all their lines.
  lemma JoinFlattens(a: seq<string>, block: seq<string>)
    requires block != []
    ensures Join(a + [Join(block)]) == Join(a + block)
  {
    if a == [] {
      assert a + [Join(block)] == [Join(block)] && a + block == block;
    } else {
      JoinConcat(a, [Join(block)]);
      JoinConcat(a, block);
    }
  }

  // ---------- the printer ----------

  function Pad(n: nat): string { seq(n, _ => ' ') }

  // `_yaml_scalar`
  function Scalar(v: Json): string
    requires !v.List? && !v.Object?
  {
    match v
    case Null => "null"
    case Bool(b) => if b then "true" else "false"
    case Number(digits) => digits
    case Text(text) => Quote(text)
  }

  predicate Nested(v: Json) {
    (v.List? && v.items != []) || (v.Object? && v.members != [])
  }

  function Inline(v: Json): string
    requires !Nested(v)
  {
    if v.Object? then "{}" else if v.List? then "[]" else Scalar(v)
  }

  function Lines(v: Json, indent: nat): seq<string>
    decreases v, 1, 0
  {
    if !Nested(v) then [Pad(indent) + Inline(v)]
    else if v.Object? then MemberLines(v, 0, indent)
    else ItemLines(v, 0, indent)
  }

  function MemberLines(v: Json, k: nat, indent: nat): seq<string>
    requires v.Object? && k <= |v.members|
    decreases v, 0, |v.members| - k
  {
    if k == |v.members| then []
    else MemberPiece(v.members[k].0, v.members[k].1, indent) + MemberLines(v, k + 1, indent)
  }

  function MemberPiece(key: string, item: Json, indent: nat): seq<string>
    decreases item, 2, 0
  {
    if Nested(item) then [Pad(indent) + Quote(key) + ":"] + Lines(item, indent + 2)
    else [Pad(indent) + Quote(key) + ": " + Inline(item)]
  }

  function ItemLines(v: Json, k: nat, indent: nat): seq<string>
    requires v.List? && k <= |v.items|
    decreases v, 0, |v.items| - k
  {
    if k == |v.items| then [] else ItemPiece(v.items[k], indent) + ItemLines(v, k + 1, indent)
  }

  function ItemPiece(item: Json, indent: nat): seq<string>
    decreases item, 2, 0
  {
    if Nested(item) then [Pad(indent) + "-"] + Lines(item, indent + 2) else [Pad(indent) + "- " + Inline(item)]
  }

  // `_yaml_tree`: the lines it collects are joined blocks; `flat` is the same text line by line.
  method YamlTree(v: Json, indent: nat) returns (text: string)
    ensures text == Join(Lines(v, indent))
    decreases v, 1
  {
    if v.Object? {
      if v.members == [] {
        return Pad(indent) + "{}";
      }
      text := YamlMembers(v, indent);
    } else if v.List? {
      if v.items == [] {
        return Pad(indent) + "[]";
      }
      text := YamlItems(v, indent);
    } else {
      text := Pad(indent) + Scalar(v);
    }
  }

  method YamlMembers(v: Json, indent: nat) returns (text: string)
    requires v.Object? && v.members != []
    ensures text == Join(MemberLines(v, 0, indent))
    decreases v, 0
  {
    hide Join, Quote, Inline, Pad, Lines;
    var prefix := Pad(indent);
    var lines: seq<string> := [];
    ghost var flat: seq<string> := [];
    for k := 0 to |v.members|
      invariant flat + MemberLines(v, k, indent) == MemberLines(v, 0, indent) && Join(lines) == Join(flat)
      invariant (lines == [] <==> k == 0) && (flat == [] <==> k == 0)
    {
      var (key, item) := v.members[k];
      ghost var before := flat;
      if Nested(item) {
        var block := YamlTree(item, indent + 2);
        LinesNonEmpty(item, indent + 2);
        Appended(lines, flat, prefix + Quote(key) + ":");
        lines, flat := lines + [prefix + Quote(key) + ":"], flat + [prefix + Quote(key) + ":"];
        AppendedBlock(lines, flat, Lines(item, indent + 2));
        lines, flat := lines + [block], flat + Lines(item, indent + 2);
      } else {
        Appended(lines, flat, prefix + Quote(key) + ": " + Inline(item));
        lines := lines + [prefix + Quote(key) + ": " + Inline(item)];
        flat := flat + [prefix + Quote(key) + ": " + Inline(item)];
      }
      assert flat == before + MemberPiece(key, item, indent);
      Regrouped(before, MemberPiece(key, item, indent), MemberLines(v, k + 1, indent));
    }
    assert flat + [] == flat;
    return Join(lines);
  }

  method YamlItems(v: Json, indent: nat) returns (text: string)
    requires v.List? && v.items != []
    ensures text == Join(ItemLines(v, 0, indent))
    decreases v, 0
  {
    hide Join, Inline, Pad, Lines;
    var prefix := Pad(indent);
    var lines: seq<string> := [];
    ghost var flat: seq<string> := [];
    for k := 0 to |v.items|
      invariant flat + ItemLines(v, k, indent) == ItemLines(v, 0, indent) && Join(lines) == Join(flat)
      invariant (lines == [] <==> k == 0) && (flat == [] <==> k == 0)
    {
      var item := v.items[k];
      ghost var before := flat;
      if Nested(item) {
        var block := YamlTree(item, indent + 2);
        LinesNonEmpty(item, indent + 2);
        Appended(lines, flat, prefix + "-");
        lines, flat := lines + [prefix + "-"], flat + [prefix + "-"];
        AppendedBlock(lines, flat, Lines(item, indent + 2));
        lines, flat := lines + [block], flat + Lines(item, indent + 2);
      } else {
        Appended(lines, flat, prefix + "- " + Inline(item));
        lines, flat := lines + [prefix + "- " + Inline(item)], flat + [prefix + "- " + Inline(item)];
      }
      assert flat == before + ItemPiece(item, indent);
      Regrouped(before, ItemPiece(item, indent), ItemLines(v, k + 1, indent));
    }
    assert flat + [] == flat;
    return Join(lines);
  }

  lemma Regrouped(a: seq<string>, b: seq<string>, c: seq<string>)
    ensures a + b + c == a + (b + c)
  {}

  lemma Appended(lines: seq<string>, flat: seq<string>, line: string)
    requires Join(lines) == Join(flat) && (lines == [] <==> flat == [])
    ensures Join(lines + [line]) == Join(flat + [line])
  {
    if lines != [] {
      JoinConcat(lines, [line]);
      JoinConcat(flat, [line]);
    }
  }

  lemma AppendedBlock(lines: seq<string>, flat: seq<string>, block: seq<string>)
    requires Join(lines) == Join(flat) && (lines == [] <==> flat == []) && block != []
    ensures Join(lines + [Join(block)]) == Join(flat + block)
  {
    Appended(lines, flat, Join(block));
    JoinFlattens(flat, block);
  }

  lemma LinesNonEmpty(v: Json, indent: nat)
    ensures Lines(v, indent) != []
  {
    if Nested(v) && v.Object? {
      assert MemberLines(v, 0, indent)
          == MemberPiece(v.members[0].0, v.members[0].1, indent) + MemberLines(v, 1, indent);
    } else if Nested(v) {
      assert ItemLines(v, 0, indent) == ItemPiece(v.items[0], indent) + ItemLines(v, 1, indent);
    }
  }

  // ---------- the reader ----------

  function Indent(line: string): nat {
    if line != "" && line[0] == ' ' then 1 + Indent(line[1..]) else 0
  }

  lemma {:induction false} IndentBound(line: string)
    ensures Indent(line) <= |line|
  {
    if line != "" && line[0] == ' ' { IndentBound(line[1..]); }
  }

  function Content(line: string): string {
    IndentBound(line);
    line[Indent(line)..]
  }

  // The characters of a JSON number; it ends with a digit.
  predicate NumberText(s: string) {
    && s != "" && '0' <= s[|s| - 1] <= '9'
    && forall i :: 0 <= i < |s| ==> '0' <= s[i] <= '9' || s[i] in "+-.eE"
  }

  // A value written on one line.
  function ReadInline(c: string): Option<Json> {
    if c == "{}" then Some(Object([]))
    else if c == "[]" then Some(List([]))
    else if c == "null" then Some(Null)
    else if c == "true" then Some(Bool(true))
    else if c == "false" then Some(Bool(false))
    else if NumberText(c) then Some(Number(c))
    else if c != "" && c[0] == '"' then
      var text := ReadChars(c[1..]);
      if text.Some? && text.value.1 == "" then Some(Text(text.value.0)) else None
    else None
  }

  // The label of a member and what follows its colon.
  function ReadLabel(c: string): Option<(string, string)> {
    if c == "" || c[0] != '"' then None
    else
      var key := ReadChars(c[1..]);
      if key.None? || key.value.1 == "" || key.value.1[0] != ':' then None
      else Some((key.value.0, key.value.1[1..]))
  }

  predicate IsItem(c: string) {
    c == "-" || (|c| >= 2 && c[0] == '-' && c[1] == ' ')
  }

  // The block at this indentation, and the lines after it.
  function ReadBlock(lines: seq<string>, indent: nat): (r: Option<(Json, seq<string>)>)
    ensures r.Some? ==> |r.value.1| < |lines|
    decreases |lines|, 1
  {
    if lines == [] || Indent(lines[0]) != indent then None
    else
      var c := Content(lines[0]);
      if IsItem(c) then
        var items := ReadItems(lines, indent);
        if items.None? || items.value.0 == [] then None else Some((List(items.value.0), items.value.1))
      else if ReadLabel(c).Some? then
        var members := ReadMembers(lines, indent);
        if members.None? || members.value.0 == [] then None else Some((Object(members.value.0), members.value.1))
      else
        var v := ReadInline(c);
        if v.None? then None else Some((v.value, lines[1..]))
  }

  function ReadItems(lines: seq<string>, indent: nat): (r: Option<(seq<Json>, seq<string>)>)
    ensures r.Some? ==> |r.value.1| <= |lines| && (r.value.0 != [] ==> |r.value.1| < |lines|)
    decreases |lines|, 0
  {
    if lines == [] || Indent(lines[0]) != indent || !IsItem(Content(lines[0])) then Some(([], lines))
    else
      var c := Content(lines[0]);
      if c == "-" then
        var first := ReadBlock(lines[1..], indent + 2);
        if first.None? then None
        else
          var more := ReadItems(first.value.1, indent);
          if more.None? then None else Some(([first.value.0] + more.value.0, more.value.1))
      else
        var first := ReadInline(c[2..]);
        var more := ReadItems(lines[1..], indent);
        if first.None? || more.None? then None else Some(([first.value] + more.value.0, more.value.1))
  }

  function ReadMembers(lines: seq<string>, indent: nat): (r: Option<(seq<(string, Json)>, seq<string>)>)
    ensures r.Some? ==> |r.value.1| <= |lines| && (r.value.0 != [] ==> |r.value.1| < |lines|)
    decreases |lines|, 0
  {
    if lines == [] || Indent(lines[0]) != indent || ReadLabel(Content(lines[0])).None? then Some(([], lines))
    else
      var (key, after) := ReadLabel(Content(lines[0])).value;
      if after == "" then
        var first := ReadBlock(lines[1..], indent + 2);
        if first.None? then None
        else
          var more := ReadMembers(first.value.1, indent);
          if more.None? then None else Some(([(key, first.value.0)] + more.value.0, more.value.1))
      else if after[0] != ' ' then None
      else
        var first := ReadInline(after[1..]);
        var more := ReadMembers(lines[1..], indent);
        if first.None? || more.None? then None else Some(([(key, first.value)] + more.value.0, more.value.1))
  }

  // The tree of a whole document.
  function ReadTree(text: string): Option<Json> {
    var r := ReadBlock(Split(text), 0);
    if r.Some? && r.value.1 == [] then Some(r.value.0) else None
  }
}

// Printing and reading back.
module YamlRoundTrip {
  import opened Wrappers
  import opened Json
  import opened YamlText

  predicate Printable(v: Json) {
    match v
    case Number(digits) => NumberText(digits)
    case List(items) => forall i :: 0 <= i < |items| ==> Printable(items[i])
    case Object(members) => forall i :: 0 <= i < |members| ==> Printable(members[i].1)
    case _ => true
  }

  lemma {:induction false} Padded(n: nat, c: string)
    requires c != "" && c[0] != ' '
    ensures Indent(Pad(n) + c) == n && Content(Pad(n) + c) == c
  {
    var line := Pad(n) + c;
    if n == 0 {
      assert line == c;
    } else {
      assert line[1..] == Pad(n - 1) + c;
      Padded(n - 1, c);
      assert line[n..] == c;
    }
  }

  lemma QuoteReads(text: string, rest: string)
    ensures Quote(text) + rest != "" && (Quote(text) + rest)[0] == '"'
    ensures ReadChars((Quote(text) + rest)[1..]) == Some((text, rest))
    ensures '\n' !in Quote(text)
  {
    assert (Quote(text) + rest)[1..] == Escape(text) + ['"'] + rest;
    QuotedReadsBack(text, rest);
  }

  lemma NumberReads(digits: string)
    requires NumberText(digits)
    ensures ReadInline(digits) == Some(Number(digits)) && digits[0] != ' ' && digits[0] != '"' && !IsItem(digits)
    ensures '\n' !in digits
  {}

  // A value on one line is told apart from a list item and from a member, and read back.
  lemma InlineReads(v: Json)
    requires Printable(v) && !Nested(v)
    ensures var c := Inline(v);
            c != "" && c[0] != ' ' && !IsItem(c) && ReadLabel(c).None? && ReadInline(c) == Some(v) && '\n' !in c
  {
    match v
    case Number(digits) => NumberReads(digits);
    case Text(text) => TextReads(text);
    case _ =>
      assert |"{}"| == 2 && |"[]"| == 2 && |"null"| == 4 && |"true"| == 4 && |"false"| == 5;
      assert "{}"[0] == '{' && "[]"[0] == '[' && "null"[0] == 'n' && "true"[0] == 't' && "false"[0] == 'f';
  }

  lemma TextReads(text: string)
    ensures var c := Quote(text);
            && c != "" && c[0] == '"' && !IsItem(c) && ReadLabel(c).None?
            && ReadInline(c) == Some(Text(text)) && '\n' !in c
  {
    hide ReadChars, Escape;
    var c := Quote(text);
    QuoteReads(text, "");
    assert c + "" == c;
    assert c[0] != "{}"[0] && c[0] != "[]"[0] && c[0] != "null"[0] && c[0] != "true"[0] && c[0] != "false"[0];
  }

  lemma LabelReads(key: string, after: string)
    ensures var c := Quote(key) + ":" + after;
            c != "" && c[0] != ' ' && !IsItem(c) && ReadLabel(c) == Some((key, after))
  {
    hide ReadChars, Escape;
    QuoteReads(key, ":" + after);
    assert Quote(key) + ":" + after == Quote(key) + (":" + after);
    assert (":" + after)[1..] == after;
  }

  predicate Below(rest: seq<string>, indent: nat) {
    rest == [] || Indent(rest[0]) < indent
  }

  lemma MemberHead(key: string, item: Json, indent: nat)
    requires Printable(item)
    ensures var piece := MemberPiece(key, item, indent);
            && piece != [] && Indent(piece[0]) == indent && !IsItem(Content(piece[0]))
            && ReadLabel(Content(piece[0])) == Some((key, if Nested(item) then "" else " " + Inline(item)))
  {
    hide ReadLabel, Quote, Inline, Indent, Content, IsItem, Pad, Lines;
    if Nested(item) {
      LabelReads(key, "");
      assert Quote(key) + ":" + "" == Quote(key) + ":";
      Padded(indent, Quote(key) + ":");
      assert Pad(indent) + (Quote(key) + ":") == Pad(indent) + Quote(key) + ":";
    } else {
      LabelReads(key, " " + Inline(item));
      Padded(indent, Quote(key) + ":" + (" " + Inline(item)));
      assert Pad(indent) + (Quote(key) + ":" + (" " + Inline(item))) == Pad(indent) + Quote(key) + ": " + Inline(item);
    }
  }

  lemma ItemHead(item: Json, indent: nat)
    requires Printable(item)
    ensures var piece := ItemPiece(item, indent);
            && piece != [] && Indent(piece[0]) == indent && IsItem(Content(piece[0]))
            && Content(piece[0]) == if Nested(item) then "-" else "- " + Inline(item)
  {
    hide Inline, Indent, Content, Pad, Lines;
    if Nested(item) {
      Padded(indent, "-");
    } else {
      Padded(indent, "- " + Inline(item));
      assert Pad(indent) + ("- " + Inline(item)) == Pad(indent) + "- " + Inline(item);
      assert |"-"| == 1;
    }
  }

  lemma {:induction false} ReadsBlock(v: Json, indent: nat, rest: seq<string>)
    requires Printable(v) && Below(rest, indent)
    ensures ReadBlock(Lines(v, indent) + rest, indent) == Some((v, rest))
    decreases v, 1, 0
  {
    hide ReadItems, ReadMembers, ReadInline, ReadLabel, Inline, Indent, Content, IsItem, Pad;
    var lines := Lines(v, indent) + rest;
    if !Nested(v) {
      InlineReads(v);
      Padded(indent, Inline(v));
      assert lines[1..] == rest;
    } else if v.Object? {
      MemberHead(v.members[0].0, v.members[0].1, indent);
      assert Lines(v, indent) == MemberPiece(v.members[0].0, v.members[0].1, indent) + MemberLines(v, 1, indent);
      ReadsMembers(v, 0, indent, rest);
      assert v.members[0..] == v.members;
    } else {
      ItemHead(v.items[0], indent);
      assert Lines(v, indent) == ItemPiece(v.items[0], indent) + ItemLines(v, 1, indent);
      ReadsItems(v, 0, indent, rest);
      assert v.items[0..] == v.items;
    }
  }

  lemma NestedMember(head: string, block: seq<string>, after: seq<string>, indent: nat, key: string, item: Json,
                     more: seq<(string, Json)>, rest: seq<string>)
    requires Indent(head) == indent && ReadLabel(Content(head)) == Some((key, ""))
    requires ReadBlock(block + after, indent + 2) == Some((item, after))
    requires ReadMembers(after, indent) == Some((more, rest))
    ensures ReadMembers([head] + block + after, indent) == Some(([(key, item)] + more, rest))
  {
    hide Indent, Content, ReadLabel, ReadBlock;
    assert ([head] + block + after)[1..] == block + after;
  }

  lemma InlineMember(head: string, after: seq<string>, indent: nat, key: string, text: string, item: Json,
                     more: seq<(string, Json)>, rest: seq<string>)
    requires Indent(head) == indent && ReadLabel(Content(head)) == Some((key, " " + text))
    requires ReadInline(text) == Some(item) && ReadMembers(after, indent) == Some((more, rest))
    ensures ReadMembers([head] + after, indent) == Some(([(key, item)] + more, rest))
  {}

  lemma NestedItem(head: string, block: seq<string>, after: seq<string>, indent: nat, item: Json,
                   more: seq<Json>, rest: seq<string>)
    requires Indent(head) == indent && Content(head) == "-"
    requires ReadBlock(block + after, indent + 2) == Some((item, after))
    requires ReadItems(after, indent) == Some((more, rest))
    ensures ReadItems([head] + block + after, indent) == Some(([item] + more, rest))
  {
    hide Indent, Content, ReadBlock;
    assert ([head] + block + after)[1..] == block + after;
  }

  lemma InlineItem(head: string, after: seq<string>, indent: nat, text: string, item: Json,
                   more: seq<Json>, rest: seq<string>)
    requires Indent(head) == indent && Content(head) == "- " + text
    requires ReadInline(text) == Some(item) && ReadItems(after, indent) == Some((more, rest))
    ensures ReadItems([head] + after, indent) == Some(([item] + more, rest))
  {}

  lemma NothingToRead(rest: seq<string>, indent: nat)
    requires Below(rest, indent)
    ensures ReadMembers(rest, indent) == Some(([], rest)) && ReadItems(rest, indent) == Some(([], rest))
  {}

  lemma {:induction false} ReadsMembers(v: Json, k: nat, indent: nat, rest: seq<string>)
    requires v.Object? && Printable(v) && k <= |v.members| && Below(rest, indent)
    ensures ReadMembers(MemberLines(v, k, indent) + rest, indent) == Some((v.members[k..], rest))
    decreases v, 0, |v.members| - k
  {
    hide ReadInline, ReadLabel, Inline, Indent, Content, IsItem, Pad, Lines, ReadBlock, Quote, ReadMembers;
    if k == |v.members| {
      assert MemberLines(v, k, indent) + rest == rest && v.members[k..] == [];
      NothingToRead(rest, indent);
    } else {
      var (key, item) := v.members[k];
      var after := MemberLines(v, k + 1, indent) + rest;
      var piece := MemberPiece(key, item, indent);
      MemberHead(key, item, indent);
      ReadsMembers(v, k + 1, indent, rest);
      assert v.members[k..] == [v.members[k]] + v.members[k + 1..];
      if Nested(item) {
        if k + 1 < |v.members| { MemberHead(v.members[k + 1].0, v.members[k + 1].1, indent); }
        ReadsBlock(item, indent + 2, after);
        NestedMember(piece[0], Lines(item, indent + 2), after, indent, key, item, v.members[k + 1..], rest);
        assert MemberLines(v, k, indent) + rest == [piece[0]] + Lines(item, indent + 2) + after;
      } else {
        InlineReads(item);
        InlineMember(piece[0], after, indent, key, Inline(item), item, v.members[k + 1..], rest);
        assert MemberLines(v, k, indent) + rest == [piece[0]] + after;
      }
    }
  }

  lemma {:induction false} ReadsItems(v: Json, k: nat, indent: nat, rest: seq<string>)
    requires v.List? && Printable(v) && k <= |v.items| && Below(rest, indent)
    ensures ReadItems(ItemLines(v, k, indent) + rest, indent) == Some((v.items[k..], rest))
    decreases v, 0, |v.items| - k
  {
    hide ReadInline, Inline, Indent, Content, IsItem, Pad, Lines, ReadBlock, ReadItems;
    if k == |v.items| {
      assert ItemLines(v, k, indent) + rest == rest && v.items[k..] == [];
      NothingToRead(rest, indent);
    } else {
      var item := v.items[k];
      var after := ItemLines(v, k + 1, indent) + rest;
      var piece := ItemPiece(item, indent);
      ItemHead(item, indent);
      ReadsItems(v, k + 1, indent, rest);
      assert v.items[k..] == [v.items[k]] + v.items[k + 1..];
      if Nested(item) {
        if k + 1 < |v.items| { ItemHead(v.items[k + 1], indent); }
        ReadsBlock(item, indent + 2, after);
        NestedItem(piece[0], Lines(item, indent + 2), after, indent, item, v.items[k + 1..], rest);
        assert ItemLines(v, k, indent) + rest == [piece[0]] + Lines(item, indent + 2) + after;
      } else {
        InlineReads(item);
        InlineItem(piece[0], after, indent, Inline(item), item, v.items[k + 1..], rest);
        assert ItemLines(v, k, indent) + rest == [piece[0]] + after;
      }
    }
  }

  lemma {:induction false} LinesAreLines(v: Json, indent: nat)
    requires Printable(v)
    ensures NewlineFree(Lines(v, indent))
    decreases v, 1, 0
  {
    hide Inline, NewlineFree;
    if !Nested(v) {
      InlineReads(v);
      OneLine(indent, Inline(v));
    } else if v.Object? {
      MembersAreLines(v, 0, indent);
    } else {
      ItemsAreLines(v, 0, indent);
    }
  }

  lemma OneLine(indent: nat, c: string)
    requires '\n' !in c
    ensures NewlineFree([Pad(indent) + c])
  {}

  lemma {:induction false} MembersAreLines(v: Json, k: nat, indent: nat)
    requires v.Object? && Printable(v) && k <= |v.members|
    ensures NewlineFree(MemberLines(v, k, indent))
    decreases v, 0, |v.members| - k
  {
    hide Inline, Quote, Pad, Lines;
    if k < |v.members| {
      var (key, item) := v.members[k];
      MembersAreLines(v, k + 1, indent);
      QuoteReads(key, "");
      if Nested(item) {
        LinesAreLines(item, indent + 2);
        OneLine(indent, Quote(key) + ":");
        assert Pad(indent) + (Quote(key) + ":") == Pad(indent) + Quote(key) + ":";
      } else {
        InlineReads(item);
        OneLine(indent, Quote(key) + ": " + Inline(item));
        assert Pad(indent) + (Quote(key) + ": " + Inline(item)) == Pad(indent) + Quote(key) + ": " + Inline(item);
      }
    }
  }

  lemma {:induction false} ItemsAreLines(v: Json, k: nat, indent: nat)
    requires v.List? && Printable(v) && k <= |v.items|
    ensures NewlineFree(ItemLines(v, k, indent))
    decreases v, 0, |v.items| - k
  {
    hide Inline, Pad, Lines;
    if k < |v.items| {
      var item := v.items[k];
      ItemsAreLines(v, k + 1, indent);
      if Nested(item) {
        LinesAreLines(item, indent + 2);
        OneLine(indent, "-");
      } else {
        InlineReads(item);
        OneLine(indent, "- " + Inline(item));
        assert Pad(indent) + ("- " + Inline(item)) == Pad(indent) + "- " + Inline(item);
      }
    }
  }

  // THE READER RECOVERS THE PRINTED TREE, at every nesting, empty collections included.
  lemma PrintedIsReadBack(v: Json)
    requires Printable(v)
    ensures ReadTree(Join(Lines(v, 0))) == Some(v)
  {
    hide Lines, ReadBlock, Join;
    LinesAreLines(v, 0);
    LinesNonEmpty(v, 0);
    SplitJoin(Lines(v, 0));
    ReadsBlock(v, 0, []);
    assert Lines(v, 0) + [] == Lines(v, 0);
  }

  // So two trees with the same text are the same tree.
  lemma PrintingIsInjective(v: Json, w: Json)
    requires Printable(v) && Printable(w) && Join(Lines(v, 0)) == Join(Lines(w, 0))
    ensures v == w
  {
    PrintedIsReadBack(v);
    PrintedIsReadBack(w);
  }
}
