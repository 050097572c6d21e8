// Redaction (container/evidence_safety.py:191-293): the escape variants of a credential, leftmost longest-first
// substitution, and its lifting to JSON trees.

module Redaction {
  import opened Wrappers
  import opened Sequences

  const REDACTED := "***REDACTED***"
  const SUPPORTED_JSON_ESCAPE_LAYERS := 3
  const MAX_DEPTH := 32
  const MAX_NODES := 20000

  datatype Reason =
    | CredentialMatch | SensitiveKey | SizeLimit | MissingValue | UnsupportedRepresentation
    | InventoryUnavailable | EventLimit

  // ---------- the escape variants ----------

  // The body of a JSON string literal, with or without ASCII escapes.
  type Escaper = (string, bool) -> string

  function EscapedOnce(escape: Escaper, values: set<string>): set<string> {
    set v, ascii: bool | v in values :: escape(v, ascii)
  }

  // Everything at most this many layers of escaping away from a credential.
  function Layers(escape: Escaper, credentials: set<string>, layers: nat): set<string> {
    if layers == 0 then credentials
    else
      var inner := Layers(escape, credentials, layers - 1);
      inner + EscapedOnce(escape, inner)
  }

  // The loop of `Sanitizer.__init__` escapes only what the last round added, and reaches the same set.
  method BuildVariants(escape: Escaper, credentials: set<string>) returns (variants: set<string>)
    ensures variants == Layers(escape, credentials, SUPPORTED_JSON_ESCAPE_LAYERS)
  {
    hide EscapedOnce;
    variants := credentials;
    var frontier := credentials;
    for layer := 0 to SUPPORTED_JSON_ESCAPE_LAYERS
      invariant variants == Layers(escape, credentials, layer)
      invariant frontier <= variants
      invariant variants + EscapedOnce(escape, variants) == variants + EscapedOnce(escape, frontier)
    {
      var generated := EscapedOnce(escape, frontier) - variants;
      RoundAdds(escape, variants, frontier, generated);
      variants := variants + generated;
      frontier := generated;
    }
  }

  lemma RoundAdds(escape: Escaper, variants: set<string>, frontier: set<string>, generated: set<string>)
    requires variants + EscapedOnce(escape, variants) == variants + EscapedOnce(escape, frontier)
    requires generated == EscapedOnce(escape, frontier) - variants
    ensures variants + generated == variants + EscapedOnce(escape, variants)
    ensures variants + generated + EscapedOnce(escape, variants + generated)
            == variants + generated + EscapedOnce(escape, generated)
  {}

  // ---------- the matcher ----------

  // Leftmost alternation: the first alternative that matches here.
  function MatchAt(variants: seq<string>, text: string): Option<string> {
    if variants == [] then None
    else if variants[0] <= text then Some(variants[0])
    else MatchAt(variants[1..], text)
  }

  predicate AllNonEmpty(variants: seq<string>) {
    forall i :: 0 <= i < |variants| ==> variants[i] != ""
  }

  lemma {:induction false} MatchFacts(variants: seq<string>, text: string)
    ensures var m := MatchAt(variants, text);
            && (m.Some? ==> m.value in variants && m.value <= text)
            && (m.None? ==> forall v :: v in variants ==> !(v <= text))
  {
    if variants != [] {
      MatchFacts(variants[1..], text);
      assert variants == [variants[0]] + variants[1..];
    }
  }

  // `sub`: scan from the left, replacing each match and going on after it.
  function Substitute(variants: seq<string>, text: string): string
    requires AllNonEmpty(variants)
    decreases |text|
  {
    MatchFacts(variants, text);
    var m := MatchAt(variants, text);
    if m.Some? then REDACTED + Substitute(variants, text[|m.value|..])
    else if text == "" then ""
    else [text[0]] + Substitute(variants, text[1..])
  }

  predicate ContainsAny(text: string, variants: seq<string>) {
    exists k :: 0 <= k < |variants| && Contains(text, variants[k])
  }

  // `redact_text`
  function RedactText(complete: bool, variants: seq<string>, text: string): (string, bool)
    requires AllNonEmpty(variants)
  {
    if !complete then (REDACTED, true)
    else (Substitute(variants, text), Substitute(variants, text) != text)
  }

  // ---------- variants that keep clear of the marker ----------

  // v and the marker agree wherever they meet when v begins k characters after the marker's beginning.
  predicate Overlaps(v: string, k: int) {
    0 < k + |v| && k < |REDACTED|
    && forall j :: 0 <= j < |v| && 0 <= k + j < |REDACTED| ==> v[j] == REDACTED[k + j]
  }

  predicate Harmless(v: string) {
    forall k :: -|v| < k < |REDACTED| ==> !Overlaps(v, k)
  }

  predicate AllHarmless(variants: seq<string>) {
    forall i :: 0 <= i < |variants| ==> Harmless(variants[i])
  }

  // The length of the stretch that is copied before the first match.
  function Run(variants: seq<string>, text: string): nat
    decreases |text|
  {
    if text == "" || MatchAt(variants, text).Some? then 0 else 1 + Run(variants, text[1..])
  }

  // One step of the scan.
  lemma SubstituteStep(variants: seq<string>, text: string)
    requires AllNonEmpty(variants)
    ensures MatchAt(variants, text).None? && text != ""
            ==> Substitute(variants, text) == [text[0]] + Substitute(variants, text[1..])
    ensures MatchAt(variants, text).Some?
            ==> |MatchAt(variants, text).value| <= |text|
                && Substitute(variants, text)
                   == REDACTED + Substitute(variants, text[|MatchAt(variants, text).value|..])
    ensures text == "" ==> Substitute(variants, text) == ""
  {}

  // ---------- what is replaced, and what is left alone ----------

  function Weave(kept: seq<string>, between: seq<string>): string
    requires |kept| == |between| + 1
  {
    if between == [] then kept[0] else kept[0] + between[0] + Weave(kept[1..], between[1..])
  }

  function Markers(n: nat): (markers: seq<string>)
    ensures |markers| == n
  {
    if n == 0 then [] else [REDACTED] + Markers(n - 1)
  }

  lemma WeaveStartsWithFirst(kept: seq<string>, between: seq<string>)
    requires |kept| == |between| + 1
    ensures kept[0] <= Weave(kept, between)
  {}

  // Putting something before the first stretch puts it before the whole.
  lemma WeaveAfter(c: char, kept: seq<string>, between: seq<string>)
    requires |kept| == |between| + 1
    ensures Weave([[c] + kept[0]] + kept[1..], between) == [c] + Weave(kept, between)
  {
    var longer := [[c] + kept[0]] + kept[1..];
    if between != [] {
      assert longer[1..] == kept[1..];
      assert [c] + (kept[0] + between[0] + Weave(kept[1..], between[1..]))
             == [c] + kept[0] + between[0] + Weave(kept[1..], between[1..]);
    }
  }

  lemma WeaveMore(first: string, kept: seq<string>, between: seq<string>)
    requires |kept| == |between| + 1
    ensures Weave([""] + kept, [first] + between) == first + Weave(kept, between)
  {
    hide Weave;
    var k, b, w := [""] + kept, [first] + between, Weave(kept, between);
    assert k[1..] == kept && b[1..] == between;
    assert k[0] + b[0] + w == first + w;
    OneMoreWoven(k, b);
  }

  lemma OneMoreWoven(kept: seq<string>, between: seq<string>)
    requires |kept| == |between| + 1 && between != []
    ensures Weave(kept, between) == kept[0] + between[0] + Weave(kept[1..], between[1..])
  {}

  lemma OneStretch(s: string)
    ensures Weave([s], []) == s
  {}

  lemma NothingInEmpty(variants: seq<string>)
    requires AllNonEmpty(variants)
    ensures !ContainsAny("", variants)
  {}

  lemma NoneInLonger(variants: seq<string>, c: char, s: string, text: string)
    requires !ContainsAny(s, variants) && MatchAt(variants, text).None? && [c] + s <= text
    ensures !ContainsAny([c] + s, variants)
  {
    MatchFacts(variants, text);
    if k :| 0 <= k < |variants| && Contains([c] + s, variants[k]) {
      var i :| 0 <= i <= |[c] + s| && OccursAt(variants[k], [c] + s, i);
      assert variants[k] in variants;
      if i > 0 {
        assert ([c] + s)[i..i + |variants[k]|] == s[i - 1..i - 1 + |variants[k]|];
        assert OccursAt(variants[k], s, i - 1);
      }
    }
  }

  // REDACTION replaces stretches that are variants by the marker, keeps everything between them, and what is kept
  // holds no variant.
  lemma {:induction false} OnlyVariantsAreReplaced(variants: seq<string>, text: string)
    returns (kept: seq<string>, gone: seq<string>)
    requires AllNonEmpty(variants)
    ensures |kept| == |gone| + 1
    ensures text == Weave(kept, gone)
    ensures RedactText(true, variants, text).0 == Weave(kept, Markers(|gone|))
    ensures RedactText(true, variants, text).1 <==> RedactText(true, variants, text).0 != text
    ensures RedactText(false, variants, text) == (REDACTED, true)
    ensures forall i :: 0 <= i < |gone| ==> gone[i] in variants
    ensures forall i :: 0 <= i < |kept| ==> !ContainsAny(kept[i], variants)
    decreases |text|
  {
    hide Weave, ContainsAny, MatchAt, Substitute;
    MatchFacts(variants, text);
    SubstituteStep(variants, text);
    var m := MatchAt(variants, text);
    if m.Some? {
      var k, g := OnlyVariantsAreReplaced(variants, text[|m.value|..]);
      kept, gone := [""] + k, [m.value] + g;
      WeaveMore(m.value, k, g);
      WeaveMore(REDACTED, k, Markers(|g|));
      NothingInEmpty(variants);
    } else if text == "" {
      kept, gone := [""], [];
      NothingInEmpty(variants);
      OneStretch("");
    } else {
      var k, g := OnlyVariantsAreReplaced(variants, text[1..]);
      kept, gone := [[text[0]] + k[0]] + k[1..], g;
      WeaveAfter(text[0], k, g);
      WeaveAfter(text[0], k, Markers(|g|));
      WeaveStartsWithFirst(k, g);
      NoneInLonger(variants, text[0], k[0], text);
    }
  }

  predicate MarkedAt(text: string, n: nat) {
    n + |REDACTED| <= |text| && text[n..n + |REDACTED|] == REDACTED
  }

  lemma MarkedLater(c: char, rest: string, n: nat)
    requires MarkedAt(rest, n)
    ensures MarkedAt([c] + rest, n + 1)
  {}

  lemma MarkedHere(rest: string)
    ensures MarkedAt(REDACTED + rest, 0)
  {}

  lemma {:induction false} RunIsCopied(variants: seq<string>, text: string)
    requires AllNonEmpty(variants)
    ensures var n, out := Run(variants, text), Substitute(variants, text);
            && n <= |text| && n <= |out| && out[..n] == text[..n]
            && (n == |text| ==> out == text)
            && (n < |text| ==> MarkedAt(out, n))
    decreases |text|
  {
    hide MatchAt, Substitute, MarkedAt;
    MatchFacts(variants, text);
    SubstituteStep(variants, text);
    var m := MatchAt(variants, text);
    if m.Some? {
      MarkedHere(Substitute(variants, text[|m.value|..]));
      NothingMatchesNothing(variants);
    } else if text != "" {
      RunIsCopied(variants, text[1..]);
      var n, rest := Run(variants, text[1..]), Substitute(variants, text[1..]);
      assert ([text[0]] + rest)[..n + 1] == [text[0]] + rest[..n];
      assert text[..n + 1] == [text[0]] + text[1..][..n];
      assert text == [text[0]] + text[1..];
      if n < |text| - 1 { MarkedLater(text[0], rest, n); }
    }
  }

  lemma NothingMatchesNothing(variants: seq<string>)
    requires AllNonEmpty(variants)
    ensures MatchAt(variants, "").None?
  {}

  // An occurrence that meets a marker overlaps it.
  lemma MeetingOverlaps(v: string, out: string, at: nat, i: nat)
    requires MarkedAt(out, at)
    requires OccursAt(v, out, i) && at < i + |v| && i < at + |REDACTED|
    ensures Overlaps(v, i - at) && -|v| < i - at < |REDACTED|
  {}

  lemma OccursLater(v: string, head: string, rest: string, i: nat)
    requires i >= |head|
    ensures OccursAt(v, head + rest, i) <==> OccursAt(v, rest, i - |head|)
  {}

  // Nothing that keeps clear of the marker stands at the front of a text that is copied.
  lemma NoneAtTheFront(variants: seq<string>, text: string, v: string)
    requires AllNonEmpty(variants) && v in variants && Harmless(v)
    requires MatchAt(variants, text).None?
    ensures !OccursAt(v, Substitute(variants, text), 0)
  {
    hide Substitute, Run, MatchAt;
    var n, out := Run(variants, text), Substitute(variants, text);
    RunIsCopied(variants, text);
    MatchFacts(variants, text);
    if |v| <= n {
      assert out[..|v|] == out[..n][..|v|] == text[..n][..|v|] == text[..|v|];
    } else if OccursAt(v, out, 0) && n < |text| {
      MeetingOverlaps(v, out, n, 0);
    }
  }

  lemma {:induction false} NoneAnywhere(variants: seq<string>, text: string, v: string, i: nat)
    requires AllNonEmpty(variants) && v in variants && Harmless(v) && v != ""
    ensures !OccursAt(v, Substitute(variants, text), i)
    decreases |text|
  {
    hide MatchAt, Harmless, Overlaps;
    var out := Substitute(variants, text);
    var m := MatchAt(variants, text);
    MatchFacts(variants, text);
    if m.Some? {
      var rest := Substitute(variants, text[|m.value|..]);
      if i >= |REDACTED| {
        NoneAnywhere(variants, text[|m.value|..], v, i - |REDACTED|);
        OccursLater(v, REDACTED, rest, i);
      } else {
        NoneOnMarker(v, rest, i);
      }
    } else if text != "" {
      if i == 0 {
        NoneAtTheFront(variants, text, v);
      } else {
        NoneAnywhere(variants, text[1..], v, i - 1);
        OccursLater(v, [text[0]], Substitute(variants, text[1..]), i);
      }
    }
  }

  lemma NoneOnMarker(v: string, rest: string, i: nat)
    requires Harmless(v) && v != "" && i < |REDACTED|
    ensures !OccursAt(v, REDACTED + rest, i)
  {
    assert (REDACTED + rest)[0..|REDACTED|] == REDACTED;
    if OccursAt(v, REDACTED + rest, i) {
      MeetingOverlaps(v, REDACTED + rest, 0, i);
    }
  }

  // NO VARIANT IS LEFT in redacted text.
  lemma NothingLeft(variants: seq<string>, text: string)
    requires AllNonEmpty(variants) && AllHarmless(variants)
    ensures !ContainsAny(Substitute(variants, text), variants)
  {
    forall k, i: nat | 0 <= k < |variants| ensures !OccursAt(variants[k], Substitute(variants, text), i) {
      NoneAnywhere(variants, text, variants[k], i);
    }
  }

  // Text without a variant is left alone.
  lemma {:induction false} CleanIsKept(variants: seq<string>, text: string)
    requires AllNonEmpty(variants) && !ContainsAny(text, variants)
    ensures Substitute(variants, text) == text
    decreases |text|
  {
    MatchFacts(variants, text);
    var m := MatchAt(variants, text);
    if m.Some? {
      var k :| 0 <= k < |variants| && variants[k] == m.value;
      assert OccursAt(variants[k], text, 0);
    } else if text != "" {
      forall k, i | 0 <= k < |variants| && 0 <= i <= |text[1..]| ensures !OccursAt(variants[k], text[1..], i) {
        assert !Contains(text, variants[k]);
        assert text[1..][i..] == text[i + 1..];
        assert OccursAt(variants[k], text[1..], i) ==> OccursAt(variants[k], text, i + 1);
      }
      CleanIsKept(variants, text[1..]);
    }
  }

  // Redacting twice is redacting once, and a change is reported exactly when some variant occurred.
  lemma RedactionIsExact(variants: seq<string>, text: string)
    requires AllNonEmpty(variants) && AllHarmless(variants)
    ensures var (safe, changed) := RedactText(true, variants, text);
            && !ContainsAny(safe, variants)
            && (changed <==> ContainsAny(text, variants))
            && RedactText(true, variants, safe) == (safe, false)
  {
    var safe := Substitute(variants, text);
    NothingLeft(variants, text);
    CleanIsKept(variants, safe);
    if !ContainsAny(text, variants) { CleanIsKept(variants, text); }
  }

  // ---------- what keeps clear of the marker ----------

  // A word between three asterisks on each side.
  predicate Starred(marker: string, word: string) {
    && |marker| == |word| + 6
    && (forall i :: 0 <= i < |marker| && (i < 3 || |word| + 3 <= i) ==> marker[i] == '*')
    && (forall i :: 0 <= i < |word| ==> marker[3 + i] == word[i])
  }

  // What meets such a marker and agrees with it holds an asterisk or is a part of the word.
  lemma StarredShows(marker: string, word: string, v: string, k: int)
    requires Starred(marker, word) && -|v| < k < |marker|
    requires forall j :: 0 <= j < |v| && 0 <= k + j < |marker| ==> v[j] == marker[k + j]
    ensures '*' in v || Contains(word, v)
  {
    var n := |word|;
    if v == "" {
      assert OccursAt(v, word, 0);
    } else if k < 0 {
      assert v[-k] == marker[k + -k];
    } else if k < 3 || k >= n + 3 {
      assert v[0] == marker[k + 0];
    } else if k + |v| > n + 3 {
      assert v[n + 3 - k] == marker[k + (n + 3 - k)];
    } else {
      forall j | 0 <= j < |v| ensures v[j] == word[k - 3..k - 3 + |v|][j] {
        assert v[j] == marker[k + j] == marker[3 + (k - 3 + j)];
      }
      assert OccursAt(v, word, k - 3);
    }
  }

  lemma OverlapShows(v: string, k: int)
    requires -|v| < k < |REDACTED| && Overlaps(v, k)
    ensures '*' in v || Contains("REDACTED", v)
  {
    hide Contains;
    assert |REDACTED| == 14 && |"REDACTED"| == 8;
    assert Starred(REDACTED, "REDACTED");
    StarredShows(REDACTED, "REDACTED", v, k);
  }

  // A variant without an asterisk that is no part of the word in the marker keeps clear of it.
  lemma PlainIsHarmless(v: string)
    requires '*' !in v && !Contains("REDACTED", v)
    ensures Harmless(v)
  {
    forall k | -|v| < k < |REDACTED| ensures !Overlaps(v, k) {
      if Overlaps(v, k) { OverlapShows(v, k); }
    }
  }

  // The condition says exactly that no occurrence can touch a marker, whatever stands around it.
  lemma HarmlessMeaning(v: string)
    requires v != ""
    ensures Harmless(v) <==> forall x: string, y: string, i: nat :: StandsApart(v, x, y, i)
  {
    hide StandsApart;
    if Harmless(v) {
      forall x: string, y: string, i: nat ensures StandsApart(v, x, y, i) {
        HarmlessApart(v, x, y, i);
      }
    } else {
      var k :| -|v| < k < |REDACTED| && Overlaps(v, k);
      TouchingContext(v, k);
    }
  }

  // An occurrence in a text with a marker lies before the marker or after it.
  predicate StandsApart(v: string, x: string, y: string, i: nat) {
    OccursAt(v, x + REDACTED + y, i) ==> i + |v| <= |x| || |x| + |REDACTED| <= i
  }

  lemma HarmlessApart(v: string, x: string, y: string, i: nat)
    requires Harmless(v)
    ensures StandsApart(v, x, y, i)
  {
    hide Overlaps;
    var text := x + REDACTED + y;
    assert text[|x|..|x| + |REDACTED|] == REDACTED;
    if OccursAt(v, text, i) && |x| < i + |v| && i < |x| + |REDACTED| {
      MeetingOverlaps(v, text, |x|, i);
    }
  }

  lemma TouchingContext(v: string, k: int)
    requires -|v| < k < |REDACTED| && Overlaps(v, k)
    ensures exists x: string, y: string, i: nat :: !StandsApart(v, x, y, i)
  {
    var x, y, i := Around(REDACTED, v, k);
    assert !StandsApart(v, x, y, i);
  }

  // What must stand around a marker for v to stand k characters after its beginning.
  lemma Around(marker: string, v: string, k: int) returns (x: string, y: string, i: nat)
    requires -|v| < k < |marker|
    requires forall j :: 0 <= j < |v| && 0 <= k + j < |marker| ==> v[j] == marker[k + j]
    ensures OccursAt(v, x + marker + y, i) && |x| < i + |v| && i < |x| + |marker|
  {
    x := if k < 0 then v[..-k] else "";
    y := if k + |v| > |marker| then v[|marker| - k..] else "";
    i := if k < 0 then 0 else k;
    var text := x + marker + y;
    forall j | 0 <= j < |v| ensures text[i + j] == v[j] {
      if 0 <= k + j < |marker| { assert text[i + j] == marker[k + j]; }
    }
    assert text[i..i + |v|] == v;
  }

  // ---------- the condition is exact, variant by variant ----------

  predicate Leaves(variants: seq<string>, text: string, v: string)
    requires AllNonEmpty(variants)
  {
    Contains(Substitute(variants, text), v)
  }

  lemma OnlyOne(v: string, text: string)
    requires v != ""
    ensures AllNonEmpty([v])
    ensures MatchAt([v], text) == if v <= text then Some(v) else None
  {
    assert [v][1..] == [];
  }

  // Too short a text holds no variant.
  lemma ShortIsKept(v: string, tail: string)
    requires v != "" && |tail| < |v|
    ensures AllNonEmpty([v]) && Substitute([v], tail) == tail
  {
    hide Substitute;
    OnlyOne(v, tail);
    assert !ContainsAny(tail, [v]);
    CleanIsKept([v], tail);
  }

  // The variant, and a text too short to hold it again.
  lemma MatchedThenKept(v: string, tail: string)
    requires v != "" && |tail| < |v|
    ensures AllNonEmpty([v]) && Substitute([v], v + tail) == REDACTED + tail
  {
    hide Substitute;
    OnlyOne(v, v + tail);
    ShortIsKept(v, tail);
    SubstituteStep([v], v + tail);
    assert (v + tail)[|v|..] == tail;
  }

  // Nothing begins among the first d characters, so they are copied.
  lemma {:induction false} CopiedPrefix(v: string, text: string, d: nat)
    requires v != "" && d <= |text| && forall i :: 0 <= i < d ==> !(v <= text[i..])
    ensures AllNonEmpty([v]) && Substitute([v], text) == text[..d] + Substitute([v], text[d..])
  {
    hide Substitute, MatchAt;
    OnlyOne(v, text);
    if d == 0 {
      assert text[d..] == text && text[..d] + Substitute([v], text) == Substitute([v], text);
    } else {
      assert text[0..] == text;
      assert forall i :: 0 <= i < d - 1 ==> text[1..][i..] == text[i + 1..];
      CopiedPrefix(v, text[1..], d - 1);
      SubstituteStep([v], text);
      assert text[1..][d - 1..] == text[d..] && text[..d] == [text[0]] + text[1..][..d - 1];
    }
  }

  // What of v lies beyond a marker that v meets k characters after its beginning.
  function Beyond(marker: string, v: string, k: int): string
    requires -|v| < k < |marker|
  {
    if k + |v| > |marker| then v[|marker| - k..] else ""
  }

  lemma StandsAcross(marker: string, v: string, k: int)
    requires v != "" && 0 <= k < |marker|
    requires forall j :: 0 <= j < |v| && 0 <= k + j < |marker| ==> v[j] == marker[k + j]
    ensures OccursAt(v, marker + Beyond(marker, v, k), k)
  {
    var text := marker + Beyond(marker, v, k);
    forall j | 0 <= j < |v| ensures text[k + j] == v[j] {
      if k + j < |marker| { assert text[k + j] == marker[k + j]; }
    }
    assert text[k..k + |v|] == v;
  }

  lemma StandsBefore(marker: string, v: string, d: int)
    requires 0 < d < |v|
    requires forall j :: 0 <= j < |v| && 0 <= j - d < |marker| ==> v[j] == marker[j - d]
    ensures OccursAt(v, v[..d] + (marker + Beyond(marker, v, -d)), 0)
  {
    var text := v[..d] + (marker + Beyond(marker, v, -d));
    forall j | 0 <= j < |v| ensures text[j] == v[j] {
      if d <= j < d + |marker| { assert text[j] == marker[j - d]; }
    }
    assert text[0..0 + |v|] == v;
  }

  // A variant that reaches into a marker from inside it or from its beginning survives behind its own marker.
  lemma InsideSurvives(v: string, k: nat)
    requires v != "" && k < |REDACTED| && Overlaps(v, k)
    ensures AllNonEmpty([v]) && Leaves([v], v + Beyond(REDACTED, v, k), v)
  {
    hide Substitute;
    var tail := Beyond(REDACTED, v, k);
    MatchedThenKept(v, tail);
    StandsAcross(REDACTED, v, k);
    assert OccursAt(v, REDACTED + tail, k);
  }

  // In "the first d characters of v, then v" an earlier match than that v needs an asterisk in front, when v has
  // one after d characters.
  lemma EarlierMatch(v: string, d: int, tail: string, i: nat)
    requires 0 < d < |v| && v[d] == '*' && i < d
    requires v <= (v[..d] + v + tail)[i..]
    ensures v[0] == '*'
  {
    var text := v[..d] + v + tail;
    assert text[i] == v[i] && text[i + d] == v[i];
    assert text[i] == text[i..][0] && text[i + d] == text[i..][d];
  }

  // A variant that ends where a marker begins survives in front of its own marker.
  lemma OutsideSurvives(v: string, d: int)
    requires 0 < d < |v| && Overlaps(v, -d) && v[0] != '*'
    ensures AllNonEmpty([v]) && Leaves([v], v[..d] + v + Beyond(REDACTED, v, -d), v)
  {
    hide Substitute;
    var tail := Beyond(REDACTED, v, -d);
    var text := v[..d] + v + tail;
    assert v[d] == REDACTED[-d + d] == '*';
    forall i: nat | i < d ensures !(v <= text[i..]) {
      if v <= text[i..] { EarlierMatch(v, d, tail, i); }
    }
    CopiedPrefix(v, text, d);
    assert text[..d] == v[..d] && text[d..] == v + tail;
    MatchedThenKept(v, tail);
    StandsBefore(REDACTED, v, d);
    assert OccursAt(v, Substitute([v], text), 0);
  }

  // A variant that can overlap the marker is left behind by some text.
  lemma HarmfulSurvives(v: string)
    requires v != "" && !Harmless(v)
    ensures AllNonEmpty([v]) && exists text :: Leaves([v], text, v)
  {
    hide Substitute, Leaves;
    OnlyOne(v, v);
    var k :| -|v| < k < |REDACTED| && Overlaps(v, k);
    if v[0] == '*' {
      assert Overlaps(v, 13);
      InsideSurvives(v, 13);
    } else if k >= 0 {
      InsideSurvives(v, k);
    } else {
      OutsideSurvives(v, -k);
    }
  }

  // THE CONDITION IS EXACT for one variant: it never survives its own redaction if and only if it keeps clear of
  // the marker.
  lemma OneVariantExactly(v: string)
    requires v != ""
    ensures AllNonEmpty([v])
    ensures Harmless(v) <==> forall text :: !Leaves([v], text, v)
  {
    hide Substitute, Harmless;
    OnlyOne(v, v);
    if Harmless(v) {
      forall text ensures !Leaves([v], text, v) { NeverLeft([v], text, v); }
    } else {
      HarmfulSurvives(v);
    }
  }

  lemma NeverLeft(variants: seq<string>, text: string, v: string)
    requires AllNonEmpty(variants) && v in variants && Harmless(v)
    ensures !Leaves(variants, text, v)
  {
    hide Substitute, Harmless;
    var k :| 0 <= k < |variants| && variants[k] == v;
    forall i: nat ensures !OccursAt(v, Substitute(variants, text), i) {
      NoneAnywhere(variants, text, v, i);
    }
  }

  // The same over all inventories: a variant is never left behind, whatever else is listed and whatever the text,
  // if and only if it keeps clear of the marker.
  lemma EveryInventoryExactly(v: string)
    requires v != ""
    ensures Harmless(v) <==> forall variants: seq<string>, text: string ::
              AllNonEmpty(variants) && v in variants ==> !Leaves(variants, text, v)
  {
    hide Substitute, Harmless, Leaves;
    OneVariantExactly(v);
    if Harmless(v) {
      forall variants: seq<string>, text: string | AllNonEmpty(variants) && v in variants
        ensures !Leaves(variants, text, v)
      {
        NeverLeft(variants, text, v);
      }
    } else {
      assert v in [v];
    }
  }

  lemma PrefixOccurs(v: string, w: string, text: string, i: nat)
    requires v <= w && OccursAt(w, text, i)
    ensures OccursAt(v, text, i)
  {
    assert text[i..i + |v|] == text[i..i + |w|][..|v|];
  }

  // In one fixed inventory another variant can stand in for the condition: whatever begins with a variant that
  // keeps clear of the marker is never left behind either.
  lemma BeginningProtects(variants: seq<string>, text: string, v: string, w: string)
    requires AllNonEmpty(variants) && v in variants && Harmless(v) && v <= w
    ensures !Leaves(variants, text, w)
  {
    hide Substitute, Harmless, OccursAt;
    NeverLeft(variants, text, v);
    var out := Substitute(variants, text);
    forall i | 0 <= i <= |out| ensures !OccursAt(w, out, i) {
      if OccursAt(w, out, i) { PrefixOccurs(v, w, out, i); }
    }
  }

  // THE CASE THE CONDITION SHUTS OUT: a credential that ends where the marker begins survives, and redacting
  // again changes the text again.
  lemma TouchingVariantSurvives()
    ensures var variants := ["x*"]; var text := "xx*";
            && AllNonEmpty(variants) && !Harmless("x*")
            && Substitute(variants, text) == "x" + REDACTED
            && Contains(Substitute(variants, text), "x*")
            && Substitute(variants, Substitute(variants, text)) != Substitute(variants, text)
  {
    hide Substitute, Contains, Harmless;
    var variants, text, safe := ["x*"], "xx*", "x" + REDACTED;
    assert variants[1..] == [] && text[1..] == "x*" && text[1..][2..] == "";
    assert text[1] == 'x' && variants[0][1] == '*' && safe[1] == '*';
    assert MatchAt(variants, text).None? && MatchAt(variants, text[1..]) == Some("x*");
    SubstituteStep(variants, text);
    SubstituteStep(variants, text[1..]);
    SubstituteStep(variants, "");
    assert safe[..2] == "x*" && MatchAt(variants, safe) == Some("x*");
    SubstituteStep(variants, safe);
    SurvivorFacts(safe);
  }

  lemma SurvivorFacts(safe: string)
    requires safe == "x" + REDACTED
    ensures Contains(safe, "x*") && !Harmless("x*")
  {
    assert safe[..2] == "x*";
    assert OccursAt("x*", safe, 0);
    assert Overlaps("x*", -1);
  }

  // ---------- longest first ----------

  predicate LongestFirst(variants: seq<string>) {
    forall i, j :: 0 <= i < j < |variants| ==> |variants[i]| >= |variants[j]|
  }

  lemma LongestHead(variants: seq<string>, v: string)
    requires LongestFirst(variants) && v in variants
    ensures |v| <= |variants[0]|
  {
    var k :| 0 <= k < |variants| && variants[k] == v;
  }

  lemma LongestTail(variants: seq<string>)
    requires LongestFirst(variants) && variants != []
    ensures LongestFirst(variants[1..])
    ensures forall v :: v in variants ==> v == variants[0] || v in variants[1..]
  {
    assert variants == [variants[0]] + variants[1..];
  }

  lemma {:induction false} MatchIsLongest(variants: seq<string>, text: string, v: string)
    requires LongestFirst(variants) && v in variants && v <= text
    ensures MatchAt(variants, text).Some? && |v| <= |MatchAt(variants, text).value|
  {
    hide LongestFirst;
    if variants[0] <= text {
      LongestHead(variants, v);
    } else {
      LongestTail(variants);
      MatchIsLongest(variants[1..], text, v);
    }
  }

  // Only the set of variants matters: any two longest-first listings of it redact alike.
  lemma {:induction false} ListingIsIrrelevant(a: seq<string>, b: seq<string>, text: string)
    requires AllNonEmpty(a) && AllNonEmpty(b) && LongestFirst(a) && LongestFirst(b)
    requires forall v :: v in a <==> v in b
    ensures Substitute(a, text) == Substitute(b, text)
    decreases |text|
  {
    hide MatchAt, LongestFirst;
    SameMatch(a, b, text);
    MatchFacts(a, text);
    var m := MatchAt(a, text);
    if m.Some? {
      ListingIsIrrelevant(a, b, text[|m.value|..]);
    } else if text != "" {
      ListingIsIrrelevant(a, b, text[1..]);
    }
  }

  lemma SameMatch(a: seq<string>, b: seq<string>, text: string)
    requires LongestFirst(a) && LongestFirst(b) && forall v :: v in a <==> v in b
    ensures MatchAt(a, text) == MatchAt(b, text)
  {
    hide MatchAt, LongestFirst;
    MatchFacts(a, text);
    MatchFacts(b, text);
    var m, n := MatchAt(a, text), MatchAt(b, text);
    if m.Some? { MatchIsLongest(b, text, m.value); }
    if n.Some? { MatchIsLongest(a, text, n.value); }
    if m.Some? {
      assert m.value == text[..|m.value|] && n.value == text[..|n.value|];
    }
  }
}

// Redaction of whole values: `_owned` and `_evidence_value`.
module RedactedTrees {
  import opened Wrappers
  import opened Json
  import opened Redaction

  // `sensitive` is the key test; `credentials` are compared with numbers, `variants` with text.
  datatype Sanitizer = Sanitizer(
    complete: bool, credentials: set<string>, variants: seq<string>, sensitive: string -> bool)
  {
    predicate Valid() { AllNonEmpty(variants) }
  }

  // ---------- ownership: bounded depth and size ----------

  function Max(a: nat, b: nat): nat { if a >= b then a else b }

  function Depth(v: Json): nat
    decreases v, 0
  {
    match v
    case List(items) => if items == [] then 0 else 1 + DepthOfItems(v, |items|)
    case Object(members) => if members == [] then 0 else 1 + DepthOfMembers(v, |members|)
    case _ => 0
  }

  function DepthOfItems(v: Json, n: nat): nat
    requires v.List? && n <= |v.items|
    decreases v, 0, n
  {
    if n == 0 then 0 else Max(DepthOfItems(v, n - 1), Depth(v.items[n - 1]))
  }

  function DepthOfMembers(v: Json, n: nat): nat
    requires v.Object? && n <= |v.members|
    decreases v, 0, n
  {
    if n == 0 then 0 else Max(DepthOfMembers(v, n - 1), Depth(v.members[n - 1].1))
  }

  function Nodes(v: Json): nat
    decreases v, 0
  {
    match v
    case List(items) => 1 + NodesOfItems(v, |items|)
    case Object(members) => 1 + NodesOfMembers(v, |members|)
    case _ => 1
  }

  function NodesOfItems(v: Json, n: nat): nat
    requires v.List? && n <= |v.items|
    decreases v, 0, n
  {
    if n == 0 then 0 else NodesOfItems(v, n - 1) + Nodes(v.items[n - 1])
  }

  function NodesOfMembers(v: Json, n: nat): nat
    requires v.Object? && n <= |v.members|
    decreases v, 0, n
  {
    if n == 0 then 0 else NodesOfMembers(v, n - 1) + Nodes(v.members[n - 1].1)
  }

  // The shared budget of nodes.
  class Budget {
    var left: int

    constructor (nodes: int)
      ensures left == nodes
    {
      left := nodes;
    }
  }

  lemma {:induction false} ItemsCover(v: Json, n: nat, k: nat)
    requires v.List? && k < n <= |v.items|
    ensures Depth(v.items[k]) <= DepthOfItems(v, n)
    ensures NodesOfItems(v, k) + Nodes(v.items[k]) <= NodesOfItems(v, n)
  {
    if k < n - 1 { ItemsCover(v, n - 1, k); }
  }

  lemma {:induction false} MembersCover(v: Json, n: nat, k: nat)
    requires v.Object? && k < n <= |v.members|
    ensures Depth(v.members[k].1) <= DepthOfMembers(v, n)
    ensures NodesOfMembers(v, k) + Nodes(v.members[k].1) <= NodesOfMembers(v, n)
  {
    if k < n - 1 { MembersCover(v, n - 1, k); }
  }

  // `_owned`: it accepts exactly what is shallow enough and fits in what is left of the budget.
  method Owned(v: Json, depth: nat, budget: Budget) returns (ok: bool)
    modifies budget
    ensures ok <==> depth + Depth(v) <= MAX_DEPTH && Nodes(v) <= old(budget.left)
    ensures ok ==> budget.left == old(budget.left) - Nodes(v)
    decreases v
  {
    budget.left := budget.left - 1;
    if depth > MAX_DEPTH || budget.left < 0 {
      return false;
    }
    if v.List? {
      for k := 0 to |v.items|
        invariant budget.left == old(budget.left) - 1 - NodesOfItems(v, k) && budget.left >= 0
        invariant k > 0 ==> depth + 1 + DepthOfItems(v, k) <= MAX_DEPTH
      {
        ItemsCover(v, |v.items|, k);
        ok := Owned(v.items[k], depth + 1, budget);
        if !ok {
          return false;
        }
      }
    } else if v.Object? {
      for k := 0 to |v.members|
        invariant budget.left == old(budget.left) - 1 - NodesOfMembers(v, k) && budget.left >= 0
        invariant k > 0 ==> depth + 1 + DepthOfMembers(v, k) <= MAX_DEPTH
      {
        MembersCover(v, |v.members|, k);
        ok := Owned(v.members[k].1, depth + 1, budget);
        if !ok {
          return false;
        }
      }
    }
    return true;
  }

  // ---------- the redacted tree ----------

  predicate Matches(s: Sanitizer, text: string) { ContainsAny(text, s.variants) }

  // No key is sensitive or holds a variant, and no number is a credential.
  predicate Allowed(s: Sanitizer, v: Json)
    decreases v
  {
    match v
    case Number(digits) => digits !in s.credentials
    case List(items) => forall k :: 0 <= k < |items| ==> Allowed(s, items[k])
    case Object(members) =>
      forall k :: 0 <= k < |members| ==>
        !s.sensitive(members[k].0) && !Matches(s, members[k].0) && Allowed(s, members[k].1)
    case _ => true
  }

  // The reason given for a value that is not allowed: that of the first offending place.
  function Refusal(s: Sanitizer, v: Json): Option<Reason>
    decreases v, 1, 0
  {
    match v
    case Number(digits) => if digits in s.credentials then Some(CredentialMatch) else None
    case List(items) => RefusalFromItem(s, v, 0)
    case Object(members) =>
      if exists k :: 0 <= k < |members| && (s.sensitive(members[k].0) || Matches(s, members[k].0))
      then Some(SensitiveKey)
      else RefusalFromMember(s, v, 0)
    case _ => None
  }

  function RefusalFromItem(s: Sanitizer, v: Json, k: nat): Option<Reason>
    requires v.List? && k <= |v.items|
    decreases v, 0, |v.items| - k
  {
    if k == |v.items| then None
    else if Refusal(s, v.items[k]).Some? then Refusal(s, v.items[k])
    else RefusalFromItem(s, v, k + 1)
  }

  function RefusalFromMember(s: Sanitizer, v: Json, k: nat): Option<Reason>
    requires v.Object? && k <= |v.members|
    decreases v, 0, |v.members| - k
  {
    if k == |v.members| then None
    else if Refusal(s, v.members[k].1).Some? then Refusal(s, v.members[k].1)
    else RefusalFromMember(s, v, k + 1)
  }

  function Safe(s: Sanitizer, v: Json): Json
    requires s.Valid()
    decreases v
  {
    match v
    case Text(text) => Text(Substitute(s.variants, text))
    case List(items) => List(seq(|items|, k requires 0 <= k < |items| => Safe(s, items[k])))
    case Object(members) =>
      Object(seq(|members|, k requires 0 <= k < |members| => (members[k].0, Safe(s, members[k].1))))
    case _ => v
  }

  // Some string in the tree is changed by redaction.
  predicate Changes(s: Sanitizer, v: Json)
    requires s.Valid()
    decreases v
  {
    match v
    case Text(text) => Substitute(s.variants, text) != text
    case List(items) => exists k :: 0 <= k < |items| && Changes(s, items[k])
    case Object(members) => exists k :: 0 <= k < |members| && Changes(s, members[k].1)
    case _ => false
  }

  // `_evidence_value`
  method EvidenceValue(s: Sanitizer, v: Json) returns (r: Result<(Json, bool), Reason>)
    requires s.Valid() && s.complete
    ensures r.Success? <==> Allowed(s, v)
    ensures r.Success? ==> r.value == (Safe(s, v), Changes(s, v))
    ensures Refusal(s, v) == if r.Failure? then Some(r.error) else None
    decreases v, 1
  {
    hide Substitute, ContainsAny;
    match v
    case Text(text) => return Success(RedactPair(s, text));
    case List(items) => r := EvidenceItems(s, v);
    case Object(members) => r := EvidenceMembers(s, v);
    case Number(digits) =>
      if digits in s.credentials {
        return Failure(CredentialMatch);
      }
      return Success((v, false));
    case _ => return Success((v, false));
  }

  method EvidenceItems(s: Sanitizer, v: Json) returns (r: Result<(Json, bool), Reason>)
    requires s.Valid() && s.complete && v.List?
    ensures r.Success? <==> Allowed(s, v)
    ensures r.Success? ==> r.value == (Safe(s, v), Changes(s, v))
    ensures Refusal(s, v) == if r.Failure? then Some(r.error) else None
    decreases v, 0
  {
    hide Substitute, ContainsAny, Matches;
    var safeItems: seq<Json> := [];
    var changed := false;
    for k := 0 to |v.items|
      invariant |safeItems| == k
      invariant forall j :: 0 <= j < k ==> Allowed(s, v.items[j]) && safeItems[j] == Safe(s, v.items[j])
      invariant changed <==> exists j :: 0 <= j < k && Changes(s, v.items[j])
      invariant RefusalFromItem(s, v, k) == Refusal(s, v)
    {
      var item := EvidenceValue(s, v.items[k]);
      if item.Failure? {
        return Failure(item.error);
      }
      safeItems := safeItems + [item.value.0];
      changed := changed || item.value.1;
    }
    assert List(safeItems) == Safe(s, v);
    return Success((List(safeItems), changed));
  }

  method EvidenceMembers(s: Sanitizer, v: Json) returns (r: Result<(Json, bool), Reason>)
    requires s.Valid() && s.complete && v.Object?
    ensures r.Success? <==> Allowed(s, v)
    ensures r.Success? ==> r.value == (Safe(s, v), Changes(s, v))
    ensures Refusal(s, v) == if r.Failure? then Some(r.error) else None
    decreases v, 0
  {
    hide Substitute, ContainsAny, Matches, Allowed, Safe, Changes, Refusal;
    ObjectRules(s, v);
    var members := v.members;
    if exists k :: 0 <= k < |members| && (s.sensitive(members[k].0) || Matches(s, members[k].0)) {
      return Failure(SensitiveKey);
    }
    var safeMembers: seq<(string, Json)> := [];
    var changed := false;
    for k := 0 to |members|
      invariant |safeMembers| == k
      invariant forall j :: 0 <= j < k ==>
                  Allowed(s, members[j].1) && safeMembers[j] == (members[j].0, Safe(s, members[j].1))
      invariant changed <==> exists j :: 0 <= j < k && Changes(s, members[j].1)
      invariant RefusalFromMember(s, v, k) == Refusal(s, v)
    {
      var item := EvidenceValue(s, members[k].1);
      if item.Failure? {
        return Failure(item.error);
      }
      safeMembers := safeMembers + [(members[k].0, item.value.0)];
      changed := changed || item.value.1;
    }
    return Success((Object(safeMembers), changed));
  }

  // What the rules say of an object, member by member.
  lemma ObjectRules(s: Sanitizer, v: Json)
    requires s.Valid() && v.Object?
    ensures var members := v.members;
            var barred := exists k :: 0 <= k < |members| && (s.sensitive(members[k].0) || Matches(s, members[k].0));
            && (Allowed(s, v) <==> !barred && forall k :: 0 <= k < |members| ==> Allowed(s, members[k].1))
            && (Changes(s, v) <==> exists k :: 0 <= k < |members| && Changes(s, members[k].1))
            && Refusal(s, v) == (if barred then Some(SensitiveKey) else RefusalFromMember(s, v, 0))
    ensures forall safe :: |safe| == |v.members|
              && (forall k :: 0 <= k < |safe| ==> safe[k] == (v.members[k].0, Safe(s, v.members[k].1)))
              ==> Safe(s, v) == Object(safe)
  {}

  function RedactPair(s: Sanitizer, text: string): (Json, bool)
    requires s.Valid()
  {
    (Text(Substitute(s.variants, text)), Substitute(s.variants, text) != text)
  }

  function RefusedFor(s: Sanitizer, v: Json): Reason {
    if !s.complete then InventoryUnavailable
    else if Depth(v) > MAX_DEPTH || Nodes(v) > MAX_NODES then UnsupportedRepresentation
    else if Refusal(s, v).Some? then Refusal(s, v).value
    else CredentialMatch
  }

  // `evidence_value`
  method PublicValue(s: Sanitizer, v: Json) returns (r: Result<(Json, bool), Reason>)
    requires s.Valid()
    ensures r.Success? <==> s.complete && Depth(v) <= MAX_DEPTH && Nodes(v) <= MAX_NODES && Allowed(s, v)
    ensures r.Success? ==> r.value == (Safe(s, v), Changes(s, v))
    ensures r.Failure? ==> r.error == RefusedFor(s, v)
  {
    if !s.complete {
      return Failure(InventoryUnavailable);
    }
    var budget := new Budget(MAX_NODES);
    var owned := Owned(v, 0, budget);
    if !owned {
      return Failure(UnsupportedRepresentation);
    }
    r := EvidenceValue(s, v);
  }

  // ---------- what redaction keeps and removes ----------

  // The same tree but for the text at its leaves.
  predicate SameShape(v: Json, w: Json)
    decreases v
  {
    match v
    case Text(_) => w.Text?
    case List(items) =>
      w.List? && |w.items| == |items| && forall k :: 0 <= k < |items| ==> SameShape(items[k], w.items[k])
    case Object(members) =>
      w.Object? && |w.members| == |members|
      && forall k :: 0 <= k < |members| ==> w.members[k].0 == members[k].0 && SameShape(members[k].1, w.members[k].1)
    case _ => w == v
  }

  // A variant stands in some string of the tree.
  predicate Exposes(s: Sanitizer, v: Json)
    decreases v
  {
    match v
    case Text(text) => Matches(s, text)
    case List(items) => exists k :: 0 <= k < |items| && Exposes(s, items[k])
    case Object(members) => exists k :: 0 <= k < |members| && Exposes(s, members[k].1)
    case _ => false
  }

  // SHAPE IS KEPT, no variant is left at any leaf, a change is reported exactly when one stood there, the result
  // is allowed again, and redacting it again changes nothing.
  lemma {:induction false} TreesAreRedacted(s: Sanitizer, v: Json)
    requires s.Valid() && AllHarmless(s.variants)
    ensures SameShape(v, Safe(s, v))
    ensures !Exposes(s, Safe(s, v))
    ensures Changes(s, v) <==> Exposes(s, v)
    ensures Safe(s, Safe(s, v)) == Safe(s, v)
    ensures Allowed(s, v) ==> Allowed(s, Safe(s, v))
    decreases v
  {
    hide Substitute, ContainsAny;
    match v
    case Text(text) =>
      RedactionIsExact(s.variants, text);
    case List(items) =>
      forall k | 0 <= k < |items|
        ensures SameShape(items[k], Safe(s, items[k])) && !Exposes(s, Safe(s, items[k]))
        ensures Changes(s, items[k]) <==> Exposes(s, items[k])
        ensures Safe(s, Safe(s, items[k])) == Safe(s, items[k])
        ensures Allowed(s, items[k]) ==> Allowed(s, Safe(s, items[k]))
      {
        TreesAreRedacted(s, items[k]);
      }
      assert Safe(s, Safe(s, v)).items == Safe(s, v).items;
    case Object(members) =>
      forall k | 0 <= k < |members|
        ensures SameShape(members[k].1, Safe(s, members[k].1)) && !Exposes(s, Safe(s, members[k].1))
        ensures Changes(s, members[k].1) <==> Exposes(s, members[k].1)
        ensures Safe(s, Safe(s, members[k].1)) == Safe(s, members[k].1)
        ensures Allowed(s, members[k].1) ==> Allowed(s, Safe(s, members[k].1))
      {
        TreesAreRedacted(s, members[k].1);
      }
      assert Safe(s, Safe(s, v)).members == Safe(s, v).members;
    case _ =>
  }
}
