// When "non-evidence" is exact. A completion replaces everything that is withheld by some value; over completions
// an assertion is true or false. A verdict of "non-evidence" is sharp when one completion makes it true and another
// makes it false. These are the exact conditions, one observation at a time, for every assertion of runner/
// eval_assertions.py over runtime observations.

module AssertionSharpness {
  import opened Wrappers
  import opened Sequences
  import opened Json
  import opened Evidence
  import opened Assertions
  import opened AssertionLaws

  // ---------- completions ----------

  // One way to fill in what is withheld of a call.
  datatype Filling = Filling(tool: Json, input: Json, success: bool, value: Json)

  function FillField(f: Field, json: Json): Field {
    if f.Value? then f else Value(json)
  }

  function Fill(o: Observation, f: Filling): Observation {
    o.(tool := FillField(o.tool, f.tool), input := FillField(o.input, f.input),
       outcome := if !o.outcome.Missing? then o.outcome else if f.success then Outcome.Success else Error,
       result := FillField(o.result, f.value), error := FillField(o.error, f.value))
  }

  function FillAll(os: seq<Observation>, fs: seq<Filling>): seq<Observation>
    requires |os| == |fs|
  {
    seq(|os|, i requires 0 <= i < |os| => Fill(os[i], fs[i]))
  }

  predicate Full(o: Observation) {
    o.tool.Value? && o.input.Value? && !o.outcome.Missing? && Final(o).Value?
  }

  predicate Completes(os: seq<Observation>, ps: seq<Observation>) {
    AllLearn(os, ps) && forall i :: 0 <= i < |ps| ==> Full(ps[i])
  }

  function FillingOf(p: Observation): Filling
    requires Full(p)
  {
    Filling(p.tool.json, p.input.json, p.outcome.Success?, Final(p).json)
  }

  lemma FilledIsFull(o: Observation, f: Filling)
    ensures Learns(o, Fill(o, f)) && Full(Fill(o, f))
  {}

  lemma FillAllCompletes(os: seq<Observation>, fs: seq<Filling>)
    requires |os| == |fs|
    ensures Completes(os, FillAll(os, fs))
  {
    hide Learns, Full, Fill;
    forall i | 0 <= i < |os| { FilledIsFull(os[i], fs[i]); }
  }

  // A completion of a call says what a filling of it says.
  lemma CallsAsFilled(m: Matchers, o: Observation, p: Observation, c: CallAssertion)
    requires Learns(o, p) && Full(p)
    ensures Fill(o, FillingOf(p)).start == p.start
    ensures Calls(m, Fill(o, FillingOf(p)), c) == Calls(m, p, c)
  {}

  lemma ReturnsAsFilled(m: Matchers, o: Observation, p: Observation, a: ResultAssertion)
    requires Learns(o, p) && Full(p)
    ensures Returns(m, Fill(o, FillingOf(p)), a) == Returns(m, p, a)
  {}

  // ---------- what one call could turn out to be ----------

  ghost predicate CouldCall(m: Matchers, o: Observation, c: CallAssertion) {
    exists f :: Calls(m, Fill(o, f), c)
  }

  ghost predicate CouldMiss(m: Matchers, o: Observation, c: CallAssertion) {
    exists f :: !Calls(m, Fill(o, f), c)
  }

  ghost predicate CouldReturn(m: Matchers, o: Observation, a: ResultAssertion) {
    exists f :: Returns(m, Fill(o, f), a)
  }

  ghost predicate CouldFail(m: Matchers, o: Observation, a: ResultAssertion) {
    exists f :: !Returns(m, Fill(o, f), a)
  }

  // Whether it is the call and what it returns are filled in independently.
  function Both(call: Filling, result: Filling): Filling {
    Filling(call.tool, call.input, result.success, result.value)
  }

  lemma BothApply(m: Matchers, o: Observation, f: Filling, g: Filling, c: CallAssertion, a: ResultAssertion)
    ensures Calls(m, Fill(o, Both(f, g)), c) == Calls(m, Fill(o, f), c)
    ensures Returns(m, Fill(o, Both(f, g)), a) == Returns(m, Fill(o, g), a)
  {}

  // Which calls are possible and necessary, in terms of what is withheld: a withheld tool can be any tool, a
  // withheld input any input, and nothing else is open.
  lemma CouldCallExactly(m: Matchers, o: Observation, c: CallAssertion)
    ensures CouldCall(m, o, c) <==>
            && (o.tool.Withheld? || Calls(m, o, CallAssertion(c.tool, None)))
            && (c.wants.Some? && o.input.Value? ==>
                  o.input.json.Object? && m.args(c.tool, o.input.json, c.wants.value))
            && (c.wants.Some? && o.input.Withheld? ==>
                  exists members :: m.args(c.tool, Object(members), c.wants.value))
    ensures CouldMiss(m, o, c) <==>
            || o.tool.Withheld? || !Calls(m, o, CallAssertion(c.tool, None))
            || (c.wants.Some? && (o.input.Withheld? || !Calls(m, o, c)))
  {
    MissExactly(m, o, c);
    if CouldCall(m, o, c) {
      var f :| Calls(m, Fill(o, f), c);
      if c.wants.Some? && o.input.Withheld? { assert m.args(c.tool, Object(f.input.members), c.wants.value); }
    }
    if c.wants.Some? && o.input.Withheld? && exists members :: m.args(c.tool, Object(members), c.wants.value) {
      var members :| m.args(c.tool, Object(members), c.wants.value);
      assert o.tool.Withheld? || Calls(m, o, CallAssertion(c.tool, None)) ==>
          Calls(m, Fill(o, Filling(Text(c.tool), Object(members), true, Null)), c);
    } else {
      assert CouldCall(m, o, c) || !Calls(m, Fill(o, Filling(Text(c.tool), Null, true, Null)), c);
    }
  }

  lemma MissExactly(m: Matchers, o: Observation, c: CallAssertion)
    ensures CouldMiss(m, o, c) <==>
            || o.tool.Withheld? || !Calls(m, o, CallAssertion(c.tool, None))
            || (c.wants.Some? && (o.input.Withheld? || !Calls(m, o, c)))
  {
    assert o.tool.Withheld? ==> !Calls(m, Fill(o, Filling(Null, Null, true, Null)), c);
    assert CouldMiss(m, o, c) || Calls(m, Fill(o, Filling(Null, Null, true, Null)), c);
  }

  // A result can fail whenever it is withheld, misses the status asked for or does not match; it can match only if
  // some outcome that fits the status has, or may have, a matching value.
  lemma CouldReturnExactly(m: Matchers, o: Observation, a: ResultAssertion)
    ensures CouldReturn(m, o, a) <==>
            || (o.outcome != Error && Wants(a, {"success", "completed"}) && CouldMatch(m, o.result, a))
            || (o.outcome != Outcome.Success && Wants(a, {"error"}) && CouldMatch(m, o.error, a))
  {
    if CouldMatch(m, o.result, a) {
      var json :| FillField(o.result, json).json == json && m.value(json, a.wants);
      assert o.outcome != Error && Wants(a, {"success", "completed"}) ==>
          Returns(m, Fill(o, Filling(Null, Null, true, json)), a);
    }
    if CouldMatch(m, o.error, a) {
      var json :| FillField(o.error, json).json == json && m.value(json, a.wants);
      assert o.outcome != Outcome.Success && Wants(a, {"error"}) ==>
          Returns(m, Fill(o, Filling(Null, Null, false, json)), a);
    }
    if CouldReturn(m, o, a) {
      var f :| Returns(m, Fill(o, f), a);
      var json := Final(Fill(o, f)).json;
      assert FillField(if Fill(o, f).outcome.Success? then o.result else o.error, json).json == json;
    }
  }

  ghost predicate CouldMatch(m: Matchers, f: Field, a: ResultAssertion) {
    exists json :: FillField(f, json).json == json && m.value(json, a.wants)
  }

  // ---------- counting the calls that must and that can be made ----------

  // Calls that begin before a given one are asked not to be the call named.
  datatype Hush = Hush(after: CallAssertion, before: int)

  predicate Hushed(m: Matchers, p: Observation, h: Option<Hush>) {
    h.Some? && p.start < h.value.before ==> !Calls(m, p, h.value.after)
  }

  ghost predicate CanHush(m: Matchers, o: Observation, h: Option<Hush>) {
    exists f :: Hushed(m, Fill(o, f), h)
  }

  ghost predicate CanCall(m: Matchers, o: Observation, c: CallAssertion, h: Option<Hush>) {
    exists f :: Hushed(m, Fill(o, f), h) && Calls(m, Fill(o, f), c)
  }

  ghost predicate CanMiss(m: Matchers, o: Observation, c: CallAssertion, h: Option<Hush>) {
    exists f :: Hushed(m, Fill(o, f), h) && !Calls(m, Fill(o, f), c)
  }

  ghost function MustCount(m: Matchers, os: seq<Observation>, c: CallAssertion, h: Option<Hush>): nat {
    if os == [] then 0
    else MustCount(m, os[..|os| - 1], c, h) + if CanMiss(m, os[|os| - 1], c, h) then 0 else 1
  }

  ghost function CanCount(m: Matchers, os: seq<Observation>, c: CallAssertion, h: Option<Hush>): nat {
    if os == [] then 0
    else CanCount(m, os[..|os| - 1], c, h) + if CanCall(m, os[|os| - 1], c, h) then 1 else 0
  }

  // Every completion makes at least the necessary calls and at most the possible ones.
  lemma {:induction false} CountBounds(m: Matchers, os: seq<Observation>, ps: seq<Observation>, c: CallAssertion,
                                       h: Option<Hush>)
    requires Completes(os, ps) && forall i :: 0 <= i < |ps| ==> Hushed(m, ps[i], h)
    ensures MustCount(m, os, c, h) <= CallsIn(m, ps, c) <= CanCount(m, os, c, h)
  {
    hide Learns, Full, Fill, Calls;
    if os != [] {
      var n := |os| - 1;
      CountBounds(m, os[..n], ps[..n], c, h);
      assert Learns(os[n], ps[n]) && Full(ps[n]) && Hushed(m, ps[n], h);
      CallsAsFilled(m, os[n], ps[n], c);
      if h.Some? { CallsAsFilled(m, os[n], ps[n], h.value.after); }
      assert Hushed(m, Fill(os[n], FillingOf(ps[n])), h);
    }
  }

  lemma {:induction false} MustIsPossible(m: Matchers, os: seq<Observation>, c: CallAssertion, h: Option<Hush>)
    requires forall i :: 0 <= i < |os| ==> CanHush(m, os[i], h)
    ensures MustCount(m, os, c, h) <= CanCount(m, os, c, h) <= |os|
  {
    hide Fill, Calls, Hushed;
    if os != [] {
      MustIsPossible(m, os[..|os| - 1], c, h);
      assert CanHush(m, os[|os| - 1], h);
    }
  }

  ghost predicate HushedBy(m: Matchers, os: seq<Observation>, fs: seq<Filling>, h: Option<Hush>) {
    |fs| == |os| && forall i :: 0 <= i < |os| ==> Hushed(m, Fill(os[i], fs[i]), h)
  }

  // Any number of calls in between is made by some completion.
  lemma {:induction false} Exactly(m: Matchers, os: seq<Observation>, c: CallAssertion, h: Option<Hush>, n: nat)
    returns (fs: seq<Filling>)
    requires forall i :: 0 <= i < |os| ==> CanHush(m, os[i], h)
    requires MustCount(m, os, c, h) <= n <= CanCount(m, os, c, h)
    ensures HushedBy(m, os, fs, h) && CallsIn(m, FillAll(os, fs), c) == n
  {
    hide Fill, Calls, Hushed;
    if os == [] {
      return [];
    }
    var rest, o := os[..|os| - 1], os[|os| - 1];
    MustIsPossible(m, rest, c, h);
    assert CanHush(m, o, h);
    var call := !CanMiss(m, o, c, h) || (CanCall(m, o, c, h) && MustCount(m, rest, c, h) < n);
    var f :| Hushed(m, Fill(o, f), h) && (Calls(m, Fill(o, f), c) <==> call);
    var gs := Exactly(m, rest, c, h, if call then n - 1 else n);
    fs := gs + [f];
    assert FillAll(os, fs)[..|rest|] == FillAll(rest, gs);
  }

  // ---------- the call meant by its number ----------

  lemma {:induction false} CallsInMonotone(m: Matchers, os: seq<Observation>, c: CallAssertion, i: nat)
    requires i <= |os|
    ensures CallsIn(m, os[..i], c) <= CallsIn(m, os, c)
    decreases |os|
  {
    hide Calls;
    if i < |os| {
      CallsInMonotone(m, os[..|os| - 1], c, i);
      assert os[..|os| - 1][..i] == os[..i];
    } else {
      assert os[..i] == os;
    }
  }

  lemma CallsInStep(m: Matchers, os: seq<Observation>, c: CallAssertion, i: nat)
    requires i < |os|
    ensures CallsIn(m, os[..i + 1], c) == CallsIn(m, os[..i], c) + if Calls(m, os[i], c) then 1 else 0
  {
    hide Calls;
    SnocPrefix(os, i);
  }

  lemma {:induction false} KthCall(m: Matchers, os: seq<Observation>, c: CallAssertion, k: nat) returns (i: nat)
    requires 1 <= k <= CallsIn(m, os, c)
    ensures i < |os| && Calls(m, os[i], c) && CallsIn(m, os[..i], c) == k - 1
    decreases |os|
  {
    hide Calls;
    var n := |os| - 1;
    if k <= CallsIn(m, os[..n], c) {
      i := KthCall(m, os[..n], c, k);
      assert os[..n][..i] == os[..i];
    } else {
      i := n;
    }
  }

  lemma LaterIsMore(m: Matchers, os: seq<Observation>, c: CallAssertion, i: nat, j: nat)
    requires i < j <= |os| && Calls(m, os[i], c)
    ensures CallsIn(m, os[..i], c) < CallsIn(m, os[..j], c)
  {
    hide Calls;
    CallsInStep(m, os, c, i);
    CallsInMonotone(m, os[..j], c, i + 1);
    assert os[..j][..i + 1] == os[..i + 1];
  }

  // Two calls with the same number are the same call.
  lemma KthIsUnique(m: Matchers, os: seq<Observation>, c: CallAssertion, i: nat, j: nat)
    requires i < |os| && j < |os| && Calls(m, os[i], c) && Calls(m, os[j], c)
    requires CallsIn(m, os[..i], c) == CallsIn(m, os[..j], c)
    ensures i == j
  {
    hide Calls;
    if i < j {
      LaterIsMore(m, os, c, i, j);
    } else if j < i {
      LaterIsMore(m, os, c, j, i);
    }
  }

  // ---------- tool results: some completion satisfies the assertion ----------

  ghost predicate CanHold(m: Matchers, os: seq<Observation>, a: ResultAssertion) {
    exists ps :: Completes(os, ps) && Holds(m, ps, a)
  }

  // The calls before the i-th can be as many as the occurrence asks for.
  ghost predicate CanBeMeant(m: Matchers, os: seq<Observation>, a: ResultAssertion, i: nat, h: Option<Hush>) {
    i < |os| && CouldCall(m, os[i], a.call)
    && (a.occurrence.Some? ==>
          MustCount(m, os[..i], a.call, h) <= a.occurrence.value - 1 <= CanCount(m, os[..i], a.call, h))
  }

  ghost predicate CanSucceed(m: Matchers, os: seq<Observation>, a: ResultAssertion) {
    exists i :: 0 <= i < |os| && CanBeMeant(m, os, a, i, None) && CouldReturn(m, os[i], a)
  }

  // Without `after`, the call meant; with it, also an earlier call, filled in so that it is the one asked for.
  ghost predicate MayHold(m: Matchers, os: seq<Observation>, a: ResultAssertion) {
    if a.after.None? then CanSucceed(m, os, a)
    else exists i, j, f ::
      && 0 <= i < |os| && 0 <= j < |os| && os[j].start < os[i].start && Calls(m, Fill(os[j], f), a.after.value)
      && CanBeMeant(m, os[j := Fill(os[j], f)], a, i, None) && CouldReturn(m, os[i], a)
  }

  lemma CanBeMeantHere(m: Matchers, os: seq<Observation>, ps: seq<Observation>, a: ResultAssertion, i: nat,
                       h: Option<Hush>)
    requires Completes(os, ps) && i < |os| && Calls(m, ps[i], a.call)
    requires a.occurrence.Some? ==> CallsIn(m, ps[..i], a.call) == a.occurrence.value - 1
    requires forall j :: 0 <= j < i ==> Hushed(m, ps[j], h)
    ensures CanBeMeant(m, os, a, i, h)
  {
    hide Learns, Full, Calls, Fill, Hushed;
    assert Learns(os[i], ps[i]) && Full(ps[i]);
    CallsAsFilled(m, os[i], ps[i], a.call);
    assert AllLearn(os[..i], ps[..i]);
    CountBounds(m, os[..i], ps[..i], a.call, h);
  }

  // The completion with everything else of one call forgotten but what it says of calls and results.
  function Settle(os: seq<Observation>, ps: seq<Observation>, j: nat): Observation
    requires Completes(os, ps) && j < |os|
  {
    assert Full(ps[j]);
    Fill(os[j], FillingOf(ps[j]))
  }

  lemma {:induction false} SameCalls(m: Matchers, ps: seq<Observation>, qs: seq<Observation>, c: CallAssertion)
    requires |ps| == |qs| && forall i :: 0 <= i < |ps| ==> Calls(m, ps[i], c) == Calls(m, qs[i], c)
    ensures CallsIn(m, ps, c) == CallsIn(m, qs, c)
  {
    hide Calls;
    if ps != [] { SameCalls(m, ps[..|ps| - 1], qs[..|qs| - 1], c); }
  }

  lemma SettledCompletes(m: Matchers, os: seq<Observation>, ps: seq<Observation>, c: CallAssertion, i: nat, j: nat)
    requires Completes(os, ps) && i <= |os| && j < |os|
    ensures Settle(os, ps, j).start == os[j].start
    ensures Completes(os[j := Settle(os, ps, j)], ps[j := Settle(os, ps, j)])
    ensures CallsIn(m, ps[j := Settle(os, ps, j)][..i], c) == CallsIn(m, ps[..i], c)
  {
    hide Calls;
    var p := Settle(os, ps, j);
    assert Learns(os[j], ps[j]);
    FilledIsFull(os[j], FillingOf(ps[j]));
    CallsAsFilled(m, os[j], ps[j], c);
    assert Completes(os[j := p], ps[j := p]) by {
      hide Full, Fill;
      assert Learns(p, p);
    }
    SameCalls(m, ps[j := p][..i], ps[..i], c);
  }

  lemma HoldingIsPossible(m: Matchers, os: seq<Observation>, a: ResultAssertion)
    requires CanHold(m, os, a)
    ensures MayHold(m, os, a)
  {
    hide Learns, Full, Calls, Returns, Fill, CanBeMeant;
    var ps: seq<Observation> :| Completes(os, ps) && Holds(m, ps, a);
    var i: nat :| 0 <= i < |ps| && Meant(m, ps, a, i) && Returns(m, ps[i], a);
    assert Learns(os[i], ps[i]) && Full(ps[i]);
    CallsInStep(m, ps, a.call, i);
    ReturnsAsFilled(m, os[i], ps[i], a);
    if a.after.None? {
      CanBeMeantHere(m, os, ps, a, i, None);
    } else {
      var j: nat :| 0 <= j < |ps| && ps[j].start < ps[i].start && Calls(m, ps[j], a.after.value);
      assert Learns(os[j], ps[j]) && Full(ps[j]);
      StartsStay(os, ps, i);
      StartsStay(os, ps, j);
      CallsAsFilled(m, os[j], ps[j], a.after.value);
      SettledCompletes(m, os, ps, a.call, i, j);
      var p := Settle(os, ps, j);
      CanBeMeantHere(m, os[j := p], ps[j := p], a, i, None);
      assert p == Fill(os[j], FillingOf(ps[j]));
    }
  }

  lemma SameLength(os: seq<Observation>, ps: seq<Observation>)
    requires Completes(os, ps)
    ensures |ps| == |os|
  {}

  lemma StartsStay(os: seq<Observation>, ps: seq<Observation>, i: nat)
    requires Completes(os, ps) && i < |os|
    ensures ps[i].start == os[i].start
  {
    assert Learns(os[i], ps[i]);
  }

  // ---------- building completions ----------

  ghost predicate AllHush(m: Matchers, os: seq<Observation>, h: Option<Hush>) {
    forall j :: 0 <= j < |os| ==> CanHush(m, os[j], h)
  }

  lemma NothingToHush(m: Matchers, os: seq<Observation>)
    ensures AllHush(m, os, None)
  {
    forall j | 0 <= j < |os| ensures CanHush(m, os[j], None) {
      assert Hushed(m, Fill(os[j], Filling(Null, Null, true, Null)), None);
    }
  }

  ghost function Quietly(m: Matchers, o: Observation, h: Option<Hush>): (f: Filling)
    requires CanHush(m, o, h)
    ensures Hushed(m, Fill(o, f), h)
  {
    var f :| Hushed(m, Fill(o, f), h); f
  }

  // A given beginning, a given call, and anything permitted after it.
  ghost function Spread(m: Matchers, os: seq<Observation>, fs: seq<Filling>, f: Filling, h: Option<Hush>):
    (ps: seq<Observation>)
    requires |fs| < |os| && AllHush(m, os, h)
    ensures |ps| == |os|
  {
    FillAll(os, fs + [f] + seq(|os| - |fs| - 1, k requires 0 <= k < |os| - |fs| - 1 => Quietly(m, os[|fs| + 1 + k], h)))
  }

  lemma SpreadApplies(m: Matchers, os: seq<Observation>, fs: seq<Filling>, f: Filling, h: Option<Hush>,
                      c: CallAssertion)
    requires |fs| < |os| && AllHush(m, os, h) && HushedBy(m, os[..|fs|], fs, h)
    ensures var ps := Spread(m, os, fs, f, h);
            && Completes(os, ps) && ps[|fs|] == Fill(os[|fs|], f)
            && (forall j :: 0 <= j < |os| && j != |fs| ==> Hushed(m, ps[j], h))
            && CallsIn(m, ps[..|fs| + 1], c)
               == CallsIn(m, FillAll(os[..|fs|], fs), c) + if Calls(m, Fill(os[|fs|], f), c) then 1 else 0
  {
    hide Fill, Calls, Hushed, Completes;
    var ps := Spread(m, os, fs, f, h);
    FillAllCompletes(os, fs + [f] + seq(|os| - |fs| - 1, k requires 0 <= k < |os| - |fs| - 1 =>
                                          Quietly(m, os[|fs| + 1 + k], h)));
    forall j | 0 <= j < |os| && j != |fs| ensures Hushed(m, ps[j], h) {
      if j < |fs| {
        assert Hushed(m, Fill(os[..|fs|][j], fs[j]), h);
      } else {
        assert ps[j] == Fill(os[j], Quietly(m, os[|fs| + 1 + (j - |fs| - 1)], h));
      }
    }
    assert ps[..|fs|] == FillAll(os[..|fs|], fs);
    CallsInStep(m, ps, c, |fs|);
  }

  // A completion that makes the i-th call the one meant, as far as its number goes, with a given result.
  lemma MakeMeant(m: Matchers, os: seq<Observation>, a: ResultAssertion, i: nat, result: Filling, h: Option<Hush>)
    returns (ps: seq<Observation>)
    requires CanBeMeant(m, os, a, i, h) && AllHush(m, os, h) && (h.Some? ==> os[i].start >= h.value.before)
    ensures Completes(os, ps) && Calls(m, ps[i], a.call)
    ensures a.occurrence.Some? ==> CallsIn(m, ps[..i + 1], a.call) == a.occurrence.value
    ensures Returns(m, ps[i], a) == Returns(m, Fill(os[i], result), a)
    ensures forall j :: 0 <= j < |os| ==> Hushed(m, ps[j], h)
  {
    hide Calls, Returns, Learns, Full, Fill, CanHush, Completes, MustCount, CanCount;
    var call :| Calls(m, Fill(os[i], call), a.call);
    BothApply(m, os[i], call, result, a.call, a);
    var fs: seq<Filling>;
    if a.occurrence.Some? {
      fs := Exactly(m, os[..i], a.call, h, a.occurrence.value - 1);
    } else {
      fs := seq(i, k requires 0 <= k < i => Quietly(m, os[k], h));
    }
    SpreadApplies(m, os, fs, Both(call, result), h, a.call);
    ps := Spread(m, os, fs, Both(call, result), h);
    StartsStay(os, ps, i);
  }

  lemma PossibleHolds(m: Matchers, os: seq<Observation>, a: ResultAssertion)
    requires MayHold(m, os, a)
    ensures CanHold(m, os, a)
  {
    hide Calls, Returns, Learns, Full, Fill, CanBeMeant, Completes;
    if a.after.None? {
      var i: nat :| 0 <= i < |os| && CanBeMeant(m, os, a, i, None) && CouldReturn(m, os[i], a);
      NothingToHush(m, os);
      var g :| Returns(m, Fill(os[i], g), a);
      var ps := MakeMeant(m, os, a, i, g, None);
      SameLength(os, ps);
      assert Meant(m, ps, a, i);
    } else {
      var i: nat, j: nat, f :|
        && 0 <= i < |os| && 0 <= j < |os| && os[j].start < os[i].start && Calls(m, Fill(os[j], f), a.after.value)
        && CanBeMeant(m, os[j := Fill(os[j], f)], a, i, None) && CouldReturn(m, os[i], a);
      var os' := os[j := Fill(os[j], f)];
      NothingToHush(m, os');
      var g :| Returns(m, Fill(os[i], g), a);
      var ps := MakeMeant(m, os', a, i, g, None);
      KeptCall(m, os, ps, j, f, a.after.value);
      StartsStay(os, ps, i);
      SameLength(os, ps);
      assert Meant(m, ps, a, i);
    }
  }

  // What was filled in already stays in every completion.
  lemma KeptCall(m: Matchers, os: seq<Observation>, ps: seq<Observation>, j: nat, f: Filling, c: CallAssertion)
    requires j < |os| && Completes(os[j := Fill(os[j], f)], ps)
    ensures Completes(os, ps) && ps[j].start == os[j].start
    ensures Calls(m, ps[j], c) == Calls(m, Fill(os[j], f), c)
  {
    hide Full, Calls;
    var os' := os[j := Fill(os[j], f)];
    assert forall k :: 0 <= k < |os| ==> Learns(os'[k], ps[k]);
    FilledStays(m, os[j], f, ps[j], c);
    assert forall k :: 0 <= k < |os| ==> Learns(os[k], ps[k]);
  }

  lemma FilledStays(m: Matchers, o: Observation, f: Filling, p: Observation, c: CallAssertion)
    requires Learns(Fill(o, f), p)
    ensures Learns(o, p) && p.start == o.start && Calls(m, p, c) == Calls(m, Fill(o, f), c)
  {}

  // SOME COMPLETION SATISFIES A TOOL-RESULT ASSERTION exactly when one call could be the one meant, could return
  // what is asked, and some earlier call could be the one asked for.
  lemma CanHoldExactly(m: Matchers, os: seq<Observation>, a: ResultAssertion)
    ensures CanHold(m, os, a) <==> MayHold(m, os, a)
  {
    hide CanHold, MayHold;
    if CanHold(m, os, a) { HoldingIsPossible(m, os, a); }
    if MayHold(m, os, a) { PossibleHolds(m, os, a); }
  }

  // Without an occurrence: one possible call with a possible result and, for `after`, a possible call before it.
  lemma AnyCanHoldExactly(m: Matchers, os: seq<Observation>, a: ResultAssertion)
    requires a.occurrence.None?
    ensures CanHold(m, os, a) <==>
            exists i :: 0 <= i < |os| && CouldCall(m, os[i], a.call) && CouldReturn(m, os[i], a)
              && (a.after.Some? ==>
                    exists j :: 0 <= j < |os| && os[j].start < os[i].start && CouldCall(m, os[j], a.after.value))
  {
    hide CanHold, Calls, Returns, Fill, Completes;
    CanHoldExactly(m, os, a);
    if i: nat, j: nat :|
      && a.after.Some? && i < |os| && j < |os| && os[j].start < os[i].start
      && CouldCall(m, os[i], a.call) && CouldReturn(m, os[i], a) && CouldCall(m, os[j], a.after.value)
    {
      var f :| Calls(m, Fill(os[j], f), a.after.value);
      assert CanBeMeant(m, os[j := Fill(os[j], f)], a, i, None);
    }
  }

  // ---------- tool results: some completion does not ----------

  ghost predicate CanBreak(m: Matchers, os: seq<Observation>, a: ResultAssertion) {
    exists ps :: Completes(os, ps) && !Holds(m, ps, a)
  }

  // No call before the i-th need be the one named by `after`.
  ghost predicate CanBeFirst(m: Matchers, os: seq<Observation>, a: ResultAssertion, i: nat) {
    a.after.Some? && i < |os| && AllHush(m, os, Some(Hush(a.after.value, os[i].start)))
  }

  lemma CanBeFirstExactly(m: Matchers, os: seq<Observation>, a: ResultAssertion, i: nat)
    requires a.after.Some? && i < |os|
    ensures CanBeFirst(m, os, a, i) <==>
            forall j :: 0 <= j < |os| && os[j].start < os[i].start ==> CouldMiss(m, os[j], a.after.value)
  {
    hide Calls, Fill;
    var h := Some(Hush(a.after.value, os[i].start));
    forall j | 0 <= j < |os|
      ensures CanHush(m, os[j], h) <==> os[j].start < os[i].start ==> CouldMiss(m, os[j], a.after.value)
    {
      forall f { SameStart(os[j], f); }
      assert os[j].start >= os[i].start ==> Hushed(m, Fill(os[j], Filling(Null, Null, true, Null)), h);
      if os[j].start < os[i].start {
        if CouldMiss(m, os[j], a.after.value) {
          var f :| !Calls(m, Fill(os[j], f), a.after.value);
          assert Hushed(m, Fill(os[j], f), h);
        }
      }
    }
  }

  // With an occurrence: too few calls need be made, or the one meant could fail, or come first.
  ghost predicate MayBreakNth(m: Matchers, os: seq<Observation>, a: ResultAssertion)
    requires a.occurrence.Some?
  {
    || MustCount(m, os, a.call, None) < a.occurrence.value
    || (exists i :: 0 <= i < |os| && CanBeMeant(m, os, a, i, None) && CouldFail(m, os[i], a))
    || (exists i :: 0 <= i < |os| && CanBeFirst(m, os, a, i)
                    && CanBeMeant(m, os, a, i, Some(Hush(a.after.value, os[i].start))))
  }

  // Without: every call could be another call, or fail, or come first.
  ghost predicate MayBreakAll(m: Matchers, os: seq<Observation>, a: ResultAssertion) {
    forall i :: 0 <= i < |os| ==>
      CouldMiss(m, os[i], a.call) || CouldFail(m, os[i], a) || CanBeFirst(m, os, a, i)
  }

  ghost predicate MayBreak(m: Matchers, os: seq<Observation>, a: ResultAssertion) {
    if a.occurrence.Some? then MayBreakNth(m, os, a) else MayBreakAll(m, os, a)
  }

  // Whatever holds of a completion is possible.
  lemma SeenIsPossible(m: Matchers, os: seq<Observation>, ps: seq<Observation>, a: ResultAssertion, i: nat)
    requires Completes(os, ps) && i < |os|
    ensures !Calls(m, ps[i], a.call) ==> CouldMiss(m, os[i], a.call)
    ensures !Returns(m, ps[i], a) ==> CouldFail(m, os[i], a)
    ensures a.after.Some?
            && (forall j :: 0 <= j < |ps| && ps[j].start < ps[i].start ==> !Calls(m, ps[j], a.after.value))
            ==> CanBeFirst(m, os, a, i)
  {
    hide Learns, Full, Calls, Returns, Fill;
    assert Learns(os[i], ps[i]) && Full(ps[i]);
    CallsAsFilled(m, os[i], ps[i], a.call);
    ReturnsAsFilled(m, os[i], ps[i], a);
    StartsStay(os, ps, i);
    if a.after.Some? && forall j :: 0 <= j < |ps| && ps[j].start < ps[i].start ==> !Calls(m, ps[j], a.after.value) {
      var h := Some(Hush(a.after.value, os[i].start));
      forall j | 0 <= j < |os| ensures CanHush(m, os[j], h) {
        assert Learns(os[j], ps[j]) && Full(ps[j]);
        CallsAsFilled(m, os[j], ps[j], a.after.value);
        assert Hushed(m, Fill(os[j], FillingOf(ps[j])), h);
      }
    }
  }

  lemma BreakingIsPossible(m: Matchers, os: seq<Observation>, ps: seq<Observation>, a: ResultAssertion)
    requires Completes(os, ps) && !Holds(m, ps, a) && (a.occurrence.Some? ==> a.occurrence.value >= 1)
    ensures MayBreak(m, os, a)
  {
    hide Completes, Calls, Returns, CanBeMeant, CouldMiss, CouldFail, CanBeFirst;
    SameLength(os, ps);
    if a.occurrence.None? {
      forall i | 0 <= i < |os|
        ensures CouldMiss(m, os[i], a.call) || CouldFail(m, os[i], a) || CanBeFirst(m, os, a, i)
      {
        assert !Meant(m, ps, a, i) || !Returns(m, ps[i], a);
        SeenIsPossible(m, os, ps, a, i);
      }
    } else if CallsIn(m, ps, a.call) < a.occurrence.value {
      CountBounds(m, os, ps, a.call, None);
    } else {
      var i := KthCall(m, ps, a.call, a.occurrence.value);
      CallsInStep(m, ps, a.call, i);
      assert !Meant(m, ps, a, i) || !Returns(m, ps[i], a);
      SeenIsPossible(m, os, ps, a, i);
      CanBeMeantHere(m, os, ps, a, i, None);
      if Returns(m, ps[i], a) {
        StartsStay(os, ps, i);
        CanBeMeantHere(m, os, ps, a, i, Some(Hush(a.after.value, os[i].start)));
      }
    }
  }

  lemma NumberedOtherwise(m: Matchers, ps: seq<Observation>, a: ResultAssertion, i: nat)
    requires a.occurrence.Some? && i < |ps| && Calls(m, ps[i], a.call)
    requires CallsIn(m, ps[..i + 1], a.call) == a.occurrence.value
    ensures forall k :: 0 <= k < |ps| && Meant(m, ps, a, k) ==> k == i
  {
    hide Calls;
    forall k | 0 <= k < |ps| && Meant(m, ps, a, k) ensures k == i {
      CallsInStep(m, ps, a.call, i);
      CallsInStep(m, ps, a.call, k);
      KthIsUnique(m, ps, a.call, i, k);
    }
  }

  lemma BreakNth(m: Matchers, os: seq<Observation>, a: ResultAssertion)
    requires a.occurrence.Some? && MayBreakNth(m, os, a)
    ensures CanBreak(m, os, a)
  {
    hide Calls, Returns, Fill, CanBeMeant, CanHush, Completes, MustCount, CanCount;
    NothingToHush(m, os);
    if MustCount(m, os, a.call, None) < a.occurrence.value {
      MustIsPossible(m, os, a.call, None);
      var fs := Exactly(m, os, a.call, None, MustCount(m, os, a.call, None));
      FillAllCompletes(os, fs);
      TooFew(m, FillAll(os, fs), a);
    } else if i: nat :| 0 <= i < |os| && CanBeMeant(m, os, a, i, None) && CouldFail(m, os[i], a) {
      var g :| !Returns(m, Fill(os[i], g), a);
      var ps := MakeMeant(m, os, a, i, g, None);
      SameLength(os, ps);
      NumberedOtherwise(m, ps, a, i);
      assert !Holds(m, ps, a);
    } else {
      var i: nat :| 0 <= i < |os| && CanBeFirst(m, os, a, i)
        && CanBeMeant(m, os, a, i, Some(Hush(a.after.value, os[i].start)));
      var ps := MakeMeant(m, os, a, i, Filling(Null, Null, true, Null), Some(Hush(a.after.value, os[i].start)));
      SameLength(os, ps);
      StartsStay(os, ps, i);
      NumberedOtherwise(m, ps, a, i);
      assert !Meant(m, ps, a, i);
      assert !Holds(m, ps, a);
    }
  }

  lemma TooFew(m: Matchers, ps: seq<Observation>, a: ResultAssertion)
    requires a.occurrence.Some? && CallsIn(m, ps, a.call) < a.occurrence.value
    ensures !Holds(m, ps, a)
  {
    hide Calls, Returns;
    forall i | 0 <= i < |ps| ensures !Meant(m, ps, a, i) {
      CallsInMonotone(m, ps, a.call, i + 1);
    }
  }

  // Calls before one that cannot be another call and cannot fail must not be the one named by `after`.
  ghost predicate Precedes(m: Matchers, os: seq<Observation>, a: ResultAssertion, o: Observation) {
    exists i :: 0 <= i < |os| && o.start < os[i].start && !CouldMiss(m, os[i], a.call) && !CouldFail(m, os[i], a)
  }

  ghost predicate Spoils(m: Matchers, os: seq<Observation>, a: ResultAssertion, o: Observation, p: Observation) {
    if Precedes(m, os, a, o) then a.after.Some? && !Calls(m, p, a.after.value)
    else CouldMiss(m, o, a.call) || CouldFail(m, o, a) ==> !Calls(m, p, a.call) || !Returns(m, p, a)
  }

  lemma SpoilsExist(m: Matchers, os: seq<Observation>, a: ResultAssertion, j: nat)
    requires MayBreakAll(m, os, a) && j < |os|
    ensures exists f :: Spoils(m, os, a, os[j], Fill(os[j], f))
  {
    hide Calls, Returns, Fill;
    if Precedes(m, os, a, os[j]) {
      var i: nat :|
        0 <= i < |os| && os[j].start < os[i].start && !CouldMiss(m, os[i], a.call) && !CouldFail(m, os[i], a);
      var h := Some(Hush(a.after.value, os[i].start));
      assert CanBeFirst(m, os, a, i) && CanHush(m, os[j], h);
      var f :| Hushed(m, Fill(os[j], f), h);
      SameStart(os[j], f);
      assert Spoils(m, os, a, os[j], Fill(os[j], f));
    } else if CouldMiss(m, os[j], a.call) {
      var f :| !Calls(m, Fill(os[j], f), a.call);
      assert Spoils(m, os, a, os[j], Fill(os[j], f));
    } else if CouldFail(m, os[j], a) {
      var f :| !Returns(m, Fill(os[j], f), a);
      assert Spoils(m, os, a, os[j], Fill(os[j], f));
    } else {
      assert Spoils(m, os, a, os[j], Fill(os[j], Filling(Null, Null, true, Null)));
    }
  }

  lemma SameStart(o: Observation, f: Filling)
    ensures Fill(o, f).start == o.start
  {}

  ghost function Spoiling(m: Matchers, os: seq<Observation>, a: ResultAssertion, j: nat): (f: Filling)
    requires MayBreakAll(m, os, a) && j < |os|
    ensures Spoils(m, os, a, os[j], Fill(os[j], f))
  {
    SpoilsExist(m, os, a, j);
    var f :| Spoils(m, os, a, os[j], Fill(os[j], f)); f
  }

  lemma BreakAll(m: Matchers, os: seq<Observation>, a: ResultAssertion)
    requires a.occurrence.None? && MayBreakAll(m, os, a)
    ensures CanBreak(m, os, a)
  {
    hide Calls, Returns, Fill, Completes, Spoils, MayBreakAll;
    var fs := seq(|os|, j requires 0 <= j < |os| => Spoiling(m, os, a, j));
    var ps := FillAll(os, fs);
    FillAllCompletes(os, fs);
    forall i | 0 <= i < |os| ensures ps[i].start == os[i].start && Spoils(m, os, a, os[i], ps[i]) {
      StartsStay(os, ps, i);
    }
    forall i | 0 <= i < |os| ensures !Meant(m, ps, a, i) || !Returns(m, ps[i], a) {
      SpoiledCall(m, os, ps, a, i);
    }
  }

  lemma SpoiledCall(m: Matchers, os: seq<Observation>, ps: seq<Observation>, a: ResultAssertion, i: nat)
    requires |ps| == |os| && i < |os|
    requires MayBreakAll(m, os, a)
    requires forall j :: 0 <= j < |os| ==> ps[j].start == os[j].start && Spoils(m, os, a, os[j], ps[j])
    ensures !Meant(m, ps, a, i) || !Returns(m, ps[i], a)
  {
    hide Calls, Returns, Fill, CouldMiss, CouldFail, CallsIn;
    if a.after.Some? && (Precedes(m, os, a, os[i]) || (!CouldMiss(m, os[i], a.call) && !CouldFail(m, os[i], a))) {
      forall j | 0 <= j < |ps| && ps[j].start < ps[i].start ensures !Calls(m, ps[j], a.after.value) {
        if Precedes(m, os, a, os[i]) {
          var k: nat :|
            0 <= k < |os| && os[i].start < os[k].start && !CouldMiss(m, os[k], a.call) && !CouldFail(m, os[k], a);
          assert os[j].start < os[k].start;
        }
        assert Precedes(m, os, a, os[j]);
        assert Spoils(m, os, a, os[j], ps[j]);
      }
    } else {
      assert Spoils(m, os, a, os[i], ps[i]);
    }
  }

  // SOME COMPLETION BREAKS IT exactly under the dual condition.
  lemma CanBreakExactly(m: Matchers, os: seq<Observation>, a: ResultAssertion)
    requires a.occurrence.Some? ==> a.occurrence.value >= 1
    ensures CanBreak(m, os, a) <==> MayBreak(m, os, a)
  {
    hide Holds, Completes, MayBreakAll, MayBreakNth;
    if CanBreak(m, os, a) {
      var ps :| Completes(os, ps) && !Holds(m, ps, a);
      BreakingIsPossible(m, os, ps, a);
    }
    if MayBreak(m, os, a) {
      if a.occurrence.Some? { BreakNth(m, os, a); } else { BreakAll(m, os, a); }
    }
  }

  // ---------- sharp verdicts ----------

  // A conclusive verdict is the truth about every completion, whatever the shape of what was filled in.
  lemma ConclusiveIsTrue(m: Matchers, os: seq<Observation>, ps: seq<Observation>, a: ResultAssertion)
    requires AllLearn(os, ps)
    ensures ResultVerdict(m, os, a) == Yes ==> Holds(m, ps, a)
    ensures ResultVerdict(m, os, a) == No ==> !Holds(m, ps, a)
  {
    hide CallState, ResultState, Calls, Returns, AllLearn, EarlierState, CallCount, CallsIn, SomeCall;
    ResultVerdictKeeps(m, os, ps, a);
    forall i | 0 <= i < |ps|
      ensures Stands(m, ps, a, i) <==> Meant(m, ps, a, i)
      ensures ResultState(m, ps[i], a) == Yes <==> Returns(m, ps[i], a)
    {
      StandingIsMeant(m, ps, a, i);
    }
  }

  lemma StandingIsMeant(m: Matchers, ps: seq<Observation>, a: ResultAssertion, i: nat)
    requires i < |ps|
    ensures Stands(m, ps, a, i) <==> Meant(m, ps, a, i)
    ensures ResultState(m, ps[i], a) == Yes <==> Returns(m, ps[i], a)
  {
    hide CallState, Calls, CallCount;
    CountIsMeaning(m, ps[..i], a.call);
    SnocPrefix(ps, i);
    StateIsMeaning(m, ps[i], a.call);
    if a.after.Some? {
      forall j | 0 <= j < |ps| { StateIsMeaning(m, ps[j], a.after.value); }
    }
  }

  // A TOOL-RESULT VERDICT IS SHARP exactly when some filling-in satisfies the assertion and some other breaks it;
  // then the verdict is indeed "non-evidence". Everywhere else every completion has the same answer.
  lemma SharpExactly(m: Matchers, os: seq<Observation>, a: ResultAssertion)
    requires a.occurrence.Some? ==> a.occurrence.value >= 1
    ensures CanHold(m, os, a) && CanBreak(m, os, a) <==> MayHold(m, os, a) && MayBreak(m, os, a)
    ensures MayHold(m, os, a) && MayBreak(m, os, a) ==> ResultVerdict(m, os, a) == Unknown
    ensures ResultVerdict(m, os, a) == Unknown && !MayHold(m, os, a) ==>
              forall ps :: Completes(os, ps) ==> !Holds(m, ps, a)
    ensures ResultVerdict(m, os, a) == Unknown && !MayBreak(m, os, a) ==>
              forall ps :: Completes(os, ps) ==> Holds(m, ps, a)
  {
    hide ResultVerdict, Holds, MayHold, MayBreak, AllLearn;
    CanHoldExactly(m, os, a);
    CanBreakExactly(m, os, a);
    if CanHold(m, os, a) && CanBreak(m, os, a) {
      var ps :| Completes(os, ps) && Holds(m, ps, a);
      var qs :| Completes(os, qs) && !Holds(m, qs, a);
      ConclusiveIsTrue(m, os, ps, a);
      ConclusiveIsTrue(m, os, qs, a);
    }
  }

  // ---------- tools, actions and their alternatives ----------

  predicate Occurs(m: Matchers, ps: seq<Observation>, group: seq<CallAssertion>) {
    exists g, i :: 0 <= g < |group| && 0 <= i < |ps| && Calls(m, ps[i], group[g])
  }

  predicate IsNone(m: Matchers, p: Observation, group: seq<CallAssertion>) {
    forall g :: 0 <= g < |group| ==> !Calls(m, p, group[g])
  }

  ghost predicate CouldBeNone(m: Matchers, o: Observation, group: seq<CallAssertion>) {
    exists f :: IsNone(m, Fill(o, f), group)
  }

  ghost predicate MayOccur(m: Matchers, os: seq<Observation>, group: seq<CallAssertion>) {
    exists g, i :: 0 <= g < |group| && 0 <= i < |os| && CouldCall(m, os[i], group[g])
  }

  ghost predicate MayBeAbsent(m: Matchers, os: seq<Observation>, group: seq<CallAssertion>) {
    forall i :: 0 <= i < |os| ==> CouldBeNone(m, os[i], group)
  }

  ghost predicate CanOccur(m: Matchers, os: seq<Observation>, group: seq<CallAssertion>) {
    exists ps :: Completes(os, ps) && Occurs(m, ps, group)
  }

  ghost predicate CanBeAbsent(m: Matchers, os: seq<Observation>, group: seq<CallAssertion>) {
    exists ps :: Completes(os, ps) && !Occurs(m, ps, group)
  }

  lemma CanOccurExactly(m: Matchers, os: seq<Observation>, group: seq<CallAssertion>)
    ensures CanOccur(m, os, group) <==> MayOccur(m, os, group)
  {
    hide Calls, Fill, Learns, Full;
    if CanOccur(m, os, group) {
      var ps: seq<Observation> :| Completes(os, ps) && Occurs(m, ps, group);
      var g: nat, i: nat :| 0 <= g < |group| && 0 <= i < |ps| && Calls(m, ps[i], group[g]);
      assert Learns(os[i], ps[i]) && Full(ps[i]);
      CallsAsFilled(m, os[i], ps[i], group[g]);
      assert CouldCall(m, os[i], group[g]);
    }
    if MayOccur(m, os, group) {
      var g: nat, i: nat :| 0 <= g < |group| && 0 <= i < |os| && CouldCall(m, os[i], group[g]);
      var f :| Calls(m, Fill(os[i], f), group[g]);
      var fs := seq(|os|, _ => f);
      FillAllCompletes(os, fs);
      assert FillAll(os, fs)[i] == Fill(os[i], f);
      assert Occurs(m, FillAll(os, fs), group);
    }
  }

  ghost function NoneOf(m: Matchers, o: Observation, group: seq<CallAssertion>): (f: Filling)
    requires CouldBeNone(m, o, group)
    ensures IsNone(m, Fill(o, f), group)
  {
    var f :| IsNone(m, Fill(o, f), group); f
  }

  lemma CanBeAbsentExactly(m: Matchers, os: seq<Observation>, group: seq<CallAssertion>)
    ensures CanBeAbsent(m, os, group) <==> MayBeAbsent(m, os, group)
  {
    hide Calls, Fill, Learns, Full;
    if CanBeAbsent(m, os, group) {
      var ps :| Completes(os, ps) && !Occurs(m, ps, group);
      forall i | 0 <= i < |os| ensures CouldBeNone(m, os[i], group) {
        assert Learns(os[i], ps[i]) && Full(ps[i]);
        forall g | 0 <= g < |group| { CallsAsFilled(m, os[i], ps[i], group[g]); }
        assert IsNone(m, Fill(os[i], FillingOf(ps[i])), group);
      }
    }
    if MayBeAbsent(m, os, group) {
      var fs := seq(|os|, i requires 0 <= i < |os| => NoneOf(m, os[i], group));
      FillAllCompletes(os, fs);
      assert forall i :: 0 <= i < |os| ==> IsNone(m, FillAll(os, fs)[i], group);
    }
  }

  // THE VERDICT ON TOOLS, ACTIONS AND ALTERNATIVES IS SHARP exactly when one call could be one of those named and
  // all calls together could be none of them.
  lemma ExistenceSharpExactly(m: Matchers, os: seq<Observation>, group: seq<CallAssertion>)
    ensures CanOccur(m, os, group) && CanBeAbsent(m, os, group) <==> MayOccur(m, os, group) && MayBeAbsent(m, os, group)
    ensures MayOccur(m, os, group) && MayBeAbsent(m, os, group) ==> ExistenceVerdict(m, os, group) == Unknown
    ensures ExistenceVerdict(m, os, group) == Unknown && !MayOccur(m, os, group) ==>
              forall ps :: Completes(os, ps) ==> !Occurs(m, ps, group)
    ensures ExistenceVerdict(m, os, group) == Unknown && !MayBeAbsent(m, os, group) ==>
              forall ps :: Completes(os, ps) ==> Occurs(m, ps, group)
  {
    hide ExistenceVerdict, Occurs, MayOccur, MayBeAbsent, AllLearn;
    CanOccurExactly(m, os, group);
    CanBeAbsentExactly(m, os, group);
    if CanOccur(m, os, group) && CanBeAbsent(m, os, group) {
      var ps :| Completes(os, ps) && Occurs(m, ps, group);
      var qs :| Completes(os, qs) && !Occurs(m, qs, group);
      ConclusiveExistence(m, os, ps, group);
      ConclusiveExistence(m, os, qs, group);
    }
  }

  lemma ConclusiveExistence(m: Matchers, os: seq<Observation>, ps: seq<Observation>, group: seq<CallAssertion>)
    requires AllLearn(os, ps)
    ensures ExistenceVerdict(m, os, group) == Yes ==> Occurs(m, ps, group)
    ensures ExistenceVerdict(m, os, group) == No ==> !Occurs(m, ps, group)
  {
    hide CallState, Calls, AllLearn;
    ExistenceVerdictKeeps(m, os, ps, group);
    forall g, i | 0 <= g < |group| && 0 <= i < |ps|
      ensures CallState(m, ps[i], group[g]) == Yes <==> Calls(m, ps[i], group[g])
    {
      StateIsMeaning(m, ps[i], group[g]);
    }
  }
}
