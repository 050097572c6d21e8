// `extract_tool_result_evidence` (container/invoke.py:170-321) with `Projection`
// (container/evidence_safety.py:359-428): a sliding window of tool events and the record of what was withheld.

module Projections {
  import opened Wrappers
  import opened Sequences
  import opened Json
  import opened Redaction
  import opened RedactedTrees

  datatype Shown = ShownAsIs | ShownRedacted | NotShown

  // One entry of the safety record: the reason is there unless the field is shown as it is.
  datatype Disposition = Disposition(event: nat, field: string, shown: Shown, reason: Option<Reason>)

  type Losses = map<Reason, nat>

  function CountReason(ds: seq<Disposition>, r: Reason): nat {
    if ds == [] then 0
    else CountReason(ds[..|ds| - 1], r) + if ds[|ds| - 1].reason == Some(r) then 1 else 0
  }

  // What the losses say after these dispositions and so many events dropped for their number and for size.
  function LossesOf(ds: seq<Disposition>, byNumber: nat, bySize: nat): Losses {
    map r: Reason :: CountReason(ds, r) + (if r.EventLimit? then byNumber else 0) + (if r.SizeLimit? then bySize else 0)
  }

  lemma {:induction false} CountConcat(a: seq<Disposition>, b: seq<Disposition>, r: Reason)
    ensures CountReason(a + b, r) == CountReason(a, r) + CountReason(b, r)
  {
    if b == [] {
      assert a + b == a;
    } else {
      assert (a + b)[..|a + b| - 1] == a + b[..|b| - 1];
      CountConcat(a, b[..|b| - 1], r);
    }
  }

  lemma LossesSnoc(ds: seq<Disposition>, d: Disposition, byNumber: nat)
    ensures LossesOf(ds + [d], byNumber, 0)
            == if d.reason.Some? then
                 LossesOf(ds, byNumber, 0)[d.reason.value := LossesOf(ds, byNumber, 0)[d.reason.value] + 1]
               else LossesOf(ds, byNumber, 0)
  {}

  // ---------- one field ----------

  // One call of the projection: a value (absent is None) under a limit, or an omission for a given reason.
  datatype FieldCall =
    | Project(field: string, value: Option<Json>, limit: nat, protocol: bool)
    | Omit(field: string, omission: Reason)

  type Size = Json -> nat

  datatype Outcome = Kept(value: Json, redacted: bool) | Withheld(reason: Reason)

  function ProjectValue(s: Sanitizer, size: Size, v: Json, limit: nat, protocol: bool): Outcome
    requires s.Valid()
  {
    var owned := Depth(v) <= MAX_DEPTH && Nodes(v) <= MAX_NODES;
    if protocol && !owned then Withheld(UnsupportedRepresentation)
    else if !protocol && !(s.complete && owned && Allowed(s, v)) then Withheld(RefusedFor(s, v))
    else
      var safe := if protocol then v else Safe(s, v);
      if size(safe) > limit then Withheld(SizeLimit) else Kept(safe, !protocol && Changes(s, v))
  }

  function OutcomeOf(s: Sanitizer, size: Size, c: FieldCall): Outcome
    requires s.Valid()
  {
    match c
    case Omit(_, reason) => Withheld(reason)
    case Project(_, None, _, _) => Withheld(MissingValue)
    case Project(_, Some(v), limit, protocol) => ProjectValue(s, size, v, limit, protocol)
  }

  function DispositionOf(event: nat, field: string, o: Outcome): Disposition {
    match o
    case Withheld(reason) => Disposition(event, field, NotShown, Some(reason))
    case Kept(_, true) => Disposition(event, field, ShownRedacted, Some(CredentialMatch))
    case Kept(_, false) => Disposition(event, field, ShownAsIs, None)
  }

  class Projection {
    const sanitizer: Sanitizer
    const size: Size
    var fields: seq<Disposition>
    var losses: Losses

    constructor (sanitizer: Sanitizer, size: Size)
      ensures this.sanitizer == sanitizer && this.size == size
      ensures fields == [] && losses == LossesOf([], 0, 0)
    {
      this.sanitizer, this.size := sanitizer, size;
      fields := [];
      losses := LossesOf([], 0, 0);
    }

    // `_record`
    method Record(d: Disposition, ghost history: seq<Disposition>, ghost byNumber: nat)
      requires losses == LossesOf(history, byNumber, 0)
      modifies this
      ensures fields == old(fields) + [d]
      ensures losses == LossesOf(history + [d], byNumber, 0)
    {
      fields := fields + [d];
      LossesSnoc(history, d, byNumber);
      if d.reason.Some? {
        losses := losses[d.reason.value := losses[d.reason.value] + 1];
      }
    }

    // `field` and `omit`: what is returned is what may be shown, if anything.
    method Field(event: nat, c: FieldCall, ghost history: seq<Disposition>, ghost byNumber: nat)
      returns (shown: Option<Json>)
      requires sanitizer.Valid() && losses == LossesOf(history, byNumber, 0)
      modifies this
      ensures var o := OutcomeOf(sanitizer, size, c);
              && shown == (if o.Kept? then Some(o.value) else None)
              && fields == old(fields) + [DispositionOf(event, c.field, o)]
              && losses == LossesOf(history + [DispositionOf(event, c.field, o)], byNumber, 0)
    {
      hide LossesOf, Safe, Changes, Allowed, RefusedFor, Depth, Nodes;
      var outcome: Outcome;
      if c.Omit? {
        outcome := Withheld(c.omission);
      } else if c.value.None? {
        outcome := Withheld(MissingValue);
      } else {
        outcome := Decide(c.value.value, c.limit, c.protocol);
      }
      Record(DispositionOf(event, c.field, outcome), history, byNumber);
      return if outcome.Kept? then Some(outcome.value) else None;
    }

    method Decide(v: Json, limit: nat, protocol: bool) returns (o: Outcome)
      requires sanitizer.Valid()
      ensures o == ProjectValue(sanitizer, size, v, limit, protocol)
    {
      hide Safe, Changes, Allowed, RefusedFor, Depth, Nodes;
      var safe, changed := v, false;
      if protocol {
        var budget := new Budget(MAX_NODES);
        var owned := Owned(v, 0, budget);
        if !owned {
          return Withheld(UnsupportedRepresentation);
        }
      } else {
        var public := PublicValue(sanitizer, v);
        if public.Failure? {
          return Withheld(public.error);
        }
        safe, changed := public.value.0, public.value.1;
      }
      if size(safe) > limit {
        return Withheld(SizeLimit);
      }
      return Kept(safe, changed);
    }

    // `loss`
    method Lose(r: Reason, ghost history: seq<Disposition>, ghost byNumber: nat, ghost bySize: nat)
      requires losses == LossesOf(history, byNumber, bySize) && (r.EventLimit? || r.SizeLimit?)
      modifies this`losses
      ensures losses == if r.EventLimit? then LossesOf(history, byNumber + 1, bySize)
                        else LossesOf(history, byNumber, bySize + 1)
    {
      losses := losses[r := losses[r] + 1];
      assert r.EventLimit? ==> losses == LossesOf(history, byNumber + 1, bySize);
      assert r.SizeLimit? ==> losses == LossesOf(history, byNumber, bySize + 1);
    }

    // `drop_event_fields`
    method DropEvent(event: nat)
      modifies this`fields
      ensures fields == Without(old(fields), event)
    {
      var kept: seq<Disposition> := [];
      for i := 0 to |fields|
        invariant fields == old(fields) && kept == Without(fields[..i], event)
      {
        SnocPrefix(fields, i);
        if fields[i].event != event {
          kept := kept + [fields[i]];
        }
      }
      assert fields[..|fields|] == fields;
      fields := kept;
    }
  }

  function Without(ds: seq<Disposition>, event: nat): seq<Disposition> {
    if ds == [] then []
    else Without(ds[..|ds| - 1], event) + if ds[|ds| - 1].event != event then [ds[|ds| - 1]] else []
  }

  lemma {:induction false} WithoutConcat(a: seq<Disposition>, b: seq<Disposition>, event: nat)
    requires forall i :: 0 <= i < |a| ==> a[i].event == event
    requires forall i :: 0 <= i < |b| ==> b[i].event != event
    ensures Without(a + b, event) == b
  {
    if b != [] {
      assert (a + b)[..|a + b| - 1] == a + b[..|b| - 1];
      WithoutConcat(a, b[..|b| - 1], event);
    } else if a != [] {
      assert a + b == a && a[..|a| - 1] + [] == a[..|a| - 1];
      WithoutConcat(a[..|a| - 1], [], event);
    }
  }
}

module Window {
  import opened Wrappers
  import opened Sequences
  import opened Json
  import opened Redaction
  import opened RedactedTrees
  import opened Projections

  const TOOL_RESULT_FIELD_LIMIT := 6000
  const TOOL_RESULT_EVENT_LIMIT := 64
  const TOOL_RESULT_TOTAL_LIMIT := 48000

  // ---------- the stream ----------

  datatype StatePart =
    | NoState | OddState
    | State(status: Option<Json>, input: Option<Json>, output: Option<Json>, error: Option<Json>)

  datatype Part = NoPart | OddPart | Part(tool: Option<Json>, callId: Option<Json>, state: StatePart)

  datatype StreamEvent = OtherEvent | ToolUse(sessionId: Option<Json>, part: Part)

  function ToolEvents(events: seq<StreamEvent>): seq<StreamEvent> {
    if events == [] then []
    else ToolEvents(events[..|events| - 1]) + if events[|events| - 1].ToolUse? then [events[|events| - 1]] else []
  }

  // A status that cannot be hashed breaks the test for a failed tool.
  predicate Raises(e: StreamEvent) {
    && e.ToolUse? && e.part.Part? && e.part.state.State? && e.part.state.status.Some?
    && (e.part.state.status.value.List? || e.part.state.status.value.Object?)
  }

  function Either(missing: bool): Reason { if missing then MissingValue else UnsupportedRepresentation }

  // The projection calls one tool event leads to, in order.
  function CallsFor(e: StreamEvent): seq<FieldCall>
    requires e.ToolUse?
  {
    match e.part
    case Part(tool, callId, state) =>
      [Project("tool", tool, 256, false), Project("call_id", callId, 256, false),
       Project("session_id", e.sessionId, 256, false)] + StateCalls(state)
    case _ =>
      var why := Either(e.part.NoPart?);
      [Omit("tool", why), Omit("status", why), Omit("input", why), Omit("call_id", why), Omit("session_id", why)]
  }

  function StateCalls(state: StatePart): seq<FieldCall> {
    match state
    case State(status, input, output, error) =>
      [Project("status", status, 256, true), Project("input", input, 2000, false)]
      + (if status == Some(Text("completed")) then [Project("output", output, TOOL_RESULT_FIELD_LIMIT, false)]
         else if status == Some(Text("error")) || status == Some(Text("failed")) then
           [Project("error", error, TOOL_RESULT_FIELD_LIMIT, false)]
         else
           (if output.Some? then [Project("output", output, TOOL_RESULT_FIELD_LIMIT, false)] else [])
           + (if error.Some? then [Project("error", error, TOOL_RESULT_FIELD_LIMIT, false)] else []))
    case _ =>
      [Omit("status", Either(state.NoState?)), Omit("input", Either(state.NoState?))]
  }

  // An event as published: its sequence number and the fields that may be shown.
  datatype Item = Item(sequence: nat, shown: seq<(string, Json)>)

  datatype Evidence = Evidence(
    observed: nat, omitted: nat, events: seq<Item>, fields: seq<Disposition>, losses: Losses)

  function DispositionsFor(s: Sanitizer, size: Size, calls: seq<FieldCall>, event: nat): seq<Disposition>
    requires s.Valid()
  {
    seq(|calls|, i requires 0 <= i < |calls| => DispositionOf(event, calls[i].field, OutcomeOf(s, size, calls[i])))
  }

  function ShownFor(s: Sanitizer, size: Size, calls: seq<FieldCall>): seq<(string, Json)>
    requires s.Valid()
  {
    if calls == [] then []
    else
      var last := calls[|calls| - 1];
      var o := OutcomeOf(s, size, last);
      ShownFor(s, size, calls[..|calls| - 1]) + if o.Kept? then [(last.field, o.value)] else []
  }

  // ---------- what is published when the first n tool events are dropped ----------

  predicate AllToolUse(tools: seq<StreamEvent>) {
    forall i :: 0 <= i < |tools| ==> tools[i].ToolUse?
  }

  function Items(s: Sanitizer, size: Size, tools: seq<StreamEvent>): seq<Item>
    requires s.Valid() && AllToolUse(tools)
  {
    seq(|tools|, i requires 0 <= i < |tools| => Item(i + 1, ShownFor(s, size, CallsFor(tools[i]))))
  }

  // The dispositions of the tool events from n on.
  function Fields(s: Sanitizer, size: Size, tools: seq<StreamEvent>, n: nat): seq<Disposition>
    requires s.Valid() && AllToolUse(tools) && n <= |tools|
    decreases |tools|
  {
    if n == |tools| then []
    else Fields(s, size, tools[..|tools| - 1], n) + DispositionsFor(s, size, CallsFor(tools[|tools| - 1]), |tools| - 1)
  }

  function Over(n: nat): nat { if n > TOOL_RESULT_EVENT_LIMIT then n - TOOL_RESULT_EVENT_LIMIT else 0 }

  // The published evidence with the first n tool events dropped: those past the window counted by number, the
  // others by size. The losses also keep counting the fields of dropped events.
  function Published(s: Sanitizer, size: Size, tools: seq<StreamEvent>, n: nat): Evidence
    requires s.Valid() && AllToolUse(tools) && Over(|tools|) <= n <= |tools|
  {
    Evidence(|tools|, n, Items(s, size, tools)[n..], Fields(s, size, tools, n),
             LossesOf(Fields(s, size, tools, 0), Over(|tools|), n - Over(|tools|)))
  }

  lemma {:induction false} FieldsFromFirst(s: Sanitizer, size: Size, tools: seq<StreamEvent>, n: nat)
    requires s.Valid() && AllToolUse(tools) && n < |tools|
    ensures Fields(s, size, tools, n) == DispositionsFor(s, size, CallsFor(tools[n]), n) + Fields(s, size, tools, n + 1)
    decreases |tools|
  {
    hide DispositionsFor, CallsFor;
    var front := tools[..|tools| - 1];
    if n < |tools| - 1 {
      FieldsFromFirst(s, size, front, n);
      assert front[n] == tools[n];
    }
  }

  lemma {:induction false} FieldsAreLater(s: Sanitizer, size: Size, tools: seq<StreamEvent>, n: nat)
    requires s.Valid() && AllToolUse(tools) && n <= |tools|
    ensures forall i :: 0 <= i < |Fields(s, size, tools, n)| ==> n <= Fields(s, size, tools, n)[i].event < |tools|
    decreases |tools|
  {
    hide CallsFor;
    if n < |tools| { FieldsAreLater(s, size, tools[..|tools| - 1], n); }
  }

  // Dropping the fields of event n leaves those from n + 1 on.
  lemma DropsOneEvent(s: Sanitizer, size: Size, tools: seq<StreamEvent>, n: nat)
    requires s.Valid() && AllToolUse(tools) && n < |tools|
    ensures Without(Fields(s, size, tools, n), n) == Fields(s, size, tools, n + 1)
  {
    hide CallsFor;
    FieldsFromFirst(s, size, tools, n);
    FieldsAreLater(s, size, tools, n + 1);
    WithoutConcat(DispositionsFor(s, size, CallsFor(tools[n]), n), Fields(s, size, tools, n + 1), n);
  }

  // ---------- the loops ----------

  // The body of the first loop before the window: project one event, or raise; what was projected is then lost.
  method ProjectEvent(projection: Projection, e: StreamEvent, event: nat, ghost history: seq<Disposition>,
                      ghost byNumber: nat)
    returns (item: Option<Item>)
    requires e.ToolUse? && projection.sanitizer.Valid() && projection.losses == LossesOf(history, byNumber, 0)
    modifies projection
    ensures item.None? <==> Raises(e)
    ensures item.Some? ==>
              var ds := DispositionsFor(projection.sanitizer, projection.size, CallsFor(e), event);
              && item.value == Item(event + 1, ShownFor(projection.sanitizer, projection.size, CallsFor(e)))
              && projection.fields == old(projection.fields) + ds
              && projection.losses == LossesOf(history + ds, byNumber, 0)
  {
    hide LossesOf, OutcomeOf, CallsFor;
    if Raises(e) {
      return None;
    }
    var calls := CallsFor(e);
    var shown: seq<(string, Json)> := [];
    ghost var ds: seq<Disposition> := [];
    assert history + ds == history;
    for i := 0 to |calls|
      invariant shown == ShownFor(projection.sanitizer, projection.size, calls[..i])
      invariant ds == DispositionsFor(projection.sanitizer, projection.size, calls[..i], event)
      invariant projection.fields == old(projection.fields) + ds
      invariant projection.losses == LossesOf(history + ds, byNumber, 0)
    {
      SnocPrefix(calls, i);
      ghost var d := DispositionOf(event, calls[i].field, OutcomeOf(projection.sanitizer, projection.size, calls[i]));
      var safe := projection.Field(event, calls[i], history + ds, byNumber);
      assert history + ds + [d] == history + (ds + [d]);
      assert old(projection.fields) + ds + [d] == old(projection.fields) + (ds + [d]);
      ds := ds + [d];
      if safe.Some? {
        shown := shown + [(calls[i].field, safe.value)];
      }
    }
    assert calls[..|calls|] == calls;
    return Some(Item(event + 1, shown));
  }

  // What holds before each turn of the first loop.
  ghost predicate Sliding(projection: Projection, tools: seq<StreamEvent>, recent: seq<Item>, omitted: nat)
    requires projection.sanitizer.Valid() && AllToolUse(tools)
    reads projection
  {
    var s, size := projection.sanitizer, projection.size;
    && omitted == Over(|tools|) && recent == Items(s, size, tools)[omitted..]
    && projection.fields == Fields(s, size, tools, omitted)
    && projection.losses == LossesOf(Fields(s, size, tools, 0), omitted, 0)
  }

  // One turn: the event enters, and the oldest leaves a window that is too long.
  method Slide(projection: Projection, ghost tools: seq<StreamEvent>, e: StreamEvent, recent: seq<Item>, omitted: nat,
               observed: nat)
    returns (raised: bool, kept: seq<Item>, dropped: nat)
    requires e.ToolUse? && projection.sanitizer.Valid() && AllToolUse(tools) && observed == |tools|
    requires Sliding(projection, tools, recent, omitted)
    modifies projection
    ensures raised <==> Raises(e)
    ensures !raised ==> AllToolUse(tools + [e]) && Sliding(projection, tools + [e], kept, dropped)
  {
    hide LossesOf, CallsFor, DispositionsFor, ShownFor, Without;
    ghost var s, size, all := projection.sanitizer, projection.size, tools + [e];
    assert all[..|all| - 1] == tools;
    var projected := ProjectEvent(projection, e, observed, Fields(s, size, tools, 0), omitted);
    if projected.None? {
      return true, recent, omitted;
    }
    var item := projected.value;
    assert Fields(s, size, all, omitted) == projection.fields;
    assert Items(s, size, all)[omitted..] == recent + [item];
    raised, kept, dropped := false, recent + [item], omitted;
    if |kept| > TOOL_RESULT_EVENT_LIMIT {
      assert kept[0].sequence == omitted + 1;
      projection.DropEvent(kept[0].sequence - 1);
      DropsOneEvent(s, size, all, omitted);
      projection.Lose(EventLimit, Fields(s, size, all, 0), omitted, 0);
      kept, dropped := kept[1..], omitted + 1;
    }
  }

  // `extract_tool_result_evidence`. `total` is the length of the encoded evidence.
  method ExtractToolResults(s: Sanitizer, size: Size, total: Evidence -> nat, events: seq<StreamEvent>)
    returns (r: Result<Evidence, ()>)
    requires s.Valid()
    ensures r.Failure? <==> exists i :: 0 <= i < |events| && Raises(events[i])
    ensures r.Success? ==>
              var tools, e := ToolEvents(events), r.value;
              && AllToolUse(tools) && Over(|tools|) <= e.omitted <= |tools|
              && e == Published(s, size, tools, e.omitted)
              && (total(e) <= TOOL_RESULT_TOTAL_LIMIT || e.events == [])
              && forall n :: Over(|tools|) <= n < e.omitted ==>
                   total(Published(s, size, tools, n)) > TOOL_RESULT_TOTAL_LIMIT
  {
    hide LossesOf, Fields, Items, Without;
    var projection := new Projection(s, size);
    var recent: seq<Item> := [];
    var observed, omitted := 0, 0;
    NothingYet(s, size);
    for i := 0 to |events|
      invariant projection.sanitizer == s && projection.size == size && fresh(projection)
      invariant AllToolUse(ToolEvents(events[..i])) && observed == |ToolEvents(events[..i])|
      invariant Sliding(projection, ToolEvents(events[..i]), recent, omitted)
      invariant forall j :: 0 <= j < i ==> !Raises(events[j])
    {
      SnocPrefix(events, i);
      if !events[i].ToolUse? {
        assert ToolEvents(events[..i]) + [] == ToolEvents(events[..i]);
        continue;
      }
      var raised: bool;
      raised, recent, omitted := Slide(projection, ToolEvents(events[..i]), events[i], recent, omitted, observed);
      if raised {
        return Failure(());
      }
      observed := observed + 1;
    }
    assert events[..|events|] == events;
    var evidence := Shrink(projection, ToolEvents(events), total, recent, omitted, observed);
    return Result.Success(evidence);
  }

  lemma NothingYet(s: Sanitizer, size: Size)
    requires s.Valid()
    ensures Fields(s, size, [], 0) == [] && Items(s, size, []) == []
  {}

  // The second loop: drop events until the encoded evidence is short enough or none is left.
  method Shrink(projection: Projection, ghost tools: seq<StreamEvent>, total: Evidence -> nat, recent: seq<Item>,
                byNumber: nat, observed: nat)
    returns (r: Evidence)
    requires projection.sanitizer.Valid() && AllToolUse(tools) && observed == |tools|
    requires Sliding(projection, tools, recent, byNumber)
    modifies projection
    ensures var s, size := projection.sanitizer, projection.size;
            && Over(|tools|) <= r.omitted <= |tools| && r == Published(s, size, tools, r.omitted)
            && (total(r) <= TOOL_RESULT_TOTAL_LIMIT || r.events == [])
            && forall n :: Over(|tools|) <= n < r.omitted ==>
                 total(Published(s, size, tools, n)) > TOOL_RESULT_TOTAL_LIMIT
  {
    hide LossesOf, Fields, CallsFor, DispositionsFor, ShownFor, Without;
    ghost var s, size := projection.sanitizer, projection.size;
    var omitted := byNumber;
    r := Evidence(observed, omitted, recent, projection.fields, projection.losses);
    while total(r) > TOOL_RESULT_TOTAL_LIMIT && r.events != []
      invariant byNumber == Over(|tools|) <= omitted <= |tools| && omitted == r.omitted
      invariant projection.sanitizer == s && projection.size == size
      invariant r == Published(s, size, tools, omitted)
      invariant projection.fields == r.fields && projection.losses == r.losses
      invariant forall n :: Over(|tools|) <= n < omitted ==>
                  total(Published(s, size, tools, n)) > TOOL_RESULT_TOTAL_LIMIT
      decreases |r.events|
    {
      assert r.events[0].sequence == omitted + 1;
      projection.DropEvent(r.events[0].sequence - 1);
      DropsOneEvent(s, size, tools, omitted);
      projection.Lose(SizeLimit, Fields(s, size, tools, 0), byNumber, omitted - byNumber);
      omitted := omitted + 1;
      r := Evidence(observed, omitted, r.events[1..], projection.fields, projection.losses);
    }
  }

  // ---------- what every published window satisfies ----------

  // Nothing is lost uncounted: the window is the end of the stream, its sequence numbers are the last ones, and
  // every disposition refers to a retained event.
  lemma WindowIsExact(s: Sanitizer, size: Size, tools: seq<StreamEvent>, n: nat)
    requires s.Valid() && AllToolUse(tools) && Over(|tools|) <= n <= |tools|
    ensures var r := Published(s, size, tools, n);
            && r.omitted + |r.events| == r.observed == |tools|
            && |r.events| <= TOOL_RESULT_EVENT_LIMIT
            && (forall k :: 0 <= k < |r.events| ==> r.events[k].sequence == r.omitted + 1 + k)
            && (forall k :: 0 <= k < |r.fields| ==> r.omitted <= r.fields[k].event < r.observed)
            && r.losses[EventLimit] == CountReason(Fields(s, size, tools, 0), EventLimit) + Over(|tools|)
            && r.losses[SizeLimit] == CountReason(Fields(s, size, tools, 0), SizeLimit) + n - Over(|tools|)
  {
    hide CallsFor, Fields, CountReason;
    FieldsAreLater(s, size, tools, n);
  }

  // A field among those shown, and among the dispositions that show one.
  predicate Shows(shown: seq<(string, Json)>, field: string) {
    exists i :: 0 <= i < |shown| && shown[i].0 == field
  }

  predicate ShownAmong(ds: seq<Disposition>, field: string) {
    exists i :: 0 <= i < |ds| && ds[i].field == field && ds[i].shown != NotShown
  }

  lemma ShowsSnoc(shown: seq<(string, Json)>, x: (string, Json), field: string)
    ensures Shows(shown + [x], field) <==> Shows(shown, field) || x.0 == field
  {
    var all := shown + [x];
    if i :| 0 <= i < |shown| && shown[i].0 == field { assert all[i].0 == field; }
    if x.0 == field { assert all[|shown|].0 == field; }
  }

  lemma ShownAmongSnoc(ds: seq<Disposition>, d: Disposition, field: string)
    ensures ShownAmong(ds + [d], field) <==> ShownAmong(ds, field) || (d.field == field && d.shown != NotShown)
  {
    var all := ds + [d];
    if i :| 0 <= i < |ds| && ds[i].field == field && ds[i].shown != NotShown {
      assert all[i].field == field && all[i].shown != NotShown;
    }
    if d.field == field && d.shown != NotShown { assert all[|ds|].field == field; }
  }

  lemma NothingShown(field: string)
    ensures !Shows([], field) && !ShownAmong([], field)
  {}

  lemma {:induction false} FieldIsShown(s: Sanitizer, size: Size, calls: seq<FieldCall>, event: nat, field: string)
    requires s.Valid()
    ensures Shows(ShownFor(s, size, calls), field) <==> ShownAmong(DispositionsFor(s, size, calls, event), field)
  {
    hide OutcomeOf, Shows, ShownAmong;
    if calls == [] {
      NothingShown(field);
      assert DispositionsFor(s, size, calls, event) == [];
    } else {
      var front, last := calls[..|calls| - 1], calls[|calls| - 1];
      var o := OutcomeOf(s, size, last);
      var before := DispositionsFor(s, size, front, event);
      FieldIsShown(s, size, front, event, field);
      assert DispositionsFor(s, size, calls, event) == before + [DispositionOf(event, last.field, o)];
      ShownAmongSnoc(before, DispositionOf(event, last.field, o), field);
      var shown := ShownFor(s, size, front);
      if o.Kept? {
        ShowsSnoc(shown, (last.field, o.value), field);
      } else {
        assert shown + [] == shown;
      }
      assert DispositionOf(event, last.field, o).shown != NotShown <==> o.Kept?;
    }
  }

  lemma {:induction false} ShownOrHidden(s: Sanitizer, size: Size, calls: seq<FieldCall>, event: nat)
    requires s.Valid()
    ensures |ShownFor(s, size, calls)| + Hidden(DispositionsFor(s, size, calls, event)) == |calls|
  {
    hide OutcomeOf;
    if calls != [] {
      var ds := DispositionsFor(s, size, calls, event);
      ShownOrHidden(s, size, calls[..|calls| - 1], event);
      assert ds[..|ds| - 1] == DispositionsFor(s, size, calls[..|calls| - 1], event);
    }
  }

  // A field is shown exactly if a disposition says so: what is withheld never appears, and every call of the
  // projection ends as one or the other.
  lemma ShownFields(s: Sanitizer, size: Size, calls: seq<FieldCall>, event: nat)
    requires s.Valid()
    ensures forall field :: Shows(ShownFor(s, size, calls), field)
                            <==> ShownAmong(DispositionsFor(s, size, calls, event), field)
    ensures |ShownFor(s, size, calls)| + Hidden(DispositionsFor(s, size, calls, event)) == |calls|
  {
    hide ShownFor, DispositionsFor, Shows, ShownAmong;
    forall field { FieldIsShown(s, size, calls, event, field); }
    ShownOrHidden(s, size, calls, event);
  }

  function Hidden(ds: seq<Disposition>): nat {
    if ds == [] then 0 else Hidden(ds[..|ds| - 1]) + if ds[|ds| - 1].shown.NotShown? then 1 else 0
  }

  // ---------- what an item says of its event ----------

  // The member of the event a field is named after.
  function MemberOf(e: StreamEvent, field: string): Option<Json>
    requires e.ToolUse?
  {
    var state := if e.part.Part? && e.part.state.State? then Some(e.part.state) else None;
    match field
    case "tool" => if e.part.Part? then e.part.tool else None
    case "call_id" => if e.part.Part? then e.part.callId else None
    case "session_id" => e.sessionId
    case "status" => if state.Some? then state.value.status else None
    case "input" => if state.Some? then state.value.input else None
    case "output" => if state.Some? then state.value.output else None
    case "error" => if state.Some? then state.value.error else None
    case _ => None
  }

  function LimitOf(field: string): nat {
    match field
    case "input" => 2000
    case "output" => 6000
    case "error" => 6000
    case _ => 256
  }

  predicate Completed(e: StreamEvent) {
    e.ToolUse? && e.part.Part? && e.part.state.State? && e.part.state.status == Some(Text("completed"))
  }

  predicate Failed(e: StreamEvent) {
    && e.ToolUse? && e.part.Part? && e.part.state.State?
    && (e.part.state.status == Some(Text("error")) || e.part.state.status == Some(Text("failed")))
  }

  // The fields an event is asked for: five always; the output of a completed one, the error of a failed one, and of
  // any other state whichever of the two is there.
  predicate AskedFor(e: StreamEvent, field: string)
    requires e.ToolUse?
  {
    || field in {"tool", "call_id", "session_id", "status", "input"}
    || (field == "output" && (Completed(e) || (!Failed(e) && MemberOf(e, field).Some?)))
    || (field == "error" && (Failed(e) || (!Completed(e) && MemberOf(e, field).Some?)))
  }

  // Where a field is left out before any value is looked at: without a part everything, without a state what it
  // would say.
  predicate LeftOut(e: StreamEvent, field: string)
    requires e.ToolUse?
  {
    !e.part.Part? || (!e.part.state.State? && field in {"status", "input"})
  }

  function LeftOutFor(e: StreamEvent): Reason
    requires e.ToolUse? && (e.part.Part? ==> !e.part.state.State?)
  {
    if e.part == NoPart || (e.part.Part? && e.part.state == NoState) then MissingValue else UnsupportedRepresentation
  }

  // A value may be shown, as it is or redacted: every one may for the protocol's own status, if it is of bounded depth
  // and size; any other only past the credential tests too.
  predicate Showable(s: Sanitizer, field: string, v: Json) {
    && Depth(v) <= MAX_DEPTH && Nodes(v) <= MAX_NODES
    && (field != "status" ==> s.complete && Allowed(s, v))
  }

  function ShownAs(s: Sanitizer, field: string, v: Json): Json
    requires s.Valid()
  {
    if field == "status" then v else Safe(s, v)
  }

  // What becomes of one field of one event: shown with its own value, or withheld for its own reason.
  predicate Becomes(s: Sanitizer, size: Size, e: StreamEvent, field: string, o: Outcome)
    requires s.Valid() && e.ToolUse?
  {
    var member := MemberOf(e, field);
    if LeftOut(e, field) then o == Withheld(LeftOutFor(e))
    else if member.None? then o == Withheld(MissingValue)
    else
      var v := member.value;
      && (o.Kept? <==> Showable(s, field, v) && size(ShownAs(s, field, v)) <= LimitOf(field))
      && (o.Kept? ==> o.value == ShownAs(s, field, v) && (o.redacted <==> field != "status" && Changes(s, v)))
      && (o.Withheld? && Showable(s, field, v) ==> o.reason == SizeLimit)
      && (o.Withheld? && !Showable(s, field, v) && field == "status" ==> o.reason == UnsupportedRepresentation)
      && (o.Withheld? && !Showable(s, field, v) && field != "status" ==> o.reason == RefusedFor(s, v))
  }

  predicate HasField(calls: seq<FieldCall>, field: string) {
    exists i :: 0 <= i < |calls| && calls[i].field == field
  }

  lemma FieldsConcat(a: seq<FieldCall>, b: seq<FieldCall>, field: string)
    ensures HasField(a + b, field) <==> HasField(a, field) || HasField(b, field)
  {
    var all := a + b;
    if i :| 0 <= i < |a| && a[i].field == field { assert all[i].field == field; }
    if i :| 0 <= i < |b| && b[i].field == field { assert all[|a| + i].field == field; }
  }

  lemma FewFields(a: FieldCall, b: FieldCall, c: FieldCall, field: string)
    ensures HasField([a], field) <==> field == a.field
    ensures HasField([a, b], field) <==> field in {a.field, b.field}
    ensures HasField([a, b, c], field) <==> field in {a.field, b.field, c.field}
    ensures !HasField([], field)
  {
    assert [a][0] == a && [a, b][0] == a && [a, b][1] == b;
    assert [a, b, c][0] == a && [a, b, c][1] == b && [a, b, c][2] == c;
  }

  lemma StateFields(state: StatePart, field: string)
    ensures var other := state.State? && state.status != Some(Text("completed"))
                         && state.status != Some(Text("error")) && state.status != Some(Text("failed"));
            HasField(StateCalls(state), field) <==>
              || field in {"status", "input"}
              || (field == "output" && state.State?
                  && (state.status == Some(Text("completed")) || (other && state.output.Some?)))
              || (field == "error" && state.State?
                  && (state.status == Some(Text("error")) || state.status == Some(Text("failed"))
                      || (other && state.error.Some?)))
  {
    hide HasField;
    if state.State? {
      var base := [Project("status", state.status, 256, true), Project("input", state.input, 2000, false)];
      var output := Project("output", state.output, TOOL_RESULT_FIELD_LIMIT, false);
      var error := Project("error", state.error, TOOL_RESULT_FIELD_LIMIT, false);
      var o, x := if state.output.Some? then [output] else [], if state.error.Some? then [error] else [];
      FewFields(base[0], base[1], base[0], field);
      FewFields(output, output, output, field);
      FewFields(error, error, error, field);
      FieldsConcat(base, [output], field);
      FieldsConcat(base, [error], field);
      FieldsConcat(base, o + x, field);
      FieldsConcat(o, x, field);
    } else {
      var why := Either(state.NoState?);
      FewFields(Omit("status", why), Omit("input", why), Omit("input", why), field);
    }
  }

  lemma FieldsAskedFor(e: StreamEvent, field: string)
    requires e.ToolUse?
    ensures AskedFor(e, field) <==> HasField(CallsFor(e), field)
  {
    hide HasField, StateCalls;
    if e.part.Part? {
      var first := [Project("tool", e.part.tool, 256, false), Project("call_id", e.part.callId, 256, false),
                    Project("session_id", e.sessionId, 256, false)];
      FewFields(first[0], first[1], first[2], field);
      StateFields(e.part.state, field);
      FieldsConcat(first, StateCalls(e.part.state), field);
    } else {
      var why := Either(e.part.NoPart?);
      var a := [Omit("tool", why), Omit("status", why), Omit("input", why)];
      var b := [Omit("call_id", why), Omit("session_id", why)];
      FewFields(a[0], a[1], a[2], field);
      FewFields(b[0], b[1], b[0], field);
      FieldsConcat(a, b, field);
      assert CallsFor(e) == a + b;
    }
  }

  // A call of the projection asks for the member its field names, within that field's limit, or says why it does not.
  predicate Asks(e: StreamEvent, c: FieldCall)
    requires e.ToolUse?
  {
    match c
    case Omit(field, reason) => LeftOut(e, field) && reason == LeftOutFor(e)
    case Project(field, value, limit, protocol) =>
      !LeftOut(e, field) && value == MemberOf(e, field) && limit == LimitOf(field) && (protocol <==> field == "status")
  }

  lemma StateAsks(e: StreamEvent, state: StatePart)
    requires e.ToolUse? && e.part.Part? && e.part.state == state
    ensures forall i :: 0 <= i < |StateCalls(state)| ==> Asks(e, StateCalls(state)[i])
  {}

  lemma EachAsks(e: StreamEvent)
    requires e.ToolUse?
    ensures forall i :: 0 <= i < |CallsFor(e)| ==> Asks(e, CallsFor(e)[i])
  {
    hide StateCalls;
    if e.part.Part? { StateAsks(e, e.part.state); }
  }

  lemma StateFieldsDiffer(state: StatePart)
    ensures var calls := StateCalls(state);
            && (forall i, j :: 0 <= i < j < |calls| ==> calls[i].field != calls[j].field)
            && (forall i :: 0 <= i < |calls| ==> calls[i].field !in {"tool", "call_id", "session_id"})
  {}

  lemma FieldsDiffer(e: StreamEvent)
    requires e.ToolUse?
    ensures var calls := CallsFor(e); forall i, j :: 0 <= i < j < |calls| ==> calls[i].field != calls[j].field
  {
    hide StateCalls;
    if e.part.Part? { StateFieldsDiffer(e.part.state); }
  }

  lemma AskedBecomes(s: Sanitizer, size: Size, e: StreamEvent, c: FieldCall)
    requires s.Valid() && e.ToolUse? && Asks(e, c)
    ensures Becomes(s, size, e, c.field, OutcomeOf(s, size, c))
  {
    hide LeftOut, MemberOf, LimitOf, LeftOutFor, Depth, Nodes, Allowed, Safe, Changes, RefusedFor;
  }

  lemma EachBecomes(s: Sanitizer, size: Size, e: StreamEvent)
    requires s.Valid() && e.ToolUse?
    ensures var calls := CallsFor(e);
            && (forall i, j :: 0 <= i < j < |calls| ==> calls[i].field != calls[j].field)
            && (forall i :: 0 <= i < |calls| ==> Becomes(s, size, e, calls[i].field, OutcomeOf(s, size, calls[i])))
  {
    hide CallsFor, Asks, Becomes, OutcomeOf;
    EachAsks(e);
    FieldsDiffer(e);
    forall i | 0 <= i < |CallsFor(e)| { AskedBecomes(s, size, e, CallsFor(e)[i]); }
  }

  // ---------- what is published of every event ----------

  // The item and the dispositions of one event.
  ghost predicate TellsEvent(s: Sanitizer, size: Size, e: StreamEvent, event: nat, item: Item, ds: seq<Disposition>)
    requires s.Valid() && e.ToolUse?
  {
    && item.sequence == event + 1
    && (forall i :: 0 <= i < |ds| ==> ds[i].event == event)
    && (forall i, j :: 0 <= i < j < |ds| ==> ds[i].field != ds[j].field)
    && (forall field :: AskedFor(e, field) <==> exists i :: 0 <= i < |ds| && ds[i].field == field)
    && (forall i :: 0 <= i < |ds| ==> TellsField(s, size, e, item, ds[i]))
    && (forall x :: x in item.shown ==> AskedFor(e, x.0))
  }

  // One disposition, and what the item shows under its name.
  ghost predicate TellsField(s: Sanitizer, size: Size, e: StreamEvent, item: Item, d: Disposition)
    requires s.Valid() && e.ToolUse?
  {
    exists o :: Becomes(s, size, e, d.field, o) && match o
      case Withheld(reason) =>
        d.shown == NotShown && d.reason == Some(reason) && forall v :: (d.field, v) !in item.shown
      case Kept(value, redacted) =>
        && d.shown == (if redacted then ShownRedacted else ShownAsIs)
        && d.reason == (if redacted then Some(CredentialMatch) else None)
        && forall v :: (d.field, v) in item.shown <==> v == value
  }

  lemma {:induction false} ShownMembers(s: Sanitizer, size: Size, calls: seq<FieldCall>)
    requires s.Valid()
    ensures forall x :: x in ShownFor(s, size, calls) <==>
              exists i :: 0 <= i < |calls| && OutcomeOf(s, size, calls[i]).Kept?
                          && x == (calls[i].field, OutcomeOf(s, size, calls[i]).value)
  {
    hide OutcomeOf;
    if calls != [] {
      var n := |calls| - 1;
      ShownMembers(s, size, calls[..n]);
      assert forall i :: 0 <= i < n ==> calls[..n][i] == calls[i];
    }
  }

  lemma EventIsTold(s: Sanitizer, size: Size, e: StreamEvent, event: nat)
    requires s.Valid() && e.ToolUse?
    ensures TellsEvent(s, size, e, event, Item(event + 1, ShownFor(s, size, CallsFor(e))),
                       DispositionsFor(s, size, CallsFor(e), event))
  {
    hide CallsFor, OutcomeOf, Becomes, AskedFor, ShownFor;
    var calls := CallsFor(e);
    var item, ds := Item(event + 1, ShownFor(s, size, calls)), DispositionsFor(s, size, calls, event);
    EachBecomes(s, size, e);
    ShownMembers(s, size, calls);
    forall field { FieldsAskedFor(e, field); }
    forall i | 0 <= i < |ds| ensures ds[i].field == calls[i].field && ds[i].event == event {}
    forall i | 0 <= i < |ds| ensures TellsField(s, size, e, item, ds[i]) {
      FieldIsTold(s, size, e, item, calls, event, i);
    }
    forall field | HasField(calls, field) ensures exists i :: 0 <= i < |ds| && ds[i].field == field {
      var i :| 0 <= i < |calls| && calls[i].field == field;
      assert ds[i].field == field;
    }
    forall i | 0 <= i < |ds| ensures AskedFor(e, ds[i].field) { assert HasField(calls, calls[i].field); }
    forall x | x in item.shown ensures AskedFor(e, x.0) {
      var i :| 0 <= i < |calls| && OutcomeOf(s, size, calls[i]).Kept?
        && x == (calls[i].field, OutcomeOf(s, size, calls[i]).value);
      assert AskedFor(e, ds[i].field);
    }
  }

  lemma FieldIsTold(s: Sanitizer, size: Size, e: StreamEvent, item: Item, calls: seq<FieldCall>, event: nat, i: nat)
    requires s.Valid() && e.ToolUse? && i < |calls|
    requires item.shown == ShownFor(s, size, calls)
    requires forall j, k :: 0 <= j < k < |calls| ==> calls[j].field != calls[k].field
    requires Becomes(s, size, e, calls[i].field, OutcomeOf(s, size, calls[i]))
    ensures TellsField(s, size, e, item, DispositionsFor(s, size, calls, event)[i])
  {
    hide OutcomeOf, Becomes, ShownFor;
    ShownMembers(s, size, calls);
    var o := OutcomeOf(s, size, calls[i]);
    forall x | x in item.shown && x.0 == calls[i].field ensures o.Kept? && x.1 == o.value {
      var k :| 0 <= k < |calls| && OutcomeOf(s, size, calls[k]).Kept?
        && x == (calls[k].field, OutcomeOf(s, size, calls[k]).value);
      assert k == i;
    }
    if o.Kept? { assert (calls[i].field, o.value) in item.shown; }
  }

  // The dispositions published of one event.
  function OfEvent(ds: seq<Disposition>, event: nat): seq<Disposition> {
    if ds == [] then []
    else OfEvent(ds[..|ds| - 1], event) + if ds[|ds| - 1].event == event then [ds[|ds| - 1]] else []
  }

  lemma {:induction false} OfEventConcat(a: seq<Disposition>, b: seq<Disposition>, event: nat)
    ensures OfEvent(a + b, event) == OfEvent(a, event) + OfEvent(b, event)
  {
    if b == [] {
      assert a + b == a;
    } else {
      assert (a + b)[..|a + b| - 1] == a + b[..|b| - 1];
      OfEventConcat(a, b[..|b| - 1], event);
    }
  }

  lemma {:induction false} AllOrNoneOfEvent(ds: seq<Disposition>, event: nat)
    ensures (forall i :: 0 <= i < |ds| ==> ds[i].event == event) ==> OfEvent(ds, event) == ds
    ensures (forall i :: 0 <= i < |ds| ==> ds[i].event != event) ==> OfEvent(ds, event) == []
  {
    if ds != [] { AllOrNoneOfEvent(ds[..|ds| - 1], event); }
  }

  lemma {:induction false} FieldsOfEvent(s: Sanitizer, size: Size, tools: seq<StreamEvent>, n: nat, event: nat)
    requires s.Valid() && AllToolUse(tools) && n <= event < |tools|
    ensures OfEvent(Fields(s, size, tools, n), event) == DispositionsFor(s, size, CallsFor(tools[event]), event)
    decreases |tools| - n
  {
    hide CallsFor, Fields, OfEvent;
    FieldsFromFirst(s, size, tools, n);
    FieldsAreLater(s, size, tools, n + 1);
    var here, later := DispositionsFor(s, size, CallsFor(tools[n]), n), Fields(s, size, tools, n + 1);
    OfEventConcat(here, later, event);
    AllOrNoneOfEvent(here, event);
    AllOrNoneOfEvent(later, event);
    if n < event { FieldsOfEvent(s, size, tools, n + 1, event); }
  }

  // EVERY PUBLISHED ITEM TELLS ITS OWN EVENT: it shows a field exactly if the member of that event named by the field
  // may be shown and fits, with that member's value, and the dispositions of the event say so field by field, with
  // the reason of everything withheld.
  lemma ItemsTellTheirEvents(s: Sanitizer, size: Size, tools: seq<StreamEvent>, n: nat, k: nat)
    requires s.Valid() && AllToolUse(tools) && Over(|tools|) <= n <= |tools| && k < |tools| - n
    ensures var r := Published(s, size, tools, n);
            && |r.events| == |tools| - n
            && TellsEvent(s, size, tools[n + k], n + k, r.events[k], OfEvent(r.fields, n + k))
  {
    hide CallsFor, Fields, OfEvent, TellsEvent, ShownFor;
    FieldsOfEvent(s, size, tools, n, n + k);
    EventIsTold(s, size, tools[n + k], n + k);
  }
}
