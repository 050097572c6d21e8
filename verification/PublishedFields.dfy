// What the public evidence says of every retained record: which value is published, where it comes from, and why
// another one is withheld.

module PublishedFields {
  import opened Wrappers
  import opened Vocabulary
  import opened Json
  import opened Records
  import opened Evidence
  import opened Validator
  import opened Builder
  import opened IntakeFacts

  // ---------- one field ----------

  predicate Keeps(guard: Guard, raw: RawField) { raw.Shown? && guard(raw.value).Keep? }

  // A value is published exactly if it was available and the sanitizer keeps it, and then unchanged; one the
  // sanitizer would change is withheld as a credential, never shown; a reason given with a withheld field stays.
  predicate Publishes(f: Field, raw: RawField, guard: Guard) {
    && (f.Value? <==> Keeps(guard, raw))
    && (f.Value? ==> f.json == raw.value)
    && (raw.Shown? && guard(raw.value).Redact? ==> f == Withheld(Redacted, CREDENTIAL_MATCH))
    && (raw.Shown? && guard(raw.value).Refuse? ==>
          f == Withheld(Omitted, OrDefault(guard(raw.value).reason, UNSUPPORTED_REPRESENTATION)))
    && (raw.Hidden? && raw.reason != "" ==> WithheldAsGiven(f, raw))
    && (raw.Hidden? && raw.reason == "" ==> f == Withheld(Omitted, UNSUPPORTED_REPRESENTATION))
    && (raw.BareText? ==> f == Withheld(Omitted, MISSING))
    && (raw.Misshapen? ==>
          f == Withheld(Omitted, if raw.content.Object? then UNSUPPORTED_REPRESENTATION else MISSING))
  }

  function OrDefault(reason: string, fallback: string): string {
    if reason == "" then fallback else reason
  }

  predicate WithheldAsGiven(f: Field, raw: RawField)
    requires raw.Hidden?
  {
    && f.Withheld? && f.reason == raw.reason
    && (f.state == Redacted <==> raw.state == HideRedacted) && (f.state == Omitted <==> raw.state == HideOmitted)
  }

  // The text a record gives as an identity, in a field object or bare.
  predicate Gives(raw: RawField, text: string) {
    (raw == Shown(Text(text)) || raw == BareText(text)) && text != "" && '\0' !in text
  }

  // An identity is published exactly if the record gives one, and then that one.
  ghost predicate Identifies(f: Field, raw: RawField, reason: string) {
    && (forall text :: f == Value(Text(text)) <==> Gives(raw, text))
    && (f.Value? ==> f.json.Text?)
    && (f.Withheld? && raw.Hidden? && raw.exact && raw.reason != "" ==> WithheldAsGiven(f, raw))
    && (f.Withheld? && !(raw.Hidden? && raw.exact && raw.reason != "") ==> f == Withheld(Omitted, reason))
  }

  // The parent of a Code Mode call is an invocation, that of a native call a session, or nothing.
  ghost predicate Descends(p: ParentField, start: Record) {
    if start.kind.CodeStart? then
      && (forall id :: p == ParentIs(Invocation, id) <==> start.parentInvocation == Some(id) && id != "")
      && (p.ParentIs? ==> p.kind.Invocation?) && !p.NoParent?
      && (p.ParentWithheld? ==> p == ParentWithheld(Omitted, PARENT_INVOCATION_UNAVAILABLE))
    else
      var raw := start.parentSession;
      && (p.NoParent? <==> raw == Shown(Null))
      && (forall id :: p == ParentIs(Session, id) <==> raw == Shown(Text(id)) && id != "")
      && (p.ParentIs? ==> p.kind.Session?)
      && (p.ParentWithheld? && raw.Hidden? ==>
            p.reason == raw.reason && (p.state == Redacted <==> raw.state == HideRedacted)
            && (p.state == Omitted <==> raw.state == HideOmitted))
      && (p.ParentWithheld? && !raw.Hidden? ==> p == ParentWithheld(Omitted, SESSION_PARENT_UNAVAILABLE))
  }

  // ---------- one observation ----------

  // What an observation says of its start.
  ghost predicate SaysStart(o: Observation, start: Record, guard: Guard) {
    && (o.mode.Native? <==> start.kind == NativeStart) && o.start == start.sequence
    && Identifies(o.tool, start.tool, TOOL_UNAVAILABLE) && Identifies(o.actor, start.agent, ACTOR_UNAVAILABLE)
    && Identifies(o.sessionId, start.sessionId, SESSION_UNAVAILABLE)
    && Identifies(o.messageId, start.messageId, MESSAGE_UNAVAILABLE)
    && Identifies(o.callId, start.callId, CALL_UNAVAILABLE)
    && Descends(o.parent, start) && Publishes(o.input, start.input, guard)
  }

  // The terminal a call may end with: of its own kind, tool and identity, later, with a known outcome and the label
  // of that outcome.
  predicate Answers(start: Record, t: Record) {
    && t.tool == start.tool && t.sessionId == start.sessionId && t.agent == start.agent
    && t.messageId == start.messageId && t.callId == start.callId
    && t.sequence > start.sequence
    && if start.kind == NativeStart then
         && t.kind == NativeTerminal
         && ((t.outcome == Succeeded && t.boundary == SessionSuccess)
             || (t.outcome == Failed && t.boundary == SessionFailed))
       else
         && t.kind == CodeTerminal
         && ((t.outcome == Succeeded && t.boundary == HandlerReturn)
             || (t.outcome == Failed && t.boundary == HandlerThrow))
  }

  // What it says of its end: nothing without such a terminal, and otherwise the outcome, with the result or the
  // error of a native call and never that of a Code Mode call.
  ghost predicate SaysEnd(o: Observation, start: Record, terminal: Option<Record>, guard: Guard) {
    if terminal.Some? && Answers(start, terminal.value) then
      var t := terminal.value;
      && o.outcome == (if t.outcome == Succeeded then Outcome.Success else Error)
      && o.terminal == At(t.sequence)
      && (if t.outcome == Succeeded then o.error else o.result) == Withheld(Omitted, NOT_APPLICABLE)
      && (start.kind != NativeStart ==>
            (if t.outcome == Succeeded then o.result else o.error) == Withheld(NotSupported, FINALITY_REASON))
      && (start.kind == NativeStart && t.outcome == Succeeded ==> Publishes(o.result, t.result, guard))
      && (start.kind == NativeStart && t.outcome == Failed ==> Publishes(o.error, t.error, guard))
    else
      && o.outcome == Missing && o.terminal == NoSequence(Omitted, TERMINAL_MISSING)
      && o.result == o.error == Withheld(Omitted, TERMINAL_MISSING)
  }

  lemma ProjectPublishes(raw: RawField, guard: Guard)
    ensures Publishes(Project(raw, guard), raw, guard)
  {}

  lemma IdentityIdentifies(raw: RawField, reason: string)
    ensures Identifies(IdentityField(raw, reason), raw, reason)
  {}

  lemma ParentDescends(start: Record)
    ensures Descends(ParentOf(start), start)
  {}

  lemma PairedExactly(start: Record, t: Record)
    requires IsStart(start.kind)
    ensures Builder.Paired(start, Some(t)) <==> Answers(start, t)
  {}

  lemma NothingPaired(start: Record)
    ensures !Builder.Paired(start, None)
  {}

  lemma ObserveSays(id: string, start: Record, t: Option<Record>, guard: Guard)
    requires IsStart(start.kind)
    ensures SaysStart(Observe(id, start, t, guard), start, guard)
    ensures SaysEnd(Observe(id, start, t, guard), start, t, guard)
  {
    hide Publishes, Identifies, Descends, Answers, Builder.Paired, Project, IdentityField, ParentOf;
    IdentityIdentifies(start.tool, TOOL_UNAVAILABLE);
    IdentityIdentifies(start.agent, ACTOR_UNAVAILABLE);
    IdentityIdentifies(start.sessionId, SESSION_UNAVAILABLE);
    IdentityIdentifies(start.messageId, MESSAGE_UNAVAILABLE);
    IdentityIdentifies(start.callId, CALL_UNAVAILABLE);
    ParentDescends(start);
    ProjectPublishes(start.input, guard);
    if t.Some? {
      PairedExactly(start, t.value);
      ProjectPublishes(t.value.result, guard);
      ProjectPublishes(t.value.error, guard);
      if Answers(start, t.value) { AnswersKnown(start, t.value); }
    } else {
      NothingPaired(start);
    }
  }

  lemma AnswersKnown(start: Record, t: Record)
    requires Answers(start, t)
    ensures t.outcome == Succeeded || t.outcome == Failed
  {}

  // ---------- the evidence ----------

  // Retained records are records of the capture, filed under their own ids.
  ghost predicate Retains(t: Intake, records: seq<Record>) {
    && (forall id :: id in t.starts ==>
          t.starts[id] in records && t.starts[id].id == Some(id) && IsStart(t.starts[id].kind))
    && (forall id :: id in t.terminals ==>
          t.terminals[id] in records && t.terminals[id].id == Some(id) && IsTerminal(t.terminals[id].kind))
  }

  lemma {:induction false} TakeRetains(issues: seq<Code>, records: seq<Record>)
    ensures Retains(Take(issues, records), records)
  {
    if records != [] {
      hide TakeOne, Retains;
      var front, last := records[..|records| - 1], records[|records| - 1];
      TakeRetains(issues, front);
      assert records == front + [last];
      OneIsRetained(Take(issues, front), front, last);
    }
  }

  lemma OneIsRetained(t: Intake, records: seq<Record>, r: Record)
    requires Retains(t, records)
    ensures Retains(TakeOne(t, r), records + [r])
  {
    var next, all := TakeOne(t, r), records + [r];
    TakenIsTheOne(t, r);
    hide TakeOne;
    assert forall x :: x in all <==> x in records || x == r;
  }

  lemma TakenIsTheOne(t: Intake, r: Record)
    ensures var next := TakeOne(t, r);
            && (forall id :: id in next.starts ==>
                  || (id in t.starts && next.starts[id] == t.starts[id])
                  || (next.starts[id] == r && r.id == Some(id) && IsStart(r.kind)))
            && (forall id :: id in next.terminals ==>
                  || (id in t.terminals && next.terminals[id] == t.terminals[id])
                  || (next.terminals[id] == r && r.id == Some(id) && IsTerminal(r.kind)))
  {}

  ghost predicate SaysCapture(os: seq<Observation>, t: Intake, guard: Guard) {
    && (forall i :: 0 <= i < |os| ==>
          && os[i].id in t.starts && SaysStart(os[i], t.starts[os[i].id], guard)
          && SaysEnd(os[i], t.starts[os[i].id], Lookup(t.terminals, os[i].id), guard))
    && (forall id :: id in t.starts ==> exists i :: 0 <= i < |os| && os[i].id == id)
    && (forall i, j :: 0 <= i < j < |os| ==> os[i].start < os[j].start && os[i].id != os[j].id)
  }

  // Each observation, by its place.
  lemma ObservationsSay(c: Capture, guard: Guard)
    ensures var ids, t := Ids(c), Take(c.issues, c.records);
            var os := ObservationsOf(ids, t, guard);
            && |os| == |ids|
            && forall i :: 0 <= i < |os| ==>
                 && os[i].id == ids[i] && ids[i] in t.starts && os[i].start == t.starts[ids[i]].sequence
                 && SaysStart(os[i], t.starts[ids[i]], guard)
                 && SaysEnd(os[i], t.starts[ids[i]], Lookup(t.terminals, ids[i]), guard)
  {
    hide Take, SaysStart, SaysEnd, Observe, Sorted, Lookup;
    var ids, t := Ids(c), Take(c.issues, c.records);
    var os := ObservationsOf(ids, t, guard);
    TakeRetains(c.issues, c.records);
    forall i | 0 <= i < |os|
      ensures os[i].id == ids[i] && ids[i] in t.starts && os[i].start == t.starts[ids[i]].sequence
              && SaysStart(os[i], t.starts[ids[i]], guard)
              && SaysEnd(os[i], t.starts[ids[i]], Lookup(t.terminals, ids[i]), guard)
    {
      assert ids[i] in ids;
      ObserveSays(ids[i], t.starts[ids[i]], Lookup(t.terminals, ids[i]), guard);
      ObservedId(ids[i], t.starts[ids[i]], Lookup(t.terminals, ids[i]), guard);
    }
  }

  // EVERY RETAINED CALL IS PUBLISHED ONCE, in the order of the starts, and every field of its observation is what
  // its own records and the sanitizer make of that very field.
  lemma EveryCallIsPublished(c: Capture, guard: Guard, process: ProcessState)
    ensures Retains(Take(c.issues, c.records), c.records)
    ensures SaysCapture(Build(c, guard, process).observations, Take(c.issues, c.records), guard)
  {
    hide Take, SaysStart, SaysEnd, Observe, Sorted, BuilderAccount, PublicLosses, Lookup, Retains, ObservationsOf;
    var ids, t := Ids(c), Take(c.issues, c.records);
    var os := ObservationsOf(ids, t, guard);
    TakeRetains(c.issues, c.records);
    IdsIncreasing(c);
    ObservationsSay(c, guard);
    forall id | id in t.starts ensures exists i :: 0 <= i < |os| && os[i].id == id {
      var k :| 0 <= k < |ids| && ids[k] == id;
      assert os[k].id == id;
    }
  }

  lemma ObservedId(id: string, start: Record, t: Option<Record>, guard: Guard)
    ensures Observe(id, start, t, guard).id == id && Observe(id, start, t, guard).start == start.sequence
  {}

  // ---------- the coverage ----------

  // A published counter is the number itself, or says why there is none.
  predicate Counts(f: CountField, known: bool, n: int, reason: string) {
    if known then f == Count(n) else f == NoCount(Omitted, reason)
  }

  // THE COVERAGE says of the capture as a whole what the capture says: counters only if it is there to be counted,
  // each failure counter under its own name.
  lemma CoverageIsTheCaptures(c: Capture, guard: Guard, process: ProcessState)
    ensures var e := Build(c, guard, process);
            var v := e.coverage;
            && v.closed == ClosedIs(c.ended)
            && (process == NoTransport ==> v.process == Interrupted)
            && (process != NoTransport ==> v.process == process)
            && Counts(v.starts, c.started, |e.observations|, MISSING_CAPTURE)
            && Counts(v.terminals, c.started, TerminalCount(e.observations), MISSING_CAPTURE)
            && Counts(v.missing, c.started, |e.observations| - TerminalCount(e.observations), MISSING_CAPTURE)
            && Counts(v.observerFailures, c.ended && c.observerFailures.Some? && c.observerFailures.value >= 0,
                      if c.observerFailures.Some? then c.observerFailures.value else 0, OBSERVATION_NOT_CLOSED)
            && Counts(v.callbackFailures, c.ended && c.callbackFailures.Some? && c.callbackFailures.value >= 0,
                      if c.callbackFailures.Some? then c.callbackFailures.value else 0, OBSERVATION_NOT_CLOSED)
  {
    hide ObservationsOf, BuilderAccount, PublicLosses, Ids, Take, Limits, PublicBoundaryOf;
    TerminalsAreFewer(ObservationsOf(Ids(c), Take(c.issues, c.records), guard));
  }

  lemma {:induction false} TerminalsAreFewer(os: seq<Observation>)
    ensures TerminalCount(os) <= |os|
  {
    if os != [] { TerminalsAreFewer(os[..|os| - 1]); }
  }
}
