// What a consumer may rely on once an evidence object has passed the validator.

module ValidatedEvidence {
  import opened Vocabulary
  import opened Json
  import opened Evidence
  import opened Validator

  // A withheld field is not called available and says why.
  predicate Explained(f: Field) {
    f.Withheld? ==> f.state in {Redacted, Omitted, NotSupported} && NonBlank(f.reason)
  }

  // One observation by itself: everything withheld is explained, a terminal is there exactly if the outcome is known
  // and then later, result and error are never both shown, and nothing final is shown of a Code Mode call.
  predicate Trustworthy(o: Observation) {
    && NonBlank(o.id) && o.start >= 0
    && Explained(o.tool) && Explained(o.actor) && Explained(o.sessionId) && Explained(o.messageId)
    && Explained(o.callId) && Explained(o.input) && Explained(o.result) && Explained(o.error)
    && (o.parent.ParentIs? ==> NonBlank(o.parent.id))
    && (o.parent.ParentWithheld? ==> o.parent.state in {Redacted, Omitted, NotSupported} && NonBlank(o.parent.reason))
    && (o.terminal.At? <==> o.outcome != Missing)
    && (o.terminal.At? ==> o.terminal.sequence > o.start)
    && (o.terminal.NoSequence? ==> o.terminal.state == Omitted && NonBlank(o.terminal.reason))
    && (o.result.Value? ==> o.outcome == Outcome.Success) && (o.error.Value? ==> o.outcome == Error)
    && (o.outcome != Outcome.Success ==> o.result.state == Omitted) && (o.outcome != Error ==> o.error.state == Omitted)
    && (o.mode == CodeMode ==> o.result.Withheld? && o.error.Withheld?)
    && (o.mode == CodeMode && o.outcome == Outcome.Success ==> o.result.state == NotSupported)
    && (o.mode == CodeMode && o.outcome == Error ==> o.error.state == NotSupported)
  }

  // The sequence numbers an observation takes.
  predicate Takes(o: Observation, n: int) {
    n == o.start || (o.terminal.At? && n == o.terminal.sequence)
  }

  // An earlier native call the child names as its parent, of the same identity, and `execute` if its tool is shown.
  predicate ParentOfChild(outer: Observation, child: Observation) {
    && child.parent == ParentIs(Invocation, outer.id) && outer.mode == Native && outer.start < child.start
    && outer.actor == child.actor && outer.sessionId == child.sessionId && outer.messageId == child.messageId
    && outer.callId == child.callId
    && (outer.tool.Value? ==> outer.tool == Value(Text("execute")))
  }

  lemma ShapeIsTrustworthy(o: Observation)
    requires ValidShape(o)
    ensures Trustworthy(o)
  {}

  lemma FollowersAreApart(os: seq<Observation>, status: Status)
    requires ValidObservations(os, status)
    ensures forall i, j :: 0 <= i < j < |os| ==> os[i].id != os[j].id && os[i].start < os[j].start
    ensures forall i, j, n :: 0 <= i < j < |os| && Takes(os[i], n) ==> !Takes(os[j], n)
  {
    hide ParentEstablished;
    forall i, j | 0 <= i < j < |os|
      ensures os[i].id != os[j].id && os[i].start < os[j].start
      ensures forall n :: Takes(os[i], n) ==> !Takes(os[j], n)
    {
      assert Follows(os[..j], os[j], status) && os[..j][i] == os[i];
    }
  }

  lemma ChildrenHaveParents(os: seq<Observation>, status: Status, j: nat)
    requires ValidObservations(os, status) && status != Invalid && j < |os| && os[j].mode == CodeMode
    ensures exists i :: 0 <= i < j && ParentOfChild(os[i], os[j])
  {
    assert Follows(os[..j], os[j], status);
    var k :| 0 <= k < |os[..j]| && os[..j][k].id == os[j].parent.id && OuterOf(os[..j][k], os[j]);
    assert os[..j][k] == os[k] && os[k].start < os[j].start;
  }

  // WHAT VALIDATED EVIDENCE GUARANTEES, whoever made the object.
  lemma ValidGuarantees(e: RuntimeEvidence)
    requires Valid(e)
    ensures var os := e.observations;
            && (e.eligible <==> e.status == Complete)
            && (forall i :: 0 <= i < |os| ==> Trustworthy(os[i]))
            && (forall i, j :: 0 <= i < j < |os| ==> os[i].id != os[j].id && os[i].start < os[j].start)
            && (forall i, j, n :: 0 <= i < j < |os| && Takes(os[i], n) ==> !Takes(os[j], n))
            && (e.status != Invalid ==> forall j :: 0 <= j < |os| && os[j].mode == CodeMode ==>
                  exists i :: 0 <= i < j && ParentOfChild(os[i], os[j]))
  {
    hide ValidHeader, AgreesWithAccounting, ValidShape, ValidTotals, Trustworthy, Takes, ParentOfChild, Follows;
    var os := e.observations;
    HeaderEligible(e);
    ObservedValid(e);
    forall i | 0 <= i < |os| { ShapeIsTrustworthy(os[i]); }
    FollowersAreApart(os, e.status);
    if e.status != Invalid {
      forall j | 0 <= j < |os| && os[j].mode == CodeMode ensures exists i :: 0 <= i < j && ParentOfChild(os[i], os[j]) {
        ChildrenHaveParents(os, e.status, j);
      }
    }
  }

  lemma HeaderEligible(e: RuntimeEvidence)
    requires ValidHeader(e)
    ensures e.eligible <==> e.status == Complete
  {}

  lemma ObservedValid(e: RuntimeEvidence)
    requires Valid(e)
    ensures ValidObservations(e.observations, e.status)
    ensures forall i :: 0 <= i < |e.observations| ==> ValidShape(e.observations[i])
  {
    hide ValidShape, ValidHeader, AgreesWithAccounting, Follows;
  }

  // A counter that is a number, and one that is not.
  predicate Says(c: CountField, n: int) { c.Count? && c.n == n }

  predicate Unknown(c: CountField, s: FieldState) { c.NoCount? && c.state == s && NonBlank(c.reason) }

  lemma CountsSay(e: RuntimeEvidence)
    requires Valid(e)
    ensures var v, os := e.coverage, e.observations;
            var ended := TerminalCount(os);
            if v.process == NoTransport then
              && Unknown(v.starts, NotSupported) && Unknown(v.terminals, NotSupported)
              && Unknown(v.missing, NotSupported)
              && Unknown(v.observerFailures, NotSupported) && Unknown(v.callbackFailures, NotSupported)
              && os == [] && e.status == Unsupported && v.closed.ClosedWithheld? && v.unsupported != []
            else
              && v.closed.ClosedIs?
              && ((Says(v.starts, |os|) && Says(v.terminals, ended) && Says(v.missing, |os| - ended))
                  || (&& Unknown(v.starts, Omitted) && Unknown(v.terminals, Omitted) && Unknown(v.missing, Omitted)
                      && v.losses != [] && (e.status == Incomplete || e.status == Invalid)))
              && (v.observerFailures.Count? ==> v.observerFailures.n >= 0)
              && (v.callbackFailures.Count? ==> v.callbackFailures.n >= 0)
              && CodeModeFinality in v.unsupported
              && CODE_FINALITY in v.boundaries && v.boundaries[CODE_FINALITY].status == Unsupported
  {
    hide ValidObservations, AgreesWithAccounting, NonBlank;
  }
}
