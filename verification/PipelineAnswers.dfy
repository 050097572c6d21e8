// What the pipeline's own evaluator answers, said of the evidence alone.

module PipelineAnswers {
  import opened Wrappers
  import opened Vocabulary
  import opened Evidence
  import opened Validator
  import opened Readiness
  import opened ReadinessLaws

  // ---------- one field requirement ----------

  predicate Unnamed(name: Option<string>) { name.None? || name.value == "" }

  ghost predicate Nobody(os: seq<Observation>, id: string) {
    forall i :: 0 <= i < |os| ==> os[i].id != id
  }

  // The member of that name: withheld, held, always there, or none at all.
  ghost predicate MemberAnswers(o: Observation, name: string, s: Status) {
    if name in {"mode", "outcome", "start_sequence"} then s == Complete
    else if name == "invocation_id" then s == Invalid
    else if !IsMember(name) then s == Unsupported
    else
      && (s == Complete <==> Holds(o, name)) && (s == Unsupported <==> Withholds(o, name, NotSupported))
      && (s == Incomplete <==> Withholds(o, name, Omitted) || Withholds(o, name, Redacted)) && s != Invalid
  }

  predicate IsMember(name: string) {
    name in {"tool", "actor", "session_id", "message_id", "call_id", "parent", "input", "result", "error",
             "terminal_sequence"}
  }

  ghost predicate FieldAnswers(os: seq<Observation>, field: (Option<string>, Option<string>), s: Status) {
    if Unnamed(field.0) || Unnamed(field.1) then s == Invalid
    else if Nobody(os, field.0.value) then s == Unsupported
    else forall i :: 0 <= i < |os| && os[i].id == field.0.value ==> MemberAnswers(os[i], field.1.value, s)
  }

  lemma {:induction false} ByIdFinds(os: seq<Observation>, id: string)
    requires DistinctIds(os)
    ensures ById(os, id).None? <==> Nobody(os, id)
    ensures forall i :: 0 <= i < |os| && os[i].id == id ==> ById(os, id) == Some(os[i])
  {
    if os != [] { ByIdFinds(os[..|os| - 1], id); }
  }

  lemma MembersAre(name: string)
    ensures name in FIELDS <==> IsMember(name)
    ensures name in KEYS <==> IsMember(name) || name in {"invocation_id", "mode", "outcome", "start_sequence"}
  {
    assert FIELDS[0] == "tool" && FIELDS[1] == "actor" && FIELDS[2] == "session_id" && FIELDS[3] == "message_id";
    assert FIELDS[4] == "call_id" && FIELDS[5] == "parent" && FIELDS[6] == "input" && FIELDS[7] == "result";
    assert FIELDS[8] == "error" && FIELDS[9] == "terminal_sequence";
    var more := ["invocation_id", "mode", "outcome", "start_sequence"];
    assert KEYS == FIELDS + more;
    assert more[0] == "invocation_id" && more[1] == "mode" && more[2] == "outcome" && more[3] == "start_sequence";
  }

  // A member is a field object, and none of the three derived names.
  lemma MemberIsOffered(o: Observation, name: string)
    requires IsMember(name)
    ensures LookUp(o, name).Offers?
    ensures name !in {"outcome", "start_sequence", "result_or_error"}
  {
    hide LookField, LookParent, LookSequence;
    if name == "tool" {
    } else if name == "actor" {
    } else if name == "session_id" {
    } else if name == "message_id" {
    } else if name == "call_id" {
    } else if name == "parent" {
    } else if name == "input" {
    } else if name == "result" {
    } else if name == "error" {
    } else {
      assert name == "terminal_sequence";
    }
    EachOffers(o);
  }

  lemma EachOffers(o: Observation)
    ensures LookField(o.tool).Offers? && LookField(o.actor).Offers? && LookField(o.sessionId).Offers?
    ensures LookField(o.messageId).Offers? && LookField(o.callId).Offers? && LookField(o.input).Offers?
    ensures LookField(o.result).Offers? && LookField(o.error).Offers?
    ensures LookParent(o.parent).Offers? && LookSequence(o.terminal).Offers?
  {}

  lemma MemberStands(o: Observation, name: string)
    requires ValidShape(o) && IsMember(name)
    ensures var l := LookUp(o, name);
            && l.Offers? && (l.state == Available <==> Holds(o, name))
            && (l.state == NotSupported <==> Withholds(o, name, NotSupported))
            && (l.state == Omitted || l.state == Redacted
                <==> Withholds(o, name, Omitted) || Withholds(o, name, Redacted))
  {
    FieldStandingExactly(o, name);
    MemberIsOffered(o, name);
    hide LookUp, Holds, Withholds, IsMember, ValidShape;
  }

  lemma FieldStatusExactly(os: seq<Observation>, field: (Option<string>, Option<string>))
    requires DistinctIds(os) && forall i :: 0 <= i < |os| ==> ValidShape(os[i])
    ensures FieldAnswers(os, field, FieldStatus(os, field))
  {
    hide DistinctIds, ValidShape, LookUp, Holds, Withholds, IsMember;
    if !Unnamed(field.0) && !Unnamed(field.1) {
      var id, name := field.0.value, field.1.value;
      ByIdFinds(os, id);
      MembersAre(name);
      forall i | 0 <= i < |os| && os[i].id == id ensures MemberAnswers(os[i], name, FieldStatus(os, field)) {
        if IsMember(name) { MemberStands(os[i], name); MemberIsOffered(os[i], name); }
        if name == "invocation_id" { IdIsNoField(os[i]); }
      }
    }
  }

  lemma IdIsNoField(o: Observation)
    ensures LookUp(o, "invocation_id") == NotAField
    ensures !IsMember("invocation_id")
  {}

  lemma AnswersOnce(os: seq<Observation>, field: (Option<string>, Option<string>), s: Status, u: Status)
    requires FieldAnswers(os, field, s) && FieldAnswers(os, field, u)
    ensures s == u
  {
    hide Holds, Withholds, IsMember;
  }

  // ---------- a whole requirement ----------

  // The capture as a whole stands in the way of nothing.
  predicate Undisturbed(e: RuntimeEvidence) {
    && e.status != Invalid && e.status != Incomplete
    && e.coverage.process != TimedOut && e.coverage.process != Interrupted
  }

  predicate Fits(e: RuntimeEvidence, name: Option<string>) {
    !Unnamed(name) && name.value in e.coverage.boundaries
  }

  ghost predicate AllFit(e: RuntimeEvidence, names: seq<Option<string>>) {
    forall i :: 0 <= i < |names| ==> Fits(e, names[i])
  }

  ghost predicate SomeIs(e: RuntimeEvidence, names: seq<Option<string>>, s: Status)
    requires AllFit(e, names)
  {
    exists i :: 0 <= i < |names| && e.coverage.boundaries[names[i].value].status == s
  }

  lemma {:induction false} FirstFault(e: RuntimeEvidence, names: seq<Option<string>>, i: nat)
    requires i <= |names| && forall k :: 0 <= k < i ==> Fits(e, names[k])
    ensures i == |names| ==> FirstNameFault(e, names) == None
    ensures i < |names| && !Fits(e, names[i]) ==>
              FirstNameFault(e, names) == Some(if Unnamed(names[i]) then Invalid else Unsupported)
  {
    if i > 0 { FirstFault(e, names[1..], i - 1); }
  }

  lemma {:induction false} FirstUnmet(os: seq<Observation>, fields: seq<(Option<string>, Option<string>)>, j: nat)
    requires j <= |fields| && forall k :: 0 <= k < j ==> FieldStatus(os, fields[k]) == Complete
    ensures j == |fields| ==> FieldsStatus(os, fields) == Complete
    ensures j < |fields| && FieldStatus(os, fields[j]) != Complete ==>
              FieldsStatus(os, fields) == FieldStatus(os, fields[j])
  {
    hide FieldStatus;
    if j > 0 { FirstUnmet(os, fields[1..], j - 1); }
  }

  // THE PIPELINE'S ANSWER: the capture as a whole comes first, then the first name that is none, then the worst of
  // the boundaries named, then the first field that is not met.
  lemma PipelineExactly(e: RuntimeEvidence, names: seq<Option<string>>,
                        fields: seq<(Option<string>, Option<string>)>)
    requires DistinctIds(e.observations)
    requires forall i :: 0 <= i < |e.observations| ==> ValidShape(e.observations[i])
    ensures var s := PipelineStatus(e, names, fields);
            && (e.status == Invalid ==> s == Invalid)
            && (e.status != Invalid && !Undisturbed(e) ==> s == Incomplete)
            && (forall i :: 0 <= i < |names| && !Fits(e, names[i]) && AllFit(e, names[..i]) && Undisturbed(e) ==>
                  s == if Unnamed(names[i]) then Invalid else Unsupported)
            && (Undisturbed(e) && AllFit(e, names) ==>
                  && (SomeIs(e, names, Invalid) ==> s == Invalid)
                  && (!SomeIs(e, names, Invalid) && SomeIs(e, names, Incomplete) ==> s == Incomplete)
                  && (!SomeIs(e, names, Invalid) && !SomeIs(e, names, Incomplete) && SomeIs(e, names, Unsupported) ==>
                        s == Unsupported))
            && (Undisturbed(e) && AllFit(e, names)
                && (forall i :: 0 <= i < |names| ==> e.coverage.boundaries[names[i].value].status == Complete) ==>
                  FieldsAnswer(e.observations, fields, s))
  {
    hide FieldStatus, FieldsStatus, FieldsAnswer, ValidShape, DistinctIds, FirstNameFault;
    if Undisturbed(e) {
      FieldsAnswerExactly(e.observations, fields);
      forall i: nat | i < |names| && !Fits(e, names[i]) && AllFit(e, names[..i])
        ensures FirstNameFault(e, names) == Some(if Unnamed(names[i]) then Invalid else Unsupported)
      {
        assert forall k :: 0 <= k < i ==> names[k] == names[..i][k];
        FirstFault(e, names, i);
      }
      if AllFit(e, names) {
        FirstFault(e, names, |names|);
        BoundariesAre(e, names);
      }
    }
  }

  lemma BoundariesAre(e: RuntimeEvidence, names: seq<Option<string>>)
    requires AllFit(e, names)
    ensures forall s :: SomeStatusIs(e, names, s) <==> SomeIs(e, names, s)
  {}

  // The first field that is not met answers for all.
  ghost predicate FieldsAnswer(os: seq<Observation>, fields: seq<(Option<string>, Option<string>)>, s: Status) {
    && ((forall j :: 0 <= j < |fields| ==> FieldAnswers(os, fields[j], Complete)) ==> s == Complete)
    && forall j :: 0 <= j < |fields| && !FieldAnswers(os, fields[j], Complete)
                   && (forall k :: 0 <= k < j ==> FieldAnswers(os, fields[k], Complete)) ==>
         FieldAnswers(os, fields[j], s)
  }

  lemma FieldsAnswerExactly(os: seq<Observation>, fields: seq<(Option<string>, Option<string>)>)
    requires DistinctIds(os) && forall i :: 0 <= i < |os| ==> ValidShape(os[i])
    ensures FieldsAnswer(os, fields, FieldsStatus(os, fields))
  {
    hide FieldStatus, FieldsStatus, FieldAnswers, ValidShape, DistinctIds;
    forall j | 0 <= j < |fields|
      ensures FieldAnswers(os, fields[j], FieldStatus(os, fields[j]))
      ensures FieldAnswers(os, fields[j], Complete) <==> FieldStatus(os, fields[j]) == Complete
    {
      FieldStatusExactly(os, fields[j]);
      if FieldAnswers(os, fields[j], Complete) { AnswersOnce(os, fields[j], Complete, FieldStatus(os, fields[j])); }
    }
    if forall j :: 0 <= j < |fields| ==> FieldAnswers(os, fields[j], Complete) {
      FirstUnmet(os, fields, |fields|);
    }
    forall j | 0 <= j < |fields| && !FieldAnswers(os, fields[j], Complete)
               && forall k :: 0 <= k < j ==> FieldAnswers(os, fields[k], Complete)
      ensures FieldAnswers(os, fields[j], FieldsStatus(os, fields))
    {
      FirstUnmet(os, fields, j);
    }
  }
}
