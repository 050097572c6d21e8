// What the builder retains of any list of records, and which captures it takes for sound, said of the records alone.

module IntakeReading {
  import opened Wrappers
  import opened Sequences
  import opened Vocabulary
  import opened Json
  import opened Records
  import opened Evidence
  import opened Builder
  import opened Events
  import opened PublishedFields

  // ---------- one record, in view of those before it ----------

  predicate Usable(rs: seq<Record>, k: nat) {
    k < |rs| && rs[k].id.Some? && rs[k].id.value != "" && rs[k].sequence >= 0
  }

  predicate Repeats(rs: seq<Record>, k: nat) {
    Usable(rs, k) && exists j: nat :: j < k && Usable(rs, j) && rs[j].sequence == rs[k].sequence
  }

  predicate Fresh(rs: seq<Record>, k: nat) { Usable(rs, k) && !Repeats(rs, k) }

  predicate Begins(rs: seq<Record>, k: nat, id: string) {
    Fresh(rs, k) && rs[k].id == Some(id) && (rs[k].kind == NativeStart || rs[k].kind == CodeStart)
  }

  predicate Ends(rs: seq<Record>, k: nat, id: string) {
    Fresh(rs, k) && rs[k].id == Some(id) && (rs[k].kind == NativeTerminal || rs[k].kind == CodeTerminal)
  }

  predicate FirstBegins(rs: seq<Record>, k: nat, id: string) {
    Begins(rs, k, id) && forall j: nat :: j < k ==> !Begins(rs, j, id)
  }

  predicate FirstEnds(rs: seq<Record>, k: nat, id: string) {
    Ends(rs, k, id) && forall j: nat :: j < k ==> !Ends(rs, j, id)
  }

  // A record the builder drops, and so damage: it has no usable id and number, repeats a number, is of no known kind,
  // or comes second for its invocation.
  predicate Dropped(rs: seq<Record>, k: nat) {
    k < |rs|
    && (Fresh(rs, k) ==> !FirstBegins(rs, k, rs[k].id.value) && !FirstEnds(rs, k, rs[k].id.value))
  }

  predicate SomeDropped(rs: seq<Record>) { exists k: nat :: k < |rs| && Dropped(rs, k) }

  predicate SomeRepeats(rs: seq<Record>) { exists k: nat :: k < |rs| && Repeats(rs, k) }

  ghost predicate Used(rs: seq<Record>, x: int) { exists k: nat :: Usable(rs, k) && rs[k].sequence == x }

  // ---------- the intake ----------

  ghost predicate Holds(m: map<string, Record>, rs: seq<Record>, starts: bool) {
    && (forall id :: id in m ==>
          exists k: nat ::
            k < |rs| && rs[k] == m[id] && (if starts then FirstBegins(rs, k, id) else FirstEnds(rs, k, id)))
    && (forall k: nat, id :: (if starts then FirstBegins(rs, k, id) else FirstEnds(rs, k, id)) ==> id in m)
  }

  ghost predicate Reads(t: Intake, issues: seq<Code>, rs: seq<Record>) {
    && (forall x :: x in t.seen <==> Used(rs, x))
    && Holds(t.starts, rs, true) && Holds(t.terminals, rs, false)
    && (t.invalid <==> (exists c :: c in issues && InvalidCapture(c)) || SomeDropped(rs))
    && (forall c :: c in t.losses <==> c in issues || (c == DuplicateSequence && SomeRepeats(rs)))
  }

  // ---------- one record more ----------

  lemma OneMore(rs: seq<Record>, r: Record)
    ensures var all := rs + [r];
            && (forall k: nat :: k < |rs| ==> (Usable(all, k) <==> Usable(rs, k)))
            && (forall k: nat :: k < |rs| ==> (Repeats(all, k) <==> Repeats(rs, k)))
            && (forall k: nat :: k < |rs| ==> (Fresh(all, k) <==> Fresh(rs, k)))
  {}

  lemma OneMoreCall(rs: seq<Record>, r: Record)
    ensures var all := rs + [r];
            && (forall k: nat, id :: k < |rs| ==> (Begins(all, k, id) <==> Begins(rs, k, id)))
            && (forall k: nat, id :: k < |rs| ==> (Ends(all, k, id) <==> Ends(rs, k, id)))
            && (forall k: nat, id :: k < |rs| ==> (FirstBegins(all, k, id) <==> FirstBegins(rs, k, id)))
            && (forall k: nat, id :: k < |rs| ==> (FirstEnds(all, k, id) <==> FirstEnds(rs, k, id)))
            && (forall k: nat :: k < |rs| ==> (Dropped(all, k) <==> Dropped(rs, k)))
  {
    OneMore(rs, r);
    hide Usable, Repeats, Fresh;
  }

  lemma {:induction false} SomeoneBegan(rs: seq<Record>, k: nat, id: string)
    requires Begins(rs, k, id)
    ensures exists j: nat :: j <= k && FirstBegins(rs, j, id)
  {
    hide Begins;
    if !FirstBegins(rs, k, id) {
      var j: nat :| j < k && Begins(rs, j, id);
      SomeoneBegan(rs, j, id);
    }
  }

  lemma {:induction false} SomeoneEnded(rs: seq<Record>, k: nat, id: string)
    requires Ends(rs, k, id)
    ensures exists j: nat :: j <= k && FirstEnds(rs, j, id)
  {
    hide Ends;
    if !FirstEnds(rs, k, id) {
      var j: nat :| j < k && Ends(rs, j, id);
      SomeoneEnded(rs, j, id);
    }
  }

  // What the intake's own tests say of the next record.
  lemma NextRecord(t: Intake, issues: seq<Code>, rs: seq<Record>, r: Record)
    requires Reads(t, issues, rs)
    ensures var all, n := rs + [r], |rs|;
            && (Usable(all, n) <==> NonEmpty(r.id) && r.sequence >= 0)
            && (Usable(all, n) ==>
                  && (Fresh(all, n) <==> r.sequence !in t.seen)
                  && (FirstBegins(all, n, r.id.value)
                      <==> r.sequence !in t.seen && IsStart(r.kind) && r.id.value !in t.starts)
                  && (FirstEnds(all, n, r.id.value)
                      <==> r.sequence !in t.seen && IsTerminal(r.kind) && r.id.value !in t.terminals))
            && (forall id :: FirstBegins(all, n, id) || FirstEnds(all, n, id) ==> r.id == Some(id))
  {
    var all, n := rs + [r], |rs|;
    OneMore(rs, r);
    OneMoreCall(rs, r);
    if Usable(all, n) {
      assert Repeats(all, n) <==> r.sequence in t.seen by {
        if r.sequence in t.seen {
          var k: nat :| Usable(rs, k) && rs[k].sequence == r.sequence;
          assert Usable(all, k) && all[k].sequence == r.sequence;
        }
      }
      var id := r.id.value;
      if j: nat :| j < n && Begins(all, j, id) { SomeoneBegan(rs, j, id); }
      if j: nat :| j < n && Ends(all, j, id) { SomeoneEnded(rs, j, id); }
      hide Repeats, SomeDropped, SomeRepeats;
    }
  }

  lemma HoldsOneMore(m: map<string, Record>, rs: seq<Record>, r: Record, starts: bool)
    requires Holds(m, rs, starts)
    ensures var all, n := rs + [r], |rs|;
            var first := r.id.Some?
                         && if starts then FirstBegins(all, n, r.id.value) else FirstEnds(all, n, r.id.value);
            Holds(if first then m[r.id.value := r] else m, all, starts)
  {
    var all, n := rs + [r], |rs|;
    OneMoreCall(rs, r);
    assert forall id, k: nat :: FirstBegins(all, k, id) ==> k < |all| && all[k].id == Some(id);
    assert forall id, k: nat :: FirstEnds(all, k, id) ==> k < |all| && all[k].id == Some(id);
    forall id | id in m
      ensures exists k: nat :: k < |all| && all[k] == m[id]
                               && (if starts then FirstBegins(all, k, id) else FirstEnds(all, k, id))
    {
      var k: nat :| k < |rs| && rs[k] == m[id] && (if starts then FirstBegins(rs, k, id) else FirstEnds(rs, k, id));
      assert all[k] == m[id] && (if starts then FirstBegins(all, k, id) else FirstEnds(all, k, id));
    }
    hide Begins, Ends, Fresh, Usable;
    assert all[n] == r;
  }

  lemma FaultsOneMore(rs: seq<Record>, r: Record)
    ensures var all, n := rs + [r], |rs|;
            && (SomeDropped(all) <==> SomeDropped(rs) || Dropped(all, n))
            && (SomeRepeats(all) <==> SomeRepeats(rs) || Repeats(all, n))
            && (forall x :: Used(all, x) <==> Used(rs, x) || (Usable(all, n) && r.sequence == x))
  {
    var all, n := rs + [r], |rs|;
    OneMore(rs, r);
    OneMoreCall(rs, r);
    hide Repeats, Dropped;
    if SomeDropped(rs) {
      var k: nat :| k < |rs| && Dropped(rs, k);
      assert Dropped(all, k);
    }
    if SomeRepeats(rs) {
      var k: nat :| k < |rs| && Repeats(rs, k);
      assert Repeats(all, k);
    }
    assert all[n] == r;
    forall x | Used(rs, x) ensures Used(all, x) {
      var k: nat :| Usable(rs, k) && rs[k].sequence == x;
      assert Usable(all, k) && all[k].sequence == x;
    }
  }

  lemma StepReads(t: Intake, issues: seq<Code>, rs: seq<Record>, r: Record)
    requires Reads(t, issues, rs)
    ensures Reads(TakeOne(t, r), issues, rs + [r])
  {
    hide Holds, SomeDropped, SomeRepeats, Repeats, Fresh, FirstBegins, FirstEnds, Usable, Used, Dropped;
    var all, n, next := rs + [r], |rs|, TakeOne(t, r);
    NextRecord(t, issues, rs, r);
    FaultsOneMore(rs, r);
    UsableIsFreshOrRepeats(all, n);
    HoldsOneMore(t.starts, rs, r, true);
    HoldsOneMore(t.terminals, rs, r, false);
    AddNewMembers(t.losses, DuplicateSequence);
    if !Usable(all, n) || !Fresh(all, n) {
      assert next.starts == t.starts && next.terminals == t.terminals && next.invalid;
    }
  }

  lemma UsableIsFreshOrRepeats(rs: seq<Record>, k: nat)
    requires k < |rs|
    ensures Repeats(rs, k) <==> Usable(rs, k) && !Fresh(rs, k)
    ensures Fresh(rs, k) ==> Usable(rs, k)
    ensures forall id :: FirstBegins(rs, k, id) || FirstEnds(rs, k, id) ==> Fresh(rs, k)
    ensures Usable(rs, k) ==> rs[k].id.Some?
    ensures Fresh(rs, k) ==>
              (Dropped(rs, k) <==> !FirstBegins(rs, k, rs[k].id.value) && !FirstEnds(rs, k, rs[k].id.value))
    ensures !Fresh(rs, k) ==> Dropped(rs, k)
    ensures forall id :: !(FirstBegins(rs, k, id) && FirstEnds(rs, k, id))
  {}

  // THE INTAKE keeps the first usable start and the first usable terminal of every invocation, and nothing else; it is
  // damaged exactly if the capture is or some record was dropped.
  lemma {:induction false} IntakeExactly(issues: seq<Code>, rs: seq<Record>)
    ensures Reads(Take(issues, rs), issues, rs)
  {
    if rs != [] {
      var front, last := rs[..|rs| - 1], rs[|rs| - 1];
      assert rs == front + [last];
      IntakeExactly(issues, front);
      StepReads(Take(issues, front), issues, front, last);
    }
  }

  // ---------- sound captures ----------

  predicate IsBegin(r: Record) { r.kind == NativeStart || r.kind == CodeStart }

  predicate IsEnd(r: Record) { r.kind == NativeTerminal || r.kind == CodeTerminal }

  // Every record is a start or a terminal with an id and a number of its own, and no invocation has two of either.
  ghost predicate Apart(rs: seq<Record>) {
    && (forall k :: 0 <= k < |rs| ==>
          rs[k].id.Some? && rs[k].id.value != "" && rs[k].sequence >= 0 && (IsBegin(rs[k]) || IsEnd(rs[k])))
    && (forall j, k :: 0 <= j < k < |rs| ==> rs[j].sequence != rs[k].sequence)
    && (forall j, k :: 0 <= j < k < |rs| && rs[j].id == rs[k].id ==> (IsBegin(rs[j]) <==> IsEnd(rs[k])))
  }

  // The outer call a Code Mode call names: a hooked native one, written before it under the same identity, whose tool
  // is not shown to be another than execute.
  ghost predicate Encloses(outer: Record, inner: Record) {
    && outer.id == inner.parentInvocation && outer.kind == NativeStart && outer.boundary == ExecuteBefore
    && outer.sequence < inner.sequence
    && outer.sessionId == inner.sessionId && outer.agent == inner.agent && outer.messageId == inner.messageId
    && outer.callId == inner.callId
    && forall text :: outer.tool == Shown(Text(text)) && text != "" ==> text == "execute"
  }

  ghost predicate Enclosed(rs: seq<Record>, k: nat)
    requires k < |rs|
  {
    exists j :: 0 <= j < |rs| && Encloses(rs[j], rs[k])
  }

  ghost predicate Ending(rs: seq<Record>, k: nat)
    requires k < |rs|
  {
    exists j :: 0 <= j < |rs| && IsBegin(rs[j]) && rs[j].id == rs[k].id && Answers(rs[j], rs[k])
  }

  ghost predicate Regular(rs: seq<Record>) {
    && Apart(rs)
    && (forall k :: 0 <= k < |rs| ==> |rs[k].id.value| <= 256)
    && (forall k :: 0 <= k < |rs| && IsEnd(rs[k]) ==> Ending(rs, k))
    && (forall k :: 0 <= k < |rs| && rs[k].kind == CodeStart ==> Enclosed(rs, k))
  }

  lemma ApartDropsNothing(rs: seq<Record>)
    ensures Apart(rs) ==> !SomeDropped(rs)
  {
    if Apart(rs) {
      forall k: nat | k < |rs| ensures !Dropped(rs, k) {
        assert Fresh(rs, k);
      }
    }
  }

  lemma NothingDroppedIsApart(rs: seq<Record>)
    requires !SomeDropped(rs)
    ensures Apart(rs)
  {
    hide Repeats;
    forall k: nat | k < |rs|
      ensures Usable(rs, k) && Fresh(rs, k) && (FirstBegins(rs, k, rs[k].id.value) || FirstEnds(rs, k, rs[k].id.value))
    {
      assert !Dropped(rs, k);
    }
    forall j: nat, k: nat | j < k < |rs| ensures rs[j].sequence != rs[k].sequence { NumbersDiffer(rs, j, k); }
  }

  lemma NumbersDiffer(rs: seq<Record>, j: nat, k: nat)
    requires j < k && Usable(rs, j) && Fresh(rs, k)
    ensures rs[j].sequence != rs[k].sequence
  {}

  // Every record is kept under its id.
  ghost predicate KeepsAll(t: Intake, rs: seq<Record>) {
    && (forall k :: 0 <= k < |rs| && IsBegin(rs[k]) && rs[k].id.Some? ==>
          rs[k].id.value in t.starts && t.starts[rs[k].id.value] == rs[k])
    && (forall k :: 0 <= k < |rs| && IsEnd(rs[k]) && rs[k].id.Some? ==>
          rs[k].id.value in t.terminals && t.terminals[rs[k].id.value] == rs[k])
    && (forall id :: id in t.starts ==>
          exists k :: 0 <= k < |rs| && IsBegin(rs[k]) && t.starts[id] == rs[k] && rs[k].id == Some(id))
    && (forall id :: id in t.terminals ==>
          exists k :: 0 <= k < |rs| && IsEnd(rs[k]) && t.terminals[id] == rs[k] && rs[k].id == Some(id))
  }

  lemma ApartIsKept(issues: seq<Code>, rs: seq<Record>)
    requires Apart(rs)
    ensures KeepsAll(Take(issues, rs), rs)
  {
    IntakeExactly(issues, rs);
    var t := Take(issues, rs);
    hide Take, SomeDropped, SomeRepeats, Used;
    forall k: nat | k < |rs|
      ensures IsBegin(rs[k]) ==> FirstBegins(rs, k, rs[k].id.value)
      ensures IsEnd(rs[k]) ==> FirstEnds(rs, k, rs[k].id.value)
    {
      assert Fresh(rs, k);
    }
    hide Fresh, Usable, Repeats;
    forall id | id in t.starts
      ensures exists k :: 0 <= k < |rs| && IsBegin(rs[k]) && t.starts[id] == rs[k] && rs[k].id == Some(id)
    {
      var k: nat :| k < |rs| && rs[k] == t.starts[id] && FirstBegins(rs, k, id);
    }
    forall id | id in t.terminals
      ensures exists k :: 0 <= k < |rs| && IsEnd(rs[k]) && t.terminals[id] == rs[k] && rs[k].id == Some(id)
    {
      var k: nat :| k < |rs| && rs[k] == t.terminals[id] && FirstEnds(rs, k, id);
    }
    forall k: nat | k < |rs| && IsBegin(rs[k])
      ensures rs[k].id.value in t.starts && t.starts[rs[k].id.value] == rs[k]
    {
      var id := rs[k].id.value;
      var j: nat :| j < |rs| && rs[j] == t.starts[id] && FirstBegins(rs, j, id);
      assert j == k;
    }
    forall k: nat | k < |rs| && IsEnd(rs[k])
      ensures rs[k].id.value in t.terminals && t.terminals[rs[k].id.value] == rs[k]
    {
      var id := rs[k].id.value;
      var j: nat :| j < |rs| && rs[j] == t.terminals[id] && FirstEnds(rs, j, id);
      assert j == k;
    }
  }

  lemma ObservedIsEnclosed(start: Record, starts: map<string, Record>)
    requires forall id :: id in starts ==> starts[id].id == Some(id) && id != ""
    ensures ParentObserved(start, starts) <==> exists id :: id in starts && Encloses(starts[id], start)
  {
    if ParentObserved(start, starts) {
      assert Encloses(starts[start.parentInvocation.value], start);
    }
  }

  ghost predicate AllSoundStarts(t: Intake) { !Orphan(t) && forall id :: id in t.starts ==> SoundStart(id, t) }

  lemma TerminalIsPaired(rs: seq<Record>, t: Intake, id: string)
    requires Regular(rs) && KeepsAll(t, rs) && id in t.terminals
    ensures id in t.starts && Builder.Paired(t.starts[id], Some(t.terminals[id]))
  {
    hide Encloses, Answers, Builder.Paired, Enclosed;
    var k :| 0 <= k < |rs| && IsEnd(rs[k]) && t.terminals[id] == rs[k] && rs[k].id == Some(id);
    assert Ending(rs, k);
    var j :| 0 <= j < |rs| && IsBegin(rs[j]) && rs[j].id == rs[k].id && Answers(rs[j], rs[k]);
    PairedExactly(rs[j], rs[k]);
  }

  lemma StartIsEnclosed(rs: seq<Record>, t: Intake, id: string)
    requires Regular(rs) && KeepsAll(t, rs) && id in t.starts
    ensures |id| <= 256 && (t.starts[id].kind.CodeStart? ==> ParentObserved(t.starts[id], t.starts))
  {
    hide Encloses, Answers, Ending, ParentObserved;
    var k :| 0 <= k < |rs| && IsBegin(rs[k]) && t.starts[id] == rs[k] && rs[k].id == Some(id);
    if rs[k].kind == CodeStart {
      KeptIds(rs, t);
      assert Enclosed(rs, k);
      var j :| 0 <= j < |rs| && Encloses(rs[j], rs[k]);
      EnclosingIsStart(rs[j], rs[k]);
      assert Encloses(t.starts[rs[j].id.value], rs[k]);
      ObservedIsEnclosed(rs[k], t.starts);
    }
  }

  lemma KeptIds(rs: seq<Record>, t: Intake)
    requires Apart(rs) && KeepsAll(t, rs)
    ensures forall id :: id in t.starts ==> t.starts[id].id == Some(id) && id != ""
  {}

  lemma RegularIsSound(rs: seq<Record>, t: Intake)
    requires Regular(rs) && KeepsAll(t, rs)
    ensures AllSoundStarts(t)
  {
    hide Regular, KeepsAll, Builder.Paired, ParentObserved;
    forall id | id in t.terminals ensures id in t.starts { TerminalIsPaired(rs, t, id); }
    forall id | id in t.starts ensures SoundStart(id, t) {
      StartIsEnclosed(rs, t, id);
      if id in t.terminals { TerminalIsPaired(rs, t, id); }
    }
  }

  lemma EnclosingIsStart(outer: Record, inner: Record)
    requires Encloses(outer, inner)
    ensures IsBegin(outer)
  {}

  lemma SoundIsRegular(rs: seq<Record>, t: Intake)
    requires Apart(rs) && KeepsAll(t, rs) && AllSoundStarts(t)
    ensures Regular(rs)
  {
    hide Encloses, Answers, Builder.Paired, ParentObserved;
    assert forall id :: id in t.starts ==> t.starts[id].id == Some(id) && id != "";
    forall k | 0 <= k < |rs| && IsEnd(rs[k]) ensures Ending(rs, k) && |rs[k].id.value| <= 256 {
      var id := rs[k].id.value;
      assert id in t.terminals && id in t.starts && SoundStart(id, t);
      var j :| 0 <= j < |rs| && IsBegin(rs[j]) && t.starts[id] == rs[j] && rs[j].id == Some(id);
      PairedExactly(rs[j], rs[k]);
    }
    forall k | 0 <= k < |rs| && IsBegin(rs[k])
      ensures (rs[k].kind == CodeStart ==> Enclosed(rs, k)) && |rs[k].id.value| <= 256
    {
      var id := rs[k].id.value;
      assert SoundStart(id, t);
      ObservedIsEnclosed(rs[k], t.starts);
      if rs[k].kind == CodeStart {
        var o :| o in t.starts && Encloses(t.starts[o], rs[k]);
        var j :| 0 <= j < |rs| && IsBegin(rs[j]) && t.starts[o] == rs[j] && rs[j].id == Some(o);
      }
    }
  }

  // SOUND CAPTURES, said of the records alone: no damage to the capture, nothing dropped, every terminal answers its
  // start and every Code Mode call has the outer call it names.
  lemma SoundExactly(c: Capture)
    ensures Sound(c) <==> Regular(c.records) && forall x :: x in c.issues ==> !InvalidCapture(x)
  {
    hide Take, Apart, AllSoundStarts, Regular, SomeDropped, SomeRepeats, Holds, Orphan, SoundStart;
    var rs, t := c.records, Take(c.issues, c.records);
    IntakeExactly(c.issues, rs);
    SoundIs(c);
    if SomeDropped(rs) {
      ApartDropsNothing(rs);
      RegularIsApart(rs);
    } else {
      NothingDroppedIsApart(rs);
      ApartIsKept(c.issues, rs);
      if Regular(rs) { RegularIsSound(rs, t); }
      if AllSoundStarts(t) { SoundIsRegular(rs, t); }
    }
  }

  lemma SoundIs(c: Capture)
    ensures Sound(c) <==> !Take(c.issues, c.records).invalid && AllSoundStarts(Take(c.issues, c.records))
  {
    hide Take, SoundStart, Orphan;
  }

  lemma RegularIsApart(rs: seq<Record>)
    ensures Regular(rs) ==> Apart(rs)
  {}
}
