// What the builder's intake keeps, for every list of records.

module IntakeFacts {
  import opened Wrappers
  import opened Sequences
  import opened Vocabulary
  import opened Records
  import opened Evidence
  import opened Builder

  ghost predicate Filed(m: map<string, Record>, seen: set<int>) {
    && (forall id :: id in m ==> id != "" && m[id].id == Some(id) && m[id].sequence >= 0 && m[id].sequence in seen)
    && (forall a, b :: a in m && b in m && a != b ==> m[a].sequence != m[b].sequence)
  }

  // Every kept record has its own sequence; starts are starts, terminals are terminals.
  ghost predicate Kept(t: Intake) {
    && Indexed(t) && NoDuplicates(t.order)
    && Filed(t.starts, t.seen) && Filed(t.terminals, t.seen)
    && (forall a, b :: a in t.starts && b in t.terminals ==> t.starts[a].sequence != t.terminals[b].sequence)
    && (forall id :: id in t.starts ==> IsStart(t.starts[id].kind))
    && (forall id :: id in t.terminals ==> IsTerminal(t.terminals[id].kind))
  }

  ghost predicate LossesKept(t: Intake, issues: seq<Code>) {
    && NoDuplicates(t.losses)
    && (forall c :: c in issues ==> c in t.losses)
    && (forall c :: c in t.losses ==> c in issues || c == DuplicateSequence)
    && (!t.invalid ==> forall c :: c in t.losses ==> !InvalidCapture(c))
  }

  lemma FiledGrows(m: map<string, Record>, seen: set<int>, r: Record)
    requires Filed(m, seen) && NonEmpty(r.id) && r.sequence >= 0 && r.sequence !in seen
    ensures Filed(m, seen + {r.sequence})
    ensures r.id.value !in m ==> Filed(m[r.id.value := r], seen + {r.sequence})
  {}

  lemma TakeStart(t: Intake, r: Record)
    requires Kept(t) && NonEmpty(r.id) && r.sequence >= 0 && r.sequence !in t.seen && IsStart(r.kind)
    requires r.id.value !in t.starts
    ensures Kept(TakeOne(t, r))
  {
    hide Filed;
    FiledGrows(t.starts, t.seen, r);
    FiledGrows(t.terminals, t.seen, r);
    FiledIn(t.terminals, t.seen);
  }

  lemma FiledIn(m: map<string, Record>, seen: set<int>)
    requires Filed(m, seen)
    ensures forall id :: id in m ==> m[id].sequence in seen
  {}

  lemma TakeTerminal(t: Intake, r: Record)
    requires Kept(t) && NonEmpty(r.id) && r.sequence >= 0 && r.sequence !in t.seen && IsTerminal(r.kind)
    requires r.id.value !in t.terminals
    ensures Kept(TakeOne(t, r))
  {
    hide Filed;
    FiledGrows(t.starts, t.seen, r);
    FiledGrows(t.terminals, t.seen, r);
    FiledIn(t.starts, t.seen);
  }

  lemma TakeOneKeeps(t: Intake, r: Record)
    requires Kept(t)
    ensures Kept(TakeOne(t, r))
  {
    if NonEmpty(r.id) && r.sequence >= 0 && r.sequence !in t.seen {
      if IsStart(r.kind) && r.id.value !in t.starts {
        TakeStart(t, r);
      } else if IsTerminal(r.kind) && r.id.value !in t.terminals {
        TakeTerminal(t, r);
      } else {
        FiledGrows(t.starts, t.seen, r);
        FiledGrows(t.terminals, t.seen, r);
      }
    }
  }

  lemma {:induction false} TakeKeeps(issues: seq<Code>, records: seq<Record>)
    ensures Kept(Take(issues, records))
  {
    if records != [] {
      TakeKeeps(issues, records[..|records| - 1]);
      TakeOneKeeps(Take(issues, records[..|records| - 1]), records[|records| - 1]);
    }
  }

  lemma {:induction false} TakeLosses(issues: seq<Code>, records: seq<Record>)
    ensures LossesKept(Take(issues, records), issues)
  {
    if records != [] {
      var t := Take(issues, records[..|records| - 1]);
      TakeLosses(issues, records[..|records| - 1]);
      AddNewMembers(t.losses, DuplicateSequence);
    }
  }

  // Issues of the capture change nothing in what is kept; one that is damage makes it invalid.
  lemma {:induction false} KeptWhateverTheIssues(issues: seq<Code>, records: seq<Record>)
    ensures var t, u := Take(issues, records), Take([], records);
            && t.starts == u.starts && t.terminals == u.terminals && t.seen == u.seen
            && (t.invalid <==> u.invalid || exists c :: c in issues && InvalidCapture(c))
  {
    if records != [] { KeptWhateverTheIssues(issues, records[..|records| - 1]); }
  }

  // ---------- order by start sequence ----------

  predicate Increasing(ids: seq<string>, starts: map<string, Record>)
    requires forall x :: x in ids ==> x in starts
  {
    forall i, j :: 0 <= i < j < |ids| ==> starts[ids[i]].sequence < starts[ids[j]].sequence
  }

  lemma {:induction false} InsertIncreasing(id: string, ids: seq<string>, starts: map<string, Record>)
    requires id in starts && (forall x :: x in ids ==> x in starts) && id !in ids
    requires Increasing(ids, starts)
    requires forall x :: x in ids ==> starts[x].sequence != starts[id].sequence
    ensures (forall x :: x in Insert(id, ids, starts) <==> x in ids || x == id)
    ensures |Insert(id, ids, starts)| == |ids| + 1
    ensures Increasing(Insert(id, ids, starts), starts)
  {
    hide Increasing;
    InsertMembers(id, ids, starts);
    if ids == [] {
      IncreasingSnoc(ids, id, starts);
      assert ids + [id] == [id];
    } else {
      var front, last := ids[..|ids| - 1], ids[|ids| - 1];
      assert ids == front + [last] && last in ids;
      LastIsLargest(ids, starts);
      if starts[last].sequence > starts[id].sequence {
        InsertIncreasing(id, front, starts);
        IncreasingSnoc(Insert(id, front, starts), last, starts);
      } else {
        IncreasingSnoc(ids, id, starts);
      }
    }
  }

  lemma LastIsLargest(ids: seq<string>, starts: map<string, Record>)
    requires ids != [] && (forall x :: x in ids ==> x in starts) && Increasing(ids, starts)
    ensures (forall x :: x in ids[..|ids| - 1] ==> x in starts) && Increasing(ids[..|ids| - 1], starts)
    ensures forall x :: x in ids[..|ids| - 1] ==> starts[x].sequence < starts[ids[|ids| - 1]].sequence
  {}

  lemma IncreasingSnoc(ids: seq<string>, last: string, starts: map<string, Record>)
    requires last in starts && (forall x :: x in ids ==> x in starts) && Increasing(ids, starts)
    requires forall x :: x in ids ==> starts[x].sequence < starts[last].sequence
    ensures (forall x :: x in ids + [last] ==> x in starts) && Increasing(ids + [last], starts)
  {}

  lemma {:induction false} SortedIncreasing(ids: seq<string>, starts: map<string, Record>)
    requires forall x :: x in ids ==> x in starts
    requires NoDuplicates(ids)
    requires forall a, b :: a in starts && b in starts && a != b ==> starts[a].sequence != starts[b].sequence
    ensures Increasing(Sorted(ids, starts), starts)
  {
    if ids != [] {
      var front, last := ids[..|ids| - 1], ids[|ids| - 1];
      assert ids == front + [last];
      SortedIncreasing(front, starts);
      InsertIncreasing(last, Sorted(front, starts), starts);
    }
  }

  lemma IdsIncreasing(c: Capture)
    ensures var t := Take(c.issues, c.records);
            Increasing(Ids(c), t.starts) && NoDuplicates(Ids(c))
  {
    var t := Take(c.issues, c.records);
    TakeKeeps(c.issues, c.records);
    SortedIncreasing(t.order, t.starts);
  }
}
