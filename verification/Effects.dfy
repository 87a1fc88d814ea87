/**
 * Effects outside the case: captured deliveries and retry requests, which the store keeps to one per
 * idempotency key, and payment links, which are created at the provider before they are saved.
 */
module Effects {
  import opened Wrappers

  // ----- captured e-mails and retry requests -----

  /** A captured delivery (or retry request): its reference and its idempotency key. */
  datatype Row = Row(id: nat, key: string)

  /** A call of `CaptureEmail` or `RequestRetry`: an insertion that may clash, then a lookup if it did. */
  datatype CallStage = Begun | Clashed | Returned(reference: nat)

  datatype Call = Call(key: string, stage: CallStage)

  datatype Outbox = Outbox(rows: seq<Row>, calls: seq<Call>)

  datatype OutboxStep = BeginCall(key: string) | Insert(c: nat, freshId: nat) | Lookup(c: nat)

  function Find(rows: seq<Row>, key: string): (r: Option<nat>)
    ensures r.Some? ==> exists i :: 0 <= i < |rows| && rows[i].key == key && rows[i].id == r.value
    ensures r.None? ==> forall i :: 0 <= i < |rows| ==> rows[i].key != key
  {
    if rows == [] then None
    else if rows[|rows| - 1].key == key then Some(rows[|rows| - 1].id)
    else Find(rows[..|rows| - 1], key)
  }

  function NextOutbox(o: Outbox, step: OutboxStep): Outbox {
    match step
    case BeginCall(key) => o.(calls := o.calls + [Call(key, Begun)])
    case Insert(c, freshId) =>
      if c >= |o.calls| || !o.calls[c].stage.Begun? then o
      else if Find(o.rows, o.calls[c].key).Some? then o.(calls := o.calls[c := o.calls[c].(stage := Clashed)])
      else Outbox(o.rows + [Row(freshId, o.calls[c].key)], o.calls[c := o.calls[c].(stage := Returned(freshId))])
    case Lookup(c) =>
      if c >= |o.calls| || !o.calls[c].stage.Clashed? then o
      else
        var found := Find(o.rows, o.calls[c].key);
        if found.Some? then o.(calls := o.calls[c := o.calls[c].(stage := Returned(found.value))]) else o
  }

  function RunOutbox(o: Outbox, steps: seq<OutboxStep>): Outbox {
    if steps == [] then o else NextOutbox(RunOutbox(o, steps[..|steps| - 1]), steps[|steps| - 1])
  }

  predicate OneRowPerKey(rows: seq<Row>) {
    forall i, j :: 0 <= i < j < |rows| ==> rows[i].key != rows[j].key
  }

  predicate HasRow(rows: seq<Row>, key: string, id: nat) {
    exists i :: 0 <= i < |rows| && rows[i].key == key && rows[i].id == id
  }

  predicate Consistent(o: Outbox) {
    && OneRowPerKey(o.rows)
    && forall c :: 0 <= c < |o.calls| && o.calls[c].stage.Returned? ==> HasRow(o.rows, o.calls[c].key, o.calls[c].stage.reference)
  }

  lemma AppendKeepsRow(rows: seq<Row>, row: Row)
    ensures forall key, id :: HasRow(rows, key, id) ==> HasRow(rows + [row], key, id)
    ensures HasRow(rows + [row], row.key, row.id)
  {
    forall key, id | HasRow(rows, key, id) ensures HasRow(rows + [row], key, id) {
      var i :| 0 <= i < |rows| && rows[i].key == key && rows[i].id == id;
      assert (rows + [row])[i] == rows[i];
    }
    assert (rows + [row])[|rows|] == row;
  }

  lemma OutboxStaysConsistent(o: Outbox, step: OutboxStep)
    requires Consistent(o)
    ensures Consistent(NextOutbox(o, step))
  {
    if step.Insert? && step.c < |o.calls| {
      AppendKeepsRow(o.rows, Row(step.freshId, o.calls[step.c].key));
    }
  }

  lemma {:induction false} OutboxAlwaysConsistent(o: Outbox, steps: seq<OutboxStep>)
    requires Consistent(o)
    ensures Consistent(RunOutbox(o, steps))
  {
    if steps != [] {
      OutboxAlwaysConsistent(o, steps[..|steps| - 1]);
      OutboxStaysConsistent(RunOutbox(o, steps[..|steps| - 1]), steps[|steps| - 1]);
    }
  }

  /**
   * However many workers make however many calls with one key, in whatever interleaving, there is at most
   * one row for it and every call that returns gives the same reference.
   */
  lemma SameKeySameReference(steps: seq<OutboxStep>, a: nat, b: nat)
    requires var calls := RunOutbox(Outbox([], []), steps).calls;
      a < |calls| && b < |calls| && calls[a].key == calls[b].key && calls[a].stage.Returned? && calls[b].stage.Returned?
    ensures var o := RunOutbox(Outbox([], []), steps);
      OneRowPerKey(o.rows) && o.calls[a].stage.reference == o.calls[b].stage.reference
  {
    OutboxAlwaysConsistent(Outbox([], []), steps);
    var o := RunOutbox(Outbox([], []), steps);
    assert HasRow(o.rows, o.calls[a].key, o.calls[a].stage.reference);
    assert HasRow(o.rows, o.calls[b].key, o.calls[b].stage.reference);
  }

  /** A call that clashed always finds the row it clashed with. */
  lemma ClashIsResolved(o: Outbox, c: nat, freshId: nat)
    requires c < |o.calls| && o.calls[c].stage.Begun? && Find(o.rows, o.calls[c].key).Some?
    ensures NextOutbox(NextOutbox(o, Insert(c, freshId)), Lookup(c)).calls[c].stage.Returned?
    ensures NextOutbox(NextOutbox(o, Insert(c, freshId)), Lookup(c)).rows == o.rows
  {
  }

  class Captures {
    var rows: seq<Row>

    constructor ()
      ensures rows == []
    {
      rows := [];
    }

    /** One call from beginning to end: the reference on record for the key, and whether this call recorded it. */
    method Capture(key: string, freshId: nat) returns (reference: nat, created: bool)
      requires OneRowPerKey(rows)
      modifies this
      ensures OneRowPerKey(rows) && HasRow(rows, key, reference)
      ensures created == Find(old(rows), key).None?
      ensures rows == if created then old(rows) + [Row(freshId, key)] else old(rows)
    {
      for i := 0 to |rows|
        invariant rows == old(rows)
        invariant forall j :: 0 <= j < i ==> rows[j].key != key
      {
        if rows[i].key == key {
          return rows[i].id, false;
        }
      }
      AppendKeepsRow(rows, Row(freshId, key));
      rows := rows + [Row(freshId, key)];
      reference, created := freshId, true;
    }
  }

  // ----- payment links -----

  /** Where a run of the payment link executor is: it looks for a saved link, creates one, saves it. */
  datatype LinkStage = Looking | Missing | Created(link: nat) | Gave(link: nat) | Failed | LostAfterCreate(link: nat)

  /** Links for one action: how many the provider has made, which one is saved, and the runs there have been. */
  datatype Links = Links(made: nat, saved: Option<nat>, runs: seq<LinkStage>)

  datatype LinkStep = StartRun | LookUp(r: nat) | Create(r: nat) | Save(r: nat) | Die(r: nat)

  /** Links are numbered in the order the provider makes them. A save does nothing when a link is already saved. */
  function NextLinks(l: Links, step: LinkStep): Links {
    match step
    case StartRun => l.(runs := l.runs + [Looking])
    case LookUp(r) =>
      if r >= |l.runs| || !l.runs[r].Looking? then l
      else l.(runs := l.runs[r := if l.saved.Some? then Gave(l.saved.value) else Missing])
    case Create(r) =>
      if r >= |l.runs| || !l.runs[r].Missing? then l
      else l.(made := l.made + 1, runs := l.runs[r := Created(l.made)])
    case Save(r) =>
      if r >= |l.runs| || !l.runs[r].Created? then l
      else l.(saved := if l.saved.Some? then l.saved else Some(l.runs[r].link), runs := l.runs[r := Gave(l.runs[r].link)])
    case Die(r) =>
      if r >= |l.runs| || l.runs[r].Gave? || l.runs[r].LostAfterCreate? then l
      else l.(runs := l.runs[r := if l.runs[r].Created? then LostAfterCreate(l.runs[r].link) else Failed])
  }

  function RunLinks(l: Links, steps: seq<LinkStep>): Links {
    if steps == [] then l else NextLinks(RunLinks(l, steps[..|steps| - 1]), steps[|steps| - 1])
  }

  predicate Finished(s: LinkStage) {
    s.Gave? || s.Failed? || s.LostAfterCreate?
  }

  /** Runs do not overlap: one starts only when those before it have returned or are lost. */
  predicate OneAtATime(l: Links, steps: seq<LinkStep>) {
    steps == [] ||
    var n := |steps| - 1;
    OneAtATime(l, steps[..n])
      && (steps[n].StartRun? ==> forall r :: 0 <= r < |RunLinks(l, steps[..n]).runs| ==> Finished(RunLinks(l, steps[..n]).runs[r]))
  }

  function One(b: bool): nat {
    if b then 1 else 0
  }

  /** Runs that died between creating a link and saving it. */
  function Lost(runs: seq<LinkStage>): nat {
    if runs == [] then 0 else Lost(runs[..|runs| - 1]) + One(runs[|runs| - 1].LostAfterCreate?)
  }

  lemma LostAppend(runs: seq<LinkStage>, s: LinkStage)
    ensures Lost(runs + [s]) == Lost(runs) + One(s.LostAfterCreate?)
  {
    assert (runs + [s])[..|runs|] == runs;
  }

  lemma {:induction false} LostUpdate(runs: seq<LinkStage>, r: nat, s: LinkStage)
    requires r < |runs|
    ensures Lost(runs[r := s]) == Lost(runs) - One(runs[r].LostAfterCreate?) + One(s.LostAfterCreate?)
  {
    var n := |runs| - 1;
    if r == n {
      assert runs[r := s][..n] == runs[..n];
    } else {
      LostUpdate(runs[..n], r, s);
      assert runs[r := s][..n] == runs[..n][r := s];
    }
  }

  /** Without overlap only the newest run is under way; a link is saved or lost, or the newest run still has it. */
  predicate Serial(l: Links) {
    && (forall r :: 0 <= r < |l.runs| - 1 ==> Finished(l.runs[r]))
    && (l.runs != [] && (l.runs[|l.runs| - 1].Missing? || l.runs[|l.runs| - 1].Created?) ==> l.saved.None?)
    && (forall r :: 0 <= r < |l.runs| && l.runs[r].Gave? ==> l.saved == Some(l.runs[r].link))
    && l.made == Lost(l.runs) + One(l.saved.Some?) + One(l.runs != [] && l.runs[|l.runs| - 1].Created?)
  }

  lemma StaysSerial(l: Links, step: LinkStep)
    requires Serial(l)
    requires step.StartRun? ==> forall r :: 0 <= r < |l.runs| ==> Finished(l.runs[r])
    ensures Serial(NextLinks(l, step))
  {
    if step.StartRun? {
      LostAppend(l.runs, Looking);
    } else {
      NewestStaysSerial(l, step);
    }
  }

  lemma NewestStaysSerial(l: Links, step: LinkStep)
    requires Serial(l) && !step.StartRun?
    ensures Serial(NextLinks(l, step))
  {
    if step.r < |l.runs| {
      LostUpdate(l.runs, step.r, NextLinks(l, step).runs[step.r]);
    }
  }

  lemma {:induction false} AlwaysSerial(steps: seq<LinkStep>)
    requires OneAtATime(Links(0, None, []), steps)
    ensures Serial(RunLinks(Links(0, None, []), steps))
  {
    if steps != [] {
      AlwaysSerial(steps[..|steps| - 1]);
      StaysSerial(RunLinks(Links(0, None, []), steps[..|steps| - 1]), steps[|steps| - 1]);
    }
  }

  /** Without overlap, the provider makes at most one link more than there are runs lost between create and save, and all that return agree. */
  lemma LinksAreFew(steps: seq<LinkStep>)
    requires OneAtATime(Links(0, None, []), steps)
    ensures var l := RunLinks(Links(0, None, []), steps);
      l.made <= 1 + Lost(l.runs) && forall r :: 0 <= r < |l.runs| && l.runs[r].Gave? ==> l.saved == Some(l.runs[r].link)
  {
    AlwaysSerial(steps);
  }

  /** Two runs that have both looked in vain make two links without either being lost, save the first and return different ones. */
  lemma OverlapMakesTwo(l: Links, a: nat, b: nat)
    requires a < |l.runs| && b < |l.runs| && a != b && l.runs[a].Missing? && l.runs[b].Missing? && l.saved.None?
    ensures var after := NextLinks(NextLinks(NextLinks(NextLinks(l, Create(a)), Create(b)), Save(a)), Save(b));
      && after.made == l.made + 2 && after.saved == Some(l.made) && Lost(after.runs) == Lost(l.runs)
      && after.runs[a] == Gave(l.made) && after.runs[b] == Gave(l.made + 1)
  {
    var both := NextLinks(NextLinks(l, Create(a)), Create(b));
    LostUpdate(l.runs, a, Created(l.made));
    LostUpdate(NextLinks(l, Create(a)).runs, b, Created(l.made + 1));
    var one := NextLinks(both, Save(a));
    LostUpdate(both.runs, a, Gave(l.made));
    LostUpdate(one.runs, b, Gave(l.made + 1));
  }

  lemma RunStep(l: Links, steps: seq<LinkStep>, step: LinkStep)
    ensures RunLinks(l, steps + [step]) == NextLinks(RunLinks(l, steps), step)
  {
    assert (steps + [step])[..|steps|] == steps;
  }

  /** Runs that overlap do get there. */
  lemma OverlapHappens()
    ensures RunLinks(Links(0, None, []), [StartRun] + [StartRun] + [LookUp(0)] + [LookUp(1)]) == Links(0, None, [Missing, Missing])
  {
    var none := Links(0, None, []);
    RunStep(none, [], StartRun);
    assert [] + [StartRun] == [StartRun];
    RunStep(none, [StartRun], StartRun);
    RunStep(none, [StartRun] + [StartRun], LookUp(0));
    RunStep(none, [StartRun] + [StartRun] + [LookUp(0)], LookUp(1));
  }

  // ----- the reference store and the executor -----

  /** A saved link, with the id and the idempotency key of its recovery action. */
  datatype Reference = Reference(action: string, key: string, link: nat)

  predicate Names(r: Reference, id: string) {
    r.action == id || r.key == id
  }

  /** The link whose action has this id or this idempotency key. */
  function LinkFor(rows: seq<Reference>, id: string): (r: Option<nat>)
    ensures r.Some? ==> exists i :: 0 <= i < |rows| && Names(rows[i], id) && rows[i].link == r.value
    ensures r.None? ==> forall i :: 0 <= i < |rows| ==> !Names(rows[i], id)
  {
    if rows == [] then None
    else if Names(rows[0], id) then Some(rows[0].link)
    else LinkFor(rows[1..], id)
  }

  /** Ids and keys are fresh: no name belongs to two actions. */
  predicate DistinctNames(rows: seq<Reference>) {
    forall i, j :: 0 <= i < j < |rows| ==> !Names(rows[i], rows[j].action) && !Names(rows[i], rows[j].key)
  }

  /** Reconciling by idempotency key finds the very link that was saved by action id. */
  lemma ReconcileByKey(rows: seq<Reference>, i: nat)
    requires DistinctNames(rows) && i < |rows|
    ensures LinkFor(rows, rows[i].key) == Some(rows[i].link) && LinkFor(rows, rows[i].action) == Some(rows[i].link)
  {
    assert Names(rows[i], rows[i].key) && Names(rows[i], rows[i].action);
  }

  class LinkExecutor {
    var rows: seq<Reference>
    /** How many links the provider has made. */
    var made: nat

    constructor ()
      ensures rows == [] && made == 0
    {
      rows, made := [], 0;
    }

    method GetPaymentLink(id: string) returns (found: Option<nat>)
      ensures found == LinkFor(rows, id)
    {
      found := None;
      var i := |rows|;
      while i > 0
        invariant 0 <= i <= |rows|
        invariant found == LinkFor(rows[i..], id)
      {
        i := i - 1;
        assert rows[i..][1..] == rows[i + 1..];
        if rows[i].action == id || rows[i].key == id { found := Some(rows[i].link); }
      }
      assert rows[0..] == rows;
    }

    method SavePaymentLink(action: string, key: string, link: nat)
      modifies this`rows
      ensures rows == old(rows) || rows == old(rows) + [Reference(action, key, link)]
      ensures rows == old(rows) <==> exists i :: 0 <= i < |old(rows)| && old(rows)[i].action == action
    {
      for i := 0 to |rows|
        invariant rows == old(rows)
        invariant forall j :: 0 <= j < i ==> rows[j].action != action
      {
        if rows[i].action == action {
          return;
        }
      }
      rows := rows + [Reference(action, key, link)];
      assert rows[|old(rows)|].action == action;
    }

    /** Return the saved link, or create one and save it. Creating and saving may each fail. */
    method Execute(action: string, key: string, createFails: bool, saveFails: bool) returns (link: Option<nat>)
      modifies this
      ensures LinkFor(old(rows), action).Some? ==> link == LinkFor(old(rows), action) && made == old(made) && rows == old(rows)
      ensures LinkFor(old(rows), action).None? ==>
                && made == old(made) + One(!createFails)
                && link == (if createFails || saveFails then None else Some(old(made)))
                && rows == if link.Some? then old(rows) + [Reference(action, key, old(made))] else old(rows)
    {
      var existing := GetPaymentLink(action);
      if existing.Some? {
        return existing;
      }
      if createFails {
        return None;
      }
      var created := made;
      made := made + 1;
      if saveFails {
        return None;
      }
      assert forall i :: 0 <= i < |rows| ==> !Names(rows[i], action);
      SavePaymentLink(action, key, created);
      link := Some(created);
    }
  }
}
