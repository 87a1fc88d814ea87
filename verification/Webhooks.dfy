/**
 * Webhook ingestion: authenticate, decode, reserve the event id, process, record the outcome. What
 * processing (normalising the event, the detector, the observer) does to the rest of the system is a parameter.
 */
module Webhooks {
  import opened Wrappers

  datatype Status = Received | Processed | Failed

  datatype Problem = MissingEventId | BadSignature | Undecodable | MissingEventType

  /** A delivery of an event. `payload` is None when the body does not decode, `kind` is empty when it names no event. */
  datatype Delivery<P> = Delivery(eventId: string, signed: bool, payload: Option<P>, kind: string, crashed: bool)

  datatype Outcome = Rejected(problem: Problem) | Duplicate | Done | Broken | Crashed

  /**
   * The webhook rows, by event id, the events whose processing was attempted, and everything processing changes.
   * An attempt may fail before the detector or the observer is reached, when the payload cannot be normalised.
   */
  datatype Inbox<W> = Inbox(rows: map<string, Status>, attempted: seq<string>, world: W)

  function Problems<P>(d: Delivery<P>): Option<Problem> {
    if d.eventId == "" then Some(MissingEventId)
    else if !d.signed then Some(BadSignature)
    else if d.payload.None? then Some(Undecodable)
    else if d.kind == "" then Some(MissingEventType)
    else None
  }

  /** What processing does to the rest of the system, and whether it succeeds. */
  type Handler<!W, !P> = (W, Delivery<P>) -> (W, bool)

  /** The inbox after a delivery. A process that crashes does so after it has reserved the event id and before processing changes anything. */
  function Ingested<W, P>(inbox: Inbox<W>, d: Delivery<P>, handle: Handler<W, P>): Inbox<W> {
    if Problems(d).Some? || d.eventId in inbox.rows then inbox
    else if d.crashed then inbox.(rows := inbox.rows[d.eventId := Received])
    else
      var (world, ok) := handle(inbox.world, d);
      Inbox(inbox.rows[d.eventId := if ok then Processed else Failed], inbox.attempted + [d.eventId], world)
  }

  class Ingestor<W, P> {
    var rows: map<string, Status>
    var attempted: seq<string>
    var world: W
    const handle: Handler<W, P>

    function View(): Inbox<W>
      reads this
    {
      Inbox(rows, attempted, world)
    }

    constructor (world: W, handle: Handler<W, P>)
      ensures View() == Inbox(map[], [], world) && this.handle == handle
    {
      this.rows, this.attempted, this.world, this.handle := map[], [], world, handle;
    }

    /** Insert the row of an event unless there is one. */
    method InsertWebhook(eventId: string) returns (created: bool)
      modifies this`rows
      ensures created == (eventId !in old(rows))
      ensures rows == if created then old(rows)[eventId := Received] else old(rows)
    {
      created := eventId !in rows;
      if created { rows := rows[eventId := Received]; }
    }

    method Ingest(d: Delivery<P>) returns (outcome: Outcome)
      modifies this
      ensures View() == Ingested(old(View()), d, handle)
      ensures outcome.Rejected? <==> Problems(d).Some?
      ensures outcome == Rejected(MissingEventId) <==> d.eventId == ""
      ensures outcome == Rejected(BadSignature) <==> d.eventId != "" && !d.signed
      ensures outcome == Rejected(Undecodable) <==> d.eventId != "" && d.signed && d.payload.None?
      ensures outcome == Rejected(MissingEventType) <==> d.eventId != "" && d.signed && d.payload.Some? && d.kind == ""
      ensures outcome.Duplicate? <==> Problems(d).None? && d.eventId in old(rows)
    {
      if d.eventId == "" { return Rejected(MissingEventId); }
      if !d.signed { return Rejected(BadSignature); }
      if d.payload.None? { return Rejected(Undecodable); }
      if d.kind == "" { return Rejected(MissingEventType); }
      var created := InsertWebhook(d.eventId);
      if !created { return Duplicate; }
      if d.crashed { return Crashed; }
      attempted := attempted + [d.eventId];
      var (next, ok) := handle(world, d);
      world := next;
      rows := rows[d.eventId := if ok then Processed else Failed];
      outcome := if ok then Done else Broken;
    }
  }

  /**
   * What a delivery does: nothing if it is rejected or its event id is known; otherwise the id is reserved,
   * and unless the process crashes the event is processed and its row says how that went.
   */
  lemma IngestedIs<W, P>(inbox: Inbox<W>, d: Delivery<P>, handle: Handler<W, P>)
    ensures var after, acceptable := Ingested(inbox, d, handle), d.eventId != "" && d.signed && d.payload.Some? && d.kind != "";
      if !acceptable || d.eventId in inbox.rows then after == inbox
      else
        && after.rows.Keys == inbox.rows.Keys + {d.eventId} && (forall id :: id in inbox.rows ==> after.rows[id] == inbox.rows[id])
        && (if d.crashed then after.rows[d.eventId] == Received && after.world == inbox.world && after.attempted == inbox.attempted
            else
              && after.world == handle(inbox.world, d).0 && after.attempted == inbox.attempted + [d.eventId]
              && after.rows[d.eventId] == if handle(inbox.world, d).1 then Processed else Failed)
  {
  }

  // ----- sequences of deliveries -----

  function IngestAll<W, P>(inbox: Inbox<W>, ds: seq<Delivery<P>>, handle: Handler<W, P>): Inbox<W>
    decreases |ds|
  {
    if ds == [] then inbox else IngestAll(Ingested(inbox, ds[0], handle), ds[1..], handle)
  }

  /** Only the first acceptable delivery of each event id not seen before. */
  function Firsts<P>(ds: seq<Delivery<P>>, seen: set<string>): seq<Delivery<P>> {
    if ds == [] then []
    else if Problems(ds[0]).Some? || ds[0].eventId in seen then Firsts(ds[1..], seen)
    else [ds[0]] + Firsts(ds[1..], seen + {ds[0].eventId})
  }

  /**
   * Erasure: rejected deliveries and repeats might as well never have arrived. In particular a delivery
   * with a bad signature does not use up its event id.
   */
  lemma {:induction false} OnlyFirstsMatter<W, P>(inbox: Inbox<W>, ds: seq<Delivery<P>>, handle: Handler<W, P>)
    ensures IngestAll(inbox, ds, handle) == IngestAll(inbox, Firsts(ds, inbox.rows.Keys), handle)
    decreases |ds|
  {
    if ds != [] {
      var next := Ingested(inbox, ds[0], handle);
      OnlyFirstsMatter(next, ds[1..], handle);
      if Problems(ds[0]).None? && ds[0].eventId !in inbox.rows {
        assert next.rows.Keys == inbox.rows.Keys + {ds[0].eventId};
        var kept := Firsts(ds, inbox.rows.Keys);
        assert kept[1..] == Firsts(ds[1..], next.rows.Keys);
      }
    }
  }

  predicate NoRepeats(s: seq<string>) {
    forall i, j :: 0 <= i < j < |s| ==> s[i] != s[j]
  }

  predicate AttemptedOnce<W(!new)>(inbox: Inbox<W>) {
    NoRepeats(inbox.attempted) && forall i :: 0 <= i < |inbox.attempted| ==> inbox.attempted[i] in inbox.rows
  }

  /** Processing is attempted at most once for each event id. */
  lemma {:induction false} AtMostOncePerEvent<W(!new), P>(inbox: Inbox<W>, ds: seq<Delivery<P>>, handle: Handler<W, P>)
    requires AttemptedOnce(inbox)
    ensures AttemptedOnce(IngestAll(inbox, ds, handle))
    decreases |ds|
  {
    if ds != [] {
      AtMostOncePerEvent(Ingested(inbox, ds[0], handle), ds[1..], handle);
    }
  }

  /** At most once, not exactly once: an event whose processing crashed is never processed, however often it is delivered again. */
  lemma {:induction false} CrashedEventIsLost<W, P>(inbox: Inbox<W>, ds: seq<Delivery<P>>, handle: Handler<W, P>, eventId: string)
    requires eventId in inbox.rows && inbox.rows[eventId].Received? && eventId !in inbox.attempted
    ensures var after := IngestAll(inbox, ds, handle);
      eventId in after.rows && after.rows[eventId].Received? && eventId !in after.attempted
    decreases |ds|
  {
    if ds != [] {
      CrashedEventIsLost(Ingested(inbox, ds[0], handle), ds[1..], handle, eventId);
    }
  }

  /** Some delivery of the list is of this event and does not crash. */
  predicate Survives<P>(ds: seq<Delivery<P>>, eventId: string) {
    exists k :: 0 <= k < |ds| && ds[k].eventId == eventId && !ds[k].crashed
  }

  /**
   * Exactly when the processing of an event is attempted: it was before, or the one delivery of it that counts, the first
   * acceptable one, does not crash.
   */
  lemma {:induction false} AttemptedExactlyWhen<W, P>(inbox: Inbox<W>, ds: seq<Delivery<P>>, handle: Handler<W, P>, eventId: string)
    ensures eventId in IngestAll(inbox, ds, handle).attempted <==>
              eventId in inbox.attempted || Survives(Firsts(ds, inbox.rows.Keys), eventId)
    decreases |ds|
  {
    if ds != [] {
      var next, kept := Ingested(inbox, ds[0], handle), Firsts(ds, inbox.rows.Keys);
      AttemptedExactlyWhen(next, ds[1..], handle, eventId);
      if Problems(ds[0]).None? && ds[0].eventId !in inbox.rows {
        var rest := Firsts(ds[1..], inbox.rows.Keys + {ds[0].eventId});
        assert next.rows.Keys == inbox.rows.Keys + {ds[0].eventId};
        assert kept == [ds[0]] + rest;
        SurvivesSplit(ds[0], rest, eventId);
      }
    }
  }

  lemma SurvivesSplit<P>(d: Delivery<P>, rest: seq<Delivery<P>>, eventId: string)
    ensures Survives([d] + rest, eventId) <==> (d.eventId == eventId && !d.crashed) || Survives(rest, eventId)
  {
    var all := [d] + rest;
    if d.eventId == eventId && !d.crashed {
      assert all[0] == d;
    }
    if Survives(rest, eventId) {
      var k :| 0 <= k < |rest| && rest[k].eventId == eventId && !rest[k].crashed;
      assert all[k + 1] == rest[k];
    }
    if Survives(all, eventId) {
      var k :| 0 <= k < |all| && all[k].eventId == eventId && !all[k].crashed;
      assert k > 0 ==> all[k] == rest[k - 1];
    }
  }
}
