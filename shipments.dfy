/**
 * The shipment store: the list of shipment records, the two operations that
 * change it (add and approve), and the storage slot "pharmachain:shipments"
 * that receives the whole list after every change.
 */
module Shipments {
  import opened Wrappers

  /** The lifecycle of a record: it is created pending and can only become approved. */
  datatype Status = Pending | Approved

  /**
   * A shipment record. The timestamp is the only key by which a record is
   * later found; nothing makes it unique. The optional fields may be absent
   * in records read back from storage.
   */
  datatype Shipment = Shipment(
    batchId: string,
    stage: string,
    location: string,
    temperature: string,
    humidity: string,
    carrier: string,
    notes: string,
    role: Option<string>,
    timestamp: string,
    status: Option<Status>,
    approvedBy: Option<string>,
    approvedAt: Option<string>)

  /** What a caller hands to addShipment: every field of a record except its timestamp. */
  datatype Draft = Draft(
    batchId: string,
    stage: string,
    location: string,
    temperature: string,
    humidity: string,
    carrier: string,
    notes: string,
    role: Option<string>,
    status: Option<Status>,
    approvedBy: Option<string>,
    approvedAt: Option<string>)

  /** A record with its timestamp dropped. */
  function Unstamped(s: Shipment): Draft
  {
    Draft(s.batchId, s.stage, s.location, s.temperature, s.humidity, s.carrier,
          s.notes, s.role, s.status, s.approvedBy, s.approvedAt)
  }

  /**
   * The record addShipment appends: the caller's fields, with the clock value
   * as timestamp and the status forced to pending.
   */
  function Stamp(d: Draft, now: string): (s: Shipment)
    ensures s.timestamp == now && s.status == Some(Pending)
    ensures Unstamped(s) == d.(status := Some(Pending))
  {
    Shipment(d.batchId, d.stage, d.location, d.temperature, d.humidity, d.carrier,
             d.notes, d.role, now, Some(Pending), d.approvedBy, d.approvedAt)
  }

  /** The two records agree on everything approval leaves alone. */
  predicate SameRecord(a: Shipment, b: Shipment)
  {
    a.batchId == b.batchId && a.stage == b.stage && a.location == b.location &&
    a.temperature == b.temperature && a.humidity == b.humidity &&
    a.carrier == b.carrier && a.notes == b.notes && a.role == b.role &&
    a.timestamp == b.timestamp
  }

  /** One record as approved by `approver` at time `now`. */
  function Approve(s: Shipment, approver: string, now: string): (r: Shipment)
    ensures SameRecord(r, s)
    ensures r.status == Some(Approved) && r.approvedBy == Some(approver) && r.approvedAt == Some(now)
  {
    s.(status := Some(Approved), approvedBy := Some(approver), approvedAt := Some(now))
  }

  /**
   * The list approveShipment computes: every record whose timestamp matches
   * is approved, every other record is kept as it is, in the same order.
   */
  function ApproveMatching(list: seq<Shipment>, timestamp: string, approver: string, now: string): (r: seq<Shipment>)
    ensures |r| == |list|
    ensures forall i :: 0 <= i < |list| && list[i].timestamp == timestamp ==> r[i] == Approve(list[i], approver, now)
    ensures forall i :: 0 <= i < |list| && list[i].timestamp != timestamp ==> r[i] == list[i]
    decreases |list|
  {
    if list == [] then []
    else
      var head := if list[0].timestamp == timestamp then Approve(list[0], approver, now) else list[0];
      [head] + ApproveMatching(list[1..], timestamp, approver, now)
  }

  /** When no record carries the timestamp, approval leaves the list as it was. */
  lemma ApproveNoMatch(list: seq<Shipment>, timestamp: string, approver: string, now: string)
    requires forall i :: 0 <= i < |list| ==> list[i].timestamp != timestamp
    ensures ApproveMatching(list, timestamp, approver, now) == list
  {
  }

  /**
   * Approving the same timestamp again keeps the records approved and only
   * re-stamps approver and time: the second approval overrides the first.
   */
  lemma ReapproveRestamps(list: seq<Shipment>, timestamp: string, a1: string, t1: string, a2: string, t2: string)
    ensures ApproveMatching(ApproveMatching(list, timestamp, a1, t1), timestamp, a2, t2)
         == ApproveMatching(list, timestamp, a2, t2)
  {
  }

  /** A change to the store, as the history of the store records it. */
  datatype Event =
    | AddEvent(draft: Draft, now: string)
    | ApproveEvent(timestamp: string, approver: string, now: string)

  /** The list after one change: an addition appends one record, an approval keeps the length. */
  function Step(list: seq<Shipment>, e: Event): (r: seq<Shipment>)
    ensures e.AddEvent? ==> |r| == |list| + 1 && r[..|list|] == list
    ensures e.ApproveEvent? ==> |r| == |list|
  {
    match e
    case AddEvent(d, now) => list + [Stamp(d, now)]
    case ApproveEvent(t, a, now) => ApproveMatching(list, t, a, now)
  }

  /** The list after applying the events, oldest first, to `list`. */
  function Replay(list: seq<Shipment>, events: seq<Event>): seq<Shipment>
    decreases |events|
  {
    if events == [] then list
    else Step(Replay(list, events[..|events| - 1]), events[|events| - 1])
  }

  function AddCount(events: seq<Event>): nat
    decreases |events|
  {
    if events == [] then 0
    else AddCount(events[..|events| - 1]) + (if events[|events| - 1].AddEvent? then 1 else 0)
  }

  /** Only additions change the length of the list, each by exactly one. */
  lemma {:induction false} ReplayLength(list: seq<Shipment>, events: seq<Event>)
    ensures |Replay(list, events)| == |list| + AddCount(events)
    decreases |events|
  {
    if events != [] {
      ReplayLength(list, events[..|events| - 1]);
    }
  }

  /**
   * Whatever happens afterwards, a record keeps its position, its timestamp
   * and its descriptive fields, and an approved record stays approved.
   */
  lemma {:induction false} ReplayKeepsRecord(list: seq<Shipment>, events: seq<Event>, i: nat)
    requires i < |list|
    ensures i < |Replay(list, events)|
    ensures SameRecord(Replay(list, events)[i], list[i])
    ensures list[i].status == Some(Approved) ==> Replay(list, events)[i].status == Some(Approved)
    decreases |events|
  {
    if events != [] {
      ReplayKeepsRecord(list, events[..|events| - 1], i);
    }
  }

  /**
   * A history of additions only, from the empty list, leaves one pending
   * record per addition, in the order the additions were made.
   */
  lemma {:induction false} ReplayAdditions(events: seq<Event>)
    requires forall k :: 0 <= k < |events| ==> events[k].AddEvent?
    ensures |Replay([], events)| == |events|
    ensures forall k :: 0 <= k < |events| ==>
              Replay([], events)[k] == Stamp(events[k].draft, events[k].now) &&
              Replay([], events)[k].status == Some(Pending)
    decreases |events|
  {
    if events != [] {
      ReplayAdditions(events[..|events| - 1]);
    }
  }

  class ShipmentStore {
    /** The list held in memory. */
    var shipments: seq<Shipment>
    /** The storage slot; None when the key is absent, empty or unreadable. */
    var slot: Option<seq<Shipment>>
    /** The list found in storage when the store was created. */
    ghost var loaded: seq<Shipment>
    /** Every change made since, oldest first. */
    ghost var history: seq<Event>

    /**
     * The list is the loaded list with the history replayed on it, and after
     * the first change the storage slot holds exactly that list.
     */
    ghost predicate Valid()
      reads this
    {
      shipments == Replay(loaded, history) &&
      (history != [] ==> slot == Some(shipments))
    }

    /** The initial load: the stored list, or the empty list when there is none. */
    constructor (stored: Option<seq<Shipment>>)
      ensures Valid() && history == [] && slot == stored
      ensures shipments == stored.GetOr([])
    {
      shipments := stored.GetOr([]);
      slot := stored;
      loaded := stored.GetOr([]);
      history := [];
    }

    /** Replaces the list and overwrites the storage slot with it. */
    method Persist(next: seq<Shipment>)
      modifies this
      ensures shipments == next && slot == Some(next)
      ensures loaded == old(loaded) && history == old(history)
    {
      shipments := next;
      slot := Some(next);
    }

    method AddShipment(draft: Draft, now: string)
      requires Valid()
      modifies this
      ensures Valid() && loaded == old(loaded)
      ensures history == old(history) + [AddEvent(draft, now)]
      ensures shipments == old(shipments) + [Stamp(draft, now)]
      ensures slot == Some(shipments)
    {
      Persist(shipments + [Stamp(draft, now)]);
      history := history + [AddEvent(draft, now)];
      assert history[..|history| - 1] == old(history);
    }

    method ApproveShipment(timestamp: string, now: string, approver: string := "FDA")
      requires Valid()
      modifies this
      ensures Valid() && loaded == old(loaded)
      ensures history == old(history) + [ApproveEvent(timestamp, approver, now)]
      ensures shipments == ApproveMatching(old(shipments), timestamp, approver, now)
      ensures slot == Some(shipments)
    {
      Persist(ApproveMatching(shipments, timestamp, approver, now));
      history := history + [ApproveEvent(timestamp, approver, now)];
      assert history[..|history| - 1] == old(history);
    }
  }
}
