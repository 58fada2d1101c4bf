/**
 * The dashboard's shipment logic: which shipments the current role sees,
 * and the inline approval panel whose Confirm step only FDA may complete.
 */
module Dashboard {
  import opened Wrappers
  import opened Shipments
  import Auth

  /** The primary pipeline stage of each role. */
  const ROLE_STAGE: map<string, string> := map[
    "Ingredient Supplier" := "ingredient",
    "Manufacturer" := "manufacturing",
    "Repackage" := "repackage",
    "Distributor" := "distribution",
    "Pharmacy" := "pharmacy",
    "FDA" := "quality"]

  /** The pipeline, in order. */
  const ORDERED_STAGES: seq<string> :=
    ["ingredient", "manufacturing", "repackage", "quality", "warehouse", "distribution", "pharmacy"]

  /** The stage of a role, or "" for a role the table does not know. */
  function RoleStage(role: string): (stage: string)
    ensures stage != "" <==> role in ROLE_STAGE
    ensures stage != "" ==> stage in ORDERED_STAGES
  {
    if role in ROLE_STAGE then ROLE_STAGE[role] else ""
  }

  /** Every declared role has its stage in the pipeline. */
  lemma RoleStagesInPipeline(r: Auth.Role)
    ensures RoleStage(Auth.Name(r)) in ORDERED_STAGES
  {
    match r
    case IngredientSupplier => assert ORDERED_STAGES[0] == "ingredient";
    case Manufacturer => assert ORDERED_STAGES[1] == "manufacturing";
    case Repackage => assert ORDERED_STAGES[2] == "repackage";
    case Distributor => assert ORDERED_STAGES[5] == "distribution";
    case Pharmacy => assert ORDERED_STAGES[6] == "pharmacy";
    case FDA => assert ORDERED_STAGES[3] == "quality";
  }

  /** The first position of `x` in `xs`, or -1 (Array.prototype.indexOf). */
  function IndexOf(xs: seq<string>, x: string): (i: int)
    ensures -1 <= i < |xs|
    ensures i == -1 <==> x !in xs
    ensures 0 <= i ==> xs[i] == x && forall j :: 0 <= j < i ==> xs[j] != x
    decreases |xs|
  {
    if xs == [] then -1
    else if xs[0] == x then 0
    else
      var j := IndexOf(xs[1..], x);
      if j == -1 then -1 else j + 1
  }

  /** No element occurs twice in `xs`. */
  predicate Distinct(xs: seq<string>)
  {
    forall i, j :: 0 <= i < j < |xs| ==> xs[i] != xs[j]
  }

  lemma StagesDistinct()
    ensures Distinct(ORDERED_STAGES)
  {
  }

  /** `t` is `x` itself or stands directly before or after it in `xs`. */
  ghost predicate NeighboursIn(xs: seq<string>, x: string, t: string)
  {
    exists i :: 0 <= i < |xs| && xs[i] == x &&
      (xs[i] == t || (0 < i && xs[i - 1] == t) || (i + 1 < |xs| && xs[i + 1] == t))
  }

  /** The element at `idx` and its in-bounds predecessor and successor. */
  function Around(xs: seq<string>, idx: nat): set<string>
    requires idx < |xs|
  {
    {xs[idx]}
    + (if idx - 1 >= 0 then {xs[idx - 1]} else {})
    + (if idx + 1 < |xs| then {xs[idx + 1]} else {})
  }

  /** In a sequence without repetitions, indexOf finds the only position of an element. */
  lemma IndexOfUnique(xs: seq<string>, i: nat)
    requires Distinct(xs) && i < |xs|
    ensures IndexOf(xs, xs[i]) == i
  {
  }

  lemma NeighbourInAround(xs: seq<string>, x: string, t: string)
    requires Distinct(xs) && NeighboursIn(xs, x, t)
    ensures IndexOf(xs, x) != -1 && t in Around(xs, IndexOf(xs, x))
  {
    var i :| 0 <= i < |xs| && xs[i] == x &&
      (xs[i] == t || (0 < i && xs[i - 1] == t) || (i + 1 < |xs| && xs[i + 1] == t));
    IndexOfUnique(xs, i);
  }

  lemma AroundIsNeighbour(xs: seq<string>, x: string, t: string)
    requires IndexOf(xs, x) != -1 && t in Around(xs, IndexOf(xs, x))
    ensures NeighboursIn(xs, x, t)
  {
    var idx := IndexOf(xs, x);
    assert xs[idx] == x &&
      (xs[idx] == t || (0 < idx && xs[idx - 1] == t) || (idx + 1 < |xs| && xs[idx + 1] == t));
  }

  lemma AroundIsNeighbourhood(xs: seq<string>, x: string, t: string)
    requires Distinct(xs)
    ensures (IndexOf(xs, x) != -1 && t in Around(xs, IndexOf(xs, x))) <==> NeighboursIn(xs, x, t)
  {
    if NeighboursIn(xs, x, t) {
      NeighbourInAround(xs, x, t);
    }
    if IndexOf(xs, x) != -1 && t in Around(xs, IndexOf(xs, x)) {
      AroundIsNeighbour(xs, x, t);
    }
  }

  /** The stages a role with primary stage `stage` may see. */
  function RelatedStages(stage: string): (r: set<string>)
    ensures stage in r <==> stage in ORDERED_STAGES
  {
    var idx := IndexOf(ORDERED_STAGES, stage);
    if idx == -1 then {} else Around(ORDERED_STAGES, idx)
  }

  /**
   * The related stages are exactly the stage and its neighbours in the
   * pipeline; a stage outside the pipeline has none.
   */
  lemma RelatedStagesAreNeighbours(stage: string)
    ensures stage !in ORDERED_STAGES ==> RelatedStages(stage) == {}
    ensures forall t :: t in RelatedStages(stage) <==> NeighboursIn(ORDERED_STAGES, stage, t)
  {
    StagesDistinct();
    forall t ensures t in RelatedStages(stage) <==> NeighboursIn(ORDERED_STAGES, stage, t) {
      AroundIsNeighbourhood(ORDERED_STAGES, stage, t);
    }
  }

  /** Around a position of a sequence without repetitions: two stages at either end, three inside. */
  lemma AroundSize(xs: seq<string>, idx: nat)
    requires Distinct(xs) && 2 <= |xs| && idx < |xs|
    ensures |Around(xs, idx)| == if idx == 0 || idx == |xs| - 1 then 2 else 3
  {
    if idx == 0 {
      assert Around(xs, idx) == {xs[0], xs[1]};
    } else if idx == |xs| - 1 {
      assert Around(xs, idx) == {xs[idx], xs[idx - 1]};
    } else {
      assert Around(xs, idx) == {xs[idx], xs[idx - 1], xs[idx + 1]};
    }
  }

  /** At most three related stages; two for the first and the last stage of the pipeline. */
  lemma RelatedStagesSize(stage: string)
    ensures |RelatedStages(stage)| <= 3
    ensures stage == ORDERED_STAGES[0] || stage == ORDERED_STAGES[6] ==> |RelatedStages(stage)| == 2
    ensures stage in ORDERED_STAGES && stage != ORDERED_STAGES[0] && stage != ORDERED_STAGES[6] ==>
              |RelatedStages(stage)| == 3
  {
    var idx := IndexOf(ORDERED_STAGES, stage);
    if idx != -1 {
      StagesDistinct();
      AroundSize(ORDERED_STAGES, idx);
      if stage == ORDERED_STAGES[0] {
        IndexOfUnique(ORDERED_STAGES, 0);
      } else if stage == ORDERED_STAGES[6] {
        IndexOfUnique(ORDERED_STAGES, 6);
      }
    }
  }

  /** The related stages of the stage at position `k` of the pipeline. */
  lemma RelatedAt(k: nat)
    requires k < |ORDERED_STAGES|
    ensures RelatedStages(ORDERED_STAGES[k]) == Around(ORDERED_STAGES, k)
  {
    StagesDistinct();
    IndexOfUnique(ORDERED_STAGES, k);
  }

  lemma ManufacturerStage()
    ensures RoleStage("Manufacturer") == ORDERED_STAGES[1]
    ensures Around(ORDERED_STAGES, 1) == {"ingredient", "manufacturing", "repackage"}
  {
  }

  /** The Manufacturer sees its own stage and both neighbours. */
  lemma ManufacturerRelatedStages()
    ensures RelatedStages(RoleStage("Manufacturer")) == {"ingredient", "manufacturing", "repackage"}
  {
    ManufacturerStage();
    RelatedAt(1);
  }

  lemma DistributorStage()
    ensures RoleStage("Distributor") == ORDERED_STAGES[5]
    ensures Around(ORDERED_STAGES, 5) == {"warehouse", "distribution", "pharmacy"}
  {
  }

  /** The Distributor sees warehouse, distribution and pharmacy. */
  lemma DistributorRelatedStages()
    ensures RelatedStages(RoleStage("Distributor")) == {"warehouse", "distribution", "pharmacy"}
  {
    DistributorStage();
    RelatedAt(5);
  }

  /** `a` is `b` with some elements left out, order kept. */
  predicate IsSubsequence<T(==)>(a: seq<T>, b: seq<T>)
    decreases |b|
  {
    if a == [] then true
    else if b == [] then false
    else (a[0] == b[0] && IsSubsequence(a[1..], b[1..])) || IsSubsequence(a, b[1..])
  }

  lemma {:induction false} SubsequenceReflexive<T>(s: seq<T>)
    ensures IsSubsequence(s, s)
    decreases |s|
  {
    if s != [] {
      SubsequenceReflexive(s[1..]);
    }
  }

  function Reverse<T>(s: seq<T>): (r: seq<T>)
    ensures |r| == |s|
    ensures forall i :: 0 <= i < |s| ==> r[i] == s[|s| - 1 - i]
    decreases |s|
  {
    if s == [] then [] else Reverse(s[1..]) + [s[0]]
  }

  lemma ReverseReverse<T>(s: seq<T>)
    ensures Reverse(Reverse(s)) == s
  {
  }

  /** Reversing keeps every element with its number of occurrences. */
  lemma {:induction false} ReverseMultiset<T>(s: seq<T>)
    ensures multiset(Reverse(s)) == multiset(s)
    decreases |s|
  {
    if s != [] {
      ReverseMultiset(s[1..]);
      assert s == [s[0]] + s[1..];
    }
  }

  /**
   * The filter for a role other than FDA: a shipment is shown when its actor
   * role is that role, or when its stage is one of the related stages.
   * Empty strings never match (they are falsy in the source).
   */
  predicate VisibleTo(s: Shipment, role: string, related: set<string>)
  {
    (s.role.Some? && s.role.value != "" && s.role.value == role) ||
    (s.stage != "" && s.stage in related)
  }

  function FilterVisible(list: seq<Shipment>, role: string, related: set<string>): (r: seq<Shipment>)
    ensures |r| <= |list|
    ensures forall s :: s in r <==> s in list && VisibleTo(s, role, related)
    ensures forall s :: multiset(r)[s] == if VisibleTo(s, role, related) then multiset(list)[s] else 0
    ensures IsSubsequence(r, list)
    decreases |list|
  {
    if list == [] then []
    else
      assert list == [list[0]] + list[1..];
      var rest := FilterVisible(list[1..], role, related);
      if VisibleTo(list[0], role, related) then [list[0]] + rest else rest
  }

  /** The filtered list, newest first, keeps what the filter keeps, as often and in reverse order. */
  lemma FilterNewestFirst(list: seq<Shipment>, role: string, related: set<string>)
    ensures var r := Reverse(FilterVisible(list, role, related));
      |r| <= |list| &&
      (forall s :: s in r <==> s in list && VisibleTo(s, role, related)) &&
      (forall s :: multiset(r)[s] == if VisibleTo(s, role, related) then multiset(list)[s] else 0) &&
      IsSubsequence(Reverse(r), list)
  {
    var kept := FilterVisible(list, role, related);
    ReverseReverse(kept);
    ReverseMultiset(kept);
    assert forall s :: s in Reverse(kept) <==> s in kept by {
      forall s ensures s in Reverse(kept) <==> s in kept {
        assert s in Reverse(kept) <==> s in multiset(Reverse(kept));
      }
    }
  }

  /** No role, the empty role or FDA: every shipment is shown. */
  predicate SeesAll(currentRole: Option<string>)
  {
    currentRole.None? || currentRole.value == "" || currentRole.value == "FDA"
  }

  /** The stages related to a role that does not see everything. */
  function RoleRelatedStages(role: string): (r: set<string>)
    ensures RoleStage(role) != "" ==> RoleStage(role) in r
    ensures RoleStage(role) == "" ==> r == {}
  {
    assert "" !in ORDERED_STAGES;
    RelatedStages(RoleStage(role))
  }

  /**
   * The shipments the dashboard lists for `currentRole`, newest first: all of
   * them for no role or FDA, otherwise those the role filter keeps.
   */
  function VisibleShipments(shipments: seq<Shipment>, currentRole: Option<string>): (r: seq<Shipment>)
    ensures |r| <= |shipments|
    ensures SeesAll(currentRole) ==>
              |r| == |shipments| && forall i :: 0 <= i < |r| ==> r[i] == shipments[|shipments| - 1 - i]
    ensures !SeesAll(currentRole) ==>
              forall s :: s in r <==> s in shipments && VisibleTo(s, currentRole.value, RoleRelatedStages(currentRole.value))
    ensures !SeesAll(currentRole) ==>
              forall s :: multiset(r)[s] ==
                if VisibleTo(s, currentRole.value, RoleRelatedStages(currentRole.value)) then multiset(shipments)[s] else 0
    ensures IsSubsequence(Reverse(r), shipments)
  {
    if SeesAll(currentRole) then
      ReverseReverse(shipments);
      SubsequenceReflexive(shipments);
      Reverse(shipments)
    else
      var role := currentRole.value;
      FilterNewestFirst(shipments, role, RoleRelatedStages(role));
      Reverse(FilterVisible(shipments, role, RoleRelatedStages(role)))
  }

  /** For the Manufacturer a repackage shipment is visible, adjacent to manufacturing. */
  lemma ManufacturerSeesRepackage(s: Shipment)
    requires s.stage == "repackage"
    ensures VisibleShipments([s], Some("Manufacturer")) == [s]
  {
    ManufacturerRelatedStages();
  }

  /** For the Manufacturer another actor's pharmacy shipment is not visible. */
  lemma ManufacturerMissesPharmacy(s: Shipment)
    requires s.stage == "pharmacy" && s.role != Some("Manufacturer")
    ensures VisibleShipments([s], Some("Manufacturer")) == []
  {
    ManufacturerRelatedStages();
    assert "pharmacy" !in {"ingredient", "manufacturing", "repackage"};
    assert !VisibleTo(s, "Manufacturer", RoleRelatedStages("Manufacturer"));
  }

  /** A role the stage table does not know sees exactly the shipments it recorded itself. */
  lemma UnmappedRoleSeesOwn(shipments: seq<Shipment>, role: string)
    requires role != "" && role !in ROLE_STAGE
    ensures forall s :: s in VisibleShipments(shipments, Some(role)) <==> s in shipments && s.role == Some(role)
  {
    assert role != "FDA" by { assert "FDA" in ROLE_STAGE; }
    assert RoleStage(role) == "";
    assert "" !in ORDERED_STAGES;
    assert RoleRelatedStages(role) == {};
    assert !SeesAll(Some(role));
  }

  /** The Approve control is offered to FDA, for shipments not yet approved. */
  predicate ApproveOffered(currentRole: Option<string>, s: Shipment)
  {
    currentRole == Some("FDA") && s.status != Some(Approved)
  }

  /** Once a timestamp is approved, no record with it offers the Approve control again. */
  lemma ApprovedNotOffered(list: seq<Shipment>, timestamp: string, approver: string, now: string, currentRole: Option<string>, i: nat)
    requires i < |list| && list[i].timestamp == timestamp
    ensures !ApproveOffered(currentRole, ApproveMatching(list, timestamp, approver, now)[i])
  {
  }

  /**
   * The approver that Confirm passes to the store, or None when the selected
   * role is not FDA and the approval is denied.
   */
  function ConfirmApprover(approvingRole: string): (approver: Option<string>)
    ensures approver.Some? <==> approvingRole == "FDA"
    ensures approver.Some? ==> approver.value == "FDA"
  {
    if approvingRole != "FDA" then None
    else Some(if approvingRole != "" then approvingRole else "FDA")
  }

  /** The notifications Confirm shows. */
  datatype Notice = ApprovalDenied | BatchApproved(batchId: string, approver: string)

  /** The dashboard's inline approval state. */
  class ApprovalPanel {
    /** The timestamp whose confirmation is open, if any. */
    var approvingTimestamp: Option<string>
    /** The role selected in the confirmation's picker. */
    var approvingRole: string

    constructor (currentRole: Option<string>)
      ensures approvingTimestamp == None && approvingRole == currentRole.GetOr("")
    {
      approvingTimestamp := None;
      approvingRole := currentRole.GetOr("");
    }

    /** The Approve button: opens the confirmation for this shipment. */
    method OpenApproval(s: Shipment, currentRole: Option<string>)
      modifies this
      ensures approvingTimestamp == Some(s.timestamp) && approvingRole == currentRole.GetOr("")
    {
      approvingTimestamp := Some(s.timestamp);
      approvingRole := currentRole.GetOr("");
    }

    /** The role picker. */
    method SelectRole(v: string)
      modifies this
      ensures approvingRole == v && approvingTimestamp == old(approvingTimestamp)
    {
      approvingRole := v;
    }

    /**
     * The Confirm button for shipment `s`: with FDA selected it approves every
     * record with the shipment's timestamp and closes the confirmation;
     * with any other role it only reports the denial.
     */
    method Confirm(s: Shipment, store: ShipmentStore, now: string) returns (notice: Notice)
      requires store.Valid()
      modifies this, store
      ensures store.Valid() && approvingRole == old(approvingRole)
      ensures old(approvingRole) != "FDA" ==>
                notice == ApprovalDenied && approvingTimestamp == old(approvingTimestamp) && unchanged(store)
      ensures old(approvingRole) == "FDA" ==>
                && notice == BatchApproved(s.batchId, "FDA")
                && approvingTimestamp == None
                && store.loaded == old(store.loaded)
                && store.history == old(store.history) + [ApproveEvent(s.timestamp, "FDA", now)]
                && store.shipments == ApproveMatching(old(store.shipments), s.timestamp, "FDA", now)
                && store.slot == Some(store.shipments)
    {
      var approver := ConfirmApprover(approvingRole);
      if approver.None? {
        notice := ApprovalDenied;
        return;
      }
      store.ApproveShipment(s.timestamp, now, approver.value);
      notice := BatchApproved(s.batchId, approvingRole);
      approvingTimestamp := None;
    }

    /** The Cancel button. */
    method Cancel()
      modifies this
      ensures approvingTimestamp == None && approvingRole == old(approvingRole)
    {
      approvingTimestamp := None;
    }
  }
}
