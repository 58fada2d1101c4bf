/**
 * End-to-end walks through the workflow, written as clients of the stores, the
 * form and the dashboard, and proved from their contracts alone.
 */
module Scenario {
  import opened Wrappers
  import opened Shipments
  import opened Auth
  import opened Dashboard
  import opened ShipmentForm

  /**
   * A logged-in Manufacturer fills in batch B1 at stage manufacturing, with
   * every field the page requires, and submits it.
   */
  method SubmitAsManufacturer(created: string) returns (store: ShipmentStore, b1: Shipment)
    ensures fresh(store) && store.Valid() && store.shipments == [b1]
    ensures b1.batchId == "B1" && b1.stage == "manufacturing" && b1.role == Some("Manufacturer")
    ensures b1.location == "Plant A" && b1.carrier == "ColdChain"
    ensures b1.temperature == "4" && b1.humidity == "45"
    ensures b1.status == Some(Pending) && b1.timestamp == created
  {
    assert Name(Manufacturer) == "Manufacturer";
    var auth := new AuthStore(None);
    auth.LoginAs(Manufacturer);
    store := new ShipmentStore(None);
    var form := new ShipmentFormView();
    form.ToggleForm();
    form.HandleInputChange(BatchId, "B1");
    form.HandleStageChange("manufacturing");
    form.HandleInputChange(Location, "Plant A");
    form.HandleInputChange(Temperature, "4");
    form.HandleInputChange(Humidity, "45");
    form.HandleInputChange(Carrier, "ColdChain");
    ghost var filled := form.newShipment;
    assert filled.batchId == "B1" && filled.stage == "manufacturing" && filled.role == "";
    assert filled.location == "Plant A" && filled.carrier == "ColdChain";
    assert filled.temperature == "4" && filled.humidity == "45";
    form.HandleSubmit(store, auth.currentRole, created);
    b1 := store.shipments[0];
  }

  /** FDA opens the approval of the only shipment and confirms it with role FDA. */
  method ConfirmAsFda(store: ShipmentStore, b1: Shipment, approvedAt: string) returns (notice: Notice)
    requires store.Valid() && store.shipments == [b1] && b1.status == Some(Pending)
    modifies store
    ensures store.Valid() && store.shipments == [Approve(b1, "FDA", approvedAt)]
    ensures notice == BatchApproved(b1.batchId, "FDA")
  {
    var fda := Some(Name(FDA));
    assert fda == Some("FDA");
    assert ApproveOffered(fda, b1);
    var panel := new ApprovalPanel(fda);
    panel.OpenApproval(b1, fda);
    notice := panel.Confirm(b1, store, approvedAt);
  }

  /**
   * After B1 is recorded, FDA sees it pending, approves it, and then sees it
   * approved by FDA.
   */
  method ApproveByFda(created: string, approvedAt: string)
    returns (before: seq<Shipment>, notice: Notice, after: seq<Shipment>)
    ensures |before| == 1 && before[0].batchId == "B1" && before[0].status == Some(Pending)
    ensures before[0].role == Some("Manufacturer") && before[0].timestamp == created
    ensures notice == BatchApproved("B1", "FDA")
    ensures |after| == 1 && after[0].batchId == "B1" && after[0].status == Some(Approved)
    ensures after[0].approvedBy == Some("FDA") && after[0].approvedAt == Some(approvedAt)
  {
    var store, b1 := SubmitAsManufacturer(created);
    var auth := new AuthStore(None);
    auth.LoginAs(FDA);
    assert SeesAll(auth.currentRole);
    before := VisibleShipments(store.shipments, auth.currentRole);
    notice := ConfirmAsFda(store, b1, approvedAt);
    after := VisibleShipments(store.shipments, auth.currentRole);
  }

  /**
   * Confirming with a role other than FDA selected leaves the shipment
   * pending and reports the denial; logging out twice ends like logging out once.
   */
  method DeniedThenLogout(created: string, now: string)
    returns (notice: Notice, after: seq<Shipment>, roleOnce: Option<string>, roleTwice: Option<string>)
    ensures notice == ApprovalDenied
    ensures |after| == 1 && after[0].status == Some(Pending) && after[0].approvedBy == None
    ensures roleOnce == None && roleTwice == roleOnce
  {
    var auth := new AuthStore(Some("FDA"));
    var store := new ShipmentStore(None);
    store.AddShipment(Draft("B2", "quality", "", "", "", "", "", None, None, None, None), created);
    var panel := new ApprovalPanel(auth.currentRole);
    panel.OpenApproval(store.shipments[0], auth.currentRole);
    panel.SelectRole(Name(Pharmacy));
    notice := panel.Confirm(store.shipments[0], store, now);
    after := store.shipments;

    auth.Logout();
    roleOnce := auth.currentRole;
    auth.Logout();
    roleTwice := auth.currentRole;
  }

  /** A list persisted by the store is what a store created from the slot loads. */
  method ReloadAfterChange(store: ShipmentStore, d: Draft, now: string) returns (reloaded: seq<Shipment>)
    requires store.Valid()
    modifies store
    ensures reloaded == store.shipments
  {
    store.AddShipment(d, now);
    var again := new ShipmentStore(store.slot);
    reloaded := again.shipments;
  }
}
