/**
 * The shipment form of the ledger page: its eight string fields, the change
 * handlers that update one field each, and the submit that appends one
 * shipment to the store and resets the form.
 */
module ShipmentForm {
  import opened Wrappers
  import opened Shipments

  /** The names of the form's fields. */
  datatype Field = BatchId | Stage | Location | Temperature | Humidity | Carrier | Notes | RoleField

  /** The `newShipment` form state. */
  datatype Form = Form(
    batchId: string,
    stage: string,
    location: string,
    temperature: string,
    humidity: string,
    carrier: string,
    notes: string,
    role: string)
  {
    /** The value of the named field. */
    function Get(f: Field): string
    {
      match f
      case BatchId => batchId
      case Stage => stage
      case Location => location
      case Temperature => temperature
      case Humidity => humidity
      case Carrier => carrier
      case Notes => notes
      case RoleField => role
    }

    /** This form with the named field set to `v`; no other field changes. */
    function With(f: Field, v: string): (r: Form)
      ensures r.Get(f) == v
      ensures forall g :: g != f ==> r.Get(g) == Get(g)
    {
      match f
      case BatchId => this.(batchId := v)
      case Stage => this.(stage := v)
      case Location => this.(location := v)
      case Temperature => this.(temperature := v)
      case Humidity => this.(humidity := v)
      case Carrier => this.(carrier := v)
      case Notes => this.(notes := v)
      case RoleField => this.(role := v)
    }
  }

  /** The form as first shown and as reset after a submit. */
  const EMPTY_FORM: Form := Form("", "", "", "", "", "", "", "")

  lemma EmptyFormBlank()
    ensures forall f: Field :: EMPTY_FORM.Get(f) == ""
  {
  }

  /**
   * What submit hands to addShipment: the form's fields, with an empty role
   * replaced by the logged-in role, or by "" when nobody is logged in.
   */
  function ToDraft(form: Form, currentRole: Option<string>): (d: Draft)
    ensures d.batchId == form.batchId && d.stage == form.stage && d.location == form.location
    ensures d.temperature == form.temperature && d.humidity == form.humidity
    ensures d.carrier == form.carrier && d.notes == form.notes
    ensures form.role != "" ==> d.role == Some(form.role)
    ensures form.role == "" && currentRole.Some? ==> d.role == currentRole
    ensures form.role == "" && currentRole.None? ==> d.role == Some("")
    ensures d.status == None && d.approvedBy == None && d.approvedAt == None
  {
    var role := if form.role != "" then form.role else currentRole.GetOr("");
    Draft(form.batchId, form.stage, form.location, form.temperature, form.humidity,
          form.carrier, form.notes, Some(role), None, None, None)
  }

  /** The form's state on the ledger page. */
  class ShipmentFormView {
    /** Whether the form is displayed. */
    var showForm: bool
    var newShipment: Form

    constructor ()
      ensures !showForm && newShipment == EMPTY_FORM
    {
      showForm := false;
      newShipment := EMPTY_FORM;
    }

    /** The "Update Details" / "Cancel" toggle. */
    method ToggleForm()
      modifies this
      ensures showForm == !old(showForm) && newShipment == old(newShipment)
    {
      showForm := !showForm;
    }

    /** A text input changed: only the named field takes the new value. */
    method HandleInputChange(name: Field, value: string)
      modifies this
      ensures newShipment == old(newShipment).With(name, value)
      ensures showForm == old(showForm)
    {
      newShipment := newShipment.With(name, value);
    }

    /** The stage picker changed. */
    method HandleStageChange(value: string)
      modifies this
      ensures newShipment == old(newShipment).With(Stage, value)
      ensures showForm == old(showForm)
    {
      newShipment := newShipment.(stage := value);
    }

    /** The role picker changed. */
    method HandleRoleChange(value: string)
      modifies this
      ensures newShipment == old(newShipment).With(RoleField, value)
      ensures showForm == old(showForm)
    {
      newShipment := newShipment.(role := value);
    }

    /** Appends the form's shipment to the store once, then hides and clears the form. */
    method HandleSubmit(store: ShipmentStore, currentRole: Option<string>, now: string)
      requires store.Valid()
      modifies this, store
      ensures store.Valid() && store.loaded == old(store.loaded)
      ensures store.history == old(store.history) + [AddEvent(ToDraft(old(newShipment), currentRole), now)]
      ensures store.shipments == old(store.shipments) + [Stamp(ToDraft(old(newShipment), currentRole), now)]
      ensures store.slot == Some(store.shipments)
      ensures !showForm && newShipment == EMPTY_FORM
    {
      var toAdd := ToDraft(newShipment, currentRole);
      store.AddShipment(toAdd, now);
      showForm := false;
      newShipment := EMPTY_FORM;
    }
  }
}
