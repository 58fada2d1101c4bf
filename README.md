# Pharmaceutical shipment workflow: a Dafny model

This project models the client-side shipment workflow of a demonstration supply-chain
tracker. The workflow has four parts:

- **Role store** (`Auth`, auth.dfy). It holds the current role of the browser session and
  mirrors it to the storage key `pharmachain:role`.
- **Shipment store** (`Shipments`, shipments.dfy). It holds the list of shipment records.
  New records are appended as pending. Approval rewrites every record whose timestamp
  matches. After each change the whole list is written to the storage key
  `pharmachain:shipments`.
- **Dashboard** (`Dashboard`, dashboard.dfy). It derives, from the list and the current
  role, which shipments the role sees, newest first. It maps the role to its pipeline
  stage and keeps the shipments recorded by the role or at that stage or a neighbouring
  one. It also models the inline approval panel, whose Confirm step only approves when
  the role selected in it is FDA.
- **Shipment form** (`ShipmentForm`, blockchain.dfy). It holds the eight string fields of
  the ledger page's form and their change handlers. Submit defaults an empty role to the
  logged-in role, adds one shipment and resets the form.

`Scenario` (scenario.dfy) walks through the workflow, and each step is proved from these contracts alone. A Manufacturer
records a batch, FDA approves it, a denied confirmation leaves the batch pending, logging
out twice ends like logging out once, and a store reloaded from the slot sees the
persisted list.

State the source keeps in React components and contexts becomes a Dafny class:
`AuthStore`, `ShipmentStore`, `ApprovalPanel` and `ShipmentFormView`. The list
computations the source does with spread, `map`, `filter` and `reverse` are functions
with contracts:
- `Stamp` builds the record that addShipment appends.
- `ApproveMatching` builds the list that approveShipment writes.
- `VisibleShipments` builds the dashboard's list.

The class methods promise that the new state equals those functions applied to the old
state. The shipment store also keeps a ghost history of events. Its invariant `Valid()`
says the list is the loaded list with that history replayed. The `Replay*` lemmas prove
what holds after any history.

Storage is an abstract slot. The role slot is an `Option<string>`. The shipment slot is
an `Option<seq<Shipment>>`, with the JSON encoding abstracted away. `None` stands for a
key that is absent, empty or unreadable. The clock is the parameter `now`.

The model follows the code on these points, which are easy to misread:
- On load, any non-empty stored role string is adopted as the current role, whether or
  not it names a declared role. The role store therefore holds `Option<string>`, not
  `Option<Role>`.
- Approval rewrites every record with the given timestamp, not just the first one.
- Approval of an already-approved record re-stamps approver and time. It is not a
  one-shot transition.
- A role missing from the stage table has no related stages. An empty or missing role
  sees every shipment, as FDA does.

## Model

| member | source | states |
|---|---|---|
| `Wrappers.Option.GetOr` | src/pages/Blockchain.tsx:56 | `x ?? d` gives the held value when there is one and `d` otherwise |
| `Auth.Name` | src/context/AuthContext.tsx:3-9 | each of the six roles has the declared, non-empty string value |
| `Auth.NameInjective` | src/context/AuthContext.tsx:3-9 | distinct roles have distinct string values |
| `Auth.AllRolesExactlyOnce` | src/context/AuthContext.tsx:57-64 | ALL_ROLES has six entries, contains every role and repeats none |
| `Auth.LoadRole` | src/context/AuthContext.tsx:21-28 | an absent or empty stored string loads as no role; any other stored string is adopted unvalidated |
| `Auth.LoadAfterLogin` | src/context/AuthContext.tsx:30-35 | a role written by loginAs is adopted again by the next load |
| `Auth.AuthStore.constructor` | src/context/AuthContext.tsx:21-28 | the initial role is the loaded one, and memory agrees with what a reload would give |
| `Auth.AuthStore.LoginAs` | src/context/AuthContext.tsx:30-35 | the current role becomes the chosen role and the slot stores its name |
| `Auth.AuthStore.Logout` | src/context/AuthContext.tsx:37-42 | the role becomes none and the key is removed, independent of the prior state, so a second logout changes nothing |
| `Shipments.Stamp` | src/context/ShipmentContext.tsx:46-50 | the appended record keeps every caller field except timestamp (the clock value) and status (pending) |
| `Shipments.Approve` | src/context/ShipmentContext.tsx:56-63 | an approved record has status approved and the given approver and time, and every other field unchanged |
| `Shipments.ApproveMatching` | src/context/ShipmentContext.tsx:55-65 | same length and order; every record with the timestamp is approved, every other record is returned unchanged |
| `Shipments.ApproveNoMatch` | src/context/ShipmentContext.tsx:55-66 | when no timestamp matches the list equals its previous value |
| `Shipments.ReapproveRestamps` | src/context/ShipmentContext.tsx:56-62 | approving a timestamp again keeps its records approved and only replaces approver and time |
| `Shipments.Step` | src/context/ShipmentContext.tsx:45-66 | an addition appends one record and keeps the old ones as a prefix; an approval keeps the length |
| `Shipments.Replay` | src/context/ShipmentContext.tsx:45-66 | the list after a history of additions and approvals, oldest first; its properties are the `Replay*` lemmas below |
| `Shipments.ReplayLength` | src/context/ShipmentContext.tsx:45-66 | over any history of changes the list grows by exactly one per addition |
| `Shipments.ReplayKeepsRecord` | src/context/ShipmentContext.tsx:45-66 | over any history a record keeps its position, timestamp and descriptive fields, and an approved record never returns to pending |
| `Shipments.ReplayAdditions` | src/context/ShipmentContext.tsx:45-52 | additions alone, from an empty store, give one pending record per call, in call order |
| `Shipments.ShipmentStore.constructor` | src/context/ShipmentContext.tsx:29-36 | the initial list is the stored list, or empty when the slot holds none |
| `Shipments.ShipmentStore.Persist` | src/context/ShipmentContext.tsx:38-43 | the list is replaced and the slot overwritten with the same list |
| `Shipments.ShipmentStore.AddShipment` | src/context/ShipmentContext.tsx:45-52 | the list becomes the old list plus the stamped record, last; the slot holds the new list |
| `Shipments.ShipmentStore.ApproveShipment` | src/context/ShipmentContext.tsx:54-67 | the list becomes the approved list, the approver defaults to FDA, and the slot holds the new list |
| `Dashboard.RoleStage` | src/pages/Dashboard.tsx:73-80 | a role has a stage exactly when the table maps it, and that stage is a pipeline stage |
| `Dashboard.RoleStagesInPipeline` | src/pages/Dashboard.tsx:73-90 | the stage of every declared role is in the pipeline |
| `Dashboard.IndexOf` | src/pages/Dashboard.tsx:96 | -1 exactly when the stage is absent, otherwise its first position |
| `Dashboard.StagesDistinct` | src/pages/Dashboard.tsx:82-90 | no stage occurs twice in the pipeline order |
| `Dashboard.RelatedStages` | src/pages/Dashboard.tsx:95-102 | a stage is among its own related stages exactly when it is in the pipeline |
| `Dashboard.RelatedStagesAreNeighbours` | src/pages/Dashboard.tsx:96-102 | the related set is the stage with its in-bounds predecessor and successor, and empty for a stage outside the pipeline |
| `Dashboard.RelatedStagesSize` | src/pages/Dashboard.tsx:96-102 | at most three related stages; two for the first and last stage; three in between |
| `Dashboard.RelatedAt` | src/pages/Dashboard.tsx:96-102 | the related set of the stage at a pipeline position is that position with its in-bounds neighbours |
| `Dashboard.ManufacturerStage` | src/pages/Dashboard.tsx:73-90 | Manufacturer maps to manufacturing, the second stage, whose neighbours are ingredient and repackage |
| `Dashboard.DistributorStage` | src/pages/Dashboard.tsx:73-90 | Distributor maps to distribution, the sixth stage, whose neighbours are warehouse and pharmacy |
| `Dashboard.ManufacturerRelatedStages` | src/pages/Dashboard.tsx:73-102 | Manufacturer is related to ingredient, manufacturing and repackage |
| `Dashboard.DistributorRelatedStages` | src/pages/Dashboard.tsx:73-102 | Distributor is related to warehouse, distribution and pharmacy |
| `Dashboard.VisibleTo` | src/pages/Dashboard.tsx:105-109 | the filter's test: a non-empty actor role equal to the current role, or a non-empty stage among the related stages |
| `Dashboard.FilterVisible` | src/pages/Dashboard.tsx:104-110 | a shipment is kept iff its role is the current role or its stage is related, each kept shipment as often as it occurs in the input; the result is a subsequence of the input |
| `Dashboard.Reverse` | src/pages/Dashboard.tsx:111-112 | the reversed list has the same length and its elements mirrored |
| `Dashboard.SeesAll` | src/pages/Dashboard.tsx:93-94 | no role, the empty role and FDA are the ones shown every shipment |
| `Dashboard.RoleRelatedStages` | src/pages/Dashboard.tsx:95-102 | a role with a stage has that stage among its related stages; a role without one (missing from the table) has none |
| `Dashboard.FilterNewestFirst` | src/pages/Dashboard.tsx:104-112 | the filtered list reversed keeps exactly the visible shipments, each as often as in the list, and reversed back is a subsequence of the list |
| `Dashboard.VisibleShipments` | src/pages/Dashboard.tsx:92-113 | with no role or FDA, exactly the full list reversed; otherwise the shipments the filter keeps, each as often as in the list, and no others; never more than the total; a reversed subsequence of the list |
| `Dashboard.ReverseMultiset` | src/pages/Dashboard.tsx:111-112 | reversing keeps every shipment with its number of occurrences |
| `Dashboard.ManufacturerSeesRepackage` | src/pages/Dashboard.tsx:98-112 | a repackage shipment is visible to the Manufacturer |
| `Dashboard.ManufacturerMissesPharmacy` | src/pages/Dashboard.tsx:98-112 | another actor's pharmacy shipment is not visible to the Manufacturer |
| `Dashboard.UnmappedRoleSeesOwn` | src/pages/Dashboard.tsx:95-108 | a role missing from the stage table sees exactly the shipments it recorded |
| `Dashboard.ApproveOffered` | src/pages/Dashboard.tsx:320 | the Approve control is shown only to FDA and only for a shipment not yet approved |
| `Dashboard.ApprovedNotOffered` | src/pages/Dashboard.tsx:320 | once a timestamp is approved, none of its records offers the Approve control |
| `Dashboard.ConfirmApprover` | src/pages/Dashboard.tsx:350-354 | Confirm approves iff the selected role is FDA, and then passes FDA as approver |
| `Dashboard.ApprovalPanel.constructor` | src/pages/Dashboard.tsx:69-70 | no confirmation open; the selected role is the current role or "" |
| `Dashboard.ApprovalPanel.OpenApproval` | src/pages/Dashboard.tsx:325-329 | opens the confirmation for the shipment's timestamp and selects the current role |
| `Dashboard.ApprovalPanel.SelectRole` | src/pages/Dashboard.tsx:336 | only the selected role changes |
| `Dashboard.ApprovalPanel.Confirm` | src/pages/Dashboard.tsx:349-357 | role other than FDA: denial notice and nothing changes; FDA: the timestamp is approved by FDA, persisted, and the confirmation closed |
| `Dashboard.ApprovalPanel.Cancel` | src/pages/Dashboard.tsx:362 | closes the confirmation and changes nothing else |
| `ShipmentForm.Form.With` | src/pages/Blockchain.tsx:26-46 | setting a field gives it the new value and leaves every other field as it was |
| `ShipmentForm.EmptyFormBlank` | src/pages/Blockchain.tsx:15-24 | all eight fields of the initial form are empty |
| `ShipmentForm.ToDraft` | src/pages/Blockchain.tsx:54-57 | submitted fields are copied; a non-empty form role is kept, an empty one becomes the logged-in role or "" |
| `ShipmentForm.ShipmentFormView.constructor` | src/pages/Blockchain.tsx:14-24 | the form starts hidden and empty |
| `ShipmentForm.ShipmentFormView.ToggleForm` | src/pages/Blockchain.tsx:241 | the button flips whether the form is shown |
| `ShipmentForm.ShipmentFormView.HandleInputChange` | src/pages/Blockchain.tsx:26-32 | only the named field changes |
| `ShipmentForm.ShipmentFormView.HandleStageChange` | src/pages/Blockchain.tsx:34-39 | only the stage changes |
| `ShipmentForm.ShipmentFormView.HandleRoleChange` | src/pages/Blockchain.tsx:41-46 | only the role changes |
| `ShipmentForm.ShipmentFormView.HandleSubmit` | src/pages/Blockchain.tsx:51-71 | exactly one shipment is appended from the form; then the form is hidden and every field reset to "" |
| `Scenario.SubmitAsManufacturer` | src/pages/Blockchain.tsx:51-71 | a Manufacturer's batch, with every field the page requires filled in, is stored as one pending record with the Manufacturer role and the entered values |
| `Scenario.ConfirmAsFda` | src/pages/Dashboard.tsx:320-357 | FDA's confirmation approves the pending record with approver FDA |
| `Scenario.ApproveByFda` | src/pages/Dashboard.tsx:92-113 | FDA lists the new batch as pending, and after confirmation lists it approved by FDA |
| `Scenario.DeniedThenLogout` | src/pages/Dashboard.tsx:350-352 | a confirmation with Pharmacy selected is denied and the record stays pending; two logouts leave no role, like one |
| `Scenario.ReloadAfterChange` | src/context/ShipmentContext.tsx:29-43 | after a change, a store loaded from the slot holds the same list |

## Left out

- Rendering, styling, icons, charts, the hardcoded sensor data, metrics, alerts, the `getData` selector, and the display constants `transactions` and `smartContract`. They have no behaviour to model.
- The static pages, navigation, routing and provider wiring, the contact form and the error boundary. They are outside the workflow.
- Browser storage access, JSON encoding and decoding, and the swallowed exceptions. A read failure or a malformed stored value is modelled as an absent slot. Stored values are values of the model's own types.
- Shipments.ShipmentStore.Persist: every storage write succeeds. A failed write, which the source swallows and which leaves memory ahead of storage, is not modelled.
- Records in storage whose status is some string other than pending or approved. `Shipment.status` is `Option<Status>`.
- The clock. Creation and approval times are parameters. Nothing assumes timestamps are unique, since the source does not enforce it.
- Shipments.ApproveMatching: the model reads the clock once per approval and gives every matching record the same `approvedAt`. The source reads it once per matching record inside the `map` callback, so records that share a timestamp may get different approval times.
- The toast and alert notifications. Confirm returns the notice it would show; submit's alert is left out.
- React state and context mechanics: batched updates, re-render timing and stale closures. Each handler is one atomic method on the current state.
- ShipmentForm.ShipmentFormView.HandleSubmit: the browser's form validation is not modelled. The page marks batch ID, location, carrier, temperature and humidity `required`, and temperature and humidity `type="number"`, so the browser does not submit a form that fails these checks. The model's submit accepts any form. The stage and role pickers are also marked `required`, but their effect depends on the select component, which is not part of this model.
- ShipmentForm.ShipmentFormView.HandleInputChange: the source passes the input element's `name`, which may be any string. It adds unknown names as new keys. The model names only the eight form fields, and the page wires six of them to this handler.
- `Array.prototype.indexOf` and property lookups that reach `Object.prototype`. For a role string such as `toString`, the source finds an inherited value rather than no stage. Both give index -1 and an empty related set, which is what the model computes.
