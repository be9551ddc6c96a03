/**
 * The DespatchLab fulfillment-status sync: `get-fulfillments-needing-sync` picks the undelivered
 * fulfillments that carry a DespatchLab order id, and `sync-fulfillment-statuses-batch` asks DespatchLab
 * for each of them, one at a time, writes the answer into the fulfillment's metadata, creates the
 * shipment and marks the delivery the answer calls for, and counts successes and failures.
 *
 * The fulfillment module, the order module and the two core workflows are the `FulfillmentStore`
 * fields the batch updates; what the remote side answers is the `Remote` parameter.
 */
module FulfillmentSync {
  import opened Wrappers
  import opened Metadata
  import opened Sequences
  import DL = DespatchLabService

  const OrderIdKey := "despatchlab_order_id"
  const StatusKey := "despatchlab_status"
  const ShipmentIdKey := "despatchlab_shipment_id"
  const TrackingKey := "despatchlab_tracking"
  const LastSyncKey := "despatchlab_last_sync"
  const DeliveredStatus := "Delivered"

  // ---------------------------------------------------------------------------------------------
  // Selecting the fulfillments

  /** A fulfillment as the graph query returns it: its id, metadata, two dates and its order's id. */
  datatype Fulfillment = Fulfillment(
    id: string, metadata: Option<Record>, shippedAt: Option<string>, deliveredAt: Option<string>,
    orderId: Option<string>)

  datatype FulfillmentNeedingSync = FulfillmentNeedingSync(
    id: string, despatchLabOrderId: string, orderId: Option<string>, shippedAt: Option<string>,
    deliveredAt: Option<string>, metadata: Option<Record>)

  /**
   * Kept by the query (`delivered_at: null`) and by the filter after it (`metadata.despatchlab_order_id`
   * truthy and of type string).
   */
  predicate NeedsSync(f: Fulfillment) {
    f.deliveredAt.None? && GetNonEmptyString(f.metadata, OrderIdKey).Some?
  }

  /** The fulfillments that need a sync, in the order the query listed them. */
  function Selected(fs: seq<Fulfillment>): (r: seq<Fulfillment>)
    ensures |r| <= |fs|
    ensures forall f :: f in r <==> f in fs && NeedsSync(f)
  {
    if fs == [] then []
    else if NeedsSync(fs[0]) then [fs[0]] + Selected(fs[1..])
    else Selected(fs[1..])
  }

  /** Nothing is reordered: the selection is a subsequence of the listed fulfillments. */
  lemma {:induction false} SelectedIsSubsequence(fs: seq<Fulfillment>)
    ensures IsSubsequence(Selected(fs), fs)
  {
    if fs != [] {
      SelectedIsSubsequence(fs[1..]);
      if NeedsSync(fs[0]) {
        assert fs == [fs[0]] + fs[1..];
        SubsequenceCons(fs[0], Selected(fs[1..]), fs[1..]);
      } else {
        SubsequenceOfTail(Selected(fs), fs);
      }
    }
  }

  /** The record the step hands on for a selected fulfillment. */
  function Project(f: Fulfillment): (r: FulfillmentNeedingSync)
    requires NeedsSync(f)
    ensures r.despatchLabOrderId != "" && Get(f.metadata, OrderIdKey) == Some(VString(r.despatchLabOrderId))
  {
    FulfillmentNeedingSync(
      f.id, GetNonEmptyString(f.metadata, OrderIdKey).value, f.orderId, f.shippedAt, f.deliveredAt, f.metadata)
  }

  /**
   * `get-fulfillments-needing-sync`: `query` is the answer of the graph query over all fulfillments, or
   * the error it threw, which the step rethrows.
   */
  function GetFulfillmentsNeedingSync(query: Result<seq<Fulfillment>>): (r: Result<seq<FulfillmentNeedingSync>>)
    ensures query.Failure? ==> r == Failure(query.error)
    ensures query.Success? ==> r.Success? && |r.value| == |Selected(query.value)|
    ensures query.Success? ==> forall i :: 0 <= i < |r.value| ==>
      var f := Selected(query.value)[i];
      f in query.value && f.deliveredAt.None? &&
      r.value[i] == FulfillmentNeedingSync(f.id, r.value[i].despatchLabOrderId, f.orderId, f.shippedAt, None, f.metadata) &&
      r.value[i].despatchLabOrderId != "" && Get(f.metadata, OrderIdKey) == Some(VString(r.value[i].despatchLabOrderId))
  {
    match query
    case Failure(e) => Failure(e)
    case Success(fs) =>
      var kept := Selected(fs);
      Success(seq(|kept|, i requires 0 <= i < |kept| => Project(kept[i])))
  }

  // ---------------------------------------------------------------------------------------------
  // Syncing one fulfillment

  /** A remote step that throws after `getOrder` has answered, with the message it throws. */
  datatype Fault = NoFault | UpdateFails(msg: string) | ShipmentFails(msg: string) | DeliveryFails(msg: string)

  /**
   * The outside world for one batch: the DespatchLab answer per order id, the items of each Medusa order
   * (absent when the order has no `items`), and which later call, if any, throws for a fulfillment id.
   */
  datatype Remote = Remote(
    orders: string -> Result<DL.RemoteOrder>, orderItems: string -> Option<seq<string>>,
    faults: string -> Fault)

  /** The shipment `createOrderShipmentWorkflow` is run with: one label, whose tracking number is given. */
  datatype Shipment = Shipment(
    orderId: string, fulfillmentId: string, items: seq<string>, trackingNumber: string, shipmentId: string,
    tracking: Option<string>)

  /** An `undefined` field of the remote order, once written into the metadata, reads back as nothing. */
  function StoredString(s: Option<string>): Value {
    if s.Some? then VString(s.value) else VNull
  }

  /** The metadata written back: the fulfillment's own keys, with the four DespatchLab keys overwritten. */
  function SyncedMetadata(f: FulfillmentNeedingSync, o: DL.RemoteOrder, syncedAt: string): (r: Record)
    ensures StatusKey in r && r[StatusKey] == StoredString(o.status)
    ensures ShipmentIdKey in r && r[ShipmentIdKey] == StoredString(o.shipmentId)
    ensures TrackingKey in r && r[TrackingKey] == StoredString(o.lastestTracking)
    ensures LastSyncKey in r && r[LastSyncKey] == VString(syncedAt)
    ensures forall k :: f.metadata.Some? && k in f.metadata.value ==> k in r
    ensures forall k :: f.metadata.Some? && k in f.metadata.value && k !in {StatusKey, ShipmentIdKey, TrackingKey, LastSyncKey} ==>
      r[k] == f.metadata.value[k]
    ensures forall k :: k in r ==> k in {StatusKey, ShipmentIdKey, TrackingKey, LastSyncKey} || (f.metadata.Some? && k in f.metadata.value)
  {
    Merge(f.metadata, map[
      StatusKey := StoredString(o.status), ShipmentIdKey := StoredString(o.shipmentId),
      TrackingKey := StoredString(o.lastestTracking), LastSyncKey := VString(syncedAt)])
  }

  /** What the sync of one fulfillment changed: the metadata it wrote, the shipment it created, the delivery it marked. */
  datatype Effects = Effects(metadata: Option<Record>, shipment: Option<Shipment>, delivered: bool)

  /** The effects that took place, and the error description when the sync of the fulfillment threw. */
  datatype Outcome = Outcome(effects: Effects, error: Option<string>)

  /** The entry pushed to `errors` for a fulfillment whose sync threw. */
  function Describe(id: string, message: string): string {
    "Fulfillment " + id + ": " + message
  }

  /** DespatchLab reports a shipment, the fulfillment has no shipping date yet and it belongs to an order. */
  predicate ShouldShip(f: FulfillmentNeedingSync, o: DL.RemoteOrder) {
    Truthy(o.shipmentId) && !Truthy(f.shippedAt) && Truthy(f.orderId)
  }

  /** DespatchLab reports the status "Delivered" exactly and the fulfillment has no delivery date yet. */
  predicate ShouldDeliver(f: FulfillmentNeedingSync, o: DL.RemoteOrder) {
    o.status == Some(DeliveredStatus) && !Truthy(f.deliveredAt)
  }

  /** Whether `fault` makes the sync throw, given what the DespatchLab answer calls for. */
  predicate Throws(fault: Fault, ships: bool, delivers: bool) {
    match fault
    case NoFault => false
    case UpdateFails(_) => true
    case ShipmentFails(_) => ships
    case DeliveryFails(_) => delivers
  }

  /**
   * The body of the `try` for one fulfillment: `getOrder`, the metadata update, the shipment when DespatchLab
   * reports one and the fulfillment is not shipped yet, the delivery when DespatchLab reports "Delivered";
   * each call that throws ends the body, keeping what the calls before it did.
   */
  function SyncOne(f: FulfillmentNeedingSync, remote: Remote, syncedAt: string): (r: Outcome)
    ensures var answer := DL.GetOrder(f.despatchLabOrderId, remote.orders(f.despatchLabOrderId));
      answer.Failure? ==> r == Outcome(Effects(None, None, false), Some(Describe(f.id, answer.error)))
    ensures r.error.None? <==>
      DL.IsUuidLayout(f.despatchLabOrderId) && remote.orders(f.despatchLabOrderId).Success? &&
      !Throws(remote.faults(f.id), ShouldShip(f, remote.orders(f.despatchLabOrderId).value),
        ShouldDeliver(f, remote.orders(f.despatchLabOrderId).value))
    ensures r.error.Some? ==> exists m :: r.error == Some(Describe(f.id, m))
    ensures var answer := DL.GetOrder(f.despatchLabOrderId, remote.orders(f.despatchLabOrderId));
      answer.Success? && Throws(remote.faults(f.id), ShouldShip(f, answer.value), ShouldDeliver(f, answer.value)) ==>
        r.error == Some(Describe(f.id, remote.faults(f.id).msg)) &&
        (remote.faults(f.id).UpdateFails? ==> r.effects == Effects(None, None, false))
    ensures r.effects.metadata.Some? ==>
      DL.IsUuidLayout(f.despatchLabOrderId) && remote.orders(f.despatchLabOrderId).Success? &&
      r.effects.metadata.value == SyncedMetadata(f, remote.orders(f.despatchLabOrderId).value, syncedAt)
    ensures r.effects.shipment.Some? ==>
      var o := remote.orders(f.despatchLabOrderId).value;
      r.effects.metadata.Some? && ShouldShip(f, o) &&
      r.effects.shipment.value == Shipment(
        f.orderId.value, f.id, remote.orderItems(f.orderId.value).GetOr([]),
        if Truthy(o.lastestTracking) then o.lastestTracking.value else "", o.shipmentId.value, o.lastestTracking)
    ensures r.effects.delivered ==> r.effects.metadata.Some? && ShouldDeliver(f, remote.orders(f.despatchLabOrderId).value)
    ensures r.error.None? ==>
      var o := remote.orders(f.despatchLabOrderId).value;
      r.effects.metadata.Some? && (r.effects.shipment.Some? <==> ShouldShip(f, o)) && (r.effects.delivered <==> ShouldDeliver(f, o))
  {
    match DL.GetOrder(f.despatchLabOrderId, remote.orders(f.despatchLabOrderId))
    case Failure(e) => Outcome(Effects(None, None, false), Some(Describe(f.id, e)))
    case Success(o) =>
      var fault := remote.faults(f.id);
      if fault.UpdateFails? then Outcome(Effects(None, None, false), Some(Describe(f.id, fault.msg)))
      else
        var md := SyncedMetadata(f, o, syncedAt);
        var ships := ShouldShip(f, o);
        if ships && fault.ShipmentFails? then Outcome(Effects(Some(md), None, false), Some(Describe(f.id, fault.msg)))
        else
          var shipment :=
            if ships then
              Some(Shipment(
                f.orderId.value, f.id, remote.orderItems(f.orderId.value).GetOr([]),
                OrElse(o.lastestTracking, Some("")).value, o.shipmentId.value, o.lastestTracking))
            else None;
          var delivers := ShouldDeliver(f, o);
          if delivers && fault.DeliveryFails? then Outcome(Effects(Some(md), shipment, false), Some(Describe(f.id, fault.msg)))
          else Outcome(Effects(Some(md), shipment, delivers), None)
  }

  // ---------------------------------------------------------------------------------------------
  // The batch

  /** What the batch writes: fulfillment metadata by id, the shipments created, the fulfillments marked delivered. */
  datatype Store = Store(metadata: map<string, Record>, shipments: seq<Shipment>, delivered: seq<string>)

  /** The store once the effects of one fulfillment's sync took place. */
  function Apply(s: Store, id: string, e: Effects): Store {
    Store(
      if e.metadata.Some? then s.metadata[id := e.metadata.value] else s.metadata,
      s.shipments + (if e.shipment.Some? then [e.shipment.value] else []),
      s.delivered + (if e.delivered then [id] else []))
  }

  /** The store and the three accumulators of the batch loop. */
  datatype Progress = Progress(store: Store, successful: nat, failed: nat, errors: seq<string>)

  function Start(s: Store): Progress {
    Progress(s, 0, 0, [])
  }

  /** One iteration of the loop: sync the fulfillment, then count it as a success or record its error. */
  function Step(p: Progress, f: FulfillmentNeedingSync, remote: Remote, syncedAt: string): Progress {
    var o := SyncOne(f, remote, syncedAt);
    Progress(
      Apply(p.store, f.id, o.effects),
      if o.error.None? then p.successful + 1 else p.successful,
      if o.error.Some? then p.failed + 1 else p.failed,
      p.errors + (if o.error.Some? then [o.error.value] else []))
  }

  /** The loop over `fs`, in input order. */
  function Process(p: Progress, fs: seq<FulfillmentNeedingSync>, remote: Remote, syncedAt: string): Progress
    decreases |fs|
  {
    if fs == [] then p
    else Step(Process(p, fs[..|fs| - 1], remote, syncedAt), fs[|fs| - 1], remote, syncedAt)
  }

  datatype BatchResult = BatchResult(totalFulfillments: nat, successfulSyncs: nat, failedSyncs: nat, errors: seq<string>)

  /** Every fulfillment is counted once: the successes and the failures add up to the batch size, one error per failure. */
  lemma {:induction false} BatchCounts(s: Store, fs: seq<FulfillmentNeedingSync>, remote: Remote, syncedAt: string)
    ensures var q := Process(Start(s), fs, remote, syncedAt);
      q.successful + q.failed == |fs| && |q.errors| == q.failed
  {
    if fs != [] {
      BatchCounts(s, fs[..|fs| - 1], remote, syncedAt);
    }
  }

  /** The batch is a fold: processing `fs + gs` is processing `fs`, then `gs` from the progress reached. */
  lemma {:induction false} ProcessConcat(p: Progress, fs: seq<FulfillmentNeedingSync>, gs: seq<FulfillmentNeedingSync>, remote: Remote, syncedAt: string)
    ensures Process(p, fs + gs, remote, syncedAt) == Process(Process(p, fs, remote, syncedAt), gs, remote, syncedAt)
    decreases |gs|
  {
    if gs == [] {
      assert fs + gs == fs;
    } else {
      assert (fs + gs)[..|fs + gs| - 1] == fs + gs[..|gs| - 1];
      ProcessConcat(p, fs, gs[..|gs| - 1], remote, syncedAt);
    }
  }

  /** One step keeps the errors so far and adds at most one, naming the step's fulfillment. */
  lemma StepErrors(q0: Progress, f: FulfillmentNeedingSync, remote: Remote, syncedAt: string)
    ensures var q := Step(q0, f, remote, syncedAt);
      |q0.errors| <= |q.errors| <= |q0.errors| + 1 && q.errors[..|q0.errors|] == q0.errors &&
      (|q.errors| > |q0.errors| ==> exists m :: q.errors[|q0.errors|] == Describe(f.id, m))
  {
    var o := SyncOne(f, remote, syncedAt);
    if o.error.Some? {
      var m :| o.error == Some(Describe(f.id, m));
      assert Step(q0, f, remote, syncedAt).errors == q0.errors + [Describe(f.id, m)];
    }
  }

  /** From index `from` on, each error names a fulfillment of `fs`. */
  ghost predicate NamedFrom(fs: seq<FulfillmentNeedingSync>, errors: seq<string>, from: nat) {
    forall i :: from <= i < |errors| ==> NamedAt(fs, errors, i)
  }

  ghost predicate NamedAt(fs: seq<FulfillmentNeedingSync>, errors: seq<string>, i: nat)
    requires i < |errors|
  {
    exists f, m :: f in fs && errors[i] == Describe(f.id, m)
  }

  /** Each error names a fulfillment of the batch: "Fulfillment <id>: <message>". */
  lemma {:induction false} ErrorsNameTheirFulfillment(p: Progress, fs: seq<FulfillmentNeedingSync>, remote: Remote, syncedAt: string)
    ensures var q := Process(p, fs, remote, syncedAt);
      |p.errors| <= |q.errors| && q.errors[..|p.errors|] == p.errors && NamedFrom(fs, q.errors, |p.errors|)
  {
    if fs != [] {
      var init := fs[..|fs| - 1];
      var last := fs[|fs| - 1];
      ErrorsNameTheirFulfillment(p, init, remote, syncedAt);
      var q0 := Process(p, init, remote, syncedAt);
      var q := Step(q0, last, remote, syncedAt);
      assert Process(p, fs, remote, syncedAt) == q;
      StepErrors(q0, last, remote, syncedAt);
      assert q.errors[..|p.errors|] == q.errors[..|q0.errors|][..|p.errors|] == q0.errors[..|p.errors|];
      forall i | |p.errors| <= i < |q.errors|
        ensures NamedAt(fs, q.errors, i)
      {
        if i < |q0.errors| {
          assert NamedAt(init, q0.errors, i);
          var f, m :| f in init && q0.errors[i] == Describe(f.id, m);
          assert q.errors[i] == q.errors[..|q0.errors|][i];
          assert f in fs && q.errors[i] == Describe(f.id, m);
        } else {
          var m :| q.errors[|q0.errors|] == Describe(last.id, m);
          assert last in fs && q.errors[i] == Describe(last.id, m);
        }
      }
      assert NamedFrom(fs, q.errors, |p.errors|);
    }
  }

  /** One step keeps the shipments so far and adds at most one, for the step's fulfillment when it ships. */
  lemma StepShipments(q0: Progress, f: FulfillmentNeedingSync, remote: Remote, syncedAt: string)
    ensures var q := Step(q0, f, remote, syncedAt);
      |q0.store.shipments| <= |q.store.shipments| <= |q0.store.shipments| + 1 &&
      q.store.shipments[..|q0.store.shipments|] == q0.store.shipments &&
      (|q.store.shipments| > |q0.store.shipments| ==>
        q.store.shipments[|q0.store.shipments|].fulfillmentId == f.id && Ships(f, remote))
  {
    var e := SyncOne(f, remote, syncedAt).effects;
    if e.shipment.Some? {
      assert Step(q0, f, remote, syncedAt).store.shipments == q0.store.shipments + [e.shipment.value];
    } else {
      assert Step(q0, f, remote, syncedAt).store.shipments == q0.store.shipments + [];
    }
  }

  /** From index `from` on, each shipment is for a fulfillment of `fs` whose shipment DespatchLab reported. */
  ghost predicate ShippedFrom(fs: seq<FulfillmentNeedingSync>, shipments: seq<Shipment>, from: nat, remote: Remote) {
    forall i :: from <= i < |shipments| ==> ShippedAt(fs, shipments, i, remote)
  }

  ghost predicate ShippedAt(fs: seq<FulfillmentNeedingSync>, shipments: seq<Shipment>, i: nat, remote: Remote)
    requires i < |shipments|
  {
    exists f :: f in fs && shipments[i].fulfillmentId == f.id && Ships(f, remote)
  }

  /** The shipments the batch created, each for a fulfillment of the batch whose shipment DespatchLab reported. */
  lemma {:induction false} ShipmentsAreReported(p: Progress, fs: seq<FulfillmentNeedingSync>, remote: Remote, syncedAt: string)
    ensures var q := Process(p, fs, remote, syncedAt);
      |p.store.shipments| <= |q.store.shipments| && q.store.shipments[..|p.store.shipments|] == p.store.shipments &&
      ShippedFrom(fs, q.store.shipments, |p.store.shipments|, remote)
  {
    if fs != [] {
      var init := fs[..|fs| - 1];
      var last := fs[|fs| - 1];
      ShipmentsAreReported(p, init, remote, syncedAt);
      var q0 := Process(p, init, remote, syncedAt);
      var q := Step(q0, last, remote, syncedAt);
      assert Process(p, fs, remote, syncedAt) == q;
      StepShipments(q0, last, remote, syncedAt);
      var before, after := q0.store.shipments, q.store.shipments;
      assert after[..|p.store.shipments|] == after[..|before|][..|p.store.shipments|];
      assert after[..|p.store.shipments|] == before[..|p.store.shipments|];
      forall i | |p.store.shipments| <= i < |after|
        ensures ShippedAt(fs, after, i, remote)
      {
        if i < |before| {
          assert ShippedAt(init, before, i, remote);
          var f :| f in init && before[i].fulfillmentId == f.id && Ships(f, remote);
          assert after[i] == after[..|before|][i];
          assert f in fs && after[i].fulfillmentId == f.id && Ships(f, remote);
        } else {
          assert i == |before| && after[|before|].fulfillmentId == last.id && Ships(last, remote);
          assert last in fs && after[i].fulfillmentId == last.id && Ships(last, remote);
        }
      }
      assert ShippedFrom(fs, after, |p.store.shipments|, remote);
    }
  }

  /** One step keeps the deliveries so far and adds at most the step's fulfillment, when it is delivered. */
  lemma StepDeliveries(q0: Progress, f: FulfillmentNeedingSync, remote: Remote, syncedAt: string)
    ensures var q := Step(q0, f, remote, syncedAt);
      |q0.store.delivered| <= |q.store.delivered| <= |q0.store.delivered| + 1 &&
      q.store.delivered[..|q0.store.delivered|] == q0.store.delivered &&
      (|q.store.delivered| > |q0.store.delivered| ==> q.store.delivered[|q0.store.delivered|] == f.id && Delivers(f, remote))
  {
    var e := SyncOne(f, remote, syncedAt).effects;
    if e.delivered {
      assert Step(q0, f, remote, syncedAt).store.delivered == q0.store.delivered + [f.id];
    } else {
      assert Step(q0, f, remote, syncedAt).store.delivered == q0.store.delivered + [];
    }
  }

  /** From index `from` on, each id in `delivered` is that of a fulfillment of `fs` DespatchLab reported as delivered. */
  ghost predicate DeliveredFrom(fs: seq<FulfillmentNeedingSync>, delivered: seq<string>, from: nat, remote: Remote) {
    forall i :: from <= i < |delivered| ==> DeliveredAt(fs, delivered, i, remote)
  }

  ghost predicate DeliveredAt(fs: seq<FulfillmentNeedingSync>, delivered: seq<string>, i: nat, remote: Remote)
    requires i < |delivered|
  {
    exists f :: f in fs && delivered[i] == f.id && Delivers(f, remote)
  }

  /** The fulfillments the batch marked delivered, each one DespatchLab reported as "Delivered". */
  lemma {:induction false} DeliveriesAreReported(p: Progress, fs: seq<FulfillmentNeedingSync>, remote: Remote, syncedAt: string)
    ensures var q := Process(p, fs, remote, syncedAt);
      |p.store.delivered| <= |q.store.delivered| && q.store.delivered[..|p.store.delivered|] == p.store.delivered &&
      DeliveredFrom(fs, q.store.delivered, |p.store.delivered|, remote)
  {
    if fs != [] {
      var init := fs[..|fs| - 1];
      var last := fs[|fs| - 1];
      DeliveriesAreReported(p, init, remote, syncedAt);
      var q0 := Process(p, init, remote, syncedAt);
      var q := Step(q0, last, remote, syncedAt);
      assert Process(p, fs, remote, syncedAt) == q;
      StepDeliveries(q0, last, remote, syncedAt);
      var before, after := q0.store.delivered, q.store.delivered;
      assert after[..|p.store.delivered|] == after[..|before|][..|p.store.delivered|] == before[..|p.store.delivered|];
      forall i | |p.store.delivered| <= i < |after|
        ensures DeliveredAt(fs, after, i, remote)
      {
        if i < |before| {
          assert DeliveredAt(init, before, i, remote);
          var f :| f in init && before[i] == f.id && Delivers(f, remote);
          assert after[i] == after[..|before|][i];
          assert f in fs && after[i] == f.id && Delivers(f, remote);
        } else {
          assert i == |before| && after[|before|] == last.id && Delivers(last, remote);
          assert last in fs && after[i] == last.id && Delivers(last, remote);
        }
      }
      assert DeliveredFrom(fs, after, |p.store.delivered|, remote);
    }
  }

  /** The DespatchLab answer for `f` reports a shipment that `f` is to receive. */
  predicate Ships(f: FulfillmentNeedingSync, remote: Remote) {
    remote.orders(f.despatchLabOrderId).Success? && ShouldShip(f, remote.orders(f.despatchLabOrderId).value)
  }

  /** The DespatchLab answer for `f` reports a delivery that `f` is to be marked with. */
  predicate Delivers(f: FulfillmentNeedingSync, remote: Remote) {
    remote.orders(f.despatchLabOrderId).Success? && ShouldDeliver(f, remote.orders(f.despatchLabOrderId).value)
  }

  /** The fulfillment and order modules, as far as the batch writes to them. */
  class FulfillmentStore {
    var metadata: map<string, Record>
    var shipments: seq<Shipment>
    var delivered: seq<string>

    constructor (s: Store)
      ensures State() == s
    {
      metadata, shipments, delivered := s.metadata, s.shipments, s.delivered;
    }

    function State(): Store
      reads this
    {
      Store(metadata, shipments, delivered)
    }

    /** The `try` body for one fulfillment; `error` is the description the `catch` would push. */
    method SyncFulfillment(f: FulfillmentNeedingSync, remote: Remote, syncedAt: string) returns (error: Option<string>)
      modifies this
      ensures State() == Apply(old(State()), f.id, SyncOne(f, remote, syncedAt).effects)
      ensures error == SyncOne(f, remote, syncedAt).error
    {
      var answer := DL.GetOrder(f.despatchLabOrderId, remote.orders(f.despatchLabOrderId));
      if answer.Failure? {
        return Some(Describe(f.id, answer.error));
      }
      var o := answer.value;
      var fault := remote.faults(f.id);
      if fault.UpdateFails? {
        return Some(Describe(f.id, fault.msg));
      }
      metadata := metadata[f.id := SyncedMetadata(f, o, syncedAt)];
      if ShouldShip(f, o) {
        if fault.ShipmentFails? {
          return Some(Describe(f.id, fault.msg));
        }
        var items := remote.orderItems(f.orderId.value).GetOr([]);
        var trackingNumber := OrElse(o.lastestTracking, Some("")).value;
        shipments := shipments + [Shipment(f.orderId.value, f.id, items, trackingNumber, o.shipmentId.value, o.lastestTracking)];
      }
      if ShouldDeliver(f, o) {
        if fault.DeliveryFails? {
          return Some(Describe(f.id, fault.msg));
        }
        delivered := delivered + [f.id];
      }
      error := None;
    }

    /** `sync-fulfillment-statuses-batch`: the fulfillments one by one, in order, counting each outcome. */
    method SyncBatch(fs: seq<FulfillmentNeedingSync>, remote: Remote, syncedAt: string) returns (r: BatchResult)
      modifies this
      ensures var q := Process(Start(old(State())), fs, remote, syncedAt);
        State() == q.store && r == BatchResult(|fs|, q.successful, q.failed, q.errors)
    {
      ghost var start := Start(State());
      var errors: seq<string> := [];
      var successfulSyncs: nat := 0;
      var failedSyncs: nat := 0;
      var i := 0;
      while i < |fs|
        invariant 0 <= i <= |fs|
        invariant Progress(State(), successfulSyncs, failedSyncs, errors) == Process(start, fs[..i], remote, syncedAt)
      {
        assert fs[..i + 1][..i] == fs[..i];
        var error := SyncFulfillment(fs[i], remote, syncedAt);
        if error.None? {
          successfulSyncs := successfulSyncs + 1;
        } else {
          errors := errors + [error.value];
          failedSyncs := failedSyncs + 1;
        }
        i := i + 1;
      }
      assert fs[..i] == fs;
      r := BatchResult(|fs|, successfulSyncs, failedSyncs, errors);
    }
  }
}
