/**
 * The `order.placed` subscriber that fulfils and ships every new order at once: it makes sure the order
 * carries its company's DespatchLab customer id, creates the fulfillment, then creates a shipment with a
 * generated tracking code.
 *
 * `Math.random` is given as the number and the two letter positions the tracking code draws; the order
 * module, the link query and the two core workflows are parameters that answer or fail.
 */
module AutoFulfillOrder {
  import opened Wrappers
  import opened Text
  import opened Metadata
  import PL = ProviderLinks

  const Letters := "ABCDEFGHIJKLMNOPQRSTUVWXYZ"
  const DefaultCountryCode := "XX"
  const CustomerIdKey := "despatchlab_customer_id"
  const CompanyIdKey := "company_id"

  /** Nine decimal digits that read back as `number`: its digits, zero-padded on the left. */
  function TrackingDigits(number: nat): (r: string)
    requires number < 1000000000
    ensures |r| == 9 && (forall i :: 0 <= i < 9 ==> IsDigit(r[i])) && DecimalValue(r) == number
  {
    var s := NatToString(number);
    NatToStringLength(number, 9);
    var zeros := seq(9 - |s|, _ => '0');
    assert PadStart(s, 9, '0') == zeros + s;
    LeadingZerosReadAsNothing(zeros, s);
    NatToStringReadsBack(number);
    PadStart(s, 9, '0')
  }

  /** Every letter a tracking code may end with is a capital. */
  lemma LettersAreCapitals(i: nat)
    requires i < 26
    ensures 'A' <= Letters[i] <= 'Z'
  {
  }

  /**
   * `generateTrackingCode`: the upper-cased country code ("XX" when none is passed), nine digits that read
   * back as the drawn number, and two capital letters.
   */
  function GenerateTrackingCode(countryCode: Option<string>, number: nat, first: nat, second: nat): (r: string)
    requires number < 1000000000 && first < 26 && second < 26
    ensures var prefix := ToUpper(countryCode.GetOr(DefaultCountryCode));
      |r| == |prefix| + 11 && r[..|prefix|] == prefix && r[|prefix|..|prefix| + 9] == TrackingDigits(number) &&
      'A' <= r[|r| - 2] <= 'Z' && 'A' <= r[|r| - 1] <= 'Z'
  {
    var prefix := ToUpper(countryCode.GetOr(DefaultCountryCode));
    LettersAreCapitals(first);
    LettersAreCapitals(second);
    var code := prefix + TrackingDigits(number) + [Letters[first], Letters[second]];
    assert code[|prefix|..|prefix| + 9] == TrackingDigits(number);
    code
  }

  datatype LineItem = LineItem(id: string, quantity: int)

  datatype Order = Order(
    id: string, items: Option<seq<LineItem>>, metadata: Option<Record>, countryCode: Option<string>)

  /** The draws of `Math.random` one run makes, already scaled to their ranges. */
  datatype Draws = Draws(number: nat, first: nat, second: nat)

  predicate ValidDraws(d: Draws) {
    d.number < 1000000000 && d.first < 26 && d.second < 26
  }

  /** What the outside world answers: the link query, and the two workflows (an id, or the error thrown). */
  datatype Remote = Remote(
    links: Result<seq<Option<PL.ProviderConfig>>>, fulfillmentCreated: Result<string>, shipmentCreated: Option<string>)

  datatype FulfillmentRequest = FulfillmentRequest(orderId: string, items: seq<LineItem>)

  datatype ShipmentRequest = ShipmentRequest(orderId: string, fulfillmentId: string, items: seq<LineItem>, trackingNumber: string)

  /** What the handler did before it returned or threw. */
  datatype Effects = Effects(
    metadataUpdate: Option<Record>, fulfillment: Option<FulfillmentRequest>, shipment: Option<ShipmentRequest>)

  datatype Outcome = Outcome(effects: Effects, error: Option<string>)

  const Nothing := Effects(None, None, None)

  function NoCompanyId(orderId: string): string {
    "Order " + orderId + " does not have companyId, cannot be fulfilled"
  }

  function NoCustomerId(orderId: string): string {
    "Order " + orderId + " does not have despatchLabCustomerId, cannot be fulfilled"
  }

  /** The runtime error thrown when the link query finds no link: `companyProviderLinks[0]` is undefined. */
  const NoLinkConfig := "Cannot read properties of undefined (reading 'config')"

  /** The runtime error thrown when the first link's configuration is null. */
  const NullLinkConfig := "Cannot read properties of null (reading 'customerId')"

  /**
   * The customer id to add to the order metadata, when the order lacks one: the first DespatchLab link of
   * the company carries it in its configuration.
   */
  function LookUpCustomerId(o: Order, links: Result<seq<Option<PL.ProviderConfig>>>): (r: Result<string>)
    requires !TruthyValue(Get(o.metadata, CustomerIdKey).GetOr(VNull))
    ensures !TruthyValue(Get(o.metadata, CompanyIdKey).GetOr(VNull)) ==> r == Failure(NoCompanyId(o.id))
    ensures TruthyValue(Get(o.metadata, CompanyIdKey).GetOr(VNull)) && links.Success? ==>
      (|links.value| == 0 ==> r == Failure(NoLinkConfig)) &&
      (|links.value| > 0 && links.value[0].None? ==> r == Failure(NullLinkConfig)) &&
      (|links.value| > 0 && links.value[0].Some? && !Truthy(links.value[0].value.customerId) ==> r == Failure(NoCustomerId(o.id)))
    ensures TruthyValue(Get(o.metadata, CompanyIdKey).GetOr(VNull)) && links.Failure? ==> r == Failure(links.error)
    ensures r.Success? ==>
      r.value != "" && links.Success? && |links.value| > 0 && links.value[0].Some? &&
      links.value[0].value.customerId == Some(r.value)
  {
    if !TruthyValue(Get(o.metadata, CompanyIdKey).GetOr(VNull)) then Failure(NoCompanyId(o.id))
    else
      match links
      case Failure(e) => Failure(e)
      case Success(ls) =>
        if |ls| == 0 then Failure(NoLinkConfig)
        else if ls[0].None? then Failure(NullLinkConfig)
        else if !Truthy(ls[0].value.customerId) then Failure(NoCustomerId(o.id))
        else Success(ls[0].value.customerId.value)
  }

  /** The order already names its DespatchLab customer. */
  predicate CarriesCustomerId(o: Order) {
    TruthyValue(Get(o.metadata, CustomerIdKey).GetOr(VNull))
  }

  /** The handler gets past the customer-id check: the order names a customer, or the lookup finds one. */
  predicate CustomerKnown(o: Order, links: Result<seq<Option<PL.ProviderConfig>>>) {
    CarriesCustomerId(o) || LookUpCustomerId(o, links).Success?
  }

  /**
   * `autoFulfillOrder`. The fulfillment comes first and the shipment names it; the shipment's tracking
   * code uses the shipping address's country code.
   */
  function AutoFulfill(o: Order, remote: Remote, draws: Draws): (r: Outcome)
    requires ValidDraws(draws)
    ensures o.items.None? ==> r == Outcome(Nothing, None)
    ensures r.effects.shipment.Some? ==>
      r.effects.fulfillment.Some? && remote.fulfillmentCreated.Success? &&
      r.effects.shipment.value.fulfillmentId == remote.fulfillmentCreated.value &&
      r.effects.shipment.value.trackingNumber ==
        GenerateTrackingCode(if o.countryCode.Some? then Some(ToUpper(o.countryCode.value)) else None, draws.number, draws.first, draws.second)
    ensures r.effects.fulfillment.Some? ==> o.items.Some? && r.effects.fulfillment.value == FulfillmentRequest(o.id, o.items.value)
    ensures TruthyValue(Get(o.metadata, CustomerIdKey).GetOr(VNull)) ==> r.effects.metadataUpdate.None?
    ensures o.items.Some? && !TruthyValue(Get(o.metadata, CustomerIdKey).GetOr(VNull)) && !TruthyValue(Get(o.metadata, CompanyIdKey).GetOr(VNull)) ==>
      r == Outcome(Nothing, Some(NoCompanyId(o.id)))
    ensures r.effects.metadataUpdate.Some? ==>
      !TruthyValue(Get(o.metadata, CustomerIdKey).GetOr(VNull)) && LookUpCustomerId(o, remote.links).Success? &&
      r.effects.metadataUpdate.value == Merge(o.metadata, map[CustomerIdKey := VString(LookUpCustomerId(o, remote.links).value)])
    ensures r.effects.fulfillment.Some? && !TruthyValue(Get(o.metadata, CustomerIdKey).GetOr(VNull)) ==>
      r.effects.metadataUpdate.Some?
    ensures r.error.None? <==> o.items.None? || r.effects.shipment.Some?
    ensures o.items.Some? && !CarriesCustomerId(o) && LookUpCustomerId(o, remote.links).Failure? ==>
      r == Outcome(Nothing, Some(LookUpCustomerId(o, remote.links).error))
    ensures o.items.Some? && CustomerKnown(o, remote.links) && remote.fulfillmentCreated.Failure? ==>
      r.error == Some(remote.fulfillmentCreated.error) && r.effects.fulfillment.None? && r.effects.shipment.None?
    ensures o.items.Some? && CustomerKnown(o, remote.links) && remote.fulfillmentCreated.Success? ==>
      r.effects.fulfillment == Some(FulfillmentRequest(o.id, o.items.value)) && r.error == remote.shipmentCreated &&
      (remote.shipmentCreated.None? ==>
        r.effects.shipment.Some? && r.effects.shipment.value.orderId == o.id && r.effects.shipment.value.items == o.items.value)
    ensures o.items.Some? && !CarriesCustomerId(o) && LookUpCustomerId(o, remote.links).Success? ==>
      r.effects.metadataUpdate == Some(Merge(o.metadata, map[CustomerIdKey := VString(LookUpCustomerId(o, remote.links).value)]))
  {
    if o.items.None? then Outcome(Nothing, None)
    else
      var customer :=
        if TruthyValue(Get(o.metadata, CustomerIdKey).GetOr(VNull)) then Success(None)
        else match LookUpCustomerId(o, remote.links)
          case Failure(e) => Failure(e)
          case Success(id) => Success(Some(id));
      match customer
      case Failure(e) => Outcome(Nothing, Some(e))
      case Success(added) =>
        var update := if added.Some? then Some(Merge(o.metadata, map[CustomerIdKey := VString(added.value)])) else None;
        match remote.fulfillmentCreated
        case Failure(e) => Outcome(Effects(update, None, None), Some(e))
        case Success(fulfillmentId) =>
          var fulfillment := FulfillmentRequest(o.id, o.items.value);
          var code := GenerateTrackingCode(
            if o.countryCode.Some? then Some(ToUpper(o.countryCode.value)) else None, draws.number, draws.first, draws.second);
          var shipment := ShipmentRequest(o.id, fulfillmentId, o.items.value, code);
          if remote.shipmentCreated.Some? then Outcome(Effects(update, Some(fulfillment), None), remote.shipmentCreated)
          else Outcome(Effects(update, Some(fulfillment), Some(shipment)), None)
  }
}
