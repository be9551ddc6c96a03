/**
 * `create-despatch-lab-order`: the transform that turns a Medusa order into a DespatchLab order request,
 * the creation of that order, and the order metadata update that records the DespatchLab order.
 *
 * The country table of the DespatchLab module is the `countries` parameter, from upper-case country code
 * to DespatchLab country id; the order creation is the `created` parameter.
 */
module CreateOrder {
  import opened Wrappers
  import opened Text
  import opened Metadata

  const CustomerIdKey := "despatchlab_customer_id"
  const OrderIdKey := "despatchlab_order_id"
  const DefaultRecipientName := "Customer"
  const DeliveryType := "Overnight"
  const LocationType := "Business"
  /** The "Mail" service type. */
  const ServiceTypeId := "fde829cd-34ed-4df3-b747-3c449d9b5ef9"
  /** The "Standard 48 (Parcel)" feature. */
  const FeatureId := "acedb878-a2e6-4584-a927-f8c0b2d1cb0c"

  datatype LineItem = LineItem(variantSku: Option<string>, quantity: Option<int>)

  datatype Address = Address(
    firstName: Option<string>, lastName: Option<string>, company: Option<string>, address1: Option<string>,
    address2: Option<string>, city: Option<string>, province: Option<string>, postalCode: Option<string>,
    countryCode: Option<string>, phone: Option<string>)

  /** The order as the workflow retrieves it; only the fields the transform reads. */
  datatype Order = Order(
    id: string, displayId: nat, email: Option<string>, metadata: Option<Record>, items: Option<seq<LineItem>>,
    shippingAddress: Option<Address>)

  datatype OrderProduct = OrderProduct(sku: Option<string>, quantity: int)

  datatype OrderCreateRequest = OrderCreateRequest(
    customerId: Value, customerReference: string, printDespatchNote: bool, addPackagingToOrder: bool,
    deliveryType: string, serviceTypeId: string, featureId: string, companyName: Option<string>,
    addressLine1: string, addressLine2: Option<string>, townOrCity: string, countyOrState: string,
    postcodeOrZip: string, countryId: Option<int>, locationType: string, recipientName: string,
    recipientEmail: string, recipientNumber: string, products: seq<OrderProduct>)

  /** What the transform hands to the order-creation step. */
  datatype CreateOrderInput = CreateOrderInput(customerId: Value, orderData: OrderCreateRequest)

  function MissingCustomerId(orderId: string): string {
    "Order " + orderId + " is missing DespatchLab customer ID in metadata. Ensure the company has DespatchLab configured."
  }

  /** `value || undefined` on an optional string: the empty string is dropped too. */
  function NonEmpty(s: Option<string>): (r: Option<string>)
    ensures r.Some? <==> Truthy(s)
    ensures r.Some? ==> r == s
  {
    if Truthy(s) then s else None
  }

  /** One product line per order item: its SKU, and its quantity with 0 or a missing quantity read as 1. */
  function ToProduct(item: LineItem): (p: OrderProduct)
    ensures p.sku == NonEmpty(item.variantSku)
    ensures item.quantity.Some? && item.quantity.value != 0 ==> p.quantity == item.quantity.value
    ensures item.quantity.None? || item.quantity.value == 0 ==> p.quantity == 1
  {
    OrderProduct(NonEmpty(item.variantSku), if item.quantity.Some? && item.quantity.value != 0 then item.quantity.value else 1)
  }

  /** The shipping address's first and last name, trimmed, or "Customer" when nothing is left. */
  function RecipientName(a: Option<Address>): (r: string)
    ensures r != [] && !IsSpace(r[0]) && !IsSpace(r[|r| - 1])
    ensures var joined := Trim(OrEmpty(if a.Some? then a.value.firstName else None) + " " + OrEmpty(if a.Some? then a.value.lastName else None));
      r == if joined != "" then joined else DefaultRecipientName
  {
    var first := OrEmpty(if a.Some? then a.value.firstName else None);
    var last := OrEmpty(if a.Some? then a.value.lastName else None);
    var joined := Trim(first + " " + last);
    if joined != "" then joined else DefaultRecipientName
  }

  /** The DespatchLab id of a country code: none when the code is missing, unknown, or mapped to 0. */
  function CountryId(countries: map<string, int>, code: Option<string>): (r: Option<int>)
    ensures r.Some? <==> Truthy(code) && ToUpper(code.value) in countries && countries[ToUpper(code.value)] != 0
    ensures r.Some? ==> r.value == countries[ToUpper(code.value)]
  {
    if !Truthy(code) then None
    else if ToUpper(code.value) in countries && countries[ToUpper(code.value)] != 0 then Some(countries[ToUpper(code.value)])
    else None
  }

  /** "#<display id> <order id>". */
  function CustomerReference(o: Order): string {
    "#" + NatToString(o.displayId) + " " + o.id
  }

  /** The reference can be read back: after the "#", the text up to the first space is the display id. */
  lemma CustomerReferenceReadsBack(o: Order)
    ensures var ref := CustomerReference(o);
      ref[0] == '#' && Split(ref[1..], ' ') == [NatToString(o.displayId)] + Split(o.id, ' ')
  {
    var digits := NatToString(o.displayId);
    assert ' ' !in digits;
    assert CustomerReference(o)[1..] == digits + [' '] + o.id;
    SplitAtFirst(digits, ' ', o.id);
  }

  /** An order without a shipping address reads every address field as missing. */
  const NoAddress := Address(None, None, None, None, None, None, None, None, None, None)

  /** The transform: fails without a truthy `despatchlab_customer_id`, otherwise builds the request. */
  function Transform(o: Order, countries: map<string, int>): (r: Result<CreateOrderInput>)
    ensures r.Failure? <==> Get(o.metadata, CustomerIdKey).None? || !TruthyValue(Get(o.metadata, CustomerIdKey).value)
    ensures r.Failure? ==> r.error == MissingCustomerId(o.id)
    ensures r.Success? ==> r.value.customerId == Get(o.metadata, CustomerIdKey).value && r.value.orderData.customerId == r.value.customerId
    ensures r.Success? ==>
      var items := o.items.GetOr([]);
      |r.value.orderData.products| == |items| &&
      forall i :: 0 <= i < |items| ==> r.value.orderData.products[i] == ToProduct(items[i])
    ensures r.Success? ==>
      var d := r.value.orderData;
      d.printDespatchNote && !d.addPackagingToOrder && d.deliveryType == DeliveryType && d.locationType == LocationType &&
      d.serviceTypeId == ServiceTypeId && d.featureId == FeatureId
    ensures r.Success? ==>
      var d := r.value.orderData;
      d.customerReference == CustomerReference(o) && d.recipientName == RecipientName(o.shippingAddress) &&
      d.countryId == CountryId(countries, o.shippingAddress.GetOr(NoAddress).countryCode)
    ensures r.Success? ==>
      var d := r.value.orderData;
      var a := o.shippingAddress.GetOr(NoAddress);
      d.companyName == NonEmpty(a.company) && d.addressLine2 == NonEmpty(a.address2) &&
      d.addressLine1 == OrEmpty(a.address1) && d.townOrCity == OrEmpty(a.city) &&
      d.countyOrState == OrEmpty(a.province) && d.postcodeOrZip == OrEmpty(a.postalCode) &&
      d.recipientEmail == OrEmpty(o.email) && d.recipientNumber == OrEmpty(a.phone)
  {
    var customerId := Get(o.metadata, CustomerIdKey);
    if customerId.None? || !TruthyValue(customerId.value) then Failure(MissingCustomerId(o.id))
    else
      var items := o.items.GetOr([]);
      var products := seq(|items|, i requires 0 <= i < |items| => ToProduct(items[i]));
      var a := o.shippingAddress.GetOr(NoAddress);
      var data := OrderCreateRequest(
        customerId.value, CustomerReference(o), true, false, DeliveryType, ServiceTypeId, FeatureId,
        NonEmpty(a.company), OrEmpty(a.address1),
        NonEmpty(a.address2), OrEmpty(a.city),
        OrEmpty(a.province), OrEmpty(a.postalCode),
        CountryId(countries, a.countryCode), LocationType, RecipientName(o.shippingAddress),
        OrEmpty(o.email), OrEmpty(a.phone), products);
      Success(CreateOrderInput(customerId.value, data))
  }

  /** What the order-creation step returns: an object holding the DespatchLab order id. */
  datatype CreateOrderOutput = CreateOrderOutput(orderId: string)

  /** The metadata update the workflow makes on the order. */
  datatype OrderUpdate = OrderUpdate(orderId: string, metadata: Record)

  function CreationFailed(message: string): string {
    "Failed to create DespatchLab order: " + message
  }

  /** The order-creation step, corrected to reach DespatchLab: `created` is the id it returned, or the error it threw. */
  function CreateOrderStep(created: Result<string>): (r: Result<CreateOrderOutput>)
    ensures created.Success? <==> r.Success?
    ensures created.Success? ==> r.value.orderId == created.value
    ensures created.Failure? ==> r.error == CreationFailed(created.error)
  {
    match created
    case Success(id) => Success(CreateOrderOutput(id))
    case Failure(e) => Failure(CreationFailed(e))
  }

  /**
   * The public methods of the DespatchLab service class that the workflows call. Its private helpers
   * (`authenticate`, `refreshToken`, `ensureAuthenticated`, …) and the methods it inherits from the
   * fulfillment-provider base class are left out of this subset; none of them is `createOrder` either, so
   * calling that name throws a `TypeError` instead of reaching DespatchLab.
   */
  const DespatchLabCalls: set<string> := {"getOrder", "createProduct", "updateProduct"}

  /** A call of `despatchLabService.<name>`: the service's answer when the method exists, the `TypeError` otherwise. */
  function Invoke(name: string, answer: Result<string>): (r: Result<string>)
    ensures name in DespatchLabCalls ==> r == answer
    ensures name !in DespatchLabCalls ==> r == Failure("despatchLabService." + name + " is not a function")
  {
    if name in DespatchLabCalls then answer else Failure("despatchLabService." + name + " is not a function")
  }

  /**
   * The order-creation step as written: it calls `createOrder`, which the service does not define, so
   * whatever DespatchLab would have answered, the step fails with the wrapped `TypeError`.
   */
  function CreateOrderStepAsWritten(created: Result<string>): (r: Result<CreateOrderOutput>)
    ensures r == Failure(CreationFailed("despatchLabService.createOrder is not a function"))
    ensures created.Success? ==> CreateOrderStep(created).Success? && r != CreateOrderStep(created)
  {
    CreateOrderStep(Invoke("createOrder", created))
  }

  /** The metadata as the workflow writes it: the step's whole output object under `despatchlab_order_id`. */
  function OrderMetadataAsWritten(out: CreateOrderOutput): Record {
    map[OrderIdKey := VOther]
  }

  /** As written, the order's `despatchlab_order_id` is never the DespatchLab order id string. */
  lemma AsWrittenOrderIdIsNotAString(out: CreateOrderOutput)
    ensures GetNonEmptyString(Some(OrderMetadataAsWritten(out)), OrderIdKey).None?
    ensures Get(Some(OrderMetadataAsWritten(out)), OrderIdKey) != Some(VString(out.orderId))
  {
  }

  /** The metadata update with the order id itself, as the key's name and its other uses expect. */
  function OrderMetadata(out: CreateOrderOutput): (r: Record)
    ensures r.Keys == {OrderIdKey}
    ensures out.orderId != "" ==> GetNonEmptyString(Some(r), OrderIdKey) == Some(out.orderId)
  {
    map[OrderIdKey := VString(out.orderId)]
  }

  /**
   * `create-despatch-lab-order` with the order update as written and the creation step corrected: the
   * transform, the creation, then the order update, which stores the step's output object rather than the
   * order id. Apart from that value it behaves as the corrected `CreateDespatchLabOrder`. With the step as
   * written (`CreateOrderStepAsWritten`) the workflow never gets as far as the update.
   */
  function CreateDespatchLabOrderAsWritten(o: Order, countries: map<string, int>, created: Result<string>)
    : (r: Result<(CreateOrderOutput, OrderUpdate)>)
    ensures r.Success? <==> Transform(o, countries).Success? && created.Success?
    ensures r.Failure? ==> r == CreateDespatchLabOrder(o, countries, created)
    ensures r.Success? ==>
      r.value.0 == CreateDespatchLabOrder(o, countries, created).value.0 && r.value.1.orderId == o.id &&
      GetNonEmptyString(Some(r.value.1.metadata), OrderIdKey).None?
  {
    match Transform(o, countries)
    case Failure(e) => Failure(e)
    case Success(_) =>
      match CreateOrderStep(created)
      case Failure(e) => Failure(e)
      case Success(out) =>
        AsWrittenOrderIdIsNotAString(out);
        Success((out, OrderUpdate(o.id, OrderMetadataAsWritten(out))))
  }

  /**
   * `create-despatch-lab-order`, corrected to store the order id string: the transform, the creation,
   * then the order update. Nothing is created when the transform fails, and the order is updated only once
   * DespatchLab has created the order.
   */
  function CreateDespatchLabOrder(o: Order, countries: map<string, int>, created: Result<string>): (r: Result<(CreateOrderOutput, OrderUpdate)>)
    ensures Transform(o, countries).Failure? ==> r == Failure(MissingCustomerId(o.id))
    ensures Transform(o, countries).Success? && created.Failure? ==> r == Failure(CreationFailed(created.error))
    ensures r.Success? <==> Transform(o, countries).Success? && created.Success?
    ensures r.Success? ==>
      r.value.0 == CreateOrderOutput(created.value) && r.value.1.orderId == o.id &&
      Get(Some(r.value.1.metadata), OrderIdKey) == Some(VString(created.value))
  {
    match Transform(o, countries)
    case Failure(e) => Failure(e)
    case Success(_) =>
      match CreateOrderStep(created)
      case Failure(e) => Failure(e)
      case Success(out) => Success((out, OrderUpdate(o.id, OrderMetadata(out))))
  }
}
