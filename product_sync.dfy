/**
 * Pushing the catalogue to DespatchLab: `sync-all-product-variants`, `upsert-despatch-lab-product-variant`
 * and `create-despatch-lab-product`. A variant that has never been synced is created with the five basic
 * fields and then updated with the full configuration; one whose metadata already names a DespatchLab
 * product is only updated. The DespatchLab product id is written back into the variant's metadata.
 *
 * The product module and the link queries are inputs: the listed variants, the company ↔ product links
 * and the company ↔ provider link table. `createResponse` is what POST /warehouse/products answers for a
 * variant, `failing` the update endpoints whose requests fail, `writeFailure` the error the product
 * module throws when a variant's metadata is written back, and `syncedAt` the ISO timestamp of the run.
 */
module ProductSync {
  import opened Wrappers
  import opened Metadata
  import PL = ProviderLinks
  import DL = DespatchLabService

  const DespatchLabProviderId := "despatch-lab"
  const ProductIdKey := "despatchlab_product_id"
  const LastSyncKey := "despatchlab_last_sync"
  const VariantHasNoSku := "Variant has no SKU"
  const DefaultCustomerName := "Unknown"

  datatype CompanyProduct = CompanyProduct(companyId: string, productId: string)

  datatype Product = Product(id: string, title: string)

  datatype Variant = Variant(
    id: string, sku: Option<string>, title: Option<string>,
    barcode: Option<string>, ean: Option<string>, upc: Option<string>,
    height: Option<real>, width: Option<real>, length: Option<real>, weight: Option<real>,
    originCountry: Option<string>, metadata: Option<Record>)

  /** The DespatchLab customer a product's company is configured with. */
  datatype Customer = Customer(companyId: string, customerId: string, customerName: Option<string>)

  // ---------------------------------------------------------------------------------------------
  // Resolving the DespatchLab customer

  function NotAssociated(productId: string): string {
    "Product " + productId + " is not associated with any company"
  }

  function NoConfiguration(companyId: string): string {
    "Company " + companyId + " has no DespatchLab configuration"
  }

  function MissingCustomerId(companyId: string): string {
    "Company " + companyId + " DespatchLab configuration missing customerId"
  }

  /** The company of the first company ↔ product link of `productId`. */
  function FirstCompany(links: seq<CompanyProduct>, productId: string): (r: Option<string>)
    ensures r.None? <==> forall i :: 0 <= i < |links| ==> links[i].productId != productId
    ensures r.Some? ==> exists i :: 0 <= i < |links| && links[i] == CompanyProduct(r.value, productId) &&
                                    forall j :: 0 <= j < i ==> links[j].productId != productId
  {
    if |links| == 0 then None
    else if links[0].productId == productId then Some(links[0].companyId)
    else
      var r := FirstCompany(links[1..], productId);
      if r.Some? then
        var i :| 0 <= i < |links[1..]| && links[1..][i] == CompanyProduct(r.value, productId) &&
                 forall j :: 0 <= j < i ==> links[1..][j].productId != productId;
        assert links[i + 1] == CompanyProduct(r.value, productId);
        r
      else r
  }

  /** The three checks the sync steps share, in their order: company link, DespatchLab link, customer id. */
  function ResolveCustomer(companyProducts: seq<CompanyProduct>, providerLinks: PL.LinkTable, productId: string): (r: Result<Customer>)
    ensures FirstCompany(companyProducts, productId).None? ==> r == Failure(NotAssociated(productId))
    ensures FirstCompany(companyProducts, productId).Some? ==>
      var companyId := FirstCompany(companyProducts, productId).value;
      var key := PL.LinkKey(companyId, DespatchLabProviderId);
      (key !in providerLinks ==> r == Failure(NoConfiguration(companyId))) &&
      (key in providerLinks ==>
        var config := providerLinks[key].config;
        if config.Some? && Truthy(config.value.customerId)
        then r == Success(Customer(companyId, config.value.customerId.value, config.value.customerName))
        else r == Failure(MissingCustomerId(companyId)))
    ensures r.Success? ==> r.value.customerId != ""
  {
    match FirstCompany(companyProducts, productId)
    case None => Failure(NotAssociated(productId))
    case Some(companyId) =>
      var key := PL.LinkKey(companyId, DespatchLabProviderId);
      if key !in providerLinks then Failure(NoConfiguration(companyId))
      else
        var config := providerLinks[key].config;
        if config.Some? && Truthy(config.value.customerId)
        then Success(Customer(companyId, config.value.customerId.value, config.value.customerName))
        else Failure(MissingCustomerId(companyId))
  }

  // ---------------------------------------------------------------------------------------------
  // The product data sent to DespatchLab

  /** JavaScript truthiness of an optional number. */
  predicate NumTruthy(x: Option<real>) {
    x.Some? && x.value != 0.0
  }

  /** `x || 0`. */
  function OrZero(x: Option<real>): (r: real)
    ensures x.Some? ==> r == x.value
    ensures x.None? ==> r == 0.0
  {
    if x.Some? then x.value else 0.0
  }

  /** Height × width × length when all three are set and non-zero, 0 otherwise. */
  function Volume(v: Variant): (r: real)
    ensures NumTruthy(v.height) && NumTruthy(v.width) && NumTruthy(v.length) ==> r == v.height.value * v.width.value * v.length.value
    ensures !(NumTruthy(v.height) && NumTruthy(v.width) && NumTruthy(v.length)) ==> r == 0.0
  {
    if NumTruthy(v.height) && NumTruthy(v.width) && NumTruthy(v.length)
    then v.height.value * v.width.value * v.length.value
    else 0.0
  }

  /** The volume is zero exactly when a dimension is missing or zero. */
  lemma {:induction false} VolumeZeroIffDimensionMissing(v: Variant)
    ensures Volume(v) == 0.0 <==> !(NumTruthy(v.height) && NumTruthy(v.width) && NumTruthy(v.length))
  {
    if NumTruthy(v.height) && NumTruthy(v.width) && NumTruthy(v.length) {
      var h, w, l := v.height.value, v.width.value, v.length.value;
      assert h * w != 0.0;
      assert (h * w) * l != 0.0;
    }
  }

  /** The first of the given optional strings that is non-empty, or nothing (`a || b || … || undefined`). */
  function FirstTruthy(xs: seq<Option<string>>): (r: Option<string>)
    ensures r.Some? ==> r.value != "" && r in xs
    ensures r.None? <==> forall i :: 0 <= i < |xs| ==> !Truthy(xs[i])
    ensures |xs| > 0 && Truthy(xs[0]) ==> r == xs[0]
  {
    if |xs| == 0 then None
    else if Truthy(xs[0]) then xs[0]
    else FirstTruthy(xs[1..])
  }

  /** `"<product> - <variant>"`, or `"<product> (<sku>)"` for an untitled variant. */
  function Description(product: Product, v: Variant, sku: string): string {
    if Truthy(v.title) then product.title + " - " + v.title.value
    else product.title + " (" + sku + ")"
  }

  /** The five fields `createProduct` receives; five keys and no id, so it does not run its own update. */
  function BasicRequest(customer: Customer, product: Product, v: Variant, sku: string): (req: DL.ProductRequest)
    ensures !DL.CreateHasSecondPhase(req)
    ensures req.customerId == Some(customer.customerId) && req.sku == Some(sku)
    ensures req.description == Some(Description(product, v, sku))
    ensures req.barcode == FirstTruthy([v.barcode, v.ean, v.upc])
  {
    DL.ProductRequest(None, Some(customer.customerId), Some(sku), Some(Description(product, v, sku)),
                      FirstTruthy([v.barcode, v.ean, v.upc]), Some("Product"), None)
  }

  /** The full update request: the basic fields, the variant's dimensions and the customer's name. */
  function FullRequest(id: string, customer: Customer, product: Product, v: Variant, sku: string): (req: DL.ProductRequest)
    ensures req.id == Some(id) && req.customerId == Some(customer.customerId) && req.sku == Some(sku)
    ensures req.description == Some(Description(product, v, sku))
    ensures req.barcode == FirstTruthy([v.barcode, v.ean, v.upc])
    ensures req.details.Some? && req.details.value.customerName != ""
    ensures Truthy(customer.customerName) ==> req.details.Some? && req.details.value.customerName == customer.customerName.value
    ensures req.details.Some? &&
      req.details.value.height == Some(OrZero(v.height)) && req.details.value.width == Some(OrZero(v.width)) &&
      req.details.value.depth == Some(OrZero(v.length)) && req.details.value.volume == Volume(v) &&
      req.details.value.weight == Some(OrZero(v.weight))
  {
    DL.ProductRequest(
      Some(id), Some(customer.customerId), Some(sku), Some(Description(product, v, sku)),
      FirstTruthy([v.barcode, v.ean, v.upc]), Some("Product"),
      Some(DL.ProductDetails(
        OrElse(customer.customerName, Some(DefaultCustomerName)).value, "Product", "Item",
        Some(OrZero(v.height)), Some(OrZero(v.width)), Some(OrZero(v.length)), Volume(v),
        Some(OrZero(v.weight)), FirstTruthy([v.originCountry]))))
  }

  // ---------------------------------------------------------------------------------------------
  // One variant

  datatype Synced = Synced(despatchLabProductId: string, isUpdate: bool)

  /** The DespatchLab product a variant's metadata already names, if any. */
  function ExistingProductId(v: Variant): Option<string> {
    GetNonEmptyString(v.metadata, ProductIdKey)
  }

  /** What syncing one variant with a SKU yields: update when it is known, create then update otherwise. */
  function SyncOne(customer: Customer, product: Product, v: Variant, sku: string, createResponse: Result<string>): (r: Result<Synced>)
    requires customer.customerId != ""
    ensures ExistingProductId(v).Some? ==> r == Success(Synced(ExistingProductId(v).value, true))
    ensures ExistingProductId(v).None? ==>
      var created := DL.CreateProductOutcome(BasicRequest(customer, product, v, sku), createResponse);
      (created.Failure? ==> r == Failure(created.error)) &&
      (created.Success? && created.value == "" ==> r == Failure(DL.ProductIdAndCustomerIdRequired)) &&
      (created.Success? && created.value != "" ==> r == Success(Synced(created.value, false)))
    ensures r.Success? ==> r.value.despatchLabProductId != ""
  {
    match ExistingProductId(v)
    case Some(id) =>
      var updated := DL.UpdateProductOutcome(FullRequest(id, customer, product, v, sku));
      assert updated.Success?;
      Success(Synced(id, true))
    case None =>
      var created := DL.CreateProductOutcome(BasicRequest(customer, product, v, sku), createResponse);
      if created.Failure? then Failure(created.error)
      else
        var updated := DL.UpdateProductOutcome(FullRequest(created.value, customer, product, v, sku));
        if updated.Failure? then Failure(updated.error)
        else Success(Synced(created.value, false))
  }

  /** `{ ...variant.metadata, despatchlab_product_id, despatchlab_last_sync }`. */
  function Stamped(v: Variant, despatchLabProductId: string, syncedAt: string): (md: Record)
    ensures ProductIdKey in md && LastSyncKey in md
    ensures md[ProductIdKey] == VString(despatchLabProductId) && md[LastSyncKey] == VString(syncedAt)
    ensures forall k :: v.metadata.Some? && k in v.metadata.value && k != ProductIdKey && k != LastSyncKey ==>
      k in md && md[k] == v.metadata.value[k]
  {
    Merge(v.metadata, map[ProductIdKey := VString(despatchLabProductId), LastSyncKey := VString(syncedAt)])
  }

  /** After a sync, syncing the same variant again updates the same DespatchLab product instead of creating one. */
  lemma ResyncUpdatesSameProduct(customer: Customer, product: Product, v: Variant, sku: string, r: Synced,
                                 syncedAt: string, createResponse: Result<string>)
    requires customer.customerId != ""
    requires SyncOne(customer, product, v, sku, createResponse) == Success(r)
    ensures SyncOne(customer, product, v.(metadata := Some(Stamped(v, r.despatchLabProductId, syncedAt))), sku, createResponse)
            == Success(Synced(r.despatchLabProductId, true))
  {
  }

  /** A call made on the DespatchLab service. */
  datatype ProviderCall = CreateCall(req: DL.ProductRequest) | UpdateCall(req: DL.ProductRequest)

  /**
   * The per-variant sync, calling the DespatchLab service's methods: a known product is only updated; an
   * unknown one is created with the basic fields and then updated under the id the creation returned.
   */
  method SyncVariant(customer: Customer, product: Product, v: Variant, sku: string, createResponse: Result<string>,
                     failing: set<DL.Endpoint>) returns (r: Result<Synced>, calls: seq<ProviderCall>)
    requires customer.customerId != ""
    ensures r == SyncOne(customer, product, v, sku, createResponse)
    ensures ExistingProductId(v).Some? ==>
      calls == [UpdateCall(FullRequest(ExistingProductId(v).value, customer, product, v, sku))]
    ensures ExistingProductId(v).None? ==>
      var basic := BasicRequest(customer, product, v, sku);
      var created := DL.CreateProductOutcome(basic, createResponse);
      (created.Failure? ==> calls == [CreateCall(basic)]) &&
      (created.Success? ==> calls == [CreateCall(basic), UpdateCall(FullRequest(created.value, customer, product, v, sku))])
  {
    var existing := ExistingProductId(v);
    if existing.Some? {
      var full := FullRequest(existing.value, customer, product, v, sku);
      var updated, _ := DL.UpdateProduct(full, failing);
      return Success(Synced(existing.value, true)), [UpdateCall(full)];
    }
    var basic := BasicRequest(customer, product, v, sku);
    var created, _ := DL.CreateProduct(basic, createResponse, failing);
    calls := [CreateCall(basic)];
    if created.Failure? {
      return Failure(created.error), calls;
    }
    var full := FullRequest(created.value, customer, product, v, sku);
    var updated, _ := DL.UpdateProduct(full, failing);
    calls := calls + [UpdateCall(full)];
    if updated.Failure? {
      return Failure(updated.error), calls;
    }
    r := Success(Synced(created.value, false));
  }

  /** The product module's variant metadata, as far as the sync steps write it. */
  class VariantMetadata {
    var metadata: map<string, Record>

    constructor ()
      ensures metadata == map[]
    {
      metadata := map[];
    }
  }

  // ---------------------------------------------------------------------------------------------
  // sync-all-product-variants

  datatype SyncedVariant = SyncedVariant(
    despatchLabProductId: string, productId: string, variantId: string, sku: string, companyId: string,
    isUpdate: bool, syncedAt: string)

  datatype VariantError = VariantError(variantId: string, sku: Option<string>, error: string)

  datatype SyncAllOutput = SyncAllOutput(
    productId: string, syncedVariants: seq<SyncedVariant>, totalVariants: nat, successfulSyncs: nat,
    errors: seq<VariantError>)

  /** What the loop over the variants has produced so far. */
  datatype Progress = Progress(synced: seq<SyncedVariant>, errors: seq<VariantError>, written: map<string, Record>)

  /**
   * One more variant processed: a variant without SKU, a failed DespatchLab sync or a failed metadata write
   * becomes an error entry; otherwise the variant is recorded as synced and its metadata written back.
   */
  function Step(p: Progress, customer: Customer, product: Product, v: Variant, createResponse: Variant -> Result<string>,
                writeFailure: Variant -> Option<string>, syncedAt: string): (q: Progress)
    requires customer.customerId != ""
    ensures p.synced <= q.synced && p.errors <= q.errors
    ensures |q.synced| + |q.errors| == |p.synced| + |p.errors| + 1
    ensures |q.synced| > |p.synced| ==>
      q.synced[|p.synced|].variantId == v.id && q.synced[|p.synced|].syncedAt == syncedAt &&
      q.written == p.written[v.id := Stamped(v, q.synced[|p.synced|].despatchLabProductId, syncedAt)]
    ensures |q.errors| > |p.errors| ==> q.errors[|p.errors|].variantId == v.id && q.written == p.written
    ensures !Truthy(v.sku) ==> q.errors == p.errors + [VariantError(v.id, None, VariantHasNoSku)]
  {
    if !Truthy(v.sku) then p.(errors := p.errors + [VariantError(v.id, None, VariantHasNoSku)])
    else match SyncOne(customer, product, v, v.sku.value, createResponse(v))
      case Failure(e) => p.(errors := p.errors + [VariantError(v.id, v.sku, e)])
      case Success(s) =>
        if writeFailure(v).Some? then p.(errors := p.errors + [VariantError(v.id, v.sku, writeFailure(v).value)])
        else
          Progress(p.synced + [SyncedVariant(s.despatchLabProductId, product.id, v.id, v.sku.value, customer.companyId, s.isUpdate, syncedAt)],
                   p.errors, p.written[v.id := Stamped(v, s.despatchLabProductId, syncedAt)])
  }

  /**
   * Which entry a variant with a SKU gets: the sync's error, the metadata write's error, or the synced
   * entry with the DespatchLab id and whether it was an update.
   */
  lemma StepOutcome(p: Progress, customer: Customer, product: Product, v: Variant, createResponse: Variant -> Result<string>,
                    writeFailure: Variant -> Option<string>, syncedAt: string)
    requires customer.customerId != "" && Truthy(v.sku)
    ensures var q := Step(p, customer, product, v, createResponse, writeFailure, syncedAt);
      var outcome := SyncOne(customer, product, v, v.sku.value, createResponse(v));
      (outcome.Failure? ==> q.errors == p.errors + [VariantError(v.id, v.sku, outcome.error)] && q.synced == p.synced) &&
      (outcome.Success? && writeFailure(v).Some? ==>
        q.errors == p.errors + [VariantError(v.id, v.sku, writeFailure(v).value)] && q.synced == p.synced) &&
      (outcome.Success? && writeFailure(v).None? ==>
        q.errors == p.errors &&
        q.synced == p.synced + [SyncedVariant(outcome.value.despatchLabProductId, product.id, v.id, v.sku.value,
                                              customer.companyId, outcome.value.isUpdate, syncedAt)])
  {
  }

  /**
   * The outcome of processing `vs` in order. Every listed variant ends up either synced or reported, never
   * both and never neither: the variant ids of the synced entries and of the errors together are exactly
   * those of the listed variants.
   */
  function ProcessAll(customer: Customer, product: Product, vs: seq<Variant>, createResponse: Variant -> Result<string>,
                      writeFailure: Variant -> Option<string>, syncedAt: string): (p: Progress)
    requires customer.customerId != ""
    ensures |p.synced| + |p.errors| == |vs|
    ensures AccountedIds(p) == multiset(VariantIds(vs))
    decreases |vs|
  {
    if |vs| == 0 then Progress([], [], map[])
    else
      var n := |vs| - 1;
      var p := ProcessAll(customer, product, vs[..n], createResponse, writeFailure, syncedAt);
      IdsAfterStep(p, customer, product, vs[n], createResponse, writeFailure, syncedAt);
      VariantIdsSnoc(vs);
      Step(p, customer, product, vs[n], createResponse, writeFailure, syncedAt)
  }

  /** Processing one more variant is one more `Step`. */
  lemma ProcessAllSnoc(customer: Customer, product: Product, vs: seq<Variant>, i: nat,
                       createResponse: Variant -> Result<string>, writeFailure: Variant -> Option<string>, syncedAt: string)
    requires customer.customerId != "" && i < |vs|
    ensures ProcessAll(customer, product, vs[..i + 1], createResponse, writeFailure, syncedAt) ==
            Step(ProcessAll(customer, product, vs[..i], createResponse, writeFailure, syncedAt),
                 customer, product, vs[i], createResponse, writeFailure, syncedAt)
  {
    assert vs[..i + 1][..i] == vs[..i];
  }

  /** The variant ids named by `xs`, in order. */
  function Ids<T>(xs: seq<T>, id: T -> string): (ids: seq<string>)
    ensures |ids| == |xs| && forall i :: 0 <= i < |xs| ==> ids[i] == id(xs[i])
  {
    seq(|xs|, i requires 0 <= i < |xs| => id(xs[i]))
  }

  function VariantIds(vs: seq<Variant>): seq<string> {
    Ids(vs, (v: Variant) => v.id)
  }

  lemma VariantIdsSnoc(vs: seq<Variant>)
    requires |vs| > 0
    ensures multiset(VariantIds(vs)) == multiset(VariantIds(vs[..|vs| - 1])) + multiset{vs[|vs| - 1].id}
  {
    assert VariantIds(vs) == VariantIds(vs[..|vs| - 1]) + [vs[|vs| - 1].id];
  }

  /** The variant ids the synced entries and the errors name, together. */
  function AccountedIds(p: Progress): multiset<string> {
    multiset(Ids(p.synced, (s: SyncedVariant) => s.variantId)) + multiset(Ids(p.errors, (e: VariantError) => e.variantId))
  }

  /** A step adds one entry for its variant, in either list: the variant's id is accounted for once more. */
  lemma IdsAfterStep(p: Progress, customer: Customer, product: Product, v: Variant,
                     createResponse: Variant -> Result<string>, writeFailure: Variant -> Option<string>, syncedAt: string)
    requires customer.customerId != ""
    ensures var q := Step(p, customer, product, v, createResponse, writeFailure, syncedAt);
      |q.synced| + |q.errors| == |p.synced| + |p.errors| + 1 && AccountedIds(q) == AccountedIds(p) + multiset{v.id}
  {
    var q := Step(p, customer, product, v, createResponse, writeFailure, syncedAt);
    if |q.synced| > |p.synced| {
      assert q.synced == p.synced + [q.synced[|p.synced|]];
      assert Ids(q.synced, (s: SyncedVariant) => s.variantId) == Ids(p.synced, (s: SyncedVariant) => s.variantId) + [v.id];
      assert q.errors == p.errors;
    } else {
      assert q.errors == p.errors + [q.errors[|p.errors|]];
      assert Ids(q.errors, (e: VariantError) => e.variantId) == Ids(p.errors, (e: VariantError) => e.variantId) + [v.id];
      assert q.synced == p.synced;
    }
  }

  /**
   * Every synced entry has a SKU and a DespatchLab id and belongs to the resolved company, and all
   * written-back metadata names a DespatchLab product.
   */
  predicate WellRecorded(p: Progress, customer: Customer, product: Product) {
    (forall s :: s in p.synced ==>
      s.sku != "" && s.despatchLabProductId != "" && s.companyId == customer.companyId && s.productId == product.id) &&
    (forall id :: id in p.written ==>
      ProductIdKey in p.written[id] && p.written[id][ProductIdKey].VString? && p.written[id][ProductIdKey].s != "")
  }

  /** What the whole loop records is well-formed. */
  lemma {:induction false} SyncedEntriesAreRecorded(customer: Customer, product: Product, vs: seq<Variant>,
                                                    createResponse: Variant -> Result<string>,
                                                    writeFailure: Variant -> Option<string>, syncedAt: string)
    requires customer.customerId != ""
    ensures WellRecorded(ProcessAll(customer, product, vs, createResponse, writeFailure, syncedAt), customer, product)
    decreases |vs|
  {
    if |vs| > 0 {
      SyncedEntriesAreRecorded(customer, product, vs[..|vs| - 1], createResponse, writeFailure, syncedAt);
      RecordedAfterStep(ProcessAll(customer, product, vs[..|vs| - 1], createResponse, writeFailure, syncedAt),
                        customer, product, vs[|vs| - 1], createResponse, writeFailure, syncedAt);
    }
  }

  /** One step keeps what is recorded well-formed. */
  lemma RecordedAfterStep(p: Progress, customer: Customer, product: Product, v: Variant,
                          createResponse: Variant -> Result<string>, writeFailure: Variant -> Option<string>, syncedAt: string)
    requires customer.customerId != ""
    requires WellRecorded(p, customer, product)
    ensures WellRecorded(Step(p, customer, product, v, createResponse, writeFailure, syncedAt), customer, product)
  {
    if Truthy(v.sku) {
      var outcome := SyncOne(customer, product, v, v.sku.value, createResponse(v));
      if outcome.Success? {
        var md := Stamped(v, outcome.value.despatchLabProductId, syncedAt);
        assert md[ProductIdKey] == VString(outcome.value.despatchLabProductId);
      }
    }
  }

  /** The loop body of `sync-all-product-variants` for one variant: one `Step`, with its metadata write. */
  method SyncListedVariant(customer: Customer, product: Product, v: Variant, createResponse: Variant -> Result<string>,
                           failing: set<DL.Endpoint>, writeFailure: Variant -> Option<string>, syncedAt: string,
                           store: VariantMetadata,
                           synced: seq<SyncedVariant>, errors: seq<VariantError>, ghost written: map<string, Record>,
                           ghost base: map<string, Record>)
    returns (synced': seq<SyncedVariant>, errors': seq<VariantError>, ghost written': map<string, Record>)
    requires customer.customerId != ""
    requires store.metadata == base + written
    modifies store
    ensures Progress(synced', errors', written') ==
      Step(Progress(synced, errors, written), customer, product, v, createResponse, writeFailure, syncedAt)
    ensures store.metadata == base + written'
  {
    synced', errors', written' := synced, errors, written;
    if !Truthy(v.sku) {
      errors' := errors + [VariantError(v.id, None, VariantHasNoSku)];
    } else {
      var outcome, _ := SyncVariant(customer, product, v, v.sku.value, createResponse(v), failing);
      if outcome.Failure? {
        errors' := errors + [VariantError(v.id, v.sku, outcome.error)];
      } else if writeFailure(v).Some? {
        // the product exists in DespatchLab, but its id is not written back
        errors' := errors + [VariantError(v.id, v.sku, writeFailure(v).value)];
      } else {
        var s := outcome.value;
        var md := Stamped(v, s.despatchLabProductId, syncedAt);
        store.metadata := store.metadata[v.id := md];
        written' := written[v.id := md];
        UpdateAfterUnion(base, written, v.id, md);
        synced' := synced + [SyncedVariant(s.despatchLabProductId, product.id, v.id, v.sku.value, customer.companyId, s.isUpdate, syncedAt)];
      }
    }
  }

  /** Writing one key after a union is writing it into the right-hand map. */
  lemma UpdateAfterUnion(base: map<string, Record>, written: map<string, Record>, k: string, md: Record)
    ensures (base + written)[k := md] == base + written[k := md]
  {
  }

  /**
   * `sync-all-product-variants`. The customer is resolved only when there is at least one variant; a
   * failed resolution fails the step, a failed variant only adds an error entry.
   */
  method SyncAllProductVariants(productId: string, product: Product, variants: seq<Variant>,
                                companyProducts: seq<CompanyProduct>, providerLinks: PL.LinkTable,
                                createResponse: Variant -> Result<string>, failing: set<DL.Endpoint>,
                                writeFailure: Variant -> Option<string>, syncedAt: string, store: VariantMetadata)
    returns (r: Result<SyncAllOutput>)
    requires product.id == productId
    modifies store
    ensures |variants| == 0 ==> r == Success(SyncAllOutput(productId, [], 0, 0, [])) && store.metadata == old(store.metadata)
    ensures |variants| > 0 && ResolveCustomer(companyProducts, providerLinks, productId).Failure? ==>
      r == Failure(ResolveCustomer(companyProducts, providerLinks, productId).error) && store.metadata == old(store.metadata)
    ensures |variants| > 0 && ResolveCustomer(companyProducts, providerLinks, productId).Success? ==>
      var p := ProcessAll(ResolveCustomer(companyProducts, providerLinks, productId).value, product, variants,
                          createResponse, writeFailure, syncedAt);
      r == Success(SyncAllOutput(productId, p.synced, |variants|, |p.synced|, p.errors)) &&
      store.metadata == old(store.metadata) + p.written
  {
    if |variants| == 0 {
      return Success(SyncAllOutput(productId, [], 0, 0, []));
    }
    var resolved := ResolveCustomer(companyProducts, providerLinks, productId);
    if resolved.Failure? {
      return Failure(resolved.error);
    }
    var synced, errors := SyncEach(resolved.value, product, variants, createResponse, failing, writeFailure, syncedAt, store);
    r := Success(SyncAllOutput(productId, synced, |variants|, |synced|, errors));
  }

  /** The loop of `sync-all-product-variants` over the listed variants, once the customer is resolved. */
  method SyncEach(customer: Customer, product: Product, variants: seq<Variant>, createResponse: Variant -> Result<string>,
                  failing: set<DL.Endpoint>, writeFailure: Variant -> Option<string>, syncedAt: string,
                  store: VariantMetadata)
    returns (synced: seq<SyncedVariant>, errors: seq<VariantError>)
    requires customer.customerId != ""
    modifies store
    ensures var p := ProcessAll(customer, product, variants, createResponse, writeFailure, syncedAt);
      synced == p.synced && errors == p.errors && store.metadata == old(store.metadata) + p.written
  {
    synced, errors := [], [];
    ghost var written: map<string, Record> := map[];
    var i := 0;
    while i < |variants|
      invariant 0 <= i <= |variants|
      invariant Progress(synced, errors, written) == ProcessAll(customer, product, variants[..i], createResponse, writeFailure, syncedAt)
      invariant store.metadata == old(store.metadata) + written
    {
      ProcessAllSnoc(customer, product, variants, i, createResponse, writeFailure, syncedAt);
      synced, errors, written := SyncListedVariant(customer, product, variants[i], createResponse, failing, writeFailure,
                                                   syncedAt, store, synced, errors, written, old(store.metadata));
      i := i + 1;
    }
    assert variants[..i] == variants;
  }

  // ---------------------------------------------------------------------------------------------
  // upsert-despatch-lab-product-variant

  function VariantNotFound(variantId: string): string {
    "Product variant " + variantId + " not found"
  }

  function VariantWithoutSku(variantId: string): string {
    "Product variant " + variantId + " has no SKU"
  }

  datatype UpsertOutput = UpsertOutput(
    despatchLabProductId: string, productId: string, variantId: string, sku: string, companyId: string,
    isUpdate: bool, syncedAt: string)

  /** What the step hands to its compensation, which only logs it. */
  datatype UpsertCompensation = UpsertCompensation(despatchLabProductId: string, productId: string, variantId: string, wasUpdate: bool)

  /**
   * `upsert-despatch-lab-product-variant`: `variant` is the variant retrieved by id. Unlike the sync of
   * all variants, a missing SKU is checked before the customer is resolved and fails the step.
   */
  method UpsertProductVariant(productId: string, variantId: string, variant: Option<Variant>, product: Product,
                              companyProducts: seq<CompanyProduct>, providerLinks: PL.LinkTable,
                              createResponse: Result<string>, failing: set<DL.Endpoint>, writeFailure: Option<string>,
                              syncedAt: string, store: VariantMetadata)
    returns (r: Result<UpsertOutput>, compensation: Option<UpsertCompensation>)
    modifies store
    ensures variant.None? ==> r == Failure(VariantNotFound(variantId))
    ensures variant.Some? && !Truthy(variant.value.sku) ==> r == Failure(VariantWithoutSku(variant.value.id))
    ensures variant.Some? && Truthy(variant.value.sku) && ResolveCustomer(companyProducts, providerLinks, productId).Failure? ==>
      r == Failure(ResolveCustomer(companyProducts, providerLinks, productId).error)
    ensures r.Success? <==> compensation.Some?
    ensures r.Success? ==>
      variant.Some? && Truthy(variant.value.sku) && ResolveCustomer(companyProducts, providerLinks, productId).Success? &&
      var v, customer := variant.value, ResolveCustomer(companyProducts, providerLinks, productId).value;
      var s := SyncOne(customer, product, v, v.sku.value, createResponse);
      s.Success? && writeFailure.None? &&
      r.value == UpsertOutput(s.value.despatchLabProductId, productId, variantId, v.sku.value, customer.companyId, s.value.isUpdate, syncedAt) &&
      compensation.value == UpsertCompensation(s.value.despatchLabProductId, productId, variantId, s.value.isUpdate) &&
      store.metadata == old(store.metadata)[v.id := Stamped(v, s.value.despatchLabProductId, syncedAt)]
    ensures r.Failure? ==> store.metadata == old(store.metadata)
    ensures variant.Some? && Truthy(variant.value.sku) && ResolveCustomer(companyProducts, providerLinks, productId).Success? ==>
      var s := SyncOne(ResolveCustomer(companyProducts, providerLinks, productId).value, product, variant.value, variant.value.sku.value, createResponse);
      (r.Success? <==> s.Success? && writeFailure.None?) &&
      (s.Failure? ==> r == Failure(s.error)) &&
      (s.Success? && writeFailure.Some? ==> r == Failure(writeFailure.value))
  {
    if variant.None? {
      return Failure(VariantNotFound(variantId)), None;
    }
    var v := variant.value;
    if !Truthy(v.sku) {
      return Failure(VariantWithoutSku(v.id)), None;
    }
    var resolved := ResolveCustomer(companyProducts, providerLinks, productId);
    if resolved.Failure? {
      return Failure(resolved.error), None;
    }
    var customer := resolved.value;
    var outcome, _ := SyncVariant(customer, product, v, v.sku.value, createResponse, failing);
    if outcome.Failure? {
      return Failure(outcome.error), None;
    }
    if writeFailure.Some? {
      return Failure(writeFailure.value), None;
    }
    var s := outcome.value;
    store.metadata := store.metadata[v.id := Stamped(v, s.despatchLabProductId, syncedAt)];
    r := Success(UpsertOutput(s.despatchLabProductId, productId, variantId, v.sku.value, customer.companyId, s.isUpdate, syncedAt));
    compensation := Some(UpsertCompensation(s.despatchLabProductId, productId, variantId, s.isUpdate));
  }

  // ---------------------------------------------------------------------------------------------
  // create-despatch-lab-product

  datatype ProductWithVariants = ProductWithVariants(id: string, title: string, variants: Option<seq<Variant>>)

  datatype CreateOutput = CreateOutput(despatchLabProductId: string, productId: string, companyId: string)

  function ProductNotFound(productId: string): string {
    "Product " + productId + " not found or has no variants"
  }

  /** The product was found and has at least one variant. */
  predicate HasFirstVariant(product: Option<ProductWithVariants>) {
    product.Some? && product.value.variants.Some? && |product.value.variants.value| > 0
  }

  /**
   * The request `create-despatch-lab-product` sends to `createProduct`: no id, the first variant's SKU,
   * the product's title as description, and the barcode, else the EAN, but never the UPC.
   */
  function CreateRequest(customer: Customer, p: ProductWithVariants, v: Variant): (req: DL.ProductRequest)
    ensures req.id.None? && req.customerId == Some(customer.customerId) && req.sku == v.sku
    ensures req.description == Some(p.title) && req.productType == Some("Product") && req.details.None?
    ensures req.barcode == if Truthy(v.barcode) then v.barcode else if Truthy(v.ean) then v.ean else None
    ensures !DL.CreateHasSecondPhase(req)
  {
    DL.ProductRequest(None, Some(customer.customerId), v.sku, Some(p.title), FirstTruthy([v.barcode, v.ean]),
                      Some("Product"), None)
  }

  /**
   * `create-despatch-lab-product`: only the product's first variant is looked at; the customer is resolved
   * as in the sync steps, and the answer is that of `createProduct` for `CreateRequest`.
   */
  function CreateDespatchLabProduct(productId: string, product: Option<ProductWithVariants>,
                                    companyProducts: seq<CompanyProduct>, providerLinks: PL.LinkTable,
                                    createResponse: Result<string>): (r: Result<CreateOutput>)
    ensures !HasFirstVariant(product) ==> r == Failure(ProductNotFound(productId))
    ensures HasFirstVariant(product) && !Truthy(product.value.variants.value[0].sku) ==>
      r == Failure(VariantWithoutSku(product.value.variants.value[0].id))
    ensures HasFirstVariant(product) && Truthy(product.value.variants.value[0].sku) &&
            ResolveCustomer(companyProducts, providerLinks, productId).Failure? ==>
      r == Failure(ResolveCustomer(companyProducts, providerLinks, productId).error)
    ensures HasFirstVariant(product) && Truthy(product.value.variants.value[0].sku) &&
            ResolveCustomer(companyProducts, providerLinks, productId).Success? ==>
      var customer := ResolveCustomer(companyProducts, providerLinks, productId).value;
      var sent := DL.CreateProductOutcome(CreateRequest(customer, product.value, product.value.variants.value[0]), createResponse);
      (r.Success? <==> sent.Success?) && (sent.Failure? ==> r == Failure(sent.error)) &&
      (sent.Success? ==> r.value == CreateOutput(sent.value, productId, customer.companyId))
    ensures r.Success? ==>
      var customer := ResolveCustomer(companyProducts, providerLinks, productId);
      customer.Success? && createResponse.Success? &&
      r.value == CreateOutput(createResponse.value, productId, customer.value.companyId)
    ensures r.Failure? && HasFirstVariant(product) && Truthy(product.value.variants.value[0].sku) &&
            ResolveCustomer(companyProducts, providerLinks, productId).Success? ==>
      createResponse.Failure? &&
      r.error == DL.MapCreateError(createResponse.error, ResolveCustomer(companyProducts, providerLinks, productId).value.customerId)
  {
    if !HasFirstVariant(product) then Failure(ProductNotFound(productId))
    else
      var p := product.value;
      var v := p.variants.value[0];
      if !Truthy(v.sku) then Failure(VariantWithoutSku(v.id))
      else match ResolveCustomer(companyProducts, providerLinks, productId)
        case Failure(e) => Failure(e)
        case Success(customer) =>
          match DL.CreateProductOutcome(CreateRequest(customer, p, v), createResponse)
          case Failure(e) => Failure(e)
          case Success(id) => Success(CreateOutput(id, productId, customer.companyId))
  }
}
