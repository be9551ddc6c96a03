# A Dafny model of the Medusa B2B store's DespatchLab and company-fulfilment core

This project models the sequential core of a Medusa v2 B2B store that sends its orders and products to
the DespatchLab warehouse API. It models these parts:

- **The DespatchLab API client** (`DespatchLabService`):
  - the authentication context it keeps, with its 55-minute token lifetime;
  - the UUID check on order ids;
  - the product create/update fan-out across the details, configuration, storage, special-instructions and rules endpoints;
  - the mapping of API errors to messages.
- **The OIDC login provider** (`OidcService`):
  - redirect-URL selection;
  - the `sessionId:state` parameter and the stored session it leads back to, with a 10-minute expiry;
  - the checks on the callback;
  - the claims copied into the auth identity.
- **The company ↔ fulfilment-provider link table** (`ProviderLinks`): setting a configuration, which keeps at most one default per company, and removal with its restoring compensation.
- **Virtual warehouses** (`WarehouseLinks`): inheriting a parent location's providers, fulfilment sets and sales channels, with rollback; and the listing of abstract warehouses.
- **Catalogue sync** (`ProductSync`): syncing all variants of a product, upserting one variant, and creating a product from its first variant.
- **Fulfilment status sync** (`FulfillmentSync`): choosing the fulfilments that carry a DespatchLab order id, and the batch that updates their metadata, creates shipments, marks deliveries and counts the outcomes.
- **Order transfer** (`CreateOrder`): turning a Medusa order into a DespatchLab order request, creating it, and recording it on the order.
- **The `order.placed` subscriber** (`AutoFulfillOrder`): tracking-code generation, and adding the company's DespatchLab customer id to the order before fulfilling and shipping it.
- **Admin UI helpers** (`ProvidersSection`, `ProviderDrawer`): provider, region and configuration display strings; the drawer's country list, form defaults, submit payload and region checkboxes.
- **Storefront helpers** (`CategoryBreadcrumb`, `ProductPreview`): the category breadcrumb's walk up the parent chain, and the product card's stock count and stock colour.

Every call to something outside the core is a parameter of the operation that makes it: a `Result` that either answers or carries the thrown error's message. Such calls include:

- the DespatchLab HTTP API;
- the OIDC client library;
- the Medusa modules;
- link queries;
- other workflows.

The clock is an integer parameter in milliseconds, or an ISO timestamp string where the source only stores it. `Math.random` and the other random values are parameters too.

JavaScript truthiness is spelled out. An optional string is truthy when it is present and non-empty (`Wrappers.Truthy`). An optional number is truthy when it is present and non-zero. `a || b` is `Wrappers.OrElse`, and `s || ""` is `Wrappers.OrEmpty`.

Where the source updates state in place, the model uses classes, whose methods are proved against functions of the old state:

- the DespatchLab client's `authContext`;
- the OIDC client cache and state store;
- the link table;
- the warehouses;
- variant metadata;
- the fulfilment store;
- the drawer's region state.

The helper modules `Wrappers`, `Text`, `Metadata` and `Sequences` hold the shared definitions:

- options and results;
- string splitting, joining, trimming and decimal printing;
- metadata records and the `{...a, ...b}` merge;
- subsequences.

## Model

| member | source | states |
|---|---|---|
| DespatchLabService.Installed | backend/src/modules/despatch-lab/service.ts:425-431 | the context installed for new tokens is authenticated, holds those tokens, satisfies the "authenticated ⇔ tokens ⇔ expiry" invariant, and is unexpired until exactly 55 minutes later |
| DespatchLabService.AuthenticateOutcome | backend/src/modules/despatch-lab/service.ts:352-375 | a missing key or secret fails with the configuration message and changes nothing; with both present the result is the request's own answer: a success installs its tokens, a failure leaves the context as it was |
| DespatchLabService.EnsureAuthenticatedOutcome | backend/src/modules/despatch-lab/service.ts:440-452 | nothing happens while authenticated and unexpired; a refresh that is attempted and succeeds installs its tokens; otherwise (no refresh token, or the refresh failed) the outcome is `AuthenticateOutcome` with the credentials' answer, its error passed on; success leaves an authenticated, unexpired context, failure the old one; the invariant is preserved |
| DespatchLabService.RefreshNeverAttemptedWhenConsistent | backend/src/modules/despatch-lab/service.ts:441-449 | from every context satisfying the invariant the refresh branch is not taken, so the refresh answer never affects the outcome |
| DespatchLabService.ExpiryIsMonotone | backend/src/modules/despatch-lab/service.ts:433-438 | an expired token stays expired as time goes on |
| DespatchLabService.DespatchLabClient.constructor | backend/src/modules/despatch-lab/service.ts:30-45 | the API URL defaults when none is given, and the client starts unauthenticated with no tokens or expiry |
| DespatchLabService.DespatchLabClient.UpdateAuthContext | backend/src/modules/despatch-lab/service.ts:425-431 | the new context is the installed one and satisfies the invariant |
| DespatchLabService.DespatchLabClient.Authenticate | backend/src/modules/despatch-lab/service.ts:352-375 | the new context and the result are those of `AuthenticateOutcome`, and the "authenticated ⇔ tokens ⇔ expiry" invariant is preserved |
| DespatchLabService.DespatchLabClient.RefreshToken | backend/src/modules/despatch-lab/service.ts:377-396 | without a refresh token it fails with the fixed message and changes nothing; otherwise it returns the answer and installs its tokens on success; a failure changes nothing; the invariant is preserved |
| DespatchLabService.DespatchLabClient.EnsureAuthenticated | backend/src/modules/despatch-lab/service.ts:440-452 | the object's new context and result are `EnsureAuthenticatedOutcome`'s (refresh first, then the credentials), and the invariant is preserved; from a context satisfying it, the refresh answer does not affect the outcome |
| DespatchLabService.DespatchLabClient.MakeAuthenticatedRequest | backend/src/modules/despatch-lab/service.ts:336-350 | authentication comes first, and its failure replaces the request's answer |
| DespatchLabService.MapProductError | backend/src/modules/despatch-lab/service.ts:187-203 | "404" gives the not-found message; otherwise "400" gives "Invalid product data: …"; otherwise "401" gives the authentication message; any other message becomes "Failed to <action> product: <message>" |
| DespatchLabService.MapGetOrderError | backend/src/modules/despatch-lab/service.ts:65-77 | "404" gives "not found", then "401" gives the authentication message, otherwise "Failed to retrieve order: …" |
| DespatchLabService.NotFoundStatusWins | backend/src/modules/despatch-lab/service.ts:324-331 | a 404 answer composed by the request helper is reported as "not found" by all three catch blocks, whatever its body says |
| DespatchLabService.UuidLayoutIsFiveHexGroups | backend/src/modules/despatch-lab/service.ts:53-55 | the id check accepts exactly five hex groups of 8, 4, 4, 4 and 12 digits, in either case, joined by dashes |
| DespatchLabService.ValidateOrderId | backend/src/modules/despatch-lab/service.ts:48-57 | an empty id gives "Order ID is required"; any other id without the UUID layout gives the format error; otherwise the id passes |
| DespatchLabService.GetOrder | backend/src/modules/despatch-lab/service.ts:47-78 | success exactly for a valid id whose request succeeds, returning the API's answer; an invalid id fails with the validation message; a failed request is mapped by `MapGetOrderError` |
| DespatchLabService.GetOrderRejectsBeforeRequest | backend/src/modules/despatch-lab/service.ts:48-57 | an invalid id fails whatever the API would answer, so no request is made |
| DespatchLabService.UpdateEndpoints | backend/src/modules/despatch-lab/service.ts:217-282 | details first; configuration only when the dimensions are valid; storage, special instructions and rules always, in that order |
| DespatchLabService.FanOutUpdates | backend/src/modules/despatch-lab/service.ts:213-284 | one call per endpoint, in push order; every settled promise is fulfilled, with `null` for a failed request |
| DespatchLabService.CreateProductOutcome | backend/src/modules/despatch-lab/service.ts:80-204 | a missing customer id or SKU fails with the fixed message; with both, a failed creation is mapped by `MapCreateError` and a successful one returns the created id; success happens only then |
| DespatchLabService.CreateProduct | backend/src/modules/despatch-lab/service.ts:80-204 | the result is `CreateProductOutcome`; the update fan-out runs only after a successful creation whose request has an id or details |
| DespatchLabService.UpdateProductOutcome | backend/src/modules/despatch-lab/service.ts:206-292 | it succeeds exactly when the id and the customer id are present, and then returns the request's id |
| DespatchLabService.UpdateProduct | backend/src/modules/despatch-lab/service.ts:206-308 | the result is `UpdateProductOutcome` and the calls are the full fan-out; "All product update operations failed" is never thrown |
| OidcService.GetRedirectUrl | backend/src/modules/oidc/service.ts:62-67 | the admin redirect URI only for the actor "user" and only when one is configured; the storefront URI otherwise |
| OidcService.GetPostLoginRedirectUrl | backend/src/modules/oidc/service.ts:69-74 | the same rule for the post-login URL, falling back to "/", so the result is never empty |
| OidcService.ResolveActorType | backend/src/modules/oidc/service.ts:139 | the body's actor type, else the query's, else "customer" |
| OidcService.DefaultActorGetsStorefrontRedirect | backend/src/modules/oidc/service.ts:139-140 | without an actor type the storefront redirect and post-login URLs are used |
| OidcService.GetSessionState | backend/src/modules/oidc/service.ts:99-125 | a format error exactly when the first ':'-part is empty, there is no second part, or it is empty; then "Session not found" without a stored session, "Invalid state" when the stored state differs, "Session expired" when it is older than 10 minutes, and otherwise that session |
| OidcService.StateRoundTrip | backend/src/modules/oidc/service.ts:142-158 | the composed `sessionId:state` leads back to the stored session for 10 minutes, when neither part is empty or contains ':' |
| OidcService.SessionExpiryBoundary | backend/src/modules/oidc/service.ts:119-122 | an age of exactly 600000 ms is accepted and 600001 ms is rejected with "Session expired" |
| OidcService.StateWithoutSeparatorIsRejected | backend/src/modules/oidc/service.ts:102-106 | a state without ':' is an invalid format |
| OidcService.ExtractCompany | backend/src/modules/oidc/service.ts:174-181 | the first non-empty of company, org_name and org_id, or nothing |
| OidcService.UserIdOf | backend/src/modules/oidc/service.ts:233 | the subject when it is non-empty, else the e-mail address; the result is non-empty exactly when one of them is |
| OidcService.AccessTokenExpiresAt | backend/src/modules/oidc/service.ts:295-297 | `expires_in` seconds from now, or one hour when it is missing |
| OidcService.OidcProvider.constructor | backend/src/modules/oidc/service.ts:49-60 | the provider keeps its options and has no client yet |
| OidcService.OidcProvider.GetClient | backend/src/modules/oidc/service.ts:76-81 | the first discovery outcome is cached and returned forever, a failure included |
| OidcService.OidcProvider.Authenticate | backend/src/modules/oidc/service.ts:127-172 | a client failure gives "Failed to authenticate user" and stores nothing; otherwise it stores the session under `oidc_session_<id>` and redirects with state `<id>:<state>` |
| OidcService.OidcProvider.ValidateCallback | backend/src/modules/oidc/service.ts:183-360 | a client failure comes first, then a missing code, then a missing state; a login needs a valid session, a grant, user info and a user id, then a successful identity lookup; an existing identity is returned unchanged; a new one is stored under the user id with the session's actor type, the e-mail, the extracted company, the subject, the access token and its expiry; a failure stores nothing |
| ProviderLinks.OtherDefaults | backend/src/workflows/company/steps/set-fulfillment-provider-config.ts:61-69 | exactly the company's other links that are marked default |
| ProviderLinks.Demote | backend/src/workflows/company/steps/set-fulfillment-provider-config.ts:72-90 | the given links lose their default flag and keep their config and regions; no other link changes |
| ProviderLinks.SetConfigOutcome | backend/src/workflows/company/steps/set-fulfillment-provider-config.ts:26-92 | the link is replaced, not duplicated, with `is_default` false unless it was given as true; a default demotes the company's other links and touches nothing else |
| ProviderLinks.SetDefaultIsTheOnlyDefault | backend/src/workflows/company/steps/set-fulfillment-provider-config.ts:59-92 | after setting a default, it is the company's only default link |
| ProviderLinks.SetPreservesAtMostOneDefault | backend/src/workflows/company/steps/set-fulfillment-provider-config.ts:44-92 | "at most one default per company" is preserved |
| ProviderLinks.OtherCompaniesUntouched | backend/src/workflows/company/steps/set-fulfillment-provider-config.ts:36-92 | other companies' links are unchanged |
| ProviderLinks.Restore | backend/src/workflows/company/steps/remove-fulfillment-provider-config.ts:53-72 | with no payload nothing happens; otherwise the deleted link is recreated with its data |
| ProviderLinks.Links.SetConfig | backend/src/workflows/company/steps/set-fulfillment-provider-config.ts:20-107 | the new table is `SetConfigOutcome`, and the result echoes the input |
| ProviderLinks.Links.DemoteAll | backend/src/workflows/company/steps/set-fulfillment-provider-config.ts:71-91 | the loop leaves the table as `Demote` of the given links |
| ProviderLinks.Links.Remove | backend/src/workflows/company/steps/remove-fulfillment-provider-config.ts:12-52 | a missing link fails with "No configuration found …" and changes nothing; otherwise it is deleted and handed to the compensation |
| ProviderLinks.Links.RestoreRemoved | backend/src/workflows/company/steps/remove-fulfillment-provider-config.ts:53-72 | the new table is `Restore` of the old one |
| ProviderLinks.RemoveThenRestore | backend/src/workflows/company/steps/remove-fulfillment-provider-config.ts:34-72 | removing a link and running the compensation gives back the original table |
| WarehouseLinks.ListAbstractWarehouses | backend/src/workflows/company/steps/list-abstract-warehouses.ts:21-23 | exactly the locations whose `is_abstract` metadata is the boolean true |
| WarehouseLinks.AbstractWarehousesAreSubsequence | backend/src/workflows/company/steps/list-abstract-warehouses.ts:21-23 | the listed warehouses keep their original order |
| WarehouseLinks.StringTrueIsNotAbstract | backend/src/workflows/company/steps/list-abstract-warehouses.ts:22 | the string "true" does not count as abstract |
| WarehouseLinks.CloneOf | backend/src/workflows/company/steps/inherit-warehouse-links.ts:96-100 | a clone keeps the set's type and is named "<set name> - <virtual warehouse name>" |
| WarehouseLinks.VirtualName | backend/src/workflows/company/steps/inherit-warehouse-links.ts:66-67 | the virtual warehouse's name, or "Virtual Warehouse" |
| WarehouseLinks.OwnChannels | backend/src/workflows/company/steps/inherit-warehouse-links.ts:117-133 | a pair passes on exactly its existing parent's sales channels |
| WarehouseLinks.InheritedChannelsMeaning | backend/src/workflows/company/steps/inherit-warehouse-links.ts:31-133 | a virtual warehouse gets a sales channel exactly when an existing parent paired with it has it |
| WarehouseLinks.Warehouses.CopyProviderLinks | backend/src/workflows/company/steps/inherit-warehouse-links.ts:69-82 | one provider link per parent provider, in order, added to the link store |
| WarehouseLinks.Warehouses.CloneSets | backend/src/workflows/company/steps/inherit-warehouse-links.ts:84-115 | each parent set is cloned under a fresh id and linked; a missing set stops with its error and keeps the earlier clones; existing sets are untouched |
| WarehouseLinks.Warehouses.CloneOne | backend/src/workflows/company/steps/inherit-warehouse-links.ts:96-113 | one clone under the next id, plus its link |
| WarehouseLinks.Warehouses.InheritOne | backend/src/workflows/company/steps/inherit-warehouse-links.ts:36-144 | a missing parent is skipped with no change; otherwise the parent's providers, set clones and (when no error occurred) sales channels are passed on |
| WarehouseLinks.Warehouses.Inherit | backend/src/workflows/company/steps/inherit-warehouse-links.ts:15-151 | on success the reported links are exactly `InheritedLinks` of the input and the reported sets are the consecutive ids handed out from the starting counter, one per parent set; there are as many links as providers plus sets of the existing parents; the link table grows by exactly the reported links; every parent provider is linked to its virtual warehouse; every set of every existing parent has a clone, named after the virtual warehouse, that is reported and linked to it; the sales channels are the inherited ones |
| WarehouseLinks.InheritedLinksCount | backend/src/workflows/company/steps/inherit-warehouse-links.ts:70-114 | one link per provider and one per fulfillment set of every existing parent, and no other |
| WarehouseLinks.Warehouses.InheritNext | backend/src/workflows/company/steps/inherit-warehouse-links.ts:31-144 | one more input pair keeps everything the loop has established so far (links and sets reported, providers linked, clones recorded, sales channels inherited), unless it stops with an error |
| WarehouseLinks.Warehouses.InheritPairs | backend/src/workflows/company/steps/inherit-warehouse-links.ts:31-145 | the pairs are processed in input order; unless one stops with an error, everything `InheritNext` keeps holds for the whole input, and the links and set ids reported are `InheritedLinks` and the consecutive new ids |
| WarehouseLinks.Warehouses.Rollback | backend/src/workflows/company/steps/inherit-warehouse-links.ts:152-178 | the reported sets and links are deleted; with no payload nothing happens; sales channels stay; the set-id invariant is kept |
| WarehouseLinks.Warehouses.InheritThenRollback | backend/src/workflows/company/steps/inherit-warehouse-links.ts:152-178 | rolling back a successful inheritance restores the links and sets exactly, but keeps the sales-channel links it added |
| ProductSync.FirstCompany | backend/src/workflows/despatch-lab/steps/sync-all-product-variants.ts:69-83 | the company of the first link of the product, or nothing when it has none |
| ProductSync.ResolveCustomer | backend/src/workflows/despatch-lab/steps/sync-all-product-variants.ts:68-107 | the three failures in order (no company, no DespatchLab link, no customer id), or the customer with a non-empty id |
| ProductSync.Volume | backend/src/workflows/despatch-lab/steps/sync-all-product-variants.ts:131-134 | height × width × length when all three are truthy, otherwise 0 |
| ProductSync.VolumeZeroIffDimensionMissing | backend/src/workflows/despatch-lab/steps/sync-all-product-variants.ts:131-134 | the volume is zero exactly when a dimension is missing or zero |
| ProductSync.FirstTruthy | backend/src/workflows/despatch-lab/steps/sync-all-product-variants.ts:143 | the first non-empty candidate (barcode, EAN, UPC), or nothing |
| ProductSync.BasicRequest | backend/src/workflows/despatch-lab/steps/sync-all-product-variants.ts:213-221 | the creation request carries the customer id, the SKU, the "<product title> - <variant title>" description and the first truthy of barcode, EAN and UPC, and does not trigger the service's own update phase |
| ProductSync.FullRequest | backend/src/workflows/despatch-lab/steps/sync-all-product-variants.ts:137-210 | the update request carries the id, the customer id, the SKU, the description and barcode, a non-empty customer name (the customer's, else "Unknown"), height, width and depth (from the length) with 0 when missing, the volume and the weight |
| ProductSync.SyncOne | backend/src/workflows/despatch-lab/steps/sync-all-product-variants.ts:124-230 | a variant whose metadata names a product is an update of that product; otherwise the creation's error, or the created id as a creation |
| ProductSync.Stamped | backend/src/workflows/despatch-lab/steps/sync-all-product-variants.ts:233-239 | the metadata gains the product id and sync time and keeps every other key |
| ProductSync.ResyncUpdatesSameProduct | backend/src/workflows/despatch-lab/steps/sync-all-product-variants.ts:125-128 | after a sync, syncing the stamped variant again updates the same DespatchLab product |
| ProductSync.SyncVariant | backend/src/workflows/despatch-lab/steps/sync-all-product-variants.ts:203-230 | the result is `SyncOne`; a variant with a stored product id makes one update call with the full request; otherwise one creation call with the basic request, followed by an update call with the full request for the created id when the creation succeeds |
| ProductSync.Step | backend/src/workflows/despatch-lab/steps/sync-all-product-variants.ts:114-257 | exactly one entry is appended, the earlier ones kept: a synced entry names the variant and the sync time and writes the stamped metadata; an error names the variant and writes nothing; a variant without SKU gets the "no SKU" error |
| ProductSync.StepOutcome | backend/src/workflows/despatch-lab/steps/sync-all-product-variants.ts:124-257 | for a variant with a SKU: a failed sync gives its error, a failed metadata write gives the write's error, otherwise the synced entry carries the DespatchLab id, the product, variant, SKU, company, whether it was an update and the sync time |
| ProductSync.SyncListedVariant | backend/src/workflows/despatch-lab/steps/sync-all-product-variants.ts:114-257 | one loop iteration produces exactly `Step`'s progress and writes exactly the metadata `Step` records; a failed metadata write becomes an error entry |
| ProductSync.ProcessAll | backend/src/workflows/despatch-lab/steps/sync-all-product-variants.ts:109-265 | the synced entries and the errors together number the variants, and their variant ids are exactly the listed variants' ids, each as often as it is listed |
| ProductSync.SyncedEntriesAreRecorded | backend/src/workflows/despatch-lab/steps/sync-all-product-variants.ts:232-249 | each synced entry has a SKU, an id and the resolved company, and its written metadata names a non-empty product id |
| ProductSync.SyncAllProductVariants | backend/src/workflows/despatch-lab/steps/sync-all-product-variants.ts:58-265 | no variants gives zero totals without any lookup; a failed customer lookup fails the step before any variant; otherwise the result and the metadata writes are `ProcessAll`'s, so a failed sync or metadata write of one variant only adds an error entry |
| ProductSync.SyncEach | backend/src/workflows/despatch-lab/steps/sync-all-product-variants.ts:113-257 | the loop over the variants returns `ProcessAll`'s entries and writes exactly its metadata |
| ProductSync.UpsertProductVariant | backend/src/workflows/despatch-lab/steps/upsert-product-variant.ts:15-219 | a missing variant, then a missing SKU, then a failed customer lookup fail the step; then a failed sync fails it with the sync's own error, and a failed metadata write with the write's error, writing nothing; success writes the stamped metadata and hands the result to the compensation |
| ProductSync.CreateDespatchLabProduct | backend/src/workflows/despatch-lab/steps/create-product.ts:12-87 | a missing product or no variants fails; only the first variant's SKU is checked; a failure to find the company, its configuration or its customer id is passed on; otherwise the request `CreateRequest` is sent, and its failure or the created id, with the product and the company, is the result |
| ProductSync.CreateRequest | backend/src/workflows/despatch-lab/steps/create-product.ts:75-81 | a new product (no id) for the resolved customer with the first variant's SKU, the product's title as description, the barcode or else the EAN, type "Product", and no details, so no second update call follows |
| FulfillmentSync.Selected | backend/src/workflows/despatch-lab/steps/get-fulfillments-needing-sync.ts:37-42 | exactly the undelivered fulfillments whose metadata holds a non-empty string order id |
| FulfillmentSync.SelectedIsSubsequence | backend/src/workflows/despatch-lab/steps/get-fulfillments-needing-sync.ts:37-42 | the selection keeps the query's order |
| FulfillmentSync.Project | backend/src/workflows/despatch-lab/steps/get-fulfillments-needing-sync.ts:43-50 | the projected order id is the non-empty string stored in the metadata |
| FulfillmentSync.GetFulfillmentsNeedingSync | backend/src/workflows/despatch-lab/steps/get-fulfillments-needing-sync.ts:20-63 | a failed query is rethrown; otherwise one projected entry per selected fulfillment, in order |
| FulfillmentSync.SyncedMetadata | backend/src/workflows/despatch-lab/steps/sync-fulfillment-statuses-batch.ts:51-57 | the four DespatchLab keys are set from the answer and the sync time; every other key is kept; no key is added |
| FulfillmentSync.SyncOne | backend/src/workflows/despatch-lab/steps/sync-fulfillment-statuses-batch.ts:44-125 | a failed `getOrder` changes nothing and reports its error; a sync succeeds exactly when the order is found and no call it makes throws; a shipment happens only when DespatchLab reports one and the fulfillment is unshipped and has an order, with the latest tracking number or ""; a delivery only on status "Delivered" |
| FulfillmentSync.BatchCounts | backend/src/workflows/despatch-lab/steps/sync-fulfillment-statuses-batch.ts:36-133 | successes plus failures equal the number of fulfilments, and there is one error per failure |
| FulfillmentSync.ErrorsNameTheirFulfillment | backend/src/workflows/despatch-lab/steps/sync-fulfillment-statuses-batch.ts:117-122 | every error reads "Fulfillment <id>: <message>" for a fulfilment of the batch |
| FulfillmentSync.ShipmentsAreReported | backend/src/workflows/despatch-lab/steps/sync-fulfillment-statuses-batch.ts:64-97 | every shipment created belongs to a fulfilment of the batch whose DespatchLab order reports a shipment |
| FulfillmentSync.DeliveriesAreReported | backend/src/workflows/despatch-lab/steps/sync-fulfillment-statuses-batch.ts:99-110 | every fulfilment marked delivered is in the batch, and DespatchLab reports it "Delivered" |
| FulfillmentSync.FulfillmentStore.SyncFulfillment | backend/src/workflows/despatch-lab/steps/sync-fulfillment-statuses-batch.ts:44-125 | the store changes by exactly `SyncOne`'s effects, and the error is `SyncOne`'s |
| FulfillmentSync.FulfillmentStore.SyncBatch | backend/src/workflows/despatch-lab/steps/sync-fulfillment-statuses-batch.ts:35-133 | the store and the counters are those of processing the fulfilments one by one, in order |
| CreateOrder.ToProduct | backend/src/workflows/despatch-lab/workflows/create-order.ts:45-50 | the SKU, with "" dropped, and the quantity, with a missing or zero quantity read as 1 |
| CreateOrder.RecipientName | backend/src/workflows/despatch-lab/workflows/create-order.ts:53-56 | the trimmed first and last name, or "Customer"; never empty and never padded with spaces |
| Text.Trim | backend/src/workflows/despatch-lab/workflows/create-order.ts:53-56 | the result is a contiguous piece of the input, with only white space removed before and after it, and neither starts nor ends with white space |
| CreateOrder.CountryId | backend/src/workflows/despatch-lab/workflows/create-order.ts:59-62 | the id of the upper-cased code; none for a missing code, an unknown code or an id of 0 |
| CreateOrder.CustomerReferenceReadsBack | backend/src/workflows/despatch-lab/workflows/create-order.ts:66 | "#<display id> <order id>": after the "#", the text before the first space is the display id |
| CreateOrder.Transform | backend/src/workflows/despatch-lab/workflows/create-order.ts:34-92 | it fails exactly when the customer id is missing or falsy; otherwise it builds the request field by field, one product per item, in order |
| CreateOrder.CreateOrderStep | backend/src/workflows/despatch-lab/steps/create-order.ts:25-40 | corrected to reach DespatchLab: the created id is wrapped as `{ orderId }`; a failure becomes "Failed to create DespatchLab order: …" |
| CreateOrder.CreateOrderStepAsWritten | backend/src/workflows/despatch-lab/steps/create-order.ts:25-40 | as written, the step fails with the wrapped "despatchLabService.createOrder is not a function" whatever DespatchLab would answer, where the corrected step succeeds |
| CreateOrder.AsWrittenOrderIdIsNotAString | backend/src/workflows/despatch-lab/workflows/create-order.ts:94-105 | as written, the order's `despatchlab_order_id` is never the created order id string |
| CreateOrder.OrderMetadata | backend/src/workflows/despatch-lab/workflows/create-order.ts:94-105 | the corrected update stores the order id string under `despatchlab_order_id` |
| CreateOrder.CreateDespatchLabOrder | backend/src/workflows/despatch-lab/workflows/create-order.ts:31-107 | corrected: nothing is created when the transform fails; the order is updated only after a successful creation, and then records the created id string |
| CreateOrder.CreateDespatchLabOrderAsWritten | backend/src/workflows/despatch-lab/workflows/create-order.ts:31-107 | the order update as written, with the creation step corrected: it fails exactly when the corrected workflow does, with the same error, and returns the same step output, but the order update it makes never holds the order id string |
| AutoFulfillOrder.TrackingDigits | backend/src/subscribers/auto-fulfill-order.ts:14-16 | nine decimal digits that read back as the drawn number |
| AutoFulfillOrder.GenerateTrackingCode | backend/src/subscribers/auto-fulfill-order.ts:10-21 | the upper-cased country code ("XX" when none is passed), nine digits that read back as the number, then two capital letters |
| AutoFulfillOrder.LookUpCustomerId | backend/src/subscribers/auto-fulfill-order.ts:43-70 | no company id fails first; a failed link query passes its error on; no link, a null config and a config without customer id each fail with their own message; a success is the non-empty customer id of the first link's config |
| AutoFulfillOrder.AutoFulfill | backend/src/subscribers/auto-fulfill-order.ts:23-112 | no items array does nothing; without a customer id a failed lookup ends with the lookup's error and no write, and a successful one is merged into the metadata; once the customer is known a failed fulfilment ends with its error and nothing created; otherwise the fulfilment has the order's id and items, the shipment names it with a generated tracking code, and the result's error is exactly the shipment's; it succeeds exactly when the shipment is created |
| ProvidersSection.ProviderDisplayName | backend/src/admin/routes/companies/components/fulfillment-providers/fulfillment-providers-section.tsx:24-33 | the two known providers by name, any other id as it is |
| ProvidersSection.RegionDisplayName | backend/src/admin/routes/companies/components/fulfillment-providers/fulfillment-providers-section.tsx:38-46 | the short name of a known region code, the code itself otherwise |
| ProvidersSection.RegionDisplayNames | backend/src/admin/routes/companies/components/fulfillment-providers/fulfillment-providers-section.tsx:35-47 | "All regions" for no regions, otherwise the names joined by ", " |
| ProvidersSection.RegionDisplayNamesReadBack | backend/src/admin/routes/companies/components/fulfillment-providers/fulfillment-providers-section.tsx:46 | when no code contains a comma, splitting the text at commas gives back the region names in order, each after the first with its leading space |
| ProvidersSection.ConfigDisplay | backend/src/admin/routes/companies/components/fulfillment-providers/fulfillment-providers-section.tsx:49-57 | "-" without a config; at most 8 characters of the customer id followed by "..."; otherwise "Configured" |
| ProvidersSection.ConfigDisplayIsShort | backend/src/admin/routes/companies/components/fulfillment-providers/fulfillment-providers-section.tsx:52-54 | the summary is never longer than 11 characters |
| ProviderDrawer.CountryOptions | backend/src/admin/routes/companies/components/fulfillment-providers/fulfillment-provider-drawer.tsx:65-68 | one option per country, with its ISO code as the value and its name as the label |
| ProviderDrawer.FlattenRegions | backend/src/admin/routes/companies/components/fulfillment-providers/fulfillment-provider-drawer.tsx:64-69 | exactly the countries of the regions that have countries |
| ProviderDrawer.FlattenRegionsOrder | backend/src/admin/routes/companies/components/fulfillment-providers/fulfillment-provider-drawer.tsx:64-69 | the options of two lists of regions are those of the first followed by those of the second: region after region, in order |
| ProviderDrawer.FlattenOneRegion | backend/src/admin/routes/companies/components/fulfillment-providers/fulfillment-provider-drawer.tsx:65-68 | one region offers its countries in their own order, as value and label; a region without countries offers none |
| ProviderDrawer.AvailableRegions | backend/src/admin/routes/companies/components/fulfillment-providers/fulfillment-provider-drawer.tsx:64-69 | nothing while the regions are not loaded |
| ProviderDrawer.FormDefaults | backend/src/admin/routes/companies/components/fulfillment-providers/fulfillment-provider-drawer.tsx:71-82 | missing text fields read "", missing regions none, and a missing default flag false |
| ProviderDrawer.SubmitPayload | backend/src/admin/routes/companies/components/fulfillment-providers/fulfillment-provider-drawer.tsx:101-125 | an edit sends config, regions and the flag; a creation also sends the provider id; the regions are the selected ones |
| ProviderDrawer.RemoveAll | backend/src/admin/routes/companies/components/fulfillment-providers/fulfillment-provider-drawer.tsx:137 | every occurrence of the region is removed and the rest kept |
| ProviderDrawer.RemoveAllIsSubsequence | backend/src/admin/routes/companies/components/fulfillment-providers/fulfillment-provider-drawer.tsx:137 | removal keeps the order of the remaining regions |
| ProviderDrawer.Toggle | backend/src/admin/routes/companies/components/fulfillment-providers/fulfillment-provider-drawer.tsx:134-141 | a selected region is removed everywhere, an unselected one appended |
| ProviderDrawer.ToggleTwiceRestores | backend/src/admin/routes/companies/components/fulfillment-providers/fulfillment-provider-drawer.tsx:134-141 | clicking an unselected region twice gives back the original selection |
| ProviderDrawer.ToggleTwiceMovesToEnd | backend/src/admin/routes/companies/components/fulfillment-providers/fulfillment-provider-drawer.tsx:134-141 | clicking a selected region twice moves it, once, to the end |
| ProviderDrawer.RegionPicker.constructor | backend/src/admin/routes/companies/components/fulfillment-providers/fulfillment-provider-drawer.tsx:56-82 | the drawer opens with nothing selected and the form's default regions |
| ProviderDrawer.RegionPicker.Load | backend/src/admin/routes/companies/components/fulfillment-providers/fulfillment-provider-drawer.tsx:86-99 | a given configuration's regions become the selection, the form value and the reset value |
| ProviderDrawer.RegionPicker.HandleRegionToggle | backend/src/admin/routes/companies/components/fulfillment-providers/fulfillment-provider-drawer.tsx:134-143 | the selection is toggled, and the form field receives the selection as it was before the click |
| ProviderDrawer.RegionPicker.Submit | backend/src/admin/routes/companies/components/fulfillment-providers/fulfillment-provider-drawer.tsx:101-132 | the request carries the selected regions; only a successful request resets the form and clears the selection |
| CategoryBreadcrumb.Href | storefront/src/modules/categories/category-breadcrumb/index.tsx:16 | a category's page when it has a handle, "/store" otherwise |
| CategoryBreadcrumb.Find | storefront/src/modules/categories/category-breadcrumb/index.tsx:45-47 | the first category with the parent id, as `find` returns it, or none when no category has it or there is no parent id |
| CategoryBreadcrumb.Chain | storefront/src/modules/categories/category-breadcrumb/index.tsx:49-65 | the ancestors found by successive lookups, nearest first, all of them listed categories |
| CategoryBreadcrumb.Breadcrumbs | storefront/src/modules/categories/category-breadcrumb/index.tsx:31-74 | "Products" and a separator first, the category last, two entries per ancestor in between |
| CategoryBreadcrumb.CrumbsAlternate | storefront/src/modules/categories/category-breadcrumb/index.tsx:49-60 | items and separators alternate |
| CategoryBreadcrumb.CrumbsRootFirst | storefront/src/modules/categories/category-breadcrumb/index.tsx:49-60 | the ancestors appear from the root down |
| CategoryBreadcrumb.GenerateBreadcrumbs | storefront/src/modules/categories/category-breadcrumb/index.tsx:31-74 | the loop of prepends builds exactly `Breadcrumbs` |
| ProductPreview.InventoryTotal | storefront/src/modules/products/components/product-preview/index.tsx:25-27 | no count without a variants array; otherwise the sum of the quantities; no variants gives 0 |
| ProductPreview.SumConcat | storefront/src/modules/products/components/product-preview/index.tsx:25-27 | the count of two lists of variants is the sum of their counts |
| ProductPreview.SumIsTotalOfQuantities | storefront/src/modules/products/components/product-preview/index.tsx:25-27 | non-negative quantities give a non-negative count; missing quantities add nothing |
| ProductPreview.NoQuantitiesGiveZero | storefront/src/modules/products/components/product-preview/index.tsx:26 | any list of variants without quantities counts 0 |
| ProductPreview.Colour | storefront/src/modules/products/components/product-preview/index.tsx:52-59 | green above 10, orange from 1 to 10, red at exactly 0 |
| ProductPreview.ColourIsExclusive | storefront/src/modules/products/components/product-preview/index.tsx:52-59 | at most one colour applies, and one applies exactly when there is a non-negative count |
| ProductPreview.StockText | storefront/src/modules/products/components/product-preview/index.tsx:63-65 | the count followed by " left", or " left" alone without a count |
| ProductPreview.Preview | storefront/src/modules/products/components/product-preview/index.tsx:17-65 | nothing for a missing product; otherwise a link to `/products/<handle>` coloured by the stock count |

## Left out

- **HTTP, logging, timers and concurrency are left out.** The endpoint updates of the product fan-out run in push order rather than concurrently.
- DespatchLabService.DespatchLabClient.constructor: the `authenticate()` the constructor starts without awaiting is not modelled.
- DespatchLabService.DespatchLabClient.RefreshToken: the nested `ensureAuthenticated` inside its authenticated request is not modelled. `RefreshNeverAttemptedWhenConsistent` shows the refresh path is never entered from a reachable context.
- `impersonate` and the five per-endpoint update methods are not modelled; each update call is one fan-out entry.
- The service's `hasValidDimensions` parses the weight with `parseFloat`. The model takes the weight already as a number.
- The createProduct second-phase test `'id' in data || Object.keys(data).length > 5` is modelled as "has an id, or carries the extended details".
- CreateOrder.CreateOrderStep: the create-order step calls a `createOrder` method that the DespatchLab service in backend/src/modules/despatch-lab/service.ts does not define (see "## Findings"). The corrected step takes the answer of the intended call as the `created` parameter; the request that call would send is not modelled.
- OidcService.OidcProvider.ValidateCallback:
  - the token exchange, user info and identity lookup are parameters;
  - the session is read, not consumed, as in the source;
  - the redirect URL passed to the token exchange is not modelled.
- The OIDC client's discovery, PKCE and nonce values, and `crypto.randomUUID`, are parameters.
- ProductSync:
  - a `despatchlab_product_id` metadata value that is not a string is treated as absent;
  - the step compensations, which only log, are not modelled;
  - whether a variant's metadata write throws is the `writeFailure` parameter; after such a failure the DespatchLab product exists but its id is not written back, so a later sync creates another one;
  - one `syncedAt` timestamp is used for a whole run. The source calls `new Date()` separately for the metadata and for the synced entry, so the two may differ by the time between the calls.
- FulfillmentSync:
  - the remote order answer is per DespatchLab order id;
  - whether the metadata update, the shipment workflow or the delivery workflow throws is a per-fulfilment `Fault` parameter;
  - an `undefined` field of the DespatchLab answer is stored as a null metadata value;
  - one sync time is used for the whole batch. The source calls `new Date()` once per fulfilment.
- FulfillmentSync.Selected: the query's `delivered_at: null` filter is the `deliveredAt.None?` test.
- WarehouseLinks.Warehouses.Inherit: the query's shape and errors are not modelled, and locations are a snapshot read at the start. A failure from the sales-channel workflow is not modelled separately.
- CreateOrder:
  - the country table of the DespatchLab module is an abstract map parameter;
  - how the order module merges the metadata update into the order is not modelled.
- CreateOrder.RecipientName: `Text.Trim` removes ASCII white space only. JavaScript's `trim` also removes other Unicode spaces.
- Strings are sequences of characters, not of UTF-16 code units. Text.ToUpper maps ASCII letters only, so JavaScript's `toUpperCase` of letters such as 'ı' or 'ß' is not modelled. ProvidersSection.ConfigDisplay takes its first 8 characters, where `substring` takes 8 UTF-16 code units.
- AutoFulfillOrder.LookUpCustomerId: a link whose config is `undefined` rather than `null` would give the message "Cannot read properties of undefined (reading 'customerId')". The model has a single missing-config case, with the `null` message.
- ProvidersSection.RegionDisplayName: JavaScript's lookup of inherited object keys (such as "constructor") in the region map is not modelled.
- CategoryBreadcrumb.GenerateBreadcrumbs: it requires the parent chain to end within as many steps as there are categories. The source loops forever on a cycle.
- ProviderDrawer:
  - the drawer's open/close state, toasts and form validation are not modelled;
  - the `requestFails` parameter stands for the mutation's outcome.
- ProductPreview.Preview: the price, thumbnail and add-to-cart parts of the card are not modelled.
- AutoFulfillOrder.AutoFulfill:
  - the order module, the link query and the fulfilment and shipment workflows are parameters;
  - a failing metadata update is not modelled separately from the link query.

## Findings

| source | as written | input that shows it | evidently intended | confidence | as-written member | corrected member |
|---|---|---|---|---|---|---|
| backend/src/workflows/despatch-lab/workflows/create-order.ts:94-105 | the order update stores the order-creation step's whole output object `{ orderId }` under `despatchlab_order_id` | any order that is created once the creation step is fixed (see the next row: as written, no order is ever created, so the update is never reached): the stored value is an object, not the id string | store the created id itself, as backend/src/modules/despatch-lab-fulfillment/service.ts:69 does with `despatchLabOrder.orderId` | medium, not executed | CreateOrder.CreateDespatchLabOrderAsWritten | CreateOrder.CreateDespatchLabOrder |
| backend/src/workflows/despatch-lab/steps/create-order.ts:26-29 | the step calls `despatchLabService.createOrder`, but the service class (backend/src/modules/despatch-lab/service.ts:23) defines no such method | any order with a customer id: the call throws a `TypeError`, which the catch at lines 36-40 turns into "Failed to create DespatchLab order: despatchLabService.createOrder is not a function" | a service method that posts the order to DespatchLab and returns the created id | medium, not executed | CreateOrder.CreateOrderStepAsWritten | CreateOrder.CreateOrderStep |
