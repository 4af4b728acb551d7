# Purchase-request tracker: stores, mock backend and pipeline orders

A Dafny model of the logic in a supply-chain purchase-request UI:

- **Stores** (`stores.dfy`, from `src/lib/stores.ts`). These are the three process-wide stores: the loading flag, the message modal and the mirrored list of purchase requests. The purchase-request listener changes them through three entry points. Starting it raises the loading flag. A snapshot rebuilds the list from the snapshot's documents and clears the flag. An error shows the fixed "Data Error" message, keeps the list and clears the flag. `showMessage` overwrites the modal. The stores are a class `Store` with one field per store. Its methods are specified by a pure transition function `Step` over `Event`s, and `Run` applies a sequence of events. The lemmas about `Run` describe any sequence of callbacks.
- **Mock backend** (`dummy.dfy`, from `src/lib/dummy.ts`). It holds the sample fixtures and the decision logic of the mock calls: lookup of a purchase request by id, and create, update, list and bulk operations on Supply Input records. It also holds the three hard-coded order views of the Pipeline, Business and In-Transit tabs.
- **Pipeline orders** (`pipeline_orders.dfy`, from `src/data/pipelineOrders.ts`). This is the reshape that nests each flat `{request, sku, vendor}` mock order into `{request: {...request, skus: [{...sku, vendors: [vendor]}]}}`. An inverse, `Unnest`, is proved to undo it.
- **Domain types** (`types.dfy`, from `src/lib/types.ts`) and `Option` (`options.dfy`).

Modelling choices:

- A Supply Input is a map from property names (`Field`) to values. Object spread `{...a, ...b}` is then map union `a + b`, where the right operand wins. A property that is present but holds `undefined` is the value `Undefined`. The string enumerations are datatypes, one constructor per member.
- `IsSupplyInput` and `IsPartialSupplyInput` restate the declared property types of `SupplyInput` and `Partial<SupplyInput>`.
- `Vendor.poNumber` and `Vendor.poStatus` are `Option<string>`. The pipeline fixtures store `null` there, although the interface declares a string.
- A snapshot document is its store-assigned identity plus a payload. The payload may carry an `id` field of its own. A record is built as `{ id: doc.id, ...doc.data() }`. The spread comes second, so a payload `id` overrides the document's identity. The model keeps this order (`ToRequest`, `IdentityKept`).
- The listener code has no unsubscribe guard and no single-subscription rule. Every start raises the loading flag again (`LoadingRisesOnRestart`). A payload `id` shadows the document identity (`IdentityKept`). The three order views are fixed lists, not predicates over the list of requests, so they need not agree with each other: `ViewsDisagreeOnRequestStatus` shows request PR-2023-002 with a different status in each of them.

## Model

| member | source | states |
|---|---|---|
| Stores.Initial | src/lib/stores.ts:14-24 | the initial state is loading, a hidden modal with empty title and message, and no requests |
| Stores.Store.constructor | src/lib/stores.ts:14-24 | the new stores hold exactly the initial state |
| Stores.Store.ListenToPurchaseRequests | src/lib/stores.ts:34-35 | starting the listener sets loading to true and leaves the modal and the request list untouched |
| Stores.Store.OnSnapshot | src/lib/stores.ts:40-48 | the snapshot callback's loop builds one record per document, in document order, replaces the whole list with them, clears loading and keeps the modal |
| Stores.Store.OnError | src/lib/stores.ts:49-56 | the error callback keeps the list, sets the modal to {true, "Data Error", "Could not load purchase requests from the database."} and clears loading |
| Stores.Store.ShowMessage | src/lib/stores.ts:67-69 | showMessage sets the modal to {true, title, message} whatever it was; loading and the list are untouched |
| Stores.ToRequest | src/lib/stores.ts:44 | a record takes the payload's own id when it has one, else the document's identity; every other field is the payload's |
| Stores.IdentityKept | src/lib/stores.ts:44 | a record keeps its document's identity exactly when the payload has no id or repeats the identity (both directions) |
| Stores.ToRequestToDoc | src/lib/stores.ts:44 | storing a record as a document (identity = id, no payload id) and mapping it back gives the same record |
| Stores.Records | src/lib/stores.ts:41-45 | the snapshot's record list has one entry per document, the i-th being the i-th document's record |
| Stores.RecordIdsAreDocIds | src/lib/stores.ts:42-45 | when no payload carries an id, the record ids are the document identities, in order |
| Stores.RecordsOfStoredRecords | src/lib/stores.ts:41-46 | mirroring back a list of records stored as documents gives that list |
| Stores.RunIsLatestWrites | src/lib/stores.ts:34-69 | after any sequence of callbacks, the list is the records of the latest snapshot (none survive from earlier batches), the modal is the latest notice, loading is set by the latest start, snapshot or error; each keeps its initial value until written |
| Stores.SnapshotReplaces | src/lib/stores.ts:41-47 | after any history, a snapshot leaves exactly one record per document in order, loading false and the modal unchanged |
| Stores.ErrorKeepsRequests | src/lib/stores.ts:49-56 | after any history, an error keeps the list, raises the data-error modal and clears loading |
| Stores.LastMessageWins | src/lib/stores.ts:67-69 | of two showMessage calls the last one wins; the list and loading flag are untouched |
| Stores.LoadingRisesOnRestart | src/lib/stores.ts:35 | starting the listener again after a batch makes loading true again |
| Stores.Step | src/lib/stores.ts:35-68 | only a snapshot writes the list, one record per document, and clears loading; a start raises loading; only an error or showMessage writes the modal, the error with the fixed data-error message and loading cleared, showMessage leaving loading alone |
| Stores.Run | src/lib/stores.ts:34-69 | callbacks without a snapshot keep the list; callbacks that are only starts and snapshots keep the modal |
| Dummy.DummyVendor | src/lib/dummy.ts:35-47 | the sample vendor is Approved, with poNumber "PO-789012" and poStatus "Issued", and its expected pickup lies after the load time |
| Dummy.DummySku | src/lib/dummy.ts:50-61 | the sample SKU is quoted by the sample vendor alone |
| Dummy.DummyHistoryLog | src/lib/dummy.ts:64-68 | the sample history entry is dated before the load time |
| Dummy.DummyPurchaseRequest | src/lib/dummy.ts:71-79 | the sample request PR-2023-001 carries the sample SKU and history entry, and was created before that entry, which is before the load time |
| Dummy.DummySupplyOpsBusiness | src/lib/dummy.ts:82-97 | the Business projection's sku, vendor, poNumber and poStatus are those nested in its request; its product, category, brand, asv and season fields repeat the SKU's, and its warehouse, initiator and history repeat the request's |
| Dummy.DummySupplyOpsPipeline | src/lib/dummy.ts:100-106 | the Pipeline projection's sku, vendor, poNumber and poStatus are those nested in its request |
| Dummy.DummySupplyInput | src/lib/dummy.ts:155-218 | the sample Supply Input sets every property; its cpId is "CP-001", agmId "AGM-12345" and skuId "SKU-ABC-001" |
| Dummy.DummySupplyInputWellTyped | src/lib/dummy.ts:155-218 | every property of the sample Supply Input holds a value of its declared type, so it is a valid `SupplyInput` |
| Dummy.FetchPurchaseRequestById | src/lib/dummy.ts:259-272 | the lookup returns the sample request exactly when the id is "PR-2023-001", and none otherwise |
| Dummy.CreateSupplyInput | src/lib/dummy.ts:274-295 | create succeeds iff agmId and skuId are both truthy; then the record is the input with only cpId set to "CP-NEW-001" (well-typedness kept). Otherwise there is no record, and the errors give both agmId and skuId as "Required" |
| Dummy.CreateNeedsIdentities | src/lib/dummy.ts:280-291 | a well-typed input holds agmId and skuId as strings, and create succeeds exactly when both are non-empty |
| Dummy.UpdateSupplyInput | src/lib/dummy.ts:297-318 | update succeeds iff the id is the sample's cpId "CP-001"; the record then has every partial property replaced and every other one kept from the sample. Any other id gives "Supply Input not found." and no record |
| Dummy.UpdateKeepsWellTyped | src/lib/dummy.ts:308 | a well-typed partial that leaves no required property undefined yields a well-typed Supply Input |
| Dummy.CreatedIdNotUpdatable | src/lib/dummy.ts:284-314 | the cpId "CP-NEW-001" that create assigns is never found by update |
| Dummy.FetchAllSupplyInputs | src/lib/dummy.ts:320-327 | the list is the sample, then a copy differing exactly in agmId "AGM-54321", cpId "CP-002" and quantityAvailable 75 |
| Dummy.FetchAllWellTyped | src/lib/dummy.ts:324 | both listed Supply Inputs are well-typed |
| Dummy.PerformBulkSupplyOperation | src/lib/dummy.ts:329-347 | a bulk operation counts every input successful and none failed, with no errors; operation, inputs and batch id pass through, processedAt is the clock reading |
| Dummy.GetPipelineOrders | src/lib/dummy.ts:354-375 | two records: PO-789012 on PR-2023-001, then PO-789013 on PR-2023-002; poStatus "Issued", request status "Approved", the rest of the request, the sku and the vendor from the sample |
| Dummy.GetBusinessOrders | src/lib/dummy.ts:378-399 | PO-789012 "Received at WH" on a "Completed" PR-2023-001, then PO-789013 "Cancelled" on a "Cancelled" PR-2023-002; sku and vendor from the sample, product name "Gadget X Pro", category "Electronics", brand "TechGadget", asv 155.5, seasonality "High", season "Q4", and the sample's warehouse, initiator and history |
| Dummy.GetInTransitOrders | src/lib/dummy.ts:402-423 | both POs and both requests "Dispatched", PR-2023-001 then PR-2023-002; sku and vendor from the sample |
| Dummy.ViewsDisjointByPoStatus | src/lib/dummy.ts:354-423 | no top-level poStatus occurs in two views, yet the views share their request ids and every nested vendor's poStatus is still "Issued" |
| Dummy.ViewsDisagreeOnRequestStatus | src/lib/dummy.ts:354-423 | the same request PR-2023-002 is "Approved", "Cancelled" and "Dispatched" in the three views |
| PipelineOrders.MockPipelineOrders | src/data/pipelineOrders.ts:2-87 | the two mock orders are flat: no SKUs on the request, no vendors on the SKU |
| PipelineOrders.Unnest | src/data/pipelineOrders.ts:89-101 | a nested order comes apart exactly when it has one SKU holding one vendor, and the parts are flat |
| PipelineOrders.NestOrder | src/data/pipelineOrders.ts:90-100 | a nested order keeps id, proposedWh, status, initiatedBy, createdAt and history; its skus is exactly the input SKU with vendors = [input vendor] |
| PipelineOrders.UnnestNestOrder | src/data/pipelineOrders.ts:89-101 | nesting a flat order and taking it apart gives the order back |
| PipelineOrders.NestUnnestOrder | src/data/pipelineOrders.ts:89-101 | taking a nested order apart and nesting it again gives it back |
| PipelineOrders.NestOrders | src/data/pipelineOrders.ts:89 | the reshape keeps the list's length and order: the i-th output is the i-th input nested |
| PipelineOrders.UnnestNestOrders | src/data/pipelineOrders.ts:89-101 | every output of the reshape of flat orders comes apart into its input |
| PipelineOrders.PipelineOrders | src/data/pipelineOrders.ts:89-101 | the two resulting orders REQ-001, REQ-002 are "Approved - Pending PO Creation" with one "Request Created" history entry, one SKU with one vendor whose poNumber and poStatus are null; each comes apart into its mock order |

## Left out

- Firestore and Svelte plumbing is not modelled: the database handle, the query, registering the listener, the unsubscribe handle it returns, and notifying store subscribers. The callbacks are modelled as what they receive, a sequence of documents.
- The `as PurchaseRequest` cast is unchecked in the source. The model assumes every payload carries every request field except `id`.
- `Promise`, `setTimeout` latency and `console.log`/`console.error` are not modelled. Every mock call is a synchronous function of its inputs. `demoFetchUsage` is not modelled; it is unused and only logs.
- Clock readings are parameters. `now` is the reading used for every fixture timestamp. The source calls `Date.now()` separately for each field, so these readings may differ by a few milliseconds there. `processedAt` is a parameter of the bulk operation.
- Prices and averages (vendorPrice, expectedPrice, asv, cpWithGst) are `real` values that nothing computes with. JavaScript's floating-point numbers, including NaN in truthiness, are not modelled.
- The enumerations' string labels are not modelled. Each member is a constructor, and every label is a non-empty string, so truthy.
- These fixtures are not modelled, because no modelled operation uses them: the sample enhanced vendor and SKU, the Supply Input with context, and the form data. `src/data/pipelineData.ts` is not part of this model: it is a constant fixture with no logic.
- The code has no status classifier for the order views and never sorts history by timestamp, so the model has neither.
