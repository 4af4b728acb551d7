/**
 * The mock backend: the sample fixtures, the mock API calls (purchase
 * request lookup, Supply Input create, update, list and bulk operation)
 * and the three hard-coded order views of the Supply Ops tabs.
 *
 * Every call is modelled synchronously, as the value it resolves to. `now`
 * is the clock reading taken when the fixtures are built; `processedAt` is
 * the clock reading taken when a bulk operation completes.
 */
module Dummy {
  import opened Options
  import opened Types

  // ---------------------------------------------------------------- fixtures

  /** The sample vendor: an approved quote with PO-789012 issued and pickup a day after load. */
  function DummyVendor(now: int): (r: Vendor)
    ensures r.vendorStatus == Approved && r.poNumber == Some("PO-789012") && r.poStatus == Some("Issued")
    ensures r.expectedPickupTime > now
  {
    Vendor("V001", 150.75, "Alice Johnson", "NET30", "Aligned", "123 Industrial Rd, Sector 10, Noida",
           true, now + 86400000, Approved, Some("PO-789012"), Some("Issued"))
  }

  /** The sample SKU, quoted by the sample vendor alone. */
  function DummySku(now: int): (r: Sku)
    ensures r.vendors == [DummyVendor(now)]
  {
    Sku("SKU-ABC-001", 100, 160.0, [DummyVendor(now)], Some("Gadget X Pro"), Some("Electronics"),
        Some("TechGadget"), Some(155.5), Some("High"), Some("Q4"))
  }

  /** The sample history entry, written before load. */
  function DummyHistoryLog(now: int): (r: HistoryLog)
    ensures r.timestamp < now
  {
    HistoryLog("Pending at Supply Ops", "John Doe", now - 3600000)
  }

  /**
   * The sample request PR-2023-001: the sample SKU and the sample history
   * entry, created before that entry was written.
   */
  function DummyPurchaseRequest(now: int): (r: PurchaseRequest)
    ensures r.id == "PR-2023-001" && r.skus == [DummySku(now)] && r.history == [DummyHistoryLog(now)]
    ensures r.createdAt < r.history[0].timestamp < now
  {
    PurchaseRequest("PR-2023-001", "Warehouse-North", [DummySku(now)], "Pending Approval", "Jane Smith",
                    [DummyHistoryLog(now)], now - 7200000)
  }

  /**
   * The sample Business projection: its sku, vendor and PO fields are those
   * nested in its request, and its display fields repeat the SKU's and the
   * request's.
   */
  function DummySupplyOpsBusiness(now: int): (r: SupplyOpsBusiness)
    ensures |r.request.skus| == 1 && r.sku == r.request.skus[0]
    ensures |r.sku.vendors| == 1 && r.vendor == r.sku.vendors[0]
    ensures r.vendor.poNumber == Some(r.poNumber) && r.vendor.poStatus == Some(r.poStatus)
    ensures r.unmaskedProductName == r.sku.unmaskedProductName && r.superCategory == r.sku.superCategory
    ensures r.brand == r.sku.brand && r.asv == r.sku.asv
    ensures r.seasonality == r.sku.seasonality && r.seasonDuration == r.sku.seasonDuration
    ensures r.proposedWh == r.request.proposedWh && r.initiatedBy == r.request.initiatedBy
    ensures r.history == r.request.history
  {
    SupplyOpsBusiness(DummyPurchaseRequest(now), DummySku(now), DummyVendor(now), "PO-789012", "Issued",
                      Some("Gadget X Pro"), Some("Electronics"), Some("TechGadget"), Some(155.5),
                      Some("High"), Some("Q4"), "Warehouse-North", "Jane Smith", [DummyHistoryLog(now)])
  }

  /** The sample Pipeline projection: its sku, vendor and PO fields are those nested in its request. */
  function DummySupplyOpsPipeline(now: int): (r: SupplyOpsPipeline)
    ensures |r.request.skus| == 1 && r.sku == r.request.skus[0]
    ensures |r.sku.vendors| == 1 && r.vendor == r.sku.vendors[0]
    ensures r.vendor.poNumber == Some(r.poNumber) && r.vendor.poStatus == Some(r.poStatus)
  {
    SupplyOpsPipeline(DummyPurchaseRequest(now), DummySku(now), DummyVendor(now), "PO-789012", "Issued")
  }

  /** The value each property has in the sample Supply Input. */
  function SampleValue(f: Field, now: int): Value {
    match f
    case AgmId => Text("AGM-12345")
    case SkuIdSkuModule => Text("SKU-MOD-001")
    case CpWithGst => Number(180.0)
    case QuantityAvailable => Number(50.0)
    case Description => Text("Latest model of Gadget X with advanced features.")
    case SupplyPoc => Text("Bob Green")
    case SupplyTeamSegmentField => Segment(Retail)
    case VendorAgmId => Text("VAGM-001")
    case SkuId => Text("SKU-ABC-001")
    case PickupLocationSameAsVendorLocation => Flag(true)
    case PickupDistrict => Text("Noida")
    case PickupState => Text("Uttar Pradesh")
    case PickupPin => Number(201301.0)
    case VendorQrConditionField => QrCondition(FullyIntact)
    case VendorMoq => Number(10.0)
    case ExpiryDetails => Text("Batch expires Dec 2025")
    case PackagingCondition => Text("Good")
    case SupplyStatus => Text("Available")
    case RemainingQuantity => Number(50.0)
    case VendorName => Text("Global Suppliers Inc.")
    case CpId => Text("CP-001")
    case CurrentSupplyBookStatus => Text("Supply Booked")
    case VendorDistrictSi => Text("Noida")
    case VendorStateSi => Text("Uttar Pradesh")
    case VendorPinSi => Number(201301.0)
    case DemandOrderStatusField => DemandStatus(OrderBooked)
    case EstimateBookedQuantity => Number(40.0)
    case Estimates => Text("Based on last quarter sales")
    case SupplyOrderBookTime => Number((now - 1800000) as real)
    case SupplyOrderBookModifiedTime => Number((now - 600000) as real)
    case CriticalShippingAddress => Text("Warehouse-South, Bangalore")
    case Remarks => Text("Urgent requirement for Q4")
    case History => Text("Order placed, awaiting pickup.")
    case SupplyBookedQuantity => Number(40.0)
    case SupplyBookingStatusField => BookingStatus(SupplyBooked)
    case BookedAgainstField => Booked(Order)
    case TypeOfPurchaseField => Purchase(ReadyAtSellerWh)
    case InventoryQuantity => Number(0.0)
    case WarehouseQuantityAgainstOrder => Number(0.0)
    case QuantityAgainstOrder => Number(40.0)
    case WarehouseName => Text("Warehouse-North")
    case PickupDate => Number((now + 172800000) as real)
    case AdvanceAmount => Number(1000.0)
    case VendorReadyForBrandInvoice => InvoiceAlignment(Aligned)
    case PriceValidity => Number((now + 259200000) as real)
    case VendorReadyForManifestations => Flag(true)
    case CompanyBilling => Flag(true)
    case DispatchTypeField => Dispatch(Regular)
    case OpsStatusField => Ops(FtlAligned)
    case ReasonOfDelayInPickup => Text("")
    case PoIssued => Flag(true)
    case RevisedPickupDate => Number((now + 172800000) as real)
    case PoNumber => Text("PO-789012")
    case SupplyOpsRemarks => Text("Pickup scheduled for Friday.")
    case ApprovalStatusField => Approval(ApprovalApproved)
    case ApproverRemarks => Text("Approved based on current demand.")
    case ApprovedBy => Text("Catherine White")
    case ApprovalTime => Number((now - 3600000) as real)
  }

  /** Each sample value has its property's declared type. */
  lemma SampleValueFits(f: Field, now: int)
    ensures HasKind(SampleValue(f, now), KindOf(f))
  {
  }

  /** The sample Supply Input: a record that sets every property, with cpId "CP-001". */
  function DummySupplyInput(now: int): (r: SupplyInput)
    ensures forall f :: f in r
    ensures r[CpId] == Text("CP-001") && r[AgmId] == Text("AGM-12345") && r[SkuId] == Text("SKU-ABC-001")
  {
    AllFieldsDeclared();
    map f | f in AllFields :: SampleValue(f, now)
  }

  /** Every property of the sample Supply Input holds a value of its declared type. */
  lemma DummySupplyInputWellTyped(now: int)
    ensures IsSupplyInput(DummySupplyInput(now))
  {
    var r := DummySupplyInput(now);
    forall f: Field
      ensures (Required(f) ==> f in r) && (f in r ==> Fits(f, r[f]))
    {
      SampleValueFits(f, now);
    }
  }

  // ------------------------------------------------------------- mock calls

  /** The purchase request with the given id: the sample one, or none. */
  function FetchPurchaseRequestById(id: string, now: int): (r: Option<PurchaseRequest>)
    ensures r.Some? <==> id == "PR-2023-001"
    ensures r.Some? ==> r.value == DummyPurchaseRequest(now) && r.value.id == id
  {
    if id == DummyPurchaseRequest(now).id then Some(DummyPurchaseRequest(now)) else None
  }

  const CreatedCpId: string := "CP-NEW-001"

  /** The errors reported when a create misses a required identity. */
  function MissingFieldErrors(): map<string, string> {
    map["agmId" := "Required", "skuId" := "Required"]
  }

  /**
   * Create a Supply Input. It succeeds exactly when both agmId and skuId are
   * truthy; the record returned is the input with only cpId set to
   * "CP-NEW-001". On failure there is no record, and both identities are
   * reported as required whichever of them was missing.
   */
  function CreateSupplyInput(data: SupplyInput): (r: SupplyInputResponse)
    ensures r.success <==> Truthy(Get(data, AgmId)) && Truthy(Get(data, SkuId))
    ensures r.success ==>
      && r.message == "Supply Input created successfully."
      && r.errors.None?
      && r.data.Some?
      && r.data.value.Keys == data.Keys + {CpId}
      && r.data.value[CpId] == Text("CP-NEW-001")
      && (forall f :: f in data && f != CpId ==> r.data.value[f] == data[f])
    ensures !r.success ==>
      && r.message == "Failed to create Supply Input. Missing required fields."
      && r.data.None?
      && r.errors == Some(map["agmId" := "Required", "skuId" := "Required"])
    ensures r.success && IsSupplyInput(data) ==> IsSupplyInput(r.data.value)
  {
    if Truthy(Get(data, AgmId)) && Truthy(Get(data, SkuId)) then
      SupplyInputResponse(true, "Supply Input created successfully.", Some(data[CpId := Text(CreatedCpId)]), None)
    else
      SupplyInputResponse(false, "Failed to create Supply Input. Missing required fields.", None,
                          Some(MissingFieldErrors()))
  }

  /** For a well-typed input, success is exactly both identity strings being non-empty. */
  lemma CreateNeedsIdentities(data: SupplyInput)
    requires IsSupplyInput(data)
    ensures AgmId in data && data[AgmId].Text? && SkuId in data && data[SkuId].Text?
    ensures CreateSupplyInput(data).success <==> data[AgmId].text != "" && data[SkuId].text != ""
  {
    RequiredPresent(data, AgmId);
    RequiredPresent(data, SkuId);
  }

  /** A well-typed Supply Input holds each required property, with a value of its declared type. */
  lemma RequiredPresent(m: SupplyInput, f: Field)
    requires IsSupplyInput(m) && Required(f)
    ensures f in m && HasKind(m[f], KindOf(f))
  {
  }

  /**
   * Update a Supply Input. Only the sample's id "CP-001" is found; the record
   * returned is the sample with every property of the partial record laid
   * over it. Any other id is not found and returns no record.
   */
  function UpdateSupplyInput(id: string, partial: SupplyInput, now: int): (r: SupplyInputResponse)
    ensures r.success <==> id == "CP-001"
    ensures r.errors.None?
    ensures r.success ==>
      && r.message == "Supply Input updated successfully."
      && r.data.Some?
      && (forall f :: f in r.data.value)
      && (forall f :: f in partial ==> r.data.value[f] == partial[f])
      && (forall f :: f !in partial ==> r.data.value[f] == DummySupplyInput(now)[f])
    ensures !r.success ==> r.message == "Supply Input not found." && r.data.None?
  {
    var sample := DummySupplyInput(now);
    if Text(id) == Get(sample, CpId) then
      SupplyInputResponse(true, "Supply Input updated successfully.", Some(sample + partial), None)
    else
      SupplyInputResponse(false, "Supply Input not found.", None, None)
  }

  /**
   * A well-typed partial record that leaves no required property undefined
   * yields a well-typed Supply Input.
   */
  lemma UpdateKeepsWellTyped(id: string, partial: SupplyInput, now: int)
    requires IsPartialSupplyInput(partial)
    requires forall f :: f in partial && Required(f) ==> !partial[f].Undefined?
    requires UpdateSupplyInput(id, partial, now).success
    ensures IsSupplyInput(UpdateSupplyInput(id, partial, now).data.value)
  {
    DummySupplyInputWellTyped(now);
    OverrideKeepsWellTyped(DummySupplyInput(now), partial);
  }

  /** Laying well-typed properties, none of them a required one left undefined, over a Supply Input keeps it well-typed. */
  lemma OverrideKeepsWellTyped(base: SupplyInput, partial: SupplyInput)
    requires IsSupplyInput(base) && IsPartialSupplyInput(partial)
    requires forall f :: f in partial && Required(f) ==> !partial[f].Undefined?
    ensures IsSupplyInput(base + partial)
  {
    forall f: Field
      ensures (Required(f) ==> f in base + partial) && (f in base + partial ==> Fits(f, (base + partial)[f]))
    {
      if f in partial {
        assert (base + partial)[f] == partial[f];
      }
    }
  }

  /** The id a create assigns is never found by update. */
  lemma CreatedIdNotUpdatable(data: SupplyInput, partial: SupplyInput, now: int)
    requires CreateSupplyInput(data).success
    ensures var created := CreateSupplyInput(data).data.value;
      && created[CpId] == Text("CP-NEW-001")
      && !UpdateSupplyInput(created[CpId].text, partial, now).success
  {
  }

  /**
   * All Supply Inputs: the sample, then a copy of it that differs exactly in
   * agmId "AGM-54321", cpId "CP-002" and quantityAvailable 75.
   */
  function FetchAllSupplyInputs(now: int): (r: seq<SupplyInput>)
    ensures |r| == 2
    ensures r[0] == DummySupplyInput(now)
    ensures forall f :: f in r[1]
    ensures r[1][AgmId] == Text("AGM-54321") && r[1][CpId] == Text("CP-002")
    ensures r[1][QuantityAvailable] == Number(75.0)
    ensures forall f :: f != AgmId && f != CpId && f != QuantityAvailable ==> r[1][f] == r[0][f]
  {
    var sample := DummySupplyInput(now);
    var changes := SecondInputChanges();
    [sample, sample + changes]
  }

  /** The properties in which the second listed Supply Input differs from the sample. */
  function SecondInputChanges(): (m: SupplyInput)
    ensures m.Keys == {AgmId, CpId, QuantityAvailable}
    ensures IsPartialSupplyInput(m)
    ensures forall f :: f in m ==> !m[f].Undefined?
  {
    map[AgmId := Text("AGM-54321"), CpId := Text("CP-002"), QuantityAvailable := Number(75.0)]
  }

  /** Both listed Supply Inputs are well-typed. */
  lemma FetchAllWellTyped(now: int)
    ensures IsSupplyInput(FetchAllSupplyInputs(now)[0]) && IsSupplyInput(FetchAllSupplyInputs(now)[1])
  {
    var sample := DummySupplyInput(now);
    DummySupplyInputWellTyped(now);
    OverrideKeepsWellTyped(sample, SecondInputChanges());
    assert FetchAllSupplyInputs(now) == [sample, sample + SecondInputChanges()];
  }

  /**
   * A bulk operation: every input is reported successful and none failed, with
   * no errors; the operation, inputs and batch id pass through unchanged.
   */
  function PerformBulkSupplyOperation(request: BulkRequest, processedAt: int): (r: BulkSupplyInputOperation)
    ensures r.operation == request.operation && r.supplyInputs == request.supplyInputs
    ensures r.batchId == request.batchId && r.processedAt == processedAt
    ensures r.results.successful + r.results.failed == |r.supplyInputs|
    ensures r.results.failed == 0 && r.results.errors == []
  {
    var successful := |request.supplyInputs|;
    BulkSupplyInputOperation(request.operation, request.supplyInputs, request.batchId, processedAt,
                             BulkResults(successful, 0, []))
  }

  // ------------------------------------------------------------ order views

  /** The sample request as a view shows it: only status, and optionally id, overridden. */
  predicate IsSampleRequestWith(r: PurchaseRequest, now: int, id: string, status: string) {
    r == DummyPurchaseRequest(now).(id := id, status := status)
  }

  /** The Pipeline tab: the two sample POs, both issued, on approved requests. */
  function GetPipelineOrders(now: int): (r: seq<SupplyOpsPipeline>)
    ensures |r| == 2
    ensures r[0].poNumber == "PO-789012" && IsSampleRequestWith(r[0].request, now, "PR-2023-001", "Approved")
    ensures r[1].poNumber == "PO-789013" && IsSampleRequestWith(r[1].request, now, "PR-2023-002", "Approved")
    ensures forall i :: 0 <= i < |r| ==>
      && r[i].poStatus == "Issued"
      && r[i].vendor == DummyVendor(now) && r[i].sku == DummySku(now)
  {
    var base := DummySupplyOpsPipeline(now);
    var request := DummyPurchaseRequest(now);
    [ base.(poStatus := "Issued", request := request.(status := "Approved")),
      base.(poNumber := "PO-789013", poStatus := "Issued", request := request.(id := "PR-2023-002", status := "Approved")) ]
  }

  /**
   * The Business tab: the first PO received at the warehouse on a completed
   * request, the second cancelled on a cancelled request; every display
   * field is still the sample's.
   */
  function GetBusinessOrders(now: int): (r: seq<SupplyOpsBusiness>)
    ensures |r| == 2
    ensures r[0].poNumber == "PO-789012" && r[0].poStatus == "Received at WH"
    ensures IsSampleRequestWith(r[0].request, now, "PR-2023-001", "Completed")
    ensures r[1].poNumber == "PO-789013" && r[1].poStatus == "Cancelled"
    ensures IsSampleRequestWith(r[1].request, now, "PR-2023-002", "Cancelled")
    ensures forall i :: 0 <= i < |r| ==>
      && r[i].vendor == DummyVendor(now) && r[i].sku == DummySku(now)
      && r[i].proposedWh == "Warehouse-North" && r[i].initiatedBy == "Jane Smith"
      && r[i].history == [DummyHistoryLog(now)]
      && r[i].unmaskedProductName == Some("Gadget X Pro") && r[i].superCategory == Some("Electronics")
      && r[i].brand == Some("TechGadget") && r[i].asv == Some(155.5)
      && r[i].seasonality == Some("High") && r[i].seasonDuration == Some("Q4")
  {
    var base := DummySupplyOpsBusiness(now);
    var request := DummyPurchaseRequest(now);
    [ base.(poStatus := "Received at WH", request := request.(status := "Completed")),
      base.(poNumber := "PO-789013", poStatus := "Cancelled", request := request.(id := "PR-2023-002", status := "Cancelled")) ]
  }

  /** The In-Transit tab: both sample POs dispatched, on dispatched requests. */
  function GetInTransitOrders(now: int): (r: seq<SupplyOpsPipeline>)
    ensures |r| == 2
    ensures r[0].poNumber == "PO-789012" && IsSampleRequestWith(r[0].request, now, "PR-2023-001", "Dispatched")
    ensures r[1].poNumber == "PO-789013" && IsSampleRequestWith(r[1].request, now, "PR-2023-002", "Dispatched")
    ensures forall i :: 0 <= i < |r| ==>
      && r[i].poStatus == "Dispatched"
      && r[i].vendor == DummyVendor(now) && r[i].sku == DummySku(now)
  {
    var base := DummySupplyOpsPipeline(now);
    var request := DummyPurchaseRequest(now);
    [ base.(poStatus := "Dispatched", request := request.(status := "Dispatched")),
      base.(poNumber := "PO-789013", poStatus := "Dispatched", request := request.(id := "PR-2023-002", status := "Dispatched")) ]
  }

  /**
   * No top-level PO status appears in two views, yet the views list the same
   * two request ids, and each view's nested vendor still says "Issued".
   */
  lemma ViewsDisjointByPoStatus(now: int)
    ensures var p, b, t := GetPipelineOrders(now), GetBusinessOrders(now), GetInTransitOrders(now);
      && (forall i, j :: 0 <= i < 2 && 0 <= j < 2 ==>
            p[i].poStatus != b[j].poStatus && p[i].poStatus != t[j].poStatus && b[i].poStatus != t[j].poStatus)
      && (forall i :: 0 <= i < 2 ==> p[i].request.id == b[i].request.id == t[i].request.id)
      && (forall i :: 0 <= i < 2 ==>
            p[i].vendor.poStatus == b[i].vendor.poStatus == t[i].vendor.poStatus == Some("Issued"))
  {
  }

  /**
   * The views are independent fixtures: the same request id carries a
   * different request status in each of them.
   */
  lemma ViewsDisagreeOnRequestStatus(now: int)
    ensures var p, b, t := GetPipelineOrders(now), GetBusinessOrders(now), GetInTransitOrders(now);
      && p[1].request.id == b[1].request.id == t[1].request.id == "PR-2023-002"
      && p[1].request.status == "Approved"
      && b[1].request.status == "Cancelled"
      && t[1].request.status == "Dispatched"
  {
  }
}
