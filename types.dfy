/**
 * The domain model of the purchase-request tracker: purchase requests that
 * hold SKUs, SKUs that hold vendor quotes, the audit history, the modal
 * notification, and the flat Supply Input record with its API responses.
 *
 * Numbers the source never computes with (prices, average sale values) are
 * carried as `real`; timestamps are epoch milliseconds as `int`.
 */
module Types {
  import opened Options

  /** The closed vendor-status vocabulary of a quote. */
  datatype VendorStatus = Pending | Approved | Rejected

  /**
   * One vendor's quote for a SKU. The fixtures store `null` in the two PO
   * fields before a purchase order exists, so both are optional here.
   */
  datatype Vendor = Vendor(
    vendorId: string,
    vendorPrice: real,
    supplyPoc: string,
    vendorPaymentTerms: string,
    brandInvoiceAlignment: string,
    pickupAddress: string,
    flashSale: bool,
    expectedPickupTime: int,
    vendorStatus: VendorStatus,
    poNumber: Option<string>,
    poStatus: Option<string>)

  /** A stock-keeping unit within a purchase request, with its candidate vendors. */
  datatype Sku = Sku(
    sku: string,
    quantity: int,
    expectedPrice: real,
    vendors: seq<Vendor>,
    unmaskedProductName: Option<string>,
    superCategory: Option<string>,
    brand: Option<string>,
    asv: Option<real>,
    seasonality: Option<string>,
    seasonDuration: Option<string>)

  /** One audit entry of a request's history. */
  datatype HistoryLog = HistoryLog(status: string, user: string, timestamp: int)

  /** The root aggregate: a purchase request. */
  datatype PurchaseRequest = PurchaseRequest(
    id: string,
    proposedWh: string,
    skus: seq<Sku>,
    status: string,
    initiatedBy: string,
    history: seq<HistoryLog>,
    createdAt: int)

  /** The read-only projection shown on the Business tab. */
  datatype SupplyOpsBusiness = SupplyOpsBusiness(
    request: PurchaseRequest,
    sku: Sku,
    vendor: Vendor,
    poNumber: string,
    poStatus: string,
    unmaskedProductName: Option<string>,
    superCategory: Option<string>,
    brand: Option<string>,
    asv: Option<real>,
    seasonality: Option<string>,
    seasonDuration: Option<string>,
    proposedWh: string,
    initiatedBy: string,
    history: seq<HistoryLog>)

  /** The read-only projection shown on the Pipeline and In-Transit tabs. */
  datatype SupplyOpsPipeline = SupplyOpsPipeline(
    request: PurchaseRequest,
    sku: Sku,
    vendor: Vendor,
    poNumber: string,
    poStatus: string)

  /** The message modal: whether it shows, and what it says. */
  datatype ModalState = ModalState(show: bool, title: string, message: string)

  // The string enumerations of the Supply Input record, one constructor per member.
  datatype SupplyTeamSegment = Retail | Wholesale
  datatype VendorQrCondition = FullyIntact | ScratchedMaster | ScratchedBoth
  datatype DemandOrderStatus = OrderBooked | Dropped | OnHold
  datatype SupplyBookingStatus = SupplyBooked | AvailableSupply | SupplyOos | SupplyDispatched | ClosedPartially
  datatype BookedAgainst = Inventory | Order | OrdersInventory | OrdersPendency | OrdersPendencyInventory | Pendency
  datatype TypeOfPurchase = ReadyAtSellerWh | MaterialInTransit | ReadyAtCnfNotBilled | ReadyAtCnfPickFromSeller | NoneOfTheAbove
  datatype BrandInvoiceAlignment = Aligned | NotAligned | NotRequired
  datatype DispatchType = Critical | Regular
  datatype OpsStatus =
    | FtlAligned | EddShared | PtlAligned | VendorConfirmationPending | OrderPending
    | PendingAtSupplyOps | Dispatched | PartialDispatched | Oos | RealignedToOtherVendor
    | PendingAtDemand | PermanentlyCancelled | PartialDispatchRestCancelled | OrderPendingForecastFilled
  datatype ApprovalStatus = ApprovalApproved | ApprovalRejected | ApprovalPending

  /** The property names of a Supply Input record, in declaration order. */
  datatype Field =
    // Basic information
    | AgmId | SkuIdSkuModule | CpWithGst | QuantityAvailable | Description | SupplyPoc
    | SupplyTeamSegmentField | VendorAgmId | SkuId | PickupLocationSameAsVendorLocation
    | PickupDistrict | PickupState | PickupPin | VendorQrConditionField | VendorMoq
    | ExpiryDetails | PackagingCondition | SupplyStatus | RemainingQuantity
    // Auto-filled
    | VendorName | CpId | CurrentSupplyBookStatus | VendorDistrictSi | VendorStateSi | VendorPinSi
    // Order
    | DemandOrderStatusField | EstimateBookedQuantity | Estimates | SupplyOrderBookTime
    | SupplyOrderBookModifiedTime | CriticalShippingAddress | Remarks | History
    | SupplyBookedQuantity | SupplyBookingStatusField | BookedAgainstField | TypeOfPurchaseField
    | InventoryQuantity | WarehouseQuantityAgainstOrder | QuantityAgainstOrder | WarehouseName
    | PickupDate | AdvanceAmount | VendorReadyForBrandInvoice | PriceValidity
    | VendorReadyForManifestations | CompanyBilling
    // Order status
    | DispatchTypeField | OpsStatusField | ReasonOfDelayInPickup | PoIssued | RevisedPickupDate
    | PoNumber | SupplyOpsRemarks
    // Approvals
    | ApprovalStatusField | ApproverRemarks | ApprovedBy | ApprovalTime

  /** Every property name. */
  const AllFields: set<Field> := {
    AgmId, SkuIdSkuModule, CpWithGst, QuantityAvailable, Description, SupplyPoc,
    SupplyTeamSegmentField, VendorAgmId, SkuId, PickupLocationSameAsVendorLocation, PickupDistrict, PickupState,
    PickupPin, VendorQrConditionField, VendorMoq, ExpiryDetails, PackagingCondition, SupplyStatus,
    RemainingQuantity, VendorName, CpId, CurrentSupplyBookStatus, VendorDistrictSi, VendorStateSi,
    VendorPinSi, DemandOrderStatusField, EstimateBookedQuantity, Estimates, SupplyOrderBookTime, SupplyOrderBookModifiedTime,
    CriticalShippingAddress, Remarks, History, SupplyBookedQuantity, SupplyBookingStatusField, BookedAgainstField,
    TypeOfPurchaseField, InventoryQuantity, WarehouseQuantityAgainstOrder, QuantityAgainstOrder, WarehouseName, PickupDate,
    AdvanceAmount, VendorReadyForBrandInvoice, PriceValidity, VendorReadyForManifestations, CompanyBilling, DispatchTypeField,
    OpsStatusField, ReasonOfDelayInPickup, PoIssued, RevisedPickupDate, PoNumber, SupplyOpsRemarks,
    ApprovalStatusField, ApproverRemarks, ApprovedBy, ApprovalTime
  }

  /** No property name is missing from AllFields. */
  lemma AllFieldsDeclared()
    ensures forall f: Field :: f in AllFields
  {
    forall f: Field
      ensures f in AllFields
    {
      FieldDeclared(f);
    }
  }

  lemma FieldDeclared(f: Field)
    ensures f in AllFields
  {
  }

  /**
   * A property value. `Undefined` is a property that is present but holds
   * `undefined`, which a spread copies like any other value.
   */
  datatype Value =
    | Text(text: string)
    | Number(number: real)
    | Flag(flag: bool)
    | Undefined
    | Segment(segment: SupplyTeamSegment)
    | QrCondition(qrCondition: VendorQrCondition)
    | DemandStatus(demandStatus: DemandOrderStatus)
    | BookingStatus(bookingStatus: SupplyBookingStatus)
    | Booked(bookedAgainst: BookedAgainst)
    | Purchase(typeOfPurchase: TypeOfPurchase)
    | InvoiceAlignment(alignment: BrandInvoiceAlignment)
    | Dispatch(dispatchType: DispatchType)
    | Ops(opsStatus: OpsStatus)
    | Approval(approvalStatus: ApprovalStatus)

  /**
   * A Supply Input record as the object it is in the source: a dictionary
   * from property names to values, so that object spread is map union.
   */
  type SupplyInput = map<Field, Value>

  /** The declared type of each property. */
  datatype Kind =
    | TextKind | NumberKind | FlagKind | SegmentKind | QrConditionKind | DemandStatusKind
    | BookingStatusKind | BookedKind | PurchaseKind | InvoiceAlignmentKind | DispatchKind
    | OpsKind | ApprovalKind

  function KindOf(f: Field): Kind {
    match f
    case SupplyTeamSegmentField => SegmentKind
    case VendorQrConditionField => QrConditionKind
    case DemandOrderStatusField => DemandStatusKind
    case SupplyBookingStatusField => BookingStatusKind
    case BookedAgainstField => BookedKind
    case TypeOfPurchaseField => PurchaseKind
    case VendorReadyForBrandInvoice => InvoiceAlignmentKind
    case DispatchTypeField => DispatchKind
    case OpsStatusField => OpsKind
    case ApprovalStatusField => ApprovalKind
    case PickupLocationSameAsVendorLocation | VendorReadyForManifestations | CompanyBilling | PoIssued => FlagKind
    case CpWithGst | QuantityAvailable | PickupPin | VendorMoq | RemainingQuantity | VendorPinSi
      | EstimateBookedQuantity | SupplyOrderBookTime | SupplyOrderBookModifiedTime
      | SupplyBookedQuantity | InventoryQuantity | WarehouseQuantityAgainstOrder
      | QuantityAgainstOrder | PickupDate | AdvanceAmount | PriceValidity
      | RevisedPickupDate | ApprovalTime => NumberKind
    case _ => TextKind
  }

  /** The properties a Supply Input must carry (those declared without `?`). */
  predicate Required(f: Field) {
    f in {AgmId, SkuIdSkuModule, CpWithGst, QuantityAvailable, SupplyPoc, SupplyTeamSegmentField,
          VendorAgmId, SkuId, PickupLocationSameAsVendorLocation, PickupDistrict, PickupState,
          PickupPin, VendorName, PickupDate}
  }

  predicate HasKind(v: Value, k: Kind) {
    match k
    case TextKind => v.Text?
    case NumberKind => v.Number?
    case FlagKind => v.Flag?
    case SegmentKind => v.Segment?
    case QrConditionKind => v.QrCondition?
    case DemandStatusKind => v.DemandStatus?
    case BookingStatusKind => v.BookingStatus?
    case BookedKind => v.Booked?
    case PurchaseKind => v.Purchase?
    case InvoiceAlignmentKind => v.InvoiceAlignment?
    case DispatchKind => v.Dispatch?
    case OpsKind => v.Ops?
    case ApprovalKind => v.Approval?
  }

  /** A value fits a property if it has the property's type, or is `undefined` on an optional one. */
  predicate Fits(f: Field, v: Value) {
    HasKind(v, KindOf(f)) || (v.Undefined? && !Required(f))
  }

  /** A well-typed `SupplyInput`: every required property present, every present one fitting. */
  predicate IsSupplyInput(m: SupplyInput) {
    forall f: Field :: (Required(f) ==> f in m) && (f in m ==> Fits(f, m[f]))
  }

  /** A well-typed `Partial<SupplyInput>`: any property may be absent or `undefined`. */
  predicate IsPartialSupplyInput(m: SupplyInput) {
    forall f :: f in m ==> HasKind(m[f], KindOf(f)) || m[f].Undefined?
  }

  /** The value a property read yields: `undefined` when the property is absent. */
  function Get(m: SupplyInput, f: Field): (v: Value)
    ensures f !in m ==> v.Undefined?
    ensures f in m ==> v == m[f]
  {
    if f in m then m[f] else Undefined
  }

  /** JavaScript truthiness of a property value (enumeration labels are all non-empty strings). */
  predicate Truthy(v: Value) {
    match v
    case Text(s) => s != ""
    case Number(n) => n != 0.0
    case Flag(b) => b
    case Undefined => false
    case _ => true
  }

  /** The reply of the create and update calls. */
  datatype SupplyInputResponse = SupplyInputResponse(
    success: bool,
    message: string,
    data: Option<SupplyInput>,
    errors: Option<map<string, string>>)

  datatype BulkOperationKind = Create | Update | Delete

  /** A bulk request as the caller passes it: the operation without `processedAt` and `results`. */
  datatype BulkRequest = BulkRequest(operation: BulkOperationKind, supplyInputs: seq<SupplyInput>, batchId: string)

  datatype BulkResults = BulkResults(successful: int, failed: int, errors: seq<string>)

  /** A bulk operation once processed. */
  datatype BulkSupplyInputOperation = BulkSupplyInputOperation(
    operation: BulkOperationKind,
    supplyInputs: seq<SupplyInput>,
    batchId: string,
    processedAt: int,
    results: BulkResults)
}
