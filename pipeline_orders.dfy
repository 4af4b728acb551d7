/**
 * The Pipeline tab's mock orders: flat triples of a request, a SKU and a
 * vendor, and the reshape that nests each vendor into its SKU and each SKU
 * into its request.
 */
module PipelineOrders {
  import opened Options
  import opened Types

  /** A flat mock order: the request and SKU still have empty child lists. */
  datatype MockOrder = MockOrder(request: PurchaseRequest, sku: Sku, vendor: Vendor)

  /** A nested order: only the request, which now holds the SKU and its vendor. */
  datatype PipelineOrder = PipelineOrder(request: PurchaseRequest)

  /**
   * The nesting of one order: `{ request: { ...request, skus: [{ ...sku, vendors: [vendor] }] } }`.
   * The request keeps every field but `skus`, which holds exactly the input
   * SKU with `vendors` set to the input vendor alone.
   */
  function NestOrder(o: MockOrder): (p: PipelineOrder)
    ensures var r := p.request;
      && r.id == o.request.id && r.proposedWh == o.request.proposedWh
      && r.status == o.request.status && r.initiatedBy == o.request.initiatedBy
      && r.createdAt == o.request.createdAt && r.history == o.request.history
      && |r.skus| == 1
      && r.skus[0].vendors == [o.vendor]
      && r.skus[0].(vendors := o.sku.vendors) == o.sku
  {
    PipelineOrder(o.request.(skus := [o.sku.(vendors := [o.vendor])]))
  }

  /** The nesting of a whole list keeps its length and order: the i-th output is the i-th input nested. */
  function NestOrders(orders: seq<MockOrder>): (r: seq<PipelineOrder>)
    ensures |r| == |orders|
    ensures forall i :: 0 <= i < |orders| ==> r[i] == NestOrder(orders[i])
    decreases |orders|
  {
    if orders == [] then [] else [NestOrder(orders[0])] + NestOrders(orders[1..])
  }

  /** A flat order, as the fixtures hold them: no SKUs on the request, no vendors on the SKU. */
  predicate IsFlat(o: MockOrder) {
    o.request.skus == [] && o.sku.vendors == []
  }

  /**
   * The inverse reshape: a nested order with exactly one SKU holding exactly
   * one vendor is taken apart again, with the child lists emptied.
   */
  function Unnest(p: PipelineOrder): (r: Option<MockOrder>)
    ensures r.Some? <==> |p.request.skus| == 1 && |p.request.skus[0].vendors| == 1
    ensures r.Some? ==> IsFlat(r.value)
  {
    if |p.request.skus| == 1 && |p.request.skus[0].vendors| == 1 then
      var sku := p.request.skus[0];
      Some(MockOrder(p.request.(skus := []), sku.(vendors := []), sku.vendors[0]))
    else
      None
  }

  /** Nesting a flat order and taking it apart again gives the order back. */
  lemma UnnestNestOrder(o: MockOrder)
    requires IsFlat(o)
    ensures Unnest(NestOrder(o)) == Some(o)
  {
  }

  /** Taking a nested order apart and nesting it again gives the nested order back. */
  lemma NestUnnestOrder(p: PipelineOrder)
    requires Unnest(p).Some?
    ensures NestOrder(Unnest(p).value) == p
  {
    var sku := p.request.skus[0];
    assert sku.vendors == [sku.vendors[0]];
    assert p.request.skus == [sku];
  }

  /** Every nested order of a list comes apart into the flat order it was built from. */
  lemma UnnestNestOrders(orders: seq<MockOrder>)
    requires forall i :: 0 <= i < |orders| ==> IsFlat(orders[i])
    ensures |NestOrders(orders)| == |orders|
    ensures forall i :: 0 <= i < |orders| ==> Unnest(NestOrders(orders)[i]) == Some(orders[i])
  {
  }

  const PendingPoCreation: string := "Approved - Pending PO Creation"

  /** The two flat mock orders, with `now` the clock reading when the module is loaded. */
  function MockPipelineOrders(now: int): (r: seq<MockOrder>)
    ensures |r| == 2
    ensures forall i :: 0 <= i < |r| ==> IsFlat(r[i])
  {
    [ MockOrder(
        PurchaseRequest("REQ-001", "Mumbai-WH", [], PendingPoCreation, "user123",
                        [HistoryLog("Request Created", "user123", now - 86400000)], now),
        Sku("SKU001", 100, 1500.0, [], Some("Product A"), Some("Electronics"), Some("BrandX"),
            Some(25000.0), Some("All Season"), Some("Year Round")),
        Vendor("V-001", 1450.0, "John Doe", "Net 30", "Aligned", "123 Vendor Street, Mumbai", false,
               now + 172800000, Approved, None, None)),
      MockOrder(
        PurchaseRequest("REQ-002", "Delhi-WH", [], PendingPoCreation, "user124",
                        [HistoryLog("Request Created", "user124", now - 259200000)], now - 172800000),
        Sku("SKU002", 50, 2500.0, [], Some("Product B"), Some("Apparel"), Some("BrandY"),
            Some(35000.0), Some("Summer"), Some("3 months")),
        Vendor("V-002", 2400.0, "Jane Smith", "Net 45", "Aligned", "456 Supplier Road, Delhi", true,
               now + 259200000, Approved, None, None)) ]
  }

  /**
   * The exported pipeline orders: the mock list nested. Every request is
   * pending PO creation with a single "Request Created" history entry,
   * holds one SKU with one vendor, and that vendor has no PO yet.
   */
  function PipelineOrders(now: int): (r: seq<PipelineOrder>)
    ensures |r| == 2
    ensures r[0].request.id == "REQ-001" && r[1].request.id == "REQ-002"
    ensures forall i :: 0 <= i < |r| ==>
      && r[i].request.status == "Approved - Pending PO Creation"
      && |r[i].request.history| == 1
      && r[i].request.history[0].status == "Request Created"
      && |r[i].request.skus| == 1
      && |r[i].request.skus[0].vendors| == 1
      && r[i].request.skus[0].vendors[0].poNumber.None?
      && r[i].request.skus[0].vendors[0].poStatus.None?
    ensures forall i :: 0 <= i < |r| ==> Unnest(r[i]) == Some(MockPipelineOrders(now)[i])
  {
    var mock := MockPipelineOrders(now);
    UnnestNestOrders(mock);
    NestOrders(mock)
  }
}
