/** The product service: the single pass that builds the reservation
    summaries from the two datasets, and the per-reservation product view.
    The datasets arrive as sequences; reading them from disk is not part of
    this model. */
module ProductsService {
  import opened Types
  import opened SummarySpec

  // ---------------------------------------------------------------------------
  // Reservation summaries

  /** `chargesMap[id]`: the stored charge, or `undefined`. */
  function Lookup(chargesMap: map<int, ProductCharge>, id: int): Option<ProductCharge> {
    if id in chargesMap then Some(chargesMap[id]) else None
  }

  /** The `reduce` that keys every charge by its assignment id, a later charge
      overwriting an earlier one with the same id. */
  method BuildChargesMap(productCharges: seq<ProductCharge>) returns (chargesMap: map<int, ProductCharge>)
    ensures forall id :: Lookup(chargesMap, id) == LastCharge(productCharges, id)
  {
    chargesMap := map[];
    var i := 0;
    while i < |productCharges|
      invariant 0 <= i <= |productCharges|
      invariant forall id :: Lookup(chargesMap, id) == LastCharge(productCharges[..i], id)
    {
      var charge := productCharges[i];
      chargesMap := chargesMap[charge.special_product_assignment_id := charge];
      assert productCharges[..i + 1][..i] == productCharges[..i];
      i := i + 1;
    }
    assert productCharges[..i] == productCharges;
  }

  /** The insertion-ordered map of the walk, after the assignments `done`:
      its keys, in insertion order, are the UUIDs in order of first
      appearance, and each key holds that reservation's rollup so far. */
  ghost predicate Tracks(done: seq<ProductAssignment>, charges: seq<ProductCharge>,
                         order: seq<string>, reservationProductMap: map<string, Rollup>)
  {
    order == Uuids(done) &&
    (forall u :: u in reservationProductMap <==> u in order) &&
    (forall u :: u in reservationProductMap ==> reservationProductMap[u] == RollupOf(done, charges, u))
  }

  /** Once every assignment is done, the map, read in insertion order, holds
      exactly the summaries. */
  lemma TracksAll(assignments: seq<ProductAssignment>, charges: seq<ProductCharge>,
                  order: seq<string>, reservationProductMap: map<string, Rollup>)
    requires Tracks(assignments, charges, order, reservationProductMap)
    ensures |order| == |Summaries(assignments, charges)|
    ensures forall k :: 0 <= k < |order| ==> (order[k] in reservationProductMap &&
      Summaries(assignments, charges)[k] == ReservationSummary(order[k],
        reservationProductMap[order[k]].amount, reservationProductMap[order[k]].numOfCharges,
        reservationProductMap[order[k]].products))
  {
    SummariesUuids(assignments, charges);
  }

  /** The `forEach` callback: classify one assignment's product and add it to
      its reservation, creating the reservation on first sight. */
  method AddAssignment(chargesMap: map<int, ProductCharge>, ghost charges: seq<ProductCharge>,
                       ghost done: seq<ProductAssignment>, order: seq<string>,
                       reservationProductMap: map<string, Rollup>, assignment: ProductAssignment)
    returns (order': seq<string>, reservationProductMap': map<string, Rollup>)
    requires forall id :: Lookup(chargesMap, id) == LastCharge(charges, id)
    requires Tracks(done, charges, order, reservationProductMap)
    ensures Tracks(done + [assignment], charges, order', reservationProductMap')
  {
    var uuid := assignment.reservation_uuid;
    var productCharge := Lookup(chargesMap, assignment.id);
    var isActive := IsActive(productCharge);
    var amount := AmountOrZero(productCharge);
    var productData := Entry(assignment, productCharge);
    ghost var e := EntryOf(assignment, charges);
    assert productCharge == LastCharge(charges, assignment.id);
    assert productData == e;
    assert (if isActive then amount else 0) == ActiveAmount(e);
    assert (if isActive then 1 else 0) == ActiveOne(e);
    UuidsStep(done, assignment);

    if uuid !in reservationProductMap {
      var reservation := Rollup(
        if isActive then amount else 0,
        if isActive then 1 else 0,
        [productData]);
      RollupMapStep(reservationProductMap, done, assignment, charges, Rollup(0, 0, []), reservation);
      reservationProductMap' := reservationProductMap[uuid := reservation];
      order' := order + [uuid];
    } else {
      ghost var before := reservationProductMap[uuid];
      var reservation := reservationProductMap[uuid];
      if isActive {
        reservation := reservation.(amount := reservation.amount + amount,
                                    numOfCharges := reservation.numOfCharges + 1);
      }
      reservation := reservation.(products := reservation.products + [productData]);
      RollupMapStep(reservationProductMap, done, assignment, charges, before, reservation);
      reservationProductMap' := reservationProductMap[uuid := reservation];
      order' := order;
    }
  }

  /** One walk over the assignments, keeping an insertion-ordered map from
      reservation UUID to its rollup (`order` holds the map's key order), then
      the map turned into the list of summaries. */
  method GetReservationSummaries(productAssignments: seq<ProductAssignment>, productCharges: seq<ProductCharge>)
    returns (summaries: seq<ReservationSummary>)
    ensures summaries == Summaries(productAssignments, productCharges)
  {
    var chargesMap := BuildChargesMap(productCharges);
    var order: seq<string> := [];
    var reservationProductMap: map<string, Rollup> := map[];
    var i := 0;
    while i < |productAssignments|
      invariant 0 <= i <= |productAssignments|
      invariant Tracks(productAssignments[..i], productCharges, order, reservationProductMap)
    {
      assert productAssignments[..i + 1] == productAssignments[..i] + [productAssignments[i]];
      order, reservationProductMap := AddAssignment(chargesMap, productCharges, productAssignments[..i],
                                                    order, reservationProductMap, productAssignments[i]);
      i := i + 1;
    }
    assert productAssignments[..i] == productAssignments;
    TracksAll(productAssignments, productCharges, order, reservationProductMap);
    summaries := seq(|order|, k requires 0 <= k < |order| && order[k] in reservationProductMap =>
      var data := reservationProductMap[order[k]];
      ReservationSummary(order[k], data.amount, data.numOfCharges, data.products));
  }

  // ---------------------------------------------------------------------------
  // Products of one reservation

  datatype ReservationProduct = ReservationProduct(
    id: int,
    name: Option<string>,
    amount: int,
    active: Option<bool>)

  /** `productCharges.find(...)`: the first charge for `id`. */
  function FirstCharge(charges: seq<ProductCharge>, id: int): (c: Option<ProductCharge>)
    ensures c.Some? ==> c.value in charges && c.value.special_product_assignment_id == id
  {
    if |charges| == 0 then None
    else if charges[0].special_product_assignment_id == id then Some(charges[0])
    else FirstCharge(charges[1..], id)
  }

  /** The search finds nothing exactly when no charge names `id`, and
      otherwise returns the charge naming `id` that comes first. */
  lemma {:induction false} FirstChargeWins(charges: seq<ProductCharge>, id: int)
    ensures FirstCharge(charges, id).None? <==>
      (forall k :: 0 <= k < |charges| ==> charges[k].special_product_assignment_id != id)
    ensures forall k :: (0 <= k < |charges| && charges[k].special_product_assignment_id == id &&
      (forall j :: 0 <= j < k ==> charges[j].special_product_assignment_id != id)) ==>
      FirstCharge(charges, id) == Some(charges[k])
  {
    if |charges| > 0 {
      var rest := charges[1..];
      FirstChargeWins(rest, id);
      assert forall k :: 1 <= k < |charges| ==> charges[k] == rest[k - 1];
      if charges[0].special_product_assignment_id != id {
        forall k | 0 <= k < |charges| && charges[k].special_product_assignment_id == id &&
          (forall j :: 0 <= j < k ==> charges[j].special_product_assignment_id != id)
          ensures FirstCharge(charges, id) == Some(charges[k])
        {
          assert k >= 1;
          assert forall j :: 0 <= j < k - 1 ==> rest[j] == charges[j + 1];
        }
      }
    }
  }

  /** The view of one product: its id and name, the amount of the first
      charge naming it (0 when there is none) and that charge's `active`
      flag (absent when there is none). */
  function ProductView(product: ProductAssignment, charges: seq<ProductCharge>): (v: ReservationProduct)
    ensures v.id == product.id && v.name == product.name
    ensures (forall k :: 0 <= k < |charges| ==> charges[k].special_product_assignment_id != product.id) ==>
      v.amount == 0 && v.active.None?
    ensures forall k :: (0 <= k < |charges| && charges[k].special_product_assignment_id == product.id &&
      (forall j :: 0 <= j < k ==> charges[j].special_product_assignment_id != product.id)) ==>
      v.amount == charges[k].amount && v.active == Some(charges[k].active)
  {
    FirstChargeWins(charges, product.id);
    var productCharge := FirstCharge(charges, product.id);
    ReservationProduct(
      product.id,
      product.name,
      AmountOrZero(productCharge),
      if productCharge.Some? then Some(productCharge.value.active) else None)
  }

  /** The list the per-reservation lookup builds (and, as written, discards):
      one view per assignment of the reservation. */
  function ReservationProducts(reservationUuid: string, assignments: seq<ProductAssignment>,
                               charges: seq<ProductCharge>): seq<ReservationProduct>
  {
    var products := ForReservation(assignments, reservationUuid);
    seq(|products|, j requires 0 <= j < |products| => ProductView(products[j], charges))
  }

  /** The views are those of exactly the assignments carrying the UUID, in
      their original order. */
  lemma ReservationProductsSpec(reservationUuid: string, assignments: seq<ProductAssignment>,
                                charges: seq<ProductCharge>)
    ensures var views := ReservationProducts(reservationUuid, assignments, charges);
      var pos := Positions(assignments, reservationUuid);
      |views| == |pos| &&
      (forall j :: 0 <= j < |pos| ==> pos[j] < |assignments| && views[j] == ProductView(assignments[pos[j]], charges)) &&
      (forall j1, j2 :: 0 <= j1 < j2 < |pos| ==> pos[j1] < pos[j2]) &&
      (forall k :: 0 <= k < |assignments| ==> (assignments[k].reservation_uuid == reservationUuid <==> k in pos))
  {
    ForReservationPositions(assignments, reservationUuid);
  }

  /** `getProductsByReservationUuid` as written: the views are produced inside
      `forEach`, whose result is `undefined`, and that is what is returned. */
  function GetProductsByReservationUuid(reservationUuid: string, assignments: seq<ProductAssignment>,
                                        charges: seq<ProductCharge>): (r: Option<seq<ReservationProduct>>)
    ensures r.None?
  {
    None
  }

  /** Whenever the reservation has products, the lookup as written still
      returns `undefined` instead of their views. */
  lemma ProductsLookupDiscardsViews(reservationUuid: string, assignments: seq<ProductAssignment>,
                                    charges: seq<ProductCharge>, k: int)
    requires 0 <= k < |assignments| && assignments[k].reservation_uuid == reservationUuid
    ensures |ReservationProducts(reservationUuid, assignments, charges)| > 0
    ensures GetProductsByReservationUuid(reservationUuid, assignments, charges) !=
      Some(ReservationProducts(reservationUuid, assignments, charges))
  {
    ForReservationPositions(assignments, reservationUuid);
    assert k in Positions(assignments, reservationUuid);
  }

  /** The two lookups agree when no two charges name the same assignment. */
  lemma {:induction false} LookupsAgreeOnUniqueIds(charges: seq<ProductCharge>, id: int)
    requires forall j, k :: 0 <= j < k < |charges| ==>
      charges[j].special_product_assignment_id != charges[k].special_product_assignment_id
    ensures FirstCharge(charges, id) == LastCharge(charges, id)
  {
    FirstChargeWins(charges, id);
    LastChargeWins(charges, id);
    if k :| 0 <= k < |charges| && charges[k].special_product_assignment_id == id {
      assert FirstCharge(charges, id) == Some(charges[k]);
    }
  }
}
