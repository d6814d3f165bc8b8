/**
 * The time-slot routes of the Python back end (backend/routes/time_slots.py). The vendor
 * routes run behind `require_approved_vendor`; the caller's approved vendor id is the
 * input `vendorId`. Slot dates are day numbers, whose order is the order of the
 * `YYYY-MM-DD` strings Mongo compares. The `slot_date` sort is not modelled: the `to_list`
 * caps keep a prefix of the matching slots, and which ones is left open.
 */
module PyTimeSlots {
  import opened Records
  import opened Tables
  import opened Aggregates
  import opened Store
  import opened PyUtils
  import opened PyBookings

  // ------------------------------------------------------------------
  // Vendor slot management (time_slots.py:14-97)
  // ------------------------------------------------------------------

  /** `TimeSlotCreate` (models.py:162-168); times of day are not modelled. */
  datatype SlotCreate = SlotCreate(vendorId: Id, packageId: Option<Id>, slotDate: Day, capacity: int)

  /** `create_time_slot`: only for the caller's own vendor. The capacity is not validated. */
  method CreateTimeSlot(db: Db, vendorId: Id, data: SlotCreate, newId: Id) returns (resp: Outcome<TimeSlot>)
    modifies db`slots
    ensures data.vendorId != vendorId ==> resp == Err(403, Forbidden) && db.slots == old(db.slots)
    ensures data.vendorId == vendorId ==>
      && resp == Ok(NewTimeSlot(data.vendorId, data.packageId, data.slotDate, data.capacity))
      && db.slots == old(db.slots) + [Row(newId, resp.value)]
    ensures SlotsConsistent(old(db.slots)) && data.capacity > 0 ==> SlotsConsistent(db.slots)
  {
    if data.vendorId != vendorId {
      return Err(403, Forbidden);
    }
    var slot := NewTimeSlot(data.vendorId, data.packageId, data.slotDate, data.capacity);
    assert forall i :: 0 <= i < |db.slots| ==> (db.slots + [Row(newId, slot)])[i] == db.slots[i];
    db.slots := db.slots + [Row(newId, slot)];
    resp := Ok(slot);
  }

  predicate OnDay(s: TimeSlot, slotDate: Option<Day>)
  {
    slotDate.Some? ==> s.slotDate == slotDate.value
  }

  /** The query of `get_my_time_slots`: the vendor's slots, on one day when a date is given. */
  function VendorSlots(slots: seq<Row<TimeSlot>>, vendorId: Id, slotDate: Option<Day>): (r: seq<Row<TimeSlot>>)
    ensures forall i :: 0 <= i < |r| ==> r[i] in slots && r[i].val.vendorId == vendorId && OnDay(r[i].val, slotDate)
    ensures forall i :: 0 <= i < |slots| && slots[i].val.vendorId == vendorId && OnDay(slots[i].val, slotDate) ==>
              slots[i] in r
  {
    Filter(slots, (s: Row<TimeSlot>) => s.val.vendorId == vendorId && OnDay(s.val, slotDate))
  }

  /** `get_my_time_slots`: the query's slots up to `to_list(200)`. */
  function MySlots(slots: seq<Row<TimeSlot>>, vendorId: Id, slotDate: Option<Day>): (r: seq<Row<TimeSlot>>)
    ensures |r| <= 200
    ensures forall i :: 0 <= i < |r| ==> r[i] in slots && r[i].val.vendorId == vendorId && OnDay(r[i].val, slotDate)
    ensures |VendorSlots(slots, vendorId, slotDate)| <= 200 ==>
      forall i :: 0 <= i < |slots| && slots[i].val.vendorId == vendorId && OnDay(slots[i].val, slotDate) ==>
        slots[i] in r
  {
    var mine := VendorSlots(slots, vendorId, slotDate);
    var r := Take(mine, 200);
    assert forall i :: 0 <= i < |r| ==> r[i] == mine[i];
    assert |mine| <= 200 ==> r == mine;
    r
  }

  /** `TimeSlotUpdate`: the fields the request sets. */
  datatype SlotUpdate = SlotUpdate(capacity: Option<int>, isAvailable: Option<bool>)

  function Changed(s: TimeSlot, u: SlotUpdate): (t: TimeSlot)
    ensures t.capacity == (if u.capacity.Some? then u.capacity.value else s.capacity)
    ensures t.isAvailable == (if u.isAvailable.Some? then u.isAvailable.value else s.isAvailable)
    ensures t.(capacity := s.capacity, isAvailable := s.isAvailable) == s
  {
    s.(capacity := if u.capacity.Some? then u.capacity.value else s.capacity,
       isAvailable := if u.isAvailable.Some? then u.isAvailable.value else s.isAvailable)
  }

  /** The slot, then its owner (time_slots.py:56-61 and 84-89). */
  function OwnedSlot(slots: seq<Row<TimeSlot>>, slotId: Id, vendorId: Id): (g: Outcome<TimeSlot>)
    ensures g.Ok? <==> Has(slots, slotId) && Get(slots, slotId).value.vendorId == vendorId
    ensures g.Ok? ==> Get(slots, slotId) == Some(g.value)
    ensures !Has(slots, slotId) ==> g == Err(404, SlotNotFound)
    ensures Has(slots, slotId) && g.Err? ==> g == Err(403, Forbidden)
  {
    match Get(slots, slotId) {
      case None => Err(404, SlotNotFound)
      case Some(s) => if s.vendorId != vendorId then Err(403, Forbidden) else Ok(s)
    }
  }

  /** `update_time_slot`: writes whatever was supplied, with no check of the new capacity
      against the slot's bookings. */
  method UpdateTimeSlot(db: Db, vendorId: Id, slotId: Id, u: SlotUpdate) returns (resp: Outcome<TimeSlot>)
    modifies db`slots
    ensures var g := OwnedSlot(old(db.slots), slotId, vendorId);
      && (g.Err? ==> resp == Err(g.status, g.reason) && db.slots == old(db.slots))
      && (g.Ok? ==> resp == Ok(Changed(g.value, u)) && db.slots == Put(old(db.slots), slotId, Changed(g.value, u)))
  {
    var g := OwnedSlot(db.slots, slotId, vendorId);
    if g.Err? {
      return Err(g.status, g.reason);
    }
    db.slots := Put(db.slots, slotId, Changed(g.value, u));
    var reread := Get(db.slots, slotId);
    resp := Ok(reread.value);
  }

  /** Lowering the capacity below the bookings is accepted, and leaves the slot overbooked. */
  lemma UpdateCanOverbook(vendorId: Id, slotId: Id, s: TimeSlot)
    requires s.vendorId == vendorId && s.bookedCount == 3 && s.capacity == 4
    ensures OwnedSlot([Row(slotId, s)], slotId, vendorId).Ok?
    ensures WithinCapacity([Row(slotId, s)])
    ensures !WithinCapacity(Put([Row(slotId, s)], slotId, Changed(s, SlotUpdate(Some(2), None))))
  {
    var after := Put([Row(slotId, s)], slotId, Changed(s, SlotUpdate(Some(2), None)));
    assert after[0].val.bookedCount > after[0].val.capacity;
  }

  /** `delete_time_slot`: a slot with bookings is kept. */
  method DeleteTimeSlot(db: Db, vendorId: Id, slotId: Id) returns (resp: Outcome<()>)
    modifies db`slots
    ensures var g := OwnedSlot(old(db.slots), slotId, vendorId);
      && (g.Err? ==> resp == Err(g.status, g.reason) && db.slots == old(db.slots))
      && (g.Ok? && g.value.bookedCount > 0 ==> resp == Err(400, SlotHasBookings) && db.slots == old(db.slots))
      && (g.Ok? && g.value.bookedCount <= 0 ==> resp == Ok(()) && db.slots == Remove(old(db.slots), slotId))
    ensures resp.Ok? ==> |db.slots| == |old(db.slots)| - 1
    ensures SlotsConsistent(old(db.slots)) ==> SlotsConsistent(db.slots)
  {
    var g := OwnedSlot(db.slots, slotId, vendorId);
    if g.Err? {
      return Err(g.status, g.reason);
    }
    if g.value.bookedCount > 0 {
      return Err(400, SlotHasBookings);
    }
    RemoveKeepsSlotsConsistent(db.slots, slotId);
    db.slots := Remove(db.slots, slotId);
    resp := Ok(());
  }

  lemma RemoveKeepsSlotsConsistent(slots: seq<Row<TimeSlot>>, id: Id)
    ensures SlotsConsistent(slots) ==> SlotsConsistent(Remove(slots, id))
  {
    var r := Remove(slots, id);
    forall i | 0 <= i < |r| ensures r[i] in slots {
    }
  }

  // ------------------------------------------------------------------
  // Public availability (time_slots.py:103-141)
  // ------------------------------------------------------------------

  /** The `slot_date` condition of time_slots.py:131-134: an end date without a start date
      is ignored. */
  predicate InDateRange(d: Day, start: Option<Day>, end: Option<Day>)
  {
    if start.Some? && end.Some? then start.value <= d <= end.value
    else if start.Some? then start.value <= d
    else true
  }

  /** A slot the query of `get_package_availability` fetches for the package's vendor. */
  predicate Queried(s: TimeSlot, vendorId: Id, start: Option<Day>, end: Option<Day>)
  {
    s.vendorId == vendorId && s.isAvailable && InDateRange(s.slotDate, start, end)
  }

  /** A slot the listing shows for the package's vendor. Slots are not matched on their
      `package_id`: every open slot of the vendor is listed for each of its packages. */
  predicate Listed(s: TimeSlot, vendorId: Id, start: Option<Day>, end: Option<Day>)
  {
    s.vendorId == vendorId && s.isAvailable && InDateRange(s.slotDate, start, end) && s.bookedCount < s.capacity
  }

  /** `get_package_availability`: the package must be active and its vendor approved. */
  function PackageAvailability(packages: seq<Row<Package>>, vendors: seq<Row<Vendor>>, slots: seq<Row<TimeSlot>>,
                               packageId: Id, start: Option<Day>, end: Option<Day>): (r: Outcome<seq<Row<TimeSlot>>>)
    ensures !Has(packages, packageId) || !Get(packages, packageId).value.isActive ==> r == Err(404, PackageNotFound)
    ensures r.Ok? <==>
      && Has(packages, packageId) && Get(packages, packageId).value.isActive
      && Has(vendors, Get(packages, packageId).value.vendorId)
      && Get(vendors, Get(packages, packageId).value.vendorId).value.isApproved
    ensures r.Err? ==> r == Err(404, PackageNotFound) || r == Err(404, VendorNotApproved)
    ensures r.Ok? ==>
      var v := Get(packages, packageId).value.vendorId;
      && |r.value| <= 100
      && (forall i :: 0 <= i < |r.value| ==> r.value[i] in slots && Listed(r.value[i].val, v, start, end))
      && (|QueriedSlots(slots, v, start, end)| <= 100 ==>
            forall i :: 0 <= i < |slots| && Listed(slots[i].val, v, start, end) ==> slots[i] in r.value)
  {
    match Get(packages, packageId) {
      case None => Err(404, PackageNotFound)
      case Some(p) =>
        if !p.isActive then Err(404, PackageNotFound)
        else if !Has(vendors, p.vendorId) || !Get(vendors, p.vendorId).value.isApproved then Err(404, VendorNotApproved)
        else Ok(OpenSlots(slots, p.vendorId, start, end))
    }
  }

  /** With unique ids, the listing is answered exactly when both compound lookups of
      time_slots.py:113-120 find a row, and then for that package's vendor. */
  lemma PackageAvailabilityFilters(packages: seq<Row<Package>>, vendors: seq<Row<Vendor>>, slots: seq<Row<TimeSlot>>,
                                   packageId: Id, start: Option<Day>, end: Option<Day>)
    requires UniqueIds(packages) && UniqueIds(vendors)
    ensures var r := PackageAvailability(packages, vendors, slots, packageId, start, end);
      var found := FindWhere(packages, packageId, ActivePackage);
      && (r == Err(404, PackageNotFound) <==> found.None?)
      && (r.Ok? <==> found.Some? && FindWhere(vendors, found.value.vendorId, ApprovedVendor).Some?)
      && (r.Ok? ==> r.value == OpenSlots(slots, found.value.vendorId, start, end))
  {
    FindWhereUnique(packages, packageId, ActivePackage);
    if Get(packages, packageId).Some? {
      FindWhereUnique(vendors, Get(packages, packageId).value.vendorId, ApprovedVendor);
    }
  }

  /** The `find` of time_slots.py:125-134: the vendor's available slots in the range. */
  function QueriedSlots(slots: seq<Row<TimeSlot>>, vendorId: Id, start: Option<Day>, end: Option<Day>): (r: seq<Row<TimeSlot>>)
    ensures forall i :: 0 <= i < |r| ==> r[i] in slots && Queried(r[i].val, vendorId, start, end)
    ensures forall i :: 0 <= i < |slots| && Queried(slots[i].val, vendorId, start, end) ==> slots[i] in r
  {
    Filter(slots, (s: Row<TimeSlot>) => Queried(s.val, vendorId, start, end))
  }

  /** The queried slots up to `to_list(100)`, then the in-memory check for room. */
  function OpenSlots(slots: seq<Row<TimeSlot>>, vendorId: Id, start: Option<Day>, end: Option<Day>): (r: seq<Row<TimeSlot>>)
    ensures |r| <= 100
    ensures forall i :: 0 <= i < |r| ==> r[i] in slots && Listed(r[i].val, vendorId, start, end)
    ensures |QueriedSlots(slots, vendorId, start, end)| <= 100 ==>
      forall i :: 0 <= i < |slots| && Listed(slots[i].val, vendorId, start, end) ==> slots[i] in r
  {
    var queried := QueriedSlots(slots, vendorId, start, end);
    var fetched := Take(queried, 100);
    assert forall i :: 0 <= i < |fetched| ==> fetched[i] == queried[i];
    assert |queried| <= 100 ==> fetched == queried;
    var r := Filter(fetched, (s: Row<TimeSlot>) => s.val.bookedCount < s.val.capacity);
    r
  }

  /** Both date bounds give the closed range, a start alone an open-ended one, an end alone
      nothing at all. */
  lemma DateFilterCases(d: Day, start: Day, end: Day)
    ensures InDateRange(d, Some(start), Some(end)) <==> start <= d <= end
    ensures InDateRange(d, Some(start), None) <==> start <= d
    ensures InDateRange(d, None, Some(end))
  {
  }

  /** Every listed slot is one `create_booking` accepts, when slot ids are unique. */
  lemma ListedSlotsAreBookable(packages: seq<Row<Package>>, vendors: seq<Row<Vendor>>, slots: seq<Row<TimeSlot>>,
                               packageId: Id, start: Option<Day>, end: Option<Day>, i: nat)
    requires UniqueIds(slots)
    requires PackageAvailability(packages, vendors, slots, packageId, start, end).Ok?
    requires i < |PackageAvailability(packages, vendors, slots, packageId, start, end).value|
    ensures CheckSlotAvailability(slots, PackageAvailability(packages, vendors, slots, packageId, start, end).value[i].id)
  {
    var row := PackageAvailability(packages, vendors, slots, packageId, start, end).value[i];
    var k :| 0 <= k < |slots| && slots[k] == row;
    FirstIs(slots, row.id, k);
  }
}
