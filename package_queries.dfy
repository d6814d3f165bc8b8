/**
 * Role-based package visibility (src/lib/packageQueries.ts). Each query reads whole tables;
 * a fetched table is `Some(rows)`, a query that fails is `None`, and every failure gives
 * the empty list, as the function's error branches and its catch do.
 *
 * The slot queries filter with `.gt("capacity", "booked_count")`, which sends the string
 * "booked_count" as the value to compare the integer column `capacity` with, not the
 * column of that name. SlotQueryAsWritten models that query; FetchCustomerPackages and
 * HasBookableSlots take the slot table as the evident purpose reads it, a slot with
 * `booked_count < capacity`.
 */
module PackageQueries {
  import opened Records
  import opened Tables
  import opened Aggregates

  /** A slot a customer could still book: today or later, open, and not full. */
  predicate SlotOffered(s: TimeSlot, today: Day)
  {
    s.slotDate >= today && s.isAvailable && s.bookedCount < s.capacity
  }

  predicate HasOfferedSlot(slots: seq<Row<TimeSlot>>, vendorId: Id, today: Day)
  {
    exists i :: 0 <= i < |slots| && slots[i].val.vendorId == vendorId && SlotOffered(slots[i].val, today)
  }

  predicate VendorApproved(vendors: seq<Row<Vendor>>, vendorId: Id)
  {
    exists i :: 0 <= i < |vendors| && vendors[i].id == vendorId && vendors[i].val.isApproved
  }

  /** What a customer may see: an active package of an approved vendor with an offered slot. */
  predicate CustomerVisible(p: Row<Package>, vendors: seq<Row<Vendor>>, slots: seq<Row<TimeSlot>>, today: Day)
  {
    p.val.isActive && VendorApproved(vendors, p.val.vendorId) && HasOfferedSlot(slots, p.val.vendorId, today)
  }

  predicate SortedByPrice(s: seq<Row<Package>>)
  {
    forall i, j :: 0 <= i < j < |s| ==> s[i].val.price <= s[j].val.price
  }

  /** The ids of the approved vendors (packageQueries.ts:30-39). */
  function ApprovedVendorIds(vendors: seq<Row<Vendor>>): (ids: seq<Id>)
    ensures forall id :: id in ids <==> VendorApproved(vendors, id)
  {
    if |vendors| == 0 then []
    else
      var rest := ApprovedVendorIds(vendors[1..]);
      assert forall id :: VendorApproved(vendors[1..], id) ==> VendorApproved(vendors, id) by {
        forall id | VendorApproved(vendors[1..], id) ensures VendorApproved(vendors, id) {
          var i :| 0 <= i < |vendors[1..]| && vendors[1..][i].id == id && vendors[1..][i].val.isApproved;
          assert vendors[i + 1] == vendors[1..][i];
        }
      }
      assert forall id :: VendorApproved(vendors, id) && id != vendors[0].id ==> VendorApproved(vendors[1..], id) by {
        forall id | VendorApproved(vendors, id) && id != vendors[0].id ensures VendorApproved(vendors[1..], id) {
          var i :| 0 <= i < |vendors| && vendors[i].id == id && vendors[i].val.isApproved;
          assert vendors[1..][i - 1] == vendors[i];
        }
      }
      if vendors[0].val.isApproved then [vendors[0].id] + rest else rest
  }

  /** `.order("price")`: an insertion sort, ascending by price. */
  function InsertByPrice(p: Row<Package>, s: seq<Row<Package>>): (r: seq<Row<Package>>)
    requires SortedByPrice(s)
    ensures SortedByPrice(r)
    ensures multiset(r) == multiset(s) + multiset{p}
  {
    if |s| == 0 then [p]
    else if p.val.price <= s[0].val.price then [p] + s
    else
      var tail := InsertByPrice(p, s[1..]);
      InsertedAbove(p, s, tail);
      ConsSorted(s[0], tail);
      assert s == [s[0]] + s[1..];
      [s[0]] + tail
  }

  /** What the insertion puts behind the head of a sorted list costs at least the head. */
  lemma InsertedAbove(p: Row<Package>, s: seq<Row<Package>>, tail: seq<Row<Package>>)
    requires |s| > 0 && SortedByPrice(s) && s[0].val.price < p.val.price
    requires multiset(tail) == multiset(s[1..]) + multiset{p}
    ensures forall k :: 0 <= k < |tail| ==> s[0].val.price <= tail[k].val.price
  {
    forall k | 0 <= k < |tail| ensures s[0].val.price <= tail[k].val.price {
      assert tail[k] in multiset(tail);
      if tail[k] != p {
        assert tail[k] in s[1..];
        var j :| 0 <= j < |s[1..]| && s[1..][j] == tail[k];
        assert s[j + 1] == tail[k];
      }
    }
  }

  lemma ConsSorted(x: Row<Package>, t: seq<Row<Package>>)
    requires SortedByPrice(t)
    requires forall k :: 0 <= k < |t| ==> x.val.price <= t[k].val.price
    ensures SortedByPrice([x] + t)
  {
    forall i, j | 0 <= i < j < |[x] + t| ensures ([x] + t)[i].val.price <= ([x] + t)[j].val.price {
      assert ([x] + t)[j] == t[j - 1];
      if i > 0 {
        assert ([x] + t)[i] == t[i - 1];
      }
    }
  }

  function SortByPrice(s: seq<Row<Package>>): (r: seq<Row<Package>>)
    ensures SortedByPrice(r)
    ensures multiset(r) == multiset(s)
  {
    if |s| == 0 then []
    else
      assert s == [s[0]] + s[1..];
      InsertByPrice(s[0], SortByPrice(s[1..]))
  }

  /** Filtering keeps the price order (packageQueries.ts:72-74 after the ordered query). */
  lemma {:induction false} FilterKeepsSortedByPrice(s: seq<Row<Package>>, p: Row<Package> -> bool)
    requires SortedByPrice(s)
    ensures SortedByPrice(Filter(s, p))
  {
    if |s| > 0 {
      var init := s[..|s| - 1];
      assert SortedByPrice(init);
      FilterKeepsSortedByPrice(init, p);
      var f := Filter(init, p);
      forall i | 0 <= i < |f| ensures f[i].val.price <= s[|s| - 1].val.price {
        var k :| 0 <= k < |init| && init[k] == f[i];
      }
      if p(s[|s| - 1]) {
        AppendSortedByPrice(f, s[|s| - 1]);
      }
    }
  }

  lemma AppendSortedByPrice(s: seq<Row<Package>>, x: Row<Package>)
    requires SortedByPrice(s)
    requires forall i :: 0 <= i < |s| ==> s[i].val.price <= x.val.price
    ensures SortedByPrice(s + [x])
  {
    var r := s + [x];
    forall i, j | 0 <= i < j < |r| ensures r[i].val.price <= r[j].val.price {
      assert r[i] == s[i];
    }
  }

  /** Sorting keeps exactly the packages it was given. */
  lemma SortKeepsMembers(s: seq<Row<Package>>)
    ensures forall x :: x in SortByPrice(s) <==> x in s
  {
    var r := SortByPrice(s);
    assert forall x :: x in r <==> x in multiset(r);
    assert forall x :: x in s <==> x in multiset(s);
  }

  /** The vendors with an offered slot: the vendor ids of the slot query. */
  function OfferedVendors(slots: seq<Row<TimeSlot>>, today: Day): (ids: set<Id>)
    ensures forall id :: id in ids <==> HasOfferedSlot(slots, id, today)
  {
    set i | 0 <= i < |slots| && SlotOffered(slots[i].val, today) :: slots[i].val.vendorId
  }

  /** The active packages of the given vendors, by price, kept when their vendor has a slot. */
  function Listing(packages: seq<Row<Package>>, approved: seq<Id>, withSlots: set<Id>): (r: seq<Row<Package>>)
    ensures SortedByPrice(r)
    ensures forall i :: 0 <= i < |r| ==>
      r[i] in packages && r[i].val.isActive && r[i].val.vendorId in approved && r[i].val.vendorId in withSlots
    ensures forall i :: 0 <= i < |packages| ==>
      packages[i].val.isActive && packages[i].val.vendorId in approved && packages[i].val.vendorId in withSlots ==>
        packages[i] in r
  {
    var active := (p: Row<Package>) => p.val.isActive && p.val.vendorId in approved;
    var listed := SortByPrice(Filter(packages, active));
    SortKeepsMembers(Filter(packages, active));
    var bookable := (p: Row<Package>) => p.val.vendorId in withSlots;
    FilterKeepsSortedByPrice(listed, bookable);
    Filter(listed, bookable)
  }

  /** `fetchCustomerPackages()` (packageQueries.ts:27-81). */
  function FetchCustomerPackages(vendors: Option<seq<Row<Vendor>>>, packages: Option<seq<Row<Package>>>,
                                 slots: Option<seq<Row<TimeSlot>>>, today: Day): (r: seq<Row<Package>>)
    ensures vendors.None? || packages.None? || slots.None? ==> r == []
    ensures vendors.Some? && ApprovedVendorIds(vendors.value) == [] ==> r == []
    ensures SortedByPrice(r)
    ensures vendors.Some? && packages.Some? && slots.Some? ==>
      && (forall i :: 0 <= i < |r| ==> r[i] in packages.value && CustomerVisible(r[i], vendors.value, slots.value, today))
      && (forall i :: 0 <= i < |packages.value| && CustomerVisible(packages.value[i], vendors.value, slots.value, today)
            ==> packages.value[i] in r)
  {
    if vendors.None? || slots.None? || packages.None? then []
    else
      var approved := ApprovedVendorIds(vendors.value);
      if approved == [] then []
      else Listing(packages.value, approved, OfferedVendors(slots.value, today))
  }

  /** `hasBookableSlots(vendorId)` (packageQueries.ts:135-153). */
  function HasBookableSlots(slots: Option<seq<Row<TimeSlot>>>, vendorId: Id, today: Day): (ok: bool)
    ensures ok <==> slots.Some? && HasOfferedSlot(slots.value, vendorId, today)
  {
    slots.Some? && exists i :: 0 <= i < |slots.value| && slots.value[i].val.vendorId == vendorId
                               && SlotOffered(slots.value[i].val, today)
  }

  /** A package the customer listing shows has a vendor for which `hasBookableSlots` holds. */
  lemma ListedPackagesAreBookable(vendors: seq<Row<Vendor>>, packages: seq<Row<Package>>,
                                  slots: seq<Row<TimeSlot>>, today: Day, i: nat)
    requires i < |FetchCustomerPackages(Some(vendors), Some(packages), Some(slots), today)|
    ensures HasBookableSlots(Some(slots), FetchCustomerPackages(Some(vendors), Some(packages), Some(slots), today)[i].val.vendorId, today)
  {
  }

  /** `fetchVendorPackages(vendorId)` (packageQueries.ts:88-106): that vendor's packages,
      drafts included. */
  function FetchVendorPackages(packages: Option<seq<Row<Package>>>, vendorId: Id): (r: seq<Row<Package>>)
    ensures packages.None? ==> r == []
    ensures packages.Some? ==>
      && (forall i :: 0 <= i < |r| ==> r[i] in packages.value && r[i].val.vendorId == vendorId)
      && (forall i :: 0 <= i < |packages.value| && packages.value[i].val.vendorId == vendorId ==> packages.value[i] in r)
  {
    if packages.None? then [] else Filter(packages.value, (p: Row<Package>) => p.val.vendorId == vendorId)
  }

  /** `fetchAdminPackages()` (packageQueries.ts:113-130): every package, by price. */
  function FetchAdminPackages(packages: Option<seq<Row<Package>>>): (r: seq<Row<Package>>)
    ensures packages.None? ==> r == []
    ensures packages.Some? ==> multiset(r) == multiset(packages.value)
    ensures SortedByPrice(r)
  {
    if packages.None? then [] else SortByPrice(packages.value)
  }

  /** A PostgREST filter value the database can read as an integer: an optional sign,
      then decimal digits. */
  predicate IsIntegerLiteral(v: string)
  {
    || IsDigits(v)
    || (|v| > 0 && (v[0] == '-' || v[0] == '+') && IsDigits(v[1..]))
  }

  predicate IsDigits(v: string)
  {
    |v| > 0 && forall i :: 0 <= i < |v| ==> '0' <= v[i] <= '9'
  }

  function DecimalValue(v: string): (n: nat)
    requires forall i :: 0 <= i < |v| ==> '0' <= v[i] <= '9'
    ensures |v| == 1 ==> n == (v[0] - '0') as nat
  {
    if |v| == 0 then 0
    else DecimalValue(v[..|v| - 1]) * 10 + (v[|v| - 1] - '0') as nat
  }

  /** The integer such a literal denotes. */
  function IntegerValue(v: string): (n: int)
    requires IsIntegerLiteral(v)
    ensures v[0] == '-' ==> n <= 0
    ensures v[0] != '-' ==> n >= 0
  {
    if v[0] == '-' then -(DecimalValue(v[1..]) as int)
    else if v[0] == '+' then DecimalValue(v[1..])
    else DecimalValue(v)
  }

  /** The slot query of packageQueries.ts:57-62 and 140-146 as written, with the value
      `bound` of its `.gt("capacity", bound)` filter. The value is cast to the column's
      integer type: a value that is not an integer fails the query (`None`), and an integer
      one keeps the slots whose capacity exceeds that constant, not their booked count. */
  function SlotQueryAsWritten(slots: seq<Row<TimeSlot>>, today: Day, bound: string): (r: Option<seq<Row<TimeSlot>>>)
    ensures r.Some? <==> IsIntegerLiteral(bound)
    ensures r.Some? ==> forall i :: 0 <= i < |r.value| ==>
      r.value[i] in slots && r.value[i].val.slotDate >= today && r.value[i].val.isAvailable
      && r.value[i].val.capacity > IntegerValue(bound)
  {
    if !IsIntegerLiteral(bound) then None
    else Some(Filter(slots, (s: Row<TimeSlot>) =>
                s.val.slotDate >= today && s.val.isAvailable && s.val.capacity > IntegerValue(bound)))
  }

  /** Signed integers are read as numbers; a bare sign or an empty value is not. */
  lemma SignedBoundsRead(slots: seq<Row<TimeSlot>>, today: Day)
    ensures SlotQueryAsWritten(slots, today, "-1").Some? && IntegerValue("-1") == -1
    ensures SlotQueryAsWritten(slots, today, "+5").Some? && IntegerValue("+5") == 5
    ensures SlotQueryAsWritten(slots, today, "-").None? && SlotQueryAsWritten(slots, today, "").None?
  {
    assert "-1"[1..] == "1";
    assert "+5"[1..] == "5";
    assert "-"[1..] == "";
  }

  /** As written, the slot query with the value "booked_count" always fails, so the
      customer listing is empty and no vendor has a bookable slot, whatever the tables hold. */
  lemma CapacityLiteralFailsQuery(vendors: seq<Row<Vendor>>, packages: seq<Row<Package>>,
                                  slots: seq<Row<TimeSlot>>, today: Day, vendorId: Id)
    ensures SlotQueryAsWritten(slots, today, "booked_count").None?
    ensures FetchCustomerPackages(Some(vendors), Some(packages), SlotQueryAsWritten(slots, today, "booked_count"), today) == []
    ensures !HasBookableSlots(SlotQueryAsWritten(slots, today, "booked_count"), vendorId, today)
  {
    assert "booked_count"[0] == 'b';
  }

  /** A package the intended listing shows, and which the listing as written hides. */
  lemma VisiblePackageHiddenAsWritten(vendors: seq<Row<Vendor>>, packages: seq<Row<Package>>,
                                      slots: seq<Row<TimeSlot>>, today: Day, i: nat)
    requires i < |packages| && CustomerVisible(packages[i], vendors, slots, today)
    ensures packages[i] in FetchCustomerPackages(Some(vendors), Some(packages), Some(slots), today)
    ensures HasBookableSlots(Some(slots), packages[i].val.vendorId, today)
    ensures packages[i] !in FetchCustomerPackages(Some(vendors), Some(packages), SlotQueryAsWritten(slots, today, "booked_count"), today)
    ensures !HasBookableSlots(SlotQueryAsWritten(slots, today, "booked_count"), packages[i].val.vendorId, today)
  {
    CapacityLiteralFailsQuery(vendors, packages, slots, today, packages[i].val.vendorId);
  }
}
