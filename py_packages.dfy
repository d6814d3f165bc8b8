/**
 * The package routes of the Python back end (backend/routes/packages.py). The vendor
 * routes run behind `require_approved_vendor`; the caller's approved vendor id is the
 * input `vendorId`. Prices are paise; the price bounds of the browse query are inclusive.
 * Paging (`skip`/`limit`) and the `to_list(100)` of the vendor's own listing are not
 * modelled.
 */
module PyPackages {
  import opened Records
  import opened Tables
  import opened Aggregates
  import opened Store

  /** Every stored package has a positive price, as a constructed `Package` does. */
  predicate PricesPositive(packages: seq<Row<Package>>)
  {
    forall i :: 0 <= i < |packages| ==> packages[i].val.price > 0
  }

  lemma PutKeepsPricesPositive(packages: seq<Row<Package>>, id: Id, p: Package)
    requires PricesPositive(packages) && p.price > 0
    ensures PricesPositive(Put(packages, id, p))
  {
    var r := Put(packages, id, p);
    forall i | 0 <= i < |r| ensures r[i] == packages[i] || r[i] == Row(id, p) {
    }
  }

  // ------------------------------------------------------------------
  // Vendor package management (packages.py:14-93)
  // ------------------------------------------------------------------

  /** `PackageCreate`, without the descriptive fields. */
  datatype PackageCreate = PackageCreate(vendorId: Id, name: string, price: Paise, durationMinutes: int)

  /** `create_package`: only for the caller's own vendor; `Package(**…)` then refuses a price
      that is not positive, which surfaces as a 500. */
  method CreatePackage(db: Db, vendorId: Id, data: PackageCreate, newId: Id) returns (resp: Outcome<Package>)
    modifies db`packages
    ensures data.vendorId != vendorId ==> resp == Err(403, Forbidden) && db.packages == old(db.packages)
    ensures data.vendorId == vendorId ==>
      var made := MakePackage(data.vendorId, data.name, data.price, data.durationMinutes);
      && (made.Err? ==> resp == Err(500, InvalidPrice) && db.packages == old(db.packages))
      && (made.Ok? ==> resp == made && db.packages == old(db.packages) + [Row(newId, made.value)])
    ensures resp.Ok? ==> resp.value.vendorId == vendorId && resp.value.isActive
    ensures PricesPositive(old(db.packages)) ==> PricesPositive(db.packages)
  {
    if data.vendorId != vendorId {
      return Err(403, Forbidden);
    }
    var made := MakePackage(data.vendorId, data.name, data.price, data.durationMinutes);
    if made.Err? {
      return Err(made.status, made.reason);
    }
    assert forall i :: 0 <= i < |db.packages| ==> (db.packages + [Row(newId, made.value)])[i] == db.packages[i];
    db.packages := db.packages + [Row(newId, made.value)];
    resp := made;
  }

  /** The packages of one vendor, inactive ones included: the query of `get_my_packages`. */
  function VendorPackages(packages: seq<Row<Package>>, vendorId: Id): (r: seq<Row<Package>>)
    ensures forall i :: 0 <= i < |r| ==> r[i] in packages && r[i].val.vendorId == vendorId
    ensures forall i :: 0 <= i < |packages| && packages[i].val.vendorId == vendorId ==> packages[i] in r
  {
    Filter(packages, (p: Row<Package>) => p.val.vendorId == vendorId)
  }

  /** `get_my_packages`: the caller's packages, inactive ones included, up to `to_list(100)`. */
  function MyPackages(packages: seq<Row<Package>>, vendorId: Id): (r: seq<Row<Package>>)
    ensures |r| <= 100
    ensures forall i :: 0 <= i < |r| ==> r[i] in packages && r[i].val.vendorId == vendorId
    ensures |VendorPackages(packages, vendorId)| <= 100 ==>
      forall i :: 0 <= i < |packages| && packages[i].val.vendorId == vendorId ==> packages[i] in r
  {
    var mine := VendorPackages(packages, vendorId);
    var r := Take(mine, 100);
    assert forall i :: 0 <= i < |r| ==> r[i] == mine[i];
    assert |mine| <= 100 ==> r == mine;
    r
  }

  /** The package, then its owner (packages.py:52-57 and 80-85). */
  function OwnedPackage(packages: seq<Row<Package>>, packageId: Id, vendorId: Id): (g: Outcome<Package>)
    ensures g.Ok? <==> Has(packages, packageId) && Get(packages, packageId).value.vendorId == vendorId
    ensures g.Ok? ==> Get(packages, packageId) == Some(g.value)
    ensures !Has(packages, packageId) ==> g == Err(404, PackageNotFound)
    ensures Has(packages, packageId) && g.Err? ==> g == Err(403, Forbidden)
  {
    match Get(packages, packageId) {
      case None => Err(404, PackageNotFound)
      case Some(p) => if p.vendorId != vendorId then Err(403, Forbidden) else Ok(p)
    }
  }

  /** `PackageUpdate`: the fields the request sets. Its price is not validated. */
  datatype PackageUpdate = PackageUpdate(name: Option<string>, price: Option<Paise>,
                                         durationMinutes: Option<int>, isActive: Option<bool>)

  function Revised(p: Package, u: PackageUpdate): (q: Package)
    ensures q.name == (if u.name.Some? then u.name.value else p.name)
    ensures q.price == (if u.price.Some? then u.price.value else p.price)
    ensures q.durationMinutes == (if u.durationMinutes.Some? then u.durationMinutes.value else p.durationMinutes)
    ensures q.isActive == (if u.isActive.Some? then u.isActive.value else p.isActive)
    ensures q.vendorId == p.vendorId
  {
    p.(name := if u.name.Some? then u.name.value else p.name,
       price := if u.price.Some? then u.price.value else p.price,
       durationMinutes := if u.durationMinutes.Some? then u.durationMinutes.value else p.durationMinutes,
       isActive := if u.isActive.Some? then u.isActive.value else p.isActive)
  }

  /** `response_model=Package`: the re-read document is validated on the way out, and a
      price that is not positive raises there, as a 500, after the write. */
  function PackageResponse(q: Package): (r: Outcome<Package>)
    ensures r.Ok? <==> q.price > 0
    ensures r.Ok? ==> r.value == q
    ensures r.Err? ==> r == Err(500, InvalidPrice)
  {
    if q.price <= 0 then Err(500, InvalidPrice) else Ok(q)
  }

  /** `update_package` (packages.py:42-68): the owner check, the `$set`, and the re-read
      answered through the response validator. */
  method UpdatePackage(db: Db, vendorId: Id, packageId: Id, u: PackageUpdate) returns (resp: Outcome<Package>)
    modifies db`packages
    ensures var g := OwnedPackage(old(db.packages), packageId, vendorId);
      && (g.Err? ==> resp == Err(g.status, g.reason) && db.packages == old(db.packages))
      && (g.Ok? ==> db.packages == Put(old(db.packages), packageId, Revised(g.value, u))
                    && (Revised(g.value, u).price > 0 ==> resp == Ok(Revised(g.value, u)))
                    && (Revised(g.value, u).price <= 0 ==> resp == Err(500, InvalidPrice)))
    ensures PricesPositive(old(db.packages)) && (u.price.Some? ==> u.price.value > 0) ==> PricesPositive(db.packages)
  {
    var g := OwnedPackage(db.packages, packageId, vendorId);
    if g.Err? {
      return Err(g.status, g.reason);
    }
    var revised := Revised(g.value, u);
    if PricesPositive(db.packages) && revised.price > 0 {
      PutKeepsPricesPositive(db.packages, packageId, revised);
    }
    db.packages := Put(db.packages, packageId, revised);
    var reread := Get(db.packages, packageId);
    resp := PackageResponse(reread.value);
  }

  /** An update can store a price that creation would have refused. */
  lemma UpdateAcceptsZeroPrice(vendorId: Id, packageId: Id, p: Package)
    requires p.vendorId == vendorId && p.price > 0
    ensures OwnedPackage([Row(packageId, p)], packageId, vendorId).Ok?
    ensures MakePackage(vendorId, p.name, 0, p.durationMinutes).Err?
    ensures !PricesPositive(Put([Row(packageId, p)], packageId, Revised(p, PackageUpdate(None, Some(0), None, None))))
  {
    var after := Put([Row(packageId, p)], packageId, Revised(p, PackageUpdate(None, Some(0), None, None)));
    assert after[0].val.price == 0;
  }

  /** `delete_package` is a soft delete: the row stays, inactive. */
  method DeletePackage(db: Db, vendorId: Id, packageId: Id) returns (resp: Outcome<()>)
    modifies db`packages
    ensures var g := OwnedPackage(old(db.packages), packageId, vendorId);
      && (g.Err? ==> resp == Err(g.status, g.reason) && db.packages == old(db.packages))
      && (g.Ok? ==> resp == Ok(()) && db.packages == Put(old(db.packages), packageId, g.value.(isActive := false)))
    ensures |db.packages| == |old(db.packages)|
    ensures resp.Ok? ==> Has(db.packages, packageId) && !Get(db.packages, packageId).value.isActive
    ensures PricesPositive(old(db.packages)) ==> PricesPositive(db.packages)
  {
    var g := OwnedPackage(db.packages, packageId, vendorId);
    if g.Err? {
      return Err(g.status, g.reason);
    }
    if PricesPositive(db.packages) {
      PutKeepsPricesPositive(db.packages, packageId, g.value.(isActive := false));
    }
    db.packages := Put(db.packages, packageId, g.value.(isActive := false));
    resp := Ok(());
  }

  // ------------------------------------------------------------------
  // Public browsing (packages.py:99-161)
  // ------------------------------------------------------------------

  predicate VendorIsApproved(vendors: seq<Row<Vendor>>, vendorId: Id)
  {
    Has(vendors, vendorId) && Get(vendors, vendorId).value.isApproved
  }

  /** With unique ids, that is the `find_one({'id': …, 'is_approved': True})` of
      packages.py:115-118 finding a row. */
  lemma VendorIsApprovedFilter(vendors: seq<Row<Vendor>>, vendorId: Id)
    requires UniqueIds(vendors)
    ensures VendorIsApproved(vendors, vendorId) <==> FindWhere(vendors, vendorId, ApprovedVendor).Some?
  {
    FindWhereUnique(vendors, vendorId, ApprovedVendor);
  }

  predicate InPriceRange(price: Paise, minPrice: Option<Paise>, maxPrice: Option<Paise>)
  {
    (minPrice.None? || minPrice.value <= price) && (maxPrice.None? || price <= maxPrice.value)
  }

  /** The ids the `$in` filter uses: those of the first 1000 approved vendors. */
  function ApprovedIds(vendors: seq<Row<Vendor>>): (ids: seq<Id>)
    ensures |ids| <= 1000
    ensures forall k :: 0 <= k < |ids| ==> exists i :: 0 <= i < |vendors| && vendors[i].id == ids[k] && vendors[i].val.isApproved
  {
    var approved := Take(Filter(vendors, (v: Row<Vendor>) => v.val.isApproved), 1000);
    var ids := seq(|approved|, k requires 0 <= k < |approved| => approved[k].id);
    assert forall k :: 0 <= k < |ids| ==> approved[k] in vendors && approved[k].val.isApproved;
    ids
  }

  /** `browse_packages`: active packages in the price range, of the given vendor when one is
      named (404 unless it is approved), else of the approved vendors. */
  function BrowsePackages(vendors: seq<Row<Vendor>>, packages: seq<Row<Package>>, vendorId: Option<Id>,
                          minPrice: Option<Paise>, maxPrice: Option<Paise>): (r: Outcome<seq<Row<Package>>>)
    ensures r.Err? <==> Given(vendorId) && !VendorIsApproved(vendors, vendorId.value)
    ensures r.Err? ==> r == Err(404, VendorNotApproved)
    ensures r.Ok? ==> forall i :: 0 <= i < |r.value| ==>
      && r.value[i] in packages && r.value[i].val.isActive
      && InPriceRange(r.value[i].val.price, minPrice, maxPrice)
      && (Given(vendorId) ==> r.value[i].val.vendorId == vendorId.value)
    ensures Given(vendorId) && r.Ok? ==>
      forall i :: 0 <= i < |packages| && packages[i].val.isActive && packages[i].val.vendorId == vendorId.value &&
                  InPriceRange(packages[i].val.price, minPrice, maxPrice) ==>
                    packages[i] in r.value
  {
    if Given(vendorId) then
      if !VendorIsApproved(vendors, vendorId.value) then Err(404, VendorNotApproved)
      else Ok(Filter(packages, (p: Row<Package>) =>
        p.val.isActive && p.val.vendorId == vendorId.value && InPriceRange(p.val.price, minPrice, maxPrice)))
    else
      var ids := ApprovedIds(vendors);
      Ok(Filter(packages, (p: Row<Package>) =>
        p.val.isActive && p.val.vendorId in ids && InPriceRange(p.val.price, minPrice, maxPrice)))
  }

  /** Without a named vendor every package listed belongs to an approved vendor row, and
      while there are at most 1000 approved vendors each active package of one of them in
      the price range is listed. */
  lemma BrowseAllApproved(vendors: seq<Row<Vendor>>, packages: seq<Row<Package>>,
                          minPrice: Option<Paise>, maxPrice: Option<Paise>)
    ensures var r := BrowsePackages(vendors, packages, None, minPrice, maxPrice).value;
      forall i :: 0 <= i < |r| ==>
        exists k :: 0 <= k < |vendors| && vendors[k].id == r[i].val.vendorId && vendors[k].val.isApproved
    ensures |Filter(vendors, (v: Row<Vendor>) => v.val.isApproved)| <= 1000 ==>
      var r := BrowsePackages(vendors, packages, None, minPrice, maxPrice).value;
      forall i, k :: 0 <= i < |packages| && 0 <= k < |vendors| && packages[i].val.isActive &&
                     vendors[k].id == packages[i].val.vendorId && vendors[k].val.isApproved &&
                     InPriceRange(packages[i].val.price, minPrice, maxPrice) ==>
                       packages[i] in r
  {
    var isApproved := (v: Row<Vendor>) => v.val.isApproved;
    var approved := Take(Filter(vendors, isApproved), 1000);
    var ids := ApprovedIds(vendors);
    assert ids == seq(|approved|, k requires 0 <= k < |approved| => approved[k].id);
    var r := BrowsePackages(vendors, packages, None, minPrice, maxPrice).value;
    forall i | 0 <= i < |r|
      ensures exists k :: 0 <= k < |vendors| && vendors[k].id == r[i].val.vendorId && vendors[k].val.isApproved
    {
      var j :| 0 <= j < |ids| && ids[j] == r[i].val.vendorId;
    }
    if |Filter(vendors, isApproved)| <= 1000 {
      assert approved == Filter(vendors, isApproved);
      forall i, k | 0 <= i < |packages| && 0 <= k < |vendors| && packages[i].val.isActive &&
                    vendors[k].id == packages[i].val.vendorId && vendors[k].val.isApproved &&
                    InPriceRange(packages[i].val.price, minPrice, maxPrice)
        ensures packages[i] in r
      {
        var j :| 0 <= j < |approved| && approved[j] == vendors[k];
        assert ids[j] == packages[i].val.vendorId;
      }
    }
  }

  /** `get_package_details`: an active package of an approved vendor. */
  function PackageDetails(vendors: seq<Row<Vendor>>, packages: seq<Row<Package>>, packageId: Id): (r: Outcome<Package>)
    ensures r.Ok? <==>
      Has(packages, packageId) && Get(packages, packageId).value.isActive
      && VendorIsApproved(vendors, Get(packages, packageId).value.vendorId)
    ensures r.Ok? ==> Get(packages, packageId) == Some(r.value)
    ensures r.Err? ==> r.status == 404
  {
    match Get(packages, packageId) {
      case None => Err(404, PackageNotFound)
      case Some(p) =>
        if !p.isActive then Err(404, PackageNotFound)
        else if !VendorIsApproved(vendors, p.vendorId) then Err(404, VendorNotApproved)
        else Ok(p)
    }
  }

  /** With unique ids, the details are found exactly when both compound lookups of
      packages.py:144-156 find a row, and they are the package row found. */
  lemma PackageDetailsFilters(vendors: seq<Row<Vendor>>, packages: seq<Row<Package>>, packageId: Id)
    requires UniqueIds(vendors) && UniqueIds(packages)
    ensures PackageDetails(vendors, packages, packageId).Ok? <==>
      && FindWhere(packages, packageId, ActivePackage).Some?
      && FindWhere(vendors, FindWhere(packages, packageId, ActivePackage).value.vendorId, ApprovedVendor).Some?
    ensures PackageDetails(vendors, packages, packageId).Ok? ==>
      FindWhere(packages, packageId, ActivePackage) == Some(PackageDetails(vendors, packages, packageId).value)
  {
    FindWhereUnique(packages, packageId, ActivePackage);
    if Get(packages, packageId).Some? {
      VendorIsApprovedFilter(vendors, Get(packages, packageId).value.vendorId);
    }
  }

  /** With a repeated package id the model and the route part: an inactive first row
      makes the model answer 404 where `find_one` would return the active second row. */
  lemma PackageDetailsOnRepeatedId(vendors: seq<Row<Vendor>>, packageId: Id, p: Package)
    requires p.isActive
    ensures PackageDetails(vendors, [Row(packageId, p.(isActive := false)), Row(packageId, p)], packageId)
              == Err(404, PackageNotFound)
    ensures FindWhere([Row(packageId, p.(isActive := false)), Row(packageId, p)], packageId, ActivePackage) == Some(p)
  {
    FindWhereSeesPastFirstRow(packageId, p.(isActive := false), p, ActivePackage);
  }

  /** A soft-deleted package drops out of both public views, and stays in its vendor's own. */
  lemma DeletedPackageHidden(vendors: seq<Row<Vendor>>, packages: seq<Row<Package>>, packageId: Id, p: Package,
                             vendorId: Option<Id>, minPrice: Option<Paise>, maxPrice: Option<Paise>)
    requires Get(packages, packageId) == Some(p)
    ensures var after := Put(packages, packageId, p.(isActive := false));
      && PackageDetails(vendors, after, packageId).Err?
      && (BrowsePackages(vendors, after, vendorId, minPrice, maxPrice).Ok? ==>
            Row(packageId, p.(isActive := false)) !in BrowsePackages(vendors, after, vendorId, minPrice, maxPrice).value)
      && Row(packageId, p.(isActive := false)) in VendorPackages(after, p.vendorId)
      && (|VendorPackages(after, p.vendorId)| <= 100 ==> Row(packageId, p.(isActive := false)) in MyPackages(after, p.vendorId))
  {
    var after := Put(packages, packageId, p.(isActive := false));
    var k := IndexOf(packages, packageId).value;
    assert after[k] == Row(packageId, p.(isActive := false));
  }
}
