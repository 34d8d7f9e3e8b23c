/**
  The cargo views: package creation with route matching, route selection (the order
  replace-or-reject step) and the package and driver listings.
*/
module CargoViews {
  import opened Common
  import opened Text
  import opened Listing
  import opened Store

  // ---------------------------------------------------------------------------
  // PackageCreate
  // ---------------------------------------------------------------------------

  datatype CreateResponse = Created(package: Package) | InvalidPackage | NoMatchingRoute {
    function Status(): int {
      match this
      case Created(_) => 201
      case InvalidPackage => 400
      case NoMatchingRoute => 434
    }
  }

  /** `perform_create`: saves the validated package as the requesting user's, with no route plans yet. */
  method PerformCreate(db: Db, user: UserId, data: PackageData, code: string) returns (p: Package)
    requires db.Valid() && user in db.userEmails && code !in db.packages
    modifies db
    ensures db.Valid()
    ensures p == Package(code, user, data.cargoName, data.weight, data.quantity,
                         data.pickup, data.delivery, {})
    ensures db.packages == old(db.packages)[code := p]
    ensures db.userEmails == old(db.userEmails) && db.pricePackages == old(db.pricePackages)
    ensures db.orders == old(db.orders) && db.transactions == old(db.transactions)
  {
    p := Package(code, user, data.cargoName, data.weight, data.quantity, data.pickup, data.delivery, {});
    db.packages := db.packages[code := p];
  }

  /**
    `PackageCreate.create`. `data` is the serializer's validated data (`None` when validation
    fails), `findLogistic` stands for `PricePackage.objects.find_logistic`, and `code` is the
    tracking code the new row receives.
  */
  method PackageCreate(db: Db, user: UserId, data: Option<PackageData>,
                       findLogistic: (string, string) -> set<string>, code: string)
    returns (r: CreateResponse)
    requires db.Valid() && user in db.userEmails && code !in db.packages
    requires data.Some? ==> findLogistic(data.value.pickup, data.value.delivery) <= db.pricePackages.Keys
    modifies db
    ensures db.Valid()
    ensures data.None? ==> r == InvalidPackage && unchanged(db)
    ensures data.Some? && findLogistic(data.value.pickup, data.value.delivery) == {} ==>
              r == NoMatchingRoute && r.Status() == 434 && unchanged(db)
    ensures data.Some? && findLogistic(data.value.pickup, data.value.delivery) != {} ==>
              var d := data.value;
              && r.Created? && r.Status() == 201
              && r.package == Package(code, user, d.cargoName, d.weight, d.quantity, d.pickup,
                                      d.delivery, findLogistic(d.pickup, d.delivery))
              && db.packages == old(db.packages)[code := r.package]
              && db.userEmails == old(db.userEmails) && db.pricePackages == old(db.pricePackages)
              && db.orders == old(db.orders) && db.transactions == old(db.transactions)
  {
    if data.None? {
      return InvalidPackage;
    }
    var d := data.value;
    var matches := findLogistic(d.pickup, d.delivery);
    if |matches| > 0 {
      var package := PerformCreate(db, user, d, code);
      // package.price_packages.set(price_packages)
      package := package.(pricePackages := matches);
      db.packages := db.packages[code := package];
      r := Created(package);
    } else {
      r := NoMatchingRoute;
    }
  }

  // ---------------------------------------------------------------------------
  // SelectLogisticsPackage
  // ---------------------------------------------------------------------------

  /**
    The view's outcomes; `LookupFailed` is the `DoesNotExist` the view does not catch,
    which the framework turns into a server error.
  */
  datatype SelectResponse = Selected(package: Package, order: Order) | LookupFailed | TransactionExists {
    function Status(): int {
      match this
      case Selected(_, _) => 200
      case LookupFailed => 500
      case TransactionExists => 435
    }
  }

  /**
    `get_price_package_and_package`: the package with tracking code `packageCode`, and the
    route plan `priceCode` among that package's own candidates (any owner's package is found).
  */
  function GetPricePackageAndPackage(db: Db, packageCode: string, priceCode: string)
    : (r: Option<(Package, PricePackage)>)
    reads db
    requires db.Valid()
    ensures r.Some? <==> packageCode in db.packages && priceCode in db.packages[packageCode].pricePackages
    ensures r.Some? ==> r.value.0 == db.packages[packageCode] && r.value.1 == db.pricePackages[priceCode]
    ensures r.Some? ==> r.value.1.trackingCode == priceCode && priceCode in r.value.0.pricePackages
  {
    if packageCode in db.packages && priceCode in db.packages[packageCode].pricePackages then
      Some((db.packages[packageCode], db.pricePackages[priceCode]))
    else
      None
  }

  /** The orders table once the package's previous order (if any) is deleted. */
  function WithoutOrder(orders: map<string, Order>, old_order: Option<string>): map<string, Order> {
    if old_order.Some? then orders - {old_order.value} else orders
  }

  /**
    `SelectLogisticsPackage.post`: the shipper picks route plan `priceCode` for package
    `packageCode`; `newCode` is the tracking code the new order receives.
  */
  method SelectLogisticsPackage(db: Db, packageCode: string, priceCode: string, newCode: string)
    returns (r: SelectResponse)
    requires db.Valid() && newCode !in db.orders
    modifies db
    ensures db.Valid()
    ensures old(GetPricePackageAndPackage(db, packageCode, priceCode)).None? ==>
              r == LookupFailed && unchanged(db)
    ensures old(GetPricePackageAndPackage(db, packageCode, priceCode)).Some?
            && old(db.OrderOf(packageCode)).Some?
            && old(db.HasTransaction(db.OrderOf(packageCode).value)) ==>
              r == TransactionExists && r.Status() == 435 && unchanged(db)
    ensures r.Selected? <==>
              old(GetPricePackageAndPackage(db, packageCode, priceCode)).Some?
              && !(old(db.OrderOf(packageCode)).Some? && old(db.HasTransaction(db.OrderOf(packageCode).value)))
    ensures r.Selected? ==>
              var found := old(GetPricePackageAndPackage(db, packageCode, priceCode)).value;
              && r.package == found.0
              && r.order == Order(newCode, packageCode,
                                  found.1.price * 2 * found.0.weight * found.0.quantity, priceCode)
              && db.orders == WithoutOrder(old(db.orders), old(db.OrderOf(packageCode)))[newCode := r.order]
              && (forall c :: c in db.orders && db.orders[c].package == packageCode <==> c == newCode)
              && db.userEmails == old(db.userEmails) && db.packages == old(db.packages)
              && db.pricePackages == old(db.pricePackages) && db.transactions == old(db.transactions)
  {
    var found := GetPricePackageAndPackage(db, packageCode, priceCode);
    if found.None? {
      return LookupFailed;
    }
    var package, pricePackage := found.value.0, found.value.1;
    var calcPrice := pricePackage.price * 2 * package.weight * package.quantity;

    var existing := db.OrderOf(packageCode);
    if existing.Some? {
      if db.HasTransaction(existing.value) {
        return TransactionExists;
      }
      // order.delete()
      db.orders := db.orders - {existing.value};
    }

    var order := Order(newCode, packageCode, calcPrice, priceCode);
    db.orders := db.orders[newCode := order];
    r := Selected(package, order);
  }

  // ---------------------------------------------------------------------------
  // Package listings
  // ---------------------------------------------------------------------------

  /** `order_by('cargo_name')`. */
  predicate CargoNameOrder(a: Package, b: Package) {
    StrLeq(a.cargoName, b.cargoName)
  }

  lemma CargoNameOrderIsTotalPreorder()
    ensures TotalPreorder(CargoNameOrder)
  {
    forall a: Package, b: Package ensures CargoNameOrder(a, b) || CargoNameOrder(b, a) {
      StrLeqTotal(a.cargoName, b.cargoName);
    }
    forall a: Package, b: Package, c: Package | CargoNameOrder(a, b) && CargoNameOrder(b, c)
      ensures CargoNameOrder(a, c)
    {
      StrLeqTransitive(a.cargoName, b.cargoName, c.cargoName);
    }
  }

  /** `UserPackageList.get_queryset`: the user's packages ordered by cargo name. */
  function UserPackageList(rows: seq<Package>, user: UserId): (r: seq<Package>)
    ensures forall p :: multiset(r)[p] == if p.user == user then multiset(rows)[p] else 0
    ensures forall p :: p in r <==> p in rows && p.user == user
    ensures SortedBy(r, CargoNameOrder)
  {
    CargoNameOrderIsTotalPreorder();
    var mine := Filter(rows, (p: Package) => p.user == user);
    var r := SortBy(mine, CargoNameOrder);
    assert forall p :: p in r <==> p in multiset(mine);
    r
  }

  /**
    Why a listing request was refused. `QueryParseError` is raised as an exception whose
    status and text are defined in utils/base/exceptions.py, which is not part of this model,
    so both are unknown here.
  */
  datatype QueryError = QueryParseError | MissingSearchParameter {
    function Status(): Option<int> {
      match this
      case QueryParseError => None
      case MissingSearchParameter => Some(400)
    }

    /** The `error` text of the response body. */
    function Message(): Option<string> {
      match this
      case QueryParseError => None
      case MissingSearchParameter => Some("Please provide a search parameter")
    }
  }

  /**
    `SearchPackageByTrackingCode.get_queryset`: fails on a missing or empty `tracking_code`;
    otherwise the user's packages whose tracking code contains it, ignoring case, by cargo name.
  */
  function SearchPackageByTrackingCode(rows: seq<Package>, user: UserId, trackingCode: Option<string>)
    : (r: Result<seq<Package>, QueryError>)
    ensures r.Err? <==> trackingCode.None? || trackingCode.value == ""
    ensures r.Err? ==> r.error == QueryParseError
    ensures r.Ok? ==>
              && (forall p :: multiset(r.value)[p] ==
                    if p.user == user && IContains(p.trackingCode, trackingCode.value) then multiset(rows)[p] else 0)
              && (forall p :: p in r.value <==>
                    p in rows && p.user == user && IContains(p.trackingCode, trackingCode.value))
              && SortedBy(r.value, CargoNameOrder)
  {
    if trackingCode.None? || trackingCode.value == "" then
      Err(QueryParseError)
    else
      CargoNameOrderIsTotalPreorder();
      var mine := Filter(rows, (p: Package) => p.user == user);
      var hits := Filter(mine, (p: Package) => IContains(p.trackingCode, trackingCode.value));
      var r := SortBy(hits, CargoNameOrder);
      assert forall p :: p in r <==> p in multiset(hits);
      Ok(r)
  }

  // ---------------------------------------------------------------------------
  // DriverViewSet
  // ---------------------------------------------------------------------------

  /** `order_by('-id')`. */
  predicate NewestFirst(a: Driver, b: Driver) {
    a.id >= b.id
  }

  lemma NewestFirstIsTotalPreorder()
    ensures TotalPreorder(NewestFirst)
  {
  }

  /** `DriverViewSet.get_queryset`: the drivers of the caller's logistics partner, newest first. */
  function DriverQueryset(rows: seq<Driver>, logistic: nat): (r: seq<Driver>)
    ensures forall d :: multiset(r)[d] == if d.logistic == logistic then multiset(rows)[d] else 0
    ensures forall d :: d in r <==> d in rows && d.logistic == logistic
    ensures SortedBy(r, NewestFirst)
  {
    NewestFirstIsTotalPreorder();
    var theirs := Filter(rows, (d: Driver) => d.logistic == logistic);
    var r := SortBy(theirs, NewestFirst);
    assert forall d :: d in r <==> d in multiset(theirs);
    r
  }

  /** `(qs.filter(phone) | qs.filter(email)).distinct()` over the partner's queryset `q`. */
  function MatchingDrivers(q: seq<Driver>, term: string): (r: seq<Driver>)
    ensures forall d :: d in r <==> d in q && (IContains(d.phone, term) || IContains(d.email, term))
    ensures Distinct(r)
  {
    var byPhone := Filter(q, (d: Driver) => IContains(d.phone, term));
    var byEmail := Filter(q, (d: Driver) => IContains(d.email, term));
    Dedup(byPhone + byEmail)
  }

  /**
    `DriverViewSet.search`: refused without a `search` parameter; otherwise the union of the
    partner's drivers whose phone, and those whose email, contains the term ignoring case,
    each driver once, newest first.
  */
  function SearchDrivers(rows: seq<Driver>, logistic: nat, search: Option<string>)
    : (r: Result<seq<Driver>, QueryError>)
    ensures r.Err? <==> search.None?
    ensures r.Err? ==> r.error == MissingSearchParameter
    ensures r.Err? ==> r.error.Status() == Some(400) && r.error.Message() == Some("Please provide a search parameter")
    ensures r.Ok? ==>
              && (forall d :: d in r.value <==>
                    d in rows && d.logistic == logistic
                    && (IContains(d.phone, search.value) || IContains(d.email, search.value)))
              && Distinct(r.value)
              && SortedBy(r.value, NewestFirst)
  {
    if search.None? then
      Err(MissingSearchParameter)
    else
      NewestFirstIsTotalPreorder();
      var union := MatchingDrivers(DriverQueryset(rows, logistic), search.value);
      var r := SortBy(union, NewestFirst);
      assert forall d :: d in r <==> d in multiset(union);
      Ok(r)
  }

  /** `DriverViewSet.verified`: the partner's drivers that are both verified and active, newest first. */
  function VerifiedDrivers(rows: seq<Driver>, logistic: nat): (r: seq<Driver>)
    ensures forall d :: multiset(r)[d] ==
              if d.logistic == logistic && d.verified && d.active then multiset(rows)[d] else 0
    ensures forall d :: d in r <==> d in rows && d.logistic == logistic && d.verified && d.active
    ensures SortedBy(r, NewestFirst)
  {
    var all := DriverQueryset(rows, logistic);
    var verified := Filter(all, (d: Driver) => d.verified);
    FilterKeepsSorted(all, (d: Driver) => d.verified, NewestFirst);
    FilterKeepsSorted(verified, (d: Driver) => d.active, NewestFirst);
    Filter(verified, (d: Driver) => d.active)
  }
}
