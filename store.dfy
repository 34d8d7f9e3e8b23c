/**
  The rows of the cargo and payment tables and the in-memory store the views read and write.
  Tables that the modelled views change are maps keyed by the row's tracking code
  (orders, packages, price packages) or reference (transactions).
*/
module Store {
  import opened Common
  import opened Text

  type UserId = nat

  /** A date and time as `str()` renders it: `"YYYY-MM-DD"`, one space, `"HH:MM:SS..."`. */
  datatype Timestamp = Timestamp(date: string, time: string) {
    /** Python's `str(datetime)`. */
    function Str(): string {
      date + " " + time
    }

    /** Both halves are non-empty and hold no whitespace, as `isoformat` produces them. */
    predicate WellFormed() {
      date != [] && time != [] && NoSpace(date) && NoSpace(time)
    }
  }

  /** The validated fields of a package-creation request. */
  datatype PackageData = PackageData(
    cargoName: string, weight: int, quantity: int, pickup: string, delivery: string)

  /** A shipment request; `pricePackages` are the tracking codes of its candidate route plans. */
  datatype Package = Package(
    trackingCode: string, user: UserId, cargoName: string, weight: int, quantity: int,
    pickup: string, delivery: string, pricePackages: set<string>)

  /** A logistics partner's route plan and its base price. */
  datatype PricePackage = PricePackage(trackingCode: string, logistic: nat, price: int)

  /** The binding of a package to the price package the shipper selected. */
  datatype Order = Order(trackingCode: string, package: string, price: int, logisticPackage: string)

  datatype TxStatus = Pending | Success | Failed

  /** A payment attempt for an order; `redirectUrl` is `None` when no callback was sent. */
  datatype Transaction = Transaction(
    reference: string, amount: int, status: TxStatus, paidAt: Option<Timestamp>,
    redirectUrl: Option<string>, order: string, bankAccount: Option<nat>, created: Timestamp)

  /** A delivery driver of a logistics partner, with its user's email and profile phone. */
  datatype Driver = Driver(
    id: nat, trackingCode: string, logistic: nat, email: string, phone: string,
    verified: bool, active: bool)

  class Db {
    var userEmails: map<UserId, string>
    var packages: map<string, Package>
    var pricePackages: map<string, PricePackage>
    var orders: map<string, Order>
    var transactions: map<string, Transaction>

    /**
      The store's integrity: rows sit under their own key, references point at stored rows,
      an order's route plan is one of its package's candidates, and a package has at most one order.
    */
    ghost predicate Valid()
      reads this
    {
      && (forall c :: c in packages ==>
            packages[c].trackingCode == c && packages[c].user in userEmails
            && packages[c].pricePackages <= pricePackages.Keys)
      && (forall c :: c in pricePackages ==> pricePackages[c].trackingCode == c)
      && (forall c :: c in orders ==>
            orders[c].trackingCode == c && orders[c].package in packages
            && orders[c].logisticPackage in packages[orders[c].package].pricePackages)
      && (forall c, d :: c in orders && d in orders && orders[c].package == orders[d].package ==> c == d)
      && (forall r :: r in transactions ==>
            transactions[r].reference == r && transactions[r].order in orders)
    }

    constructor ()
      ensures Valid()
      ensures userEmails == map[] && packages == map[] && pricePackages == map[]
      ensures orders == map[] && transactions == map[]
    {
      userEmails, packages, pricePackages, orders, transactions := map[], map[], map[], map[], map[];
    }

    /** Some stored transaction belongs to order `code` (`order.transaction is not None`). */
    predicate HasTransaction(code: string): (r: bool)
      reads this
      ensures r <==> exists t :: t in transactions.Values && t.order == code
    {
      exists r | r in transactions :: transactions[r].order == code
    }

    /** The tracking code of the order of package `code`, if it has one (`package.order`). */
    function OrderOf(code: string): (r: Option<string>)
      reads this
      requires Valid()
      ensures r.Some? ==> r.value in orders && orders[r.value].package == code
      ensures r.None? ==> forall c :: c in orders ==> orders[c].package != code
    {
      if exists c | c in orders :: orders[c].package == code then
        var c :| c in orders && orders[c].package == code;
        Some(c)
      else
        None
    }
  }
}
