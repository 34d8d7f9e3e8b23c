# tripapi order, payment and account core in Dafny

This project models the decision logic of the tripapi logistics backend (a Django REST API).
It models the backend as operations on an in-memory store and proves what each operation
does to that store. The store is a set of tables: packages, price packages (route plans),
orders and transactions, keyed by tracking code or reference, plus the users' emails.
The account tables are users and profiles, keyed by user id.

Modules, one per file:

- `Common` (`common.dfy`): `Option` and `Result`.
- `Text` (`text.dfy`): the Python string built-ins the core uses, with their characterizing
  properties. These are `split('@')[0]`, `split()`, `strip()`, `str(n)` for a natural
  number, and the ORM's case-insensitive `icontains`. `AfterLast`, the text after the last
  occurrence of a character, is not used by the code; it serves to state that `fullname`
  and `get_user_name_with_id` can be split back into their parts.
- `Listing` (`listing.dfy`): the queryset operations the listings use. They are `filter`
  (`Filter`), `.distinct()` (`Dedup`) and `order_by` (`SortBy`, a stable insertion sort).
  Each is proved to keep exactly the selected rows, and the sort to return a sorted
  permutation.
- `Store` (`store.dfy`): the entities, and `class Db` with the tables and their integrity
  invariant `Valid()`.
- `CargoViews` (`cargo_views.dfy`): package creation with route matching, route selection
  and the package and driver listings.
- `PaymentViews` (`payment_views.dfy`): opening a transaction, the gateway callback and the
  partner's payment listings.
- `PaymentSerializers` (`payment_serializers.dfy`): the input rules of `CreateTxSerializer`
  and `PaymentSerializer.to_representation`.
- `Account` (`account.dfy`): the user and profile rows, their string helpers, and
  `class UserManager`. `UserManager` holds the `users` and `profiles` tables and the
  factory methods `create_base_user`, `create_user`, `create_staff` and `create_superuser`,
  and models `User.save`.

Users appear twice, with no link between the two. `Store.Db.userEmails` is the only part of
the user table the cargo and payment views read: the email of a package's owner. The
account tables of `Account.UserManager` stand on their own.

The listings work on a sequence of rows, the table in storage order, separate from `Store.Db`'s maps.
No lemma links the two, so the model does not state, for example, that a package stored by
`PackageCreate` appears in `UserPackageList`. Drivers have no table in `Db`; they are only
such a sequence.

The handlers that write are methods with `modifies`. Each states the whole new state of
the tables it touches and keeps the table invariant. The listings are functions over the
table's rows in storage order, since row order matters to them.

Collaborators whose code is not part of this model are parameters of the operations:

- `find_logistic`;
- the payment gateway's `create_init_transaction` and `verify_transaction`;
- `get_tx_tracking_code`;
- `normalize_email`;
- `get_name_from_email`.

Fresh values are parameters too: the new tracking codes, `uuid4().hex`, `timezone.now()`
and the callback URL built from the current site.

Behaviours of the code the model follows on purpose:

- The callback settles a transaction whatever its current status. A replayed callback
  settles it again, so a paid transaction can become `failed` (`SettledReplay`).
  A negative verdict leaves `paidAt` as it was; it does not clear it.
- `SelectLogisticsPackage` looks the package up among all packages, whoever owns them.
  A missing package, or a route plan that is not one of the package's candidates, raises a
  `DoesNotExist` that the view does not catch, so the framework answers with a server error
  (modelled as `LookupFailed`, 500). It is not a 404.
- `CreateTransaction.post` never validates its input with `CreateTxSerializer`. The
  `callback` it stores may be absent. A transaction without one makes the callback answer
  with a 400 carrying the parameters instead of a redirect.
- A username collision when the profile of a new user is created is handled: `User.save`
  deletes the user again and re-raises.
- `User.save` treats a user as new when `not self.id` holds. That includes an id of 0, so
  saving user 0 tries to create a profile again, and when that fails the user is deleted.

## Model

| member | source | states |
|---|---|---|
| CargoViews.PerformCreate | tripapi/cargo/api/base/views.py:232-234 | the package is stored as the requesting user's, with the validated fields and no route plans; no other table changes |
| CargoViews.PackageCreate | tripapi/cargo/api/base/views.py:210-230 | invalid data gives 400 and changes nothing; no matching route plan gives 434 and stores nothing; otherwise 201, and the package is stored linked to exactly the set of matching route plans |
| CargoViews.GetPricePackageAndPackage | tripapi/cargo/api/base/views.py:280-287 | a result exists iff the package exists and the route plan is one of that package's candidates; the result is those two rows |
| CargoViews.SelectLogisticsPackage | tripapi/cargo/api/base/views.py:295-321 | failed lookup: 500 and nothing changes. A package whose order already has a transaction: 435 and nothing changes. Otherwise the previous order (if any) is deleted and a new one is stored with price = base price × 2 × weight × quantity. Afterwards exactly one order refers to the package, and no other table changes |
| Store.Db.HasTransaction | tripapi/cargo/api/base/views.py:305 | `order.transaction is not None`, read as: some stored transaction belongs to the order; this picks the 435 branch |
| Store.Db.OrderOf | tripapi/cargo/api/base/views.py:302 | `package.order`: the order referring to the package, or none when no order refers to it |
| CargoViews.CargoNameOrderIsTotalPreorder | tripapi/cargo/api/base/views.py:27 | ordering by cargo name is total and transitive |
| CargoViews.UserPackageList | tripapi/cargo/api/base/views.py:24-27 | exactly the user's packages, each as often as stored, sorted by cargo name |
| CargoViews.SearchPackageByTrackingCode | tripapi/cargo/api/base/views.py:37-47 | refused (`QueryParseError`) iff the tracking code is missing or empty; otherwise exactly the user's packages whose tracking code contains it ignoring case, each as often as stored, sorted by cargo name |
| CargoViews.NewestFirstIsTotalPreorder | tripapi/cargo/api/base/views.py:367 | ordering by descending id is total and transitive |
| CargoViews.DriverQueryset | tripapi/cargo/api/base/views.py:364-367 | exactly the partner's drivers, each as often as stored, newest first |
| CargoViews.MatchingDrivers | tripapi/cargo/api/base/views.py:380-384 | a driver is in the union iff its phone or its email contains the term ignoring case; each driver at most once |
| CargoViews.SearchDrivers | tripapi/cargo/api/base/views.py:373-385 | refused with 400 and "Please provide a search parameter" iff `search` is absent; otherwise exactly the partner's drivers whose phone or email contains the term, without duplicates, newest first |
| CargoViews.VerifiedDrivers | tripapi/cargo/api/base/views.py:388-392 | exactly the partner's drivers that are verified and active, each as often as stored, newest first |
| PaymentViews.GetOrder | tripapi/payment/api/base/views.py:45-60 | an order is found iff it exists and the user owns its package; it is that order |
| PaymentViews.CreateTransaction | tripapi/payment/api/base/views.py:65-100 | no such order of the user: 404 and nothing changes. The gateway gives no link: 400 with "Unable to complete payment, try again." and nothing changes. Otherwise exactly one pending transaction is added: the order's price, the fresh reference, the request's callback as redirect URL, the order |
| PaymentViews.CallbackParams | tripapi/payment/api/base/views.py:118-128 | the callback's `params`: exactly the keys `message`, `status` and `tracking_code`, with status "error" and the given message and tracking code |
| PaymentViews.RedirectResponse | tripapi/payment/api/base/views.py:110-115 | a 400 carrying the parameters iff the stored redirect URL is absent or empty; otherwise a redirect to that URL with the parameters |
| PaymentViews.Settled | tripapi/payment/api/base/views.py:141-146 | a positive verdict sets `success` and stamps `paidAt`; a negative one sets `failed` and keeps `paidAt`; no other field changes |
| PaymentViews.SettledReplay | tripapi/payment/api/base/views.py:141-146 | settling twice equals settling once with the later verdict, except that a paid transaction turned `failed` keeps its first `paidAt` |
| PaymentViews.CallbackTransaction | tripapi/payment/api/base/views.py:117-151 | unknown reference: 404 and nothing changes. No verdict: "Unable to verify transaction" and nothing changes. Definite verdict: only that transaction changes, to its settled state. The success hook runs iff the verdict is positive. The parameters always carry status "error" and the tracking code |
| PaymentViews.PaymentQueryset | tripapi/payment/api/base/views.py:176-178 | exactly the transactions paid into the partner's bank account, each as often as stored |
| PaymentViews.GetTransactionFilter | tripapi/payment/api/base/views.py:180-183 | exactly the partner's transactions with the given status, each as often as stored |
| PaymentViews.PendingPayments | tripapi/payment/api/base/views.py:185-189 | exactly the partner's pending transactions, each as often as stored |
| PaymentViews.SuccessfulPayments | tripapi/payment/api/base/views.py:191-195 | exactly the partner's successful transactions, each as often as stored |
| PaymentViews.FailedPayments | tripapi/payment/api/base/views.py:197-201 | exactly the partner's failed transactions, each as often as stored |
| PaymentSerializers.CharField | tripapi/payment/api/base/serializers.py:7-9 | a present value is refused iff it is all whitespace ("This field may not be blank.") or its stripped value holds a NUL ("Null characters are not allowed."); otherwise it is the stripped, non-empty value |
| PaymentSerializers.ValidateCreateTx | tripapi/payment/api/base/serializers.py:6-9 | valid iff `callback` is present and acceptable to a `CharField`, and `signature`, when present, is acceptable too. A field is in the errors iff it was refused; a missing `callback` is reported as "This field is required.", a refused value with its `CharField` message. The valid result holds the stripped values, and `signature` only when it was sent |
| PaymentSerializers.OptionalCharField | tripapi/payment/api/base/serializers.py:7 | an absent optional field is valid and absent; a present one is valid iff `CharField` accepts it, with its value or its message |
| PaymentSerializers.FieldErrors | tripapi/payment/api/base/serializers.py:6-9 | the errors hold exactly the refused fields, each with its own message |
| PaymentSerializers.SplitStr | tripapi/payment/api/base/serializers.py:56 | `str()` of a date and time splits into exactly that date and that time |
| PaymentSerializers.WithDateTime | tripapi/payment/api/base/serializers.py:50-60 | `bank_account` and `id` are never in the representation and every other field is kept. `date`/`time` are `None` without a stamp, or else the two parts of its split; unpacking fails iff the split does not give two parts |
| PaymentSerializers.ToRepresentation | tripapi/payment/api/base/serializers.py:50-60 | as written: an unpaid transaction gets `None` date and time; a paid one gets the date and time of its creation |
| PaymentSerializers.PaymentListedAtCreationDay | tripapi/payment/api/base/serializers.py:38-41 | for a transaction created on 2024-01-01 and paid on 2024-01-02, the representation as written lists date 2024-01-01 and the corrected one 2024-01-02 |
| PaymentSerializers.ToRepresentationAtPayment | tripapi/payment/api/base/serializers.py:38-41 | corrected: a paid transaction gets the date and time of its payment |
| Account.Profile.FullName | tripapi/account/models.py:163-165 | the first name, then one space, then the last name |
| Account.Profile.UserNameWithId | tripapi/account/models.py:174-176 | the joined first and last names, then `-`, then a numeral of digits only that reads back as the user's id |
| Account.User.EmailName | tripapi/account/models.py:82-85 | the longest prefix of the email without `@`: it is followed by `@` or is the whole email |
| Account.EmailNameOfAddress | tripapi/account/models.py:84-85 | for `local@domain` with no `@` in `local`, the email name is `local` |
| Account.FullNameParts | tripapi/account/models.py:163-165 | the full name splits back at the space into first and last name |
| Account.UserNameWithIdParts | tripapi/account/models.py:174-176 | the text after the last `-` is all digits and parses back to the user's id; before the first `-` are the joined names when they hold no `-` |
| Account.NewProfile | tripapi/account/models.py:121-123 | the new profile has the user and the derived username, and blank name and phone |
| Account.UserManager.WriteRow | tripapi/account/models.py:116 | the row is inserted under a fresh id, or written under its own one; an email another user has makes it fail with nothing written |
| Account.UserManager.Save | tripapi/account/models.py:114-128 | a profile is created only when the user is new (`not self.id`). When profile creation fails, the user and any profile of it are deleted and the error is returned. Emails and usernames stay unique |
| Account.UserManager.CreateProfile | tripapi/account/models.py:119-126 | `Profile.objects.create` succeeds iff the user has no profile and the username is free; it then adds exactly that profile, and otherwise the user and its profile are deleted; `nextId` is kept |
| Account.UserManager.SetPassword | tripapi/account/models.py:37-38 | saving a stored user with its password set changes only that row and creates no profile |
| Account.UserManager.BaseUser | tripapi/account/models.py:20-26 | the unsaved user has the normalized email, an unusable password, and `is_active`/`is_staff`/`is_admin` equal to the arguments |
| Account.UserManager.CreateBaseUser | tripapi/account/models.py:13-28 | a missing or empty email fails before anything is stored. Otherwise the user is saved with the given flags and an unusable password, or the save's error is returned |
| Account.UserManager.CreateUser | tripapi/account/models.py:30-39 | a missing or empty password fails only after the base user and its profile were stored. Otherwise the stored user has the password set and the given flags |
| Account.UserManager.CreateStaff | tripapi/account/models.py:41-43 | `create_user`'s outcomes and whole new state with the user active and staff, and not admin |
| Account.UserManager.CreateSuperuser | tripapi/account/models.py:45-48 | `create_user`'s outcomes and whole new state with the user active, staff and admin |

## Findings

| source | as written | input that shows it | evidently intended | confidence | as-written member | corrected member |
|---|---|---|---|---|---|---|
| tripapi/payment/api/base/serializers.py:56 | `date` and `time`, described as when the payment was completed, are split from `str(instance.created)` | a transaction created 2024-01-01 10:00:00 and paid 2024-01-02 09:00:00 is listed with date 2024-01-01 | split `str(instance.paidAt)` | low to medium: holds only if `Transaction.created` is not `auto_now` (its definition is not part of this model; with `auto_now` the callback's `save()` re-stamps it at payment time); not executed | PaymentSerializers.ToRepresentation, PaymentSerializers.PaymentListedAtCreationDay | PaymentSerializers.ToRepresentationAtPayment |

## Left out

- The collaborators listed above are parameters: `find_logistic`, `create_init_transaction`, `verify_transaction`, `get_tx_tracking_code`, `normalize_email`, `get_name_from_email`. `update_success` is reported by the callback's `successHook` result; its effects are not modelled. Their code is not part of this model.
- The models of `cargo/models.py` and `payment/models.py` are not part of this model, and three readings of them are assumptions. (1) `order.transaction is not None` is read as "some stored transaction refers to the order"; if `Transaction.order` were a one-to-one field, the reverse lookup would raise for an order without a transaction, the view would answer 500 there, and an order could hold only one transaction. (2) The callback's `save()` leaves `created` as it was; if `Transaction.created` is `auto_now`, that save re-stamps it. (3) A new transaction's `bank_account` is `None`, since the view does not set it; a default or a save hook that fills it in is not modelled.
- PaymentSerializers.CharField: the refusal of surrogate characters cannot arise, since a Dafny `char` is a Unicode scalar value; non-string inputs do not arise, since the request data is a map of strings.
- The listings' rows are not derived from `Store.Db`: drivers are not stored there, and the row sequences are not tied to the packages and transactions tables.
- `QueryParseError` is defined in utils/base/exceptions.py, which is not part of this model. Its status and response text are left unknown (`None`).
- `CargoViews.PackageCreate`: `Created` carries the stored package, linked to all its route plans. The 201 body is not modelled. DRF renders `serializer.data` inside `get_success_headers` before the route plans are set, so the body may list none of them, if `PackageSerializer` lists route plans at all. That serializer is not part of this model, so this is unconfirmed.
- `url_with_params`: the redirect is modelled as the URL and the parameter map, not the URL string it builds.
- HTTP, authentication and the permission classes: the requesting user, the caller's logistics partner and bank account are parameters.
- Pagination and `filter_queryset` filter backends (`get_with_queryset`): the listings return the whole filtered queryset.
- `PackageSerializer` validation and all response serialization (`serializer.data`, `get_success_headers`): validation is an input `Option<PackageData>`. `PaymentSerializer`'s base representation is its `fields` input.
- Database collation: `order_by` on text uses code-point order. `icontains`, `strip()` and `split()` use ASCII case folding and ASCII whitespace.
- Amounts and prices are integers, not `Decimal`; the float rendering of `amount` is not modelled.
- Concurrency: the read-then-write race between two route selections for the same package is outside a sequential model.
- Database errors other than the unique constraints on email and username. Examples: `max_length` on a database that enforces it, and the refresh after a concurrent delete.
- Account.UserManager.Save: an explicit id at or above the next auto-increment value moves that value past it. A database sequence would not move, and a later insert would collide.
- Account.UserManager.SetPassword: requires a stored user with a non-zero id, which is what `create_user` passes it; other callers of `set_password` are not modelled.
- The link between the two user tables: `Store.Db.userEmails` and `Account.UserManager.users` are separate tables, so no lemma relates a package owner's email to an account row.
- The Django user object is modelled as a value, so aliasing between the caller's instance and the stored row is not modelled.
- Password hashing: `set_password` stores the raw password under `Hashed`, since the hasher is Django's.
- `get_fullname` (`title()`), `__str__`, `email_user`, `has_perm`, the `username`/`first_name`/`last_name` properties and `get_staffs`/`get_admins` are not part of this model.
- The other views of the two view modules: the CRUD views, `GetPricePackages`, order lists, bank account, saved authorizations and `assign_order`. They are not part of this model.
- `is_active`, `is_staff` and `is_admin` are the predicates `IsActive`, `IsStaff` and `IsAdmin` on `User`. They are stated through the contracts of `BaseUser` and the factory methods rather than on their own.
