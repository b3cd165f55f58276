# Loan management server core, modelled in Dafny

This project models the data layer and business rules of a small loan-management
service, plus its startup configuration check and the web client's cursor-history
hook:

- `datastore.dfy` (module `Datastore`): the generic in-memory store. It is an ordered list
  of items with integer ids. `add` refuses a duplicate id and otherwise appends.
  `get_by_id` is a linear scan. `get_all` filters in insertion order, resumes just after
  the item whose id is the cursor (or at the start when there is none), and cuts a slice
  of `limit` items (10 by default). The class `InMemoryDataStore` holds the list as a
  `seq` field. Its methods are proved against the pure functions `FindById` and `Page`.
  The lemmas cover the page shape, the cursor rules, and a full page-by-page walk.
- `services.dfy` (module `Services`): `LoanService` over a loan store and a payment
  store. It covers equality-based loan filtering, payment listing with a derived status,
  the four-way status classification by days late, request validation with its fixed
  error order and the overpayment guard, and payment creation from an id counter that
  starts at 4.
- `models.dfy` (module `Models`): the `Loan`, `LoanFilter`, `LoanPaymentInput` and
  `LoanPayment` records, and `LoanPayment.to_dict` with an inverse used to prove the
  round trip.
- `conf.py` becomes `conf.dfy` (module `Conf`): `get_config` as a pure decision over the
  two environment values, passed in as arguments.
- `pagination.dfy` (module `PaginationHook`): the `usePagination` hook as a class with
  the two state cells and the three operations, specified by pure transition functions.
- `common.dfy` (module `Common`): `Option`, `Result` and integer-to-decimal rendering
  for error messages.

Dates are day numbers. Money and interest rates are exact `real`s.

Where the system's documented design and its code differ, the model follows
the code:
- Loan filtering is equality on each field the filter sets. It is not a
  case-insensitive substring match on the name or an upper bound on the other fields.
- `get_loan_payments` returns an empty list for a loan without payments. There is no
  placeholder row with id -1.
- `get_all` returns only the page, not pagination metadata.
- Loan existence and the overpayment guard are checked in
  `validate_and_format_loan_payment_request`. `add_loan_payment` checks nothing itself.
- A duplicate id is a `ValueError` like the validation failures.

Two facts about the client hook came out of the proofs:
- Going to the next page and straight back restores the state only when the old
  cursor was set or the history was empty (`PaginationHook.NextThenPrevious`).
- `resetPagination` can shrink the history by more than one entry. Only next and
  previous move it by at most one.

## Model

| member | source | states |
|---|---|---|
| `Common.NatToStringValue` | server/services.py:88 | Reading back the decimal digits written for an id gives the id itself, as Python's `str` of an int does |
| `Common.IntToStringInjective` | server/services.py:88 | Different integers are written differently, so a message names exactly one id |
| `Models.DefaultFilter` | server/models.py:17-23 | A default `LoanFilter` has all four fields None |
| `Models.NewPayment` | server/models.py:32-39 | A payment built without a status has status None and the given id, loan id, date and amount |
| `Models.ToDict` | server/models.py:41-48 | `to_dict` has exactly the keys id, loan_id, payment_date, amount, status; date and status are null exactly when the fields are absent |
| `Models.ToDictFields` | server/models.py:42-48 | Each dictionary entry equals the matching field of the payment |
| `Models.ToDictRoundTrip` | server/models.py:34-48 | Rebuilding a payment from its `to_dict` output gives the same payment |
| `Models.NewPaymentSerialisesNullStatus` | server/models.py:39-47 | A freshly created payment serialises with a null status |
| `Datastore.Filter` | server/datastore.py:55 | `filter` never returns more items than it was given |
| `Datastore.FilterSound` | server/datastore.py:55 | Every item `filter` keeps is a stored item that passes the filter |
| `Datastore.FilterComplete` | server/datastore.py:55 | Every stored item that passes the filter is kept |
| `Datastore.FilterKeepsUniqueIds` | server/datastore.py:55 | Filtering a list whose ids are unique gives a list whose ids are unique |
| `Datastore.FilteredKeepsUniqueIds` | server/datastore.py:53-55 | The view `get_all` pages through has unique ids whenever the store does, with or without a filter |
| `Datastore.IndexOfId` | server/datastore.py:59-62 | The cursor search finds the first position carrying the id, or reports that no position does |
| `Datastore.FirstMatchIsIndexOfId` | server/datastore.py:59-62 | A position carrying the id with no earlier position carrying it is what the cursor search finds |
| `Datastore.FindById` | server/datastore.py:66-70 | Lookup gives the first item with the id, or None exactly when no item has it |
| `Datastore.DuplicateIdMessageText` | server/datastore.py:48 | The duplicate-id error reads "Item with id 7 already exists." for id 7, and with a minus sign for a negative id |
| `Datastore.DuplicateIdMessageNamesId` | server/datastore.py:48 | Two duplicate-id messages are equal exactly when their ids are |
| `Datastore.InMemoryDataStore.constructor` | server/datastore.py:42-43 | The store starts with the given list, unchecked |
| `Datastore.InMemoryDataStore.Add` | server/datastore.py:45-50 | A present id gives `DuplicateId` and leaves the items unchanged; otherwise the item is appended and returned; unique ids stay unique |
| `Datastore.InMemoryDataStore.GetById` | server/datastore.py:66-70 | The loop returns what `FindById` specifies, without changing the store |
| `Datastore.InMemoryDataStore.GetAll` | server/datastore.py:52-64 | The filter, cursor search and slice return what `Page` specifies, without changing the store |
| `Datastore.FilterAcceptingAll` | server/datastore.py:53-55 | A filter that accepts every item leaves the list unchanged |
| `Datastore.FilterRejectingAll` | server/datastore.py:55 | A filter that rejects every item gives an empty list |
| `Datastore.PageAcceptingAll` | server/datastore.py:52-64 | A filter that accepts every item gives the same page as no filter |
| `Datastore.FilterAppend` | server/datastore.py:53-55 | Filtering distributes over concatenation, so insertion order is kept |
| `Datastore.PageIsContiguousRun` | server/datastore.py:52-64 | A page is a contiguous run of the filtered list from the cursor's start; every item is stored and passes the filter |
| `Datastore.CutIsContiguousRun` | server/datastore.py:57-64 | The cursor search and slice take a contiguous run of the list from the start position |
| `Datastore.PageItemsPassFilter` | server/datastore.py:52-64 | Every item on a page is a stored item that passes the filter |
| `Datastore.PageLength` | server/datastore.py:64 | For limit >= 0 the page has min(limit, remaining) items, with 10 when the limit is absent; limit 0 gives an empty page |
| `Datastore.PageAfterCursor` | server/datastore.py:57-64 | A cursor equal to the id at filtered position i, and at no earlier position, starts the page at i + 1 |
| `Datastore.StartAfterUniqueId` | server/datastore.py:57-62 | With unique ids, the id at position i of the list used as cursor starts the page at i + 1 |
| `Datastore.UnknownCursorIsIgnored` | server/datastore.py:57-62 | A cursor that no filtered item carries gives the same page as no cursor |
| `Datastore.CutAdvances` | server/datastore.py:26-31 | With unique ids, the last id of a non-empty page used as the next cursor moves the start just past that page |
| `Datastore.PageThenRest` | server/datastore.py:57-64 | A non-empty page followed by everything after its last item is everything from the page's start |
| `Datastore.WalkFrom` | server/datastore.py:52-64 | Paging from any cursor until an empty page yields the filtered list from that cursor's start |
| `Datastore.TraverseStep` | server/datastore.py:21-33 | The traversal is the `get_all` page followed by the traversal from that page's last id, and ends at an empty page |
| `Datastore.TraverseVisitsAll` | server/datastore.py:21-33 | With unique ids, paging from no cursor visits every filtered item exactly once, in order |
| `Datastore.TraverseStoreVisitsAll` | server/datastore.py:45-64 | A store whose ids are unique, as `add` keeps them, is read completely, in order and once each, by paging from no cursor |
| `Datastore.RepeatedIdRepeatsPage` | server/datastore.py:57-64 | When the first two items share id c, the page after cursor c with limit 1 is the second item, whose id is c again, so the walk stalls |
| `Services.PaymentStatus` | server/services.py:64-74 | Status is Unpaid exactly without a date; On Time at <= 5 days late; Late at 6..30; Defaulted beyond 30 |
| `Services.StatusBoundaries` | server/services.py:64-74 | -5, 0 and 5 days give On Time; 6 and 30 give Late; 31 and 90 give Defaulted; no date gives Unpaid |
| `Services.LoanMatches` | server/services.py:21-32 | A loan passes exactly when there is no filter, or it equals every field the filter sets |
| `Services.WithStatus` | server/services.py:50-62 | Same length; each copy differs from its payment only in the status, which is always set |
| `Services.WithStatusIdempotent` | server/services.py:50-62 | Filling in the statuses a second time changes nothing |
| `Services.TotalDue` | server/services.py:93-94 | At 0% the total due is the principal; with non-negative principal and rate it is at least the principal, and above it when both are positive |
| `Services.LoansWithoutFilter` | server/services.py:21-34 | With no filter, `get_loans` returns the loan store's unfiltered `get_all` page |
| `Services.DefaultFilterMatchesAll` | server/services.py:21-32 | A default filter accepts every loan and lists like no filter |
| `Services.LoansPageMatchesFilter` | server/services.py:24-34 | Every listed loan is stored and equals each field the filter sets |
| `Services.LoansPageIsComplete` | server/services.py:21-34 | Every stored loan that equals each set filter field is listed when the page starts at the beginning and is long enough |
| `Services.PaymentsOfUnknownLoan` | server/services.py:39-42 | An unknown loan id gives an empty list |
| `Services.PaymentsOfLoanWithoutPayments` | server/services.py:44-62 | A loan without payments gives an empty list, not a placeholder row |
| `Services.PaymentsViewItems` | server/services.py:44-62 | Each listed payment has the requested loan id, a stored payment's id, date and amount in page order, and the status its date earns |
| `Services.TotalPaidSeesOnePage` | server/services.py:91-92 | The amount already paid is summed over at most 10 payments |
| `Services.ValidationOrder` | server/services.py:76-88 | A bad loan_id fails first, then a bad amount, then an unknown loan, each with its own error |
| `Services.OverpaymentGuard` | server/services.py:90-99 | A valid request on a known loan is refused exactly when paid + amount > principal + principal*rate/100, with those figures in the error; otherwise it returns (loan_id, amount) |
| `Services.RequestExamples` | server/services.py:80-88 | Missing loan_id and loan_id -1 give the loan_id error; amount -1 gives the amount error; loan 9999 gives not-found |
| `Services.OverpaymentExample` | server/services.py:93-97 | For principal 500 at 10%, 1000 fails with (550, 0, 1000), 550 passes, 550.01 fails |
| `Services.NotFoundMessage` | server/services.py:87-88 | The unknown-loan message reads "Loan with id 9999 does not exist." |
| `Services.ValidationMessages` | server/services.py:81-97 | The loan_id and amount errors read as written, and the overpayment error starts "Payment exceeds total amount due for loan id 12." |
| `Services.PaymentMessagesNameLoan` | server/services.py:88-97 | Two not-found messages, and two overpayment messages, are equal exactly when their loan ids are |
| `Services.GuardMissesPaymentsBeyondFirstPage` | server/services.py:91-95 | A loan with eleven recorded payments accepts a payment that takes its recorded total past the total due |
| `Services.IntendedGuardKeepsTotalWithinDue` | server/services.py:90-97 | With the guard summing every payment, recording an accepted payment keeps the loan's total within the total due |
| `Services.LoanService.constructor` | server/services.py:9-13 | The service holds the two stores, and its id counter starts at 4 |
| `Services.LoanService.GetLoans` | server/services.py:15-34 | Returns the loan store's page filtered by the equality filter |
| `Services.LoanService.GetLoanById` | server/services.py:36-37 | Returns the first stored loan with the id, or None |
| `Services.LoanService.GetLoanPayments` | server/services.py:39-62 | Returns `PaymentsView`: empty for an unknown loan, otherwise the page of the loan's payments with statuses |
| `Services.LoanService.ValidateAndFormatLoanPaymentRequest` | server/services.py:76-99 | Returns what `ValidateRequest` specifies and changes nothing |
| `Services.LoanService.AddLoanPayment` | server/services.py:101-109 | The counter goes up by one. A payment with the old counter value as id, dated today, with no status, is appended unless the id is taken, which gives `DuplicateId`. Loans are unchanged |
| `Conf.GetConfig` | server/conf.py:6-23 | Succeeds exactly for "in_memory", or "database" with a non-empty URL; an unset type means "in_memory" |
| `Conf.InvalidTypeMessageText` | server/conf.py:11-13 | The invalid-type error for "x" reads "Invalid DATASTORE_TYPE: x. Must be 'in_memory' or 'database'." |
| `Conf.MissingUrlMessageText` | server/conf.py:16-18 | The missing-URL error reads as written |
| `Conf.ConfigErrorNamesValue` | server/conf.py:10-18 | Two invalid-type messages are equal exactly when the values are, and none equals the missing-URL message |
| `Conf.UnsetTypeMeansInMemory` | server/conf.py:7 | An unset DATASTORE_TYPE gives an in_memory config with whatever URL is given |
| `Conf.UnknownTypeRefused` | server/conf.py:10-13 | Any other type fails with the invalid-type error naming it |
| `Conf.DatabaseNeedsUrl` | server/conf.py:15-18 | "database" fails exactly when the URL is unset or empty |
| `Conf.ConfigKeepsInputs` | server/conf.py:20-23 | A successful config holds exactly the given type and URL |
| `PaginationHook.Next` | web/src/hooks/pagination.ts:7-12 | Next sets the cursor to the given id and pushes the old cursor only when it was set |
| `PaginationHook.Previous` | web/src/hooks/pagination.ts:14-19 | Previous pops the last history entry into the cursor; an empty history gives a null cursor and stays empty |
| `PaginationHook.NextThenPrevious` | web/src/hooks/pagination.ts:7-19 | Next followed by previous restores cursor and history exactly when the old cursor was set or the history was empty |
| `PaginationHook.StepsMoveHistoryByOne` | web/src/hooks/pagination.ts:7-19 | Next and previous each change the history length by at most one |
| `PaginationHook.Pagination.constructor` | web/src/hooks/pagination.ts:4-5 | Starts with a null cursor and an empty history |
| `PaginationHook.Pagination.GoToNextPage` | web/src/hooks/pagination.ts:7-12 | The new state is `Next` of the old one |
| `PaginationHook.Pagination.GoToPreviousPage` | web/src/hooks/pagination.ts:14-19 | The new state is `Previous` of the old one |
| `PaginationHook.Pagination.ResetPagination` | web/src/hooks/pagination.ts:21-24 | The cursor becomes null and the history empty |

## Findings

| source | as written | input that shows it | evidently intended | confidence | as-written member | corrected member |
|---|---|---|---|---|---|---|
| server/services.py:91-95 | `total_paid` sums `get_loan_payments(loan_id)`, which pages with the default limit, so only the loan's first 10 payments count | A loan of 1000 at 0% with eleven recorded payments of 50. A new payment of 500 is accepted, which takes the recorded total to 1050 | Sum every recorded payment of the loan, so that recorded payments never exceed principal plus interest | high (the proof shows it); not executed | `Services.GuardMissesPaymentsBeyondFirstPage` | `Services.IntendedGuardKeepsTotalWithinDue` |

`LoanService` keeps the guard as written, because that is the system's behaviour.
`Services.ValidateRequestIntended` is the corrected guard, and the invariant is proved
about it.

## Left out

- HTTP and GraphQL transport, app wiring and the dependency container (routes, app, schema, container modules). This includes the route's mapping of `ValueError` to 400 and other exceptions to 500.
- A payload that is not a JSON object is left out. In the source, `input.get` raises on it and the route answers 500.
- The `repositories` module that the service imports is not part of this model. The service is modelled over `InMemoryDataStore`, and the abstract `DataStore` interface is not modelled separately.
- The `Config` record is not part of this model's sources. Its two fields are taken from the constructor call in `get_config`.
- Floating point: amounts, rates and totals are exact reals. Python's float rounding, NaN and infinities are not modelled; Python's JSON parser accepts `NaN`, which would pass `amount <= 0`.
- `Services.PaymentError.Message`: for an overpayment only the text up to the loan id is modelled. Python's float formatting of the three figures is not.
- `Services.IntOf`: a JSON `true` passes as loan id 1, as `isinstance(True, int)` does. The model records it as the integer 1, while Python keeps the bool and serialises it as `true`. The not-found message differs the same way: for a JSON `true` loan id with no loan 1, Python writes "Loan with id True does not exist.", while `LoanNotFound(1).Message()` reads "Loan with id 1 does not exist.".
- `date.today()` and `os.getenv` are parameters (`today`, and the two optional strings of `GetConfig`).
- The id counter is a class attribute shared by all instances and has no locking. Here it is a field of one service instance, and concurrency is left out.
- `InMemoryDataStore` keeps a reference to the caller's list in the source, so the caller's list changes too. The model copies it into a `seq`, so that aliasing is not captured.
- The filter callbacks are total Dafny functions. Python callables that raise or have side effects are not modelled.
- `Datastore.TraverseVisitsAll`: it promises a complete walk only when ids are unique. The store accepts an initial list with repeated ids (server/datastore.py:42-43), and then the cursor search stops at the first match (server/datastore.py:59-62). `Datastore.RepeatedIdRepeatsPage` shows the walk stalling: with ids [1, 1, 2] and limit 1, cursor 1 returns the second item again and again.
- React state batching and render scheduling: each hook operation sees the committed state.
- Faker-based test factories and randomised test data.
