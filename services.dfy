/** The loan business rules (server/services.py): listing and filtering loans,
    listing a loan's payments with a derived status, validating a payment
    request against the overpayment guard, and recording a payment. */
module Services {
  import opened Common
  import opened Models
  import opened Datastore

  const UNPAID := "Unpaid"
  const ON_TIME := "On Time"
  const LATE := "Late"
  const DEFAULTED := "Defaulted"

  /** Status of a payment against its loan's due date. */
  function PaymentStatus(dueDate: Date, paymentDate: Option<Date>): (s: string)
    ensures s == UNPAID <==> paymentDate.None?
    ensures s == ON_TIME <==> paymentDate.Some? && paymentDate.value - dueDate <= 5
    ensures s == LATE <==> paymentDate.Some? && 6 <= paymentDate.value - dueDate <= 30
    ensures s == DEFAULTED <==> paymentDate.Some? && paymentDate.value - dueDate > 30
  {
    if paymentDate.None? then UNPAID
    else
      var daysLate := paymentDate.value - dueDate;
      if daysLate <= 5 then ON_TIME
      else if 6 <= daysLate <= 30 then LATE
      else DEFAULTED
  }

  /** The filter_fn of get_loans: every field the filter sets must be equal. */
  function LoanMatches(filter: Option<LoanFilter>, loan: Loan): (b: bool)
    ensures b <==> filter.None?
                   || (var f := filter.value;
                       && (f.name.Some? ==> loan.name == f.name.value)
                       && (f.interestRate.Some? ==> loan.interestRate == f.interestRate.value)
                       && (f.principal.Some? ==> loan.principal == f.principal.value)
                       && (f.dueDate.Some? ==> loan.dueDate == f.dueDate.value))
  {
    if filter.None? then true
    else
      var f := filter.value;
      if f.name.Some? && loan.name != f.name.value then false
      else if f.interestRate.Some? && loan.interestRate != f.interestRate.value then false
      else if f.principal.Some? && loan.principal != f.principal.value then false
      else if f.dueDate.Some? && loan.dueDate != f.dueDate.value then false
      else true
  }

  function MatchFn(filter: Option<LoanFilter>): Loan -> bool {
    (loan: Loan) => LoanMatches(filter, loan)
  }

  /** The filter_fn of get_loan_payments. */
  function ForLoan(loanId: int): LoanPayment -> bool {
    (p: LoanPayment) => p.loanId == loanId
  }

  /** What get_loans returns. */
  function LoansPage(loans: seq<Loan>, cursor: Option<int>, limit: Option<int>, filter: Option<LoanFilter>): seq<Loan> {
    Page(loans, LoanId, cursor, limit, Some(MatchFn(filter)))
  }

  /** Copies of the payments with their status filled in. */
  function WithStatus(ps: seq<LoanPayment>, dueDate: Date): (r: seq<LoanPayment>)
    ensures |r| == |ps|
    ensures forall k :: 0 <= k < |r| ==> r[k].(status := ps[k].status) == ps[k] && r[k].status.Some?
  {
    seq(|ps|, k requires 0 <= k < |ps| =>
      LoanPayment(ps[k].id, ps[k].loanId, ps[k].paymentDate, ps[k].amount,
                  Some(PaymentStatus(dueDate, ps[k].paymentDate))))
  }

  /** Filling in the statuses a second time changes nothing. */
  lemma WithStatusIdempotent(ps: seq<LoanPayment>, dueDate: Date)
    ensures WithStatus(WithStatus(ps, dueDate), dueDate) == WithStatus(ps, dueDate)
  {
    var once := WithStatus(ps, dueDate);
    var twice := WithStatus(once, dueDate);
    forall k | 0 <= k < |once| ensures twice[k] == once[k] {
      assert once[k].paymentDate == ps[k].paymentDate;
    }
  }

  /** What get_loan_payments returns. */
  function PaymentsView(loans: seq<Loan>, payments: seq<LoanPayment>, loanId: int,
                        cursor: Option<int>, limit: Option<int>): seq<LoanPayment> {
    match FindById(loans, LoanId, loanId)
    case None => []
    case Some(loan) => WithStatus(Page(payments, PaymentId, cursor, limit, Some(ForLoan(loanId))), loan.dueDate)
  }

  /** Python's sum of the payment amounts. */
  function TotalAmount(ps: seq<LoanPayment>): real {
    if ps == [] then 0.0 else ps[0].amount + TotalAmount(ps[1..])
  }

  /** Principal plus interest, the most a loan may receive. */
  function TotalDue(loan: Loan): (due: real)
    ensures loan.interestRate == 0.0 ==> due == loan.principal
    ensures loan.principal >= 0.0 && loan.interestRate >= 0.0 ==> due >= loan.principal
    ensures loan.principal > 0.0 && loan.interestRate > 0.0 ==> due > loan.principal
  {
    loan.principal + (loan.interestRate / 100.0) * loan.principal
  }

  /** A JSON value of the request payload. Strings, lists and objects are
      all just "something else" to the validation. */
  datatype JsonValue = JNull | JBool(b: bool) | JInt(i: int) | JFloat(f: real) | JOther

  type Payload = map<string, JsonValue>

  function Get(payload: Payload, key: string): Option<JsonValue> {
    if key in payload then Some(payload[key]) else None
  }

  /** isinstance(v, int); a bool is an int in Python. */
  predicate IsInt(v: Option<JsonValue>) {
    v.Some? && (v.value.JInt? || v.value.JBool?)
  }

  /** isinstance(v, (int, float)). */
  predicate IsNumber(v: Option<JsonValue>) {
    IsInt(v) || (v.Some? && v.value.JFloat?)
  }

  function IntOf(v: JsonValue): int
    requires v.JInt? || v.JBool?
  {
    if v.JInt? then v.i else if v.b then 1 else 0
  }

  function RealOf(v: JsonValue): real
    requires v.JInt? || v.JBool? || v.JFloat?
  {
    if v.JFloat? then v.f else IntOf(v) as real
  }

  predicate ValidLoanIdField(payload: Payload) {
    var v := Get(payload, "loan_id");
    IsInt(v) && IntOf(v.value) > 0
  }

  predicate ValidAmountField(payload: Payload) {
    var v := Get(payload, "amount");
    IsNumber(v) && RealOf(v.value) > 0.0
  }

  datatype PaymentError =
    | InvalidLoanId
    | InvalidAmount
    | LoanNotFound(loanId: int)
    | Overpayment(loanId: int, totalDue: real, totalPaid: real, attempted: real)
  {
    /** The ValueError text; for Overpayment only the part before the figures. */
    function Message(): string {
      match this
      case InvalidLoanId => "loan_id must be a positive integer."
      case InvalidAmount => "amount must be a positive number."
      case LoanNotFound(id) => "Loan with id " + IntToString(id) + " does not exist."
      case Overpayment(id, _, _, _) => "Payment exceeds total amount due for loan id " + IntToString(id) + "."
    }
  }

  /** The amount already paid as validate_and_format_loan_payment_request computes
      it: over the first page (DEFAULT_LIMIT items) of the loan's payments. */
  function TotalPaid(loans: seq<Loan>, payments: seq<LoanPayment>, loanId: int): real {
    TotalAmount(PaymentsView(loans, payments, loanId, None, None))
  }

  /** The checks of validate_and_format_loan_payment_request, in their order,
      with the amount already paid on a loan supplied by `paidOn`. */
  function CheckRequest(loans: seq<Loan>, payload: Payload, paidOn: int -> real)
    : Result<LoanPaymentInput, PaymentError>
  {
    if !ValidLoanIdField(payload) then Failure(InvalidLoanId)
    else if !ValidAmountField(payload) then Failure(InvalidAmount)
    else
      var loanId := IntOf(payload["loan_id"]);
      var amount := RealOf(payload["amount"]);
      match FindById(loans, LoanId, loanId)
      case None => Failure(LoanNotFound(loanId))
      case Some(loan) =>
        var totalPaid := paidOn(loanId);
        var totalDue := TotalDue(loan);
        if totalPaid + amount > totalDue then Failure(Overpayment(loanId, totalDue, totalPaid, amount))
        else Success(LoanPaymentInput(loanId, amount))
  }

  /** What validate_and_format_loan_payment_request returns or raises. */
  function ValidateRequest(loans: seq<Loan>, payments: seq<LoanPayment>, payload: Payload)
    : Result<LoanPaymentInput, PaymentError>
  {
    CheckRequest(loans, payload, (loanId: int) => TotalPaid(loans, payments, loanId))
  }

  class LoanService {
    const loanData: InMemoryDataStore<Loan>
    const paymentData: InMemoryDataStore<LoanPayment>
    /** The next id `add_loan_payment` hands out. */
    var idCounter: int

    /** Both stores identify their items by the records' own id. */
    ghost predicate Valid() {
      loanData.idOf == LoanId && paymentData.idOf == PaymentId
    }

    constructor (loanData: InMemoryDataStore<Loan>, paymentData: InMemoryDataStore<LoanPayment>)
      requires loanData.idOf == LoanId && paymentData.idOf == PaymentId
      ensures Valid() && this.loanData == loanData && this.paymentData == paymentData
      ensures idCounter == 4
    {
      this.loanData := loanData;
      this.paymentData := paymentData;
      idCounter := 4;
    }

    method GetLoans(cursor: Option<int>, limit: Option<int>, filter: Option<LoanFilter>) returns (r: seq<Loan>)
      requires Valid()
      ensures r == LoansPage(loanData.items, cursor, limit, filter)
    {
      r := loanData.GetAll(cursor, limit, Some(MatchFn(filter)));
    }

    method GetLoanById(loanId: int) returns (r: Option<Loan>)
      requires Valid()
      ensures r == FindById(loanData.items, LoanId, loanId)
    {
      r := loanData.GetById(loanId);
    }

    method GetLoanPayments(loanId: int, cursor: Option<int>, limit: Option<int>) returns (r: seq<LoanPayment>)
      requires Valid()
      ensures r == PaymentsView(loanData.items, paymentData.items, loanId, cursor, limit)
    {
      var loan := GetLoanById(loanId);
      if loan.None? {
        return [];
      }
      var payments := paymentData.GetAll(cursor, limit, Some(ForLoan(loanId)));
      r := WithStatus(payments, loan.value.dueDate);
    }

    method ValidateAndFormatLoanPaymentRequest(payload: Payload) returns (r: Result<LoanPaymentInput, PaymentError>)
      requires Valid()
      ensures r == ValidateRequest(loanData.items, paymentData.items, payload)
    {
      var loanIdField := Get(payload, "loan_id");
      var amountField := Get(payload, "amount");
      if !IsInt(loanIdField) || IntOf(loanIdField.value) <= 0 {
        return Failure(InvalidLoanId);
      }
      if !IsNumber(amountField) || RealOf(amountField.value) <= 0.0 {
        return Failure(InvalidAmount);
      }
      var loanId := IntOf(loanIdField.value);
      var amount := RealOf(amountField.value);
      var loan := GetLoanById(loanId);
      if loan.None? {
        return Failure(LoanNotFound(loanId));
      }
      var loanPayments := GetLoanPayments(loanId, None, None);
      var totalPaid := TotalAmount(loanPayments);
      var totalDue := TotalDue(loan.value);
      if totalPaid + amount > totalDue {
        return Failure(Overpayment(loanId, totalDue, totalPaid, amount));
      }
      return Success(LoanPaymentInput(loanId, amount));
    }

    /** Records a payment dated `today` under the next counter value. The
        counter advances even when the store rejects the id. */
    method AddLoanPayment(input: LoanPaymentInput, today: Date) returns (r: Result<LoanPayment, StoreError>)
      requires Valid()
      modifies this, paymentData
      ensures idCounter == old(idCounter) + 1
      ensures var p := NewPayment(old(idCounter), input.loanId, Some(today), input.amount);
              if FindById(old(paymentData.items), PaymentId, old(idCounter)).Some?
              then r == Failure(DuplicateId(old(idCounter))) && paymentData.items == old(paymentData.items)
              else r == Success(p) && paymentData.items == old(paymentData.items) + [p]
      ensures loanData.items == old(loanData.items)
    {
      var id := idCounter;
      idCounter := idCounter + 1;
      var payment := NewPayment(id, input.loanId, Some(today), input.amount);
      r := paymentData.Add(payment);
    }
  }

  // ---------------------------------------------------------------------------
  // Properties of the business rules

  /** The boundary days of the status classification. */
  lemma StatusBoundaries(due: Date)
    ensures PaymentStatus(due, None) == UNPAID
    ensures PaymentStatus(due, Some(due - 5)) == ON_TIME
    ensures PaymentStatus(due, Some(due)) == ON_TIME
    ensures PaymentStatus(due, Some(due + 5)) == ON_TIME
    ensures PaymentStatus(due, Some(due + 6)) == LATE
    ensures PaymentStatus(due, Some(due + 30)) == LATE
    ensures PaymentStatus(due, Some(due + 31)) == DEFAULTED
    ensures PaymentStatus(due, Some(due + 90)) == DEFAULTED
  {
  }

  /** Without a filter, get_loans is the loan store's plain get_all. */
  lemma {:induction false} LoansWithoutFilter(loans: seq<Loan>, cursor: Option<int>, limit: Option<int>)
    ensures LoansPage(loans, cursor, limit, None) == Page(loans, LoanId, cursor, limit, None)
  {
    forall k | 0 <= k < |loans| ensures MatchFn(None)(loans[k]) {}
    PageAcceptingAll(loans, LoanId, cursor, limit, MatchFn(None));
  }

  /** A default LoanFilter constrains nothing. */
  lemma {:induction false} DefaultFilterMatchesAll(loans: seq<Loan>, cursor: Option<int>, limit: Option<int>)
    ensures forall l :: LoanMatches(Some(DefaultFilter()), l)
    ensures LoansPage(loans, cursor, limit, Some(DefaultFilter())) == Page(loans, LoanId, cursor, limit, None)
  {
    forall k | 0 <= k < |loans| ensures MatchFn(Some(DefaultFilter()))(loans[k]) {}
    PageAcceptingAll(loans, LoanId, cursor, limit, MatchFn(Some(DefaultFilter())));
  }

  /** Every loan get_loans returns is stored and equals each field the filter sets. */
  lemma LoansPageMatchesFilter(loans: seq<Loan>, cursor: Option<int>, limit: Option<int>, f: LoanFilter)
    ensures var r := LoansPage(loans, cursor, limit, Some(f));
            forall k :: 0 <= k < |r| ==>
              && r[k] in loans
              && (f.name.Some? ==> r[k].name == f.name.value)
              && (f.interestRate.Some? ==> r[k].interestRate == f.interestRate.value)
              && (f.principal.Some? ==> r[k].principal == f.principal.value)
              && (f.dueDate.Some? ==> r[k].dueDate == f.dueDate.value)
  {
    PageItemsPassFilter(loans, LoanId, cursor, limit, Some(MatchFn(Some(f))));
  }

  /** A stored loan that equals every field the filter sets is listed when the
      listing starts at the beginning and is long enough. */
  lemma LoansPageIsComplete(loans: seq<Loan>, f: LoanFilter, l: Loan)
    requires l in loans
    requires f.name.Some? ==> l.name == f.name.value
    requires f.interestRate.Some? ==> l.interestRate == f.interestRate.value
    requires f.principal.Some? ==> l.principal == f.principal.value
    requires f.dueDate.Some? ==> l.dueDate == f.dueDate.value
    ensures l in LoansPage(loans, None, Some(|loans|), Some(f))
  {
    var filtered := Filter(loans, MatchFn(Some(f)));
    var k :| 0 <= k < |loans| && loans[k] == l;
    FilterComplete(loans, MatchFn(Some(f)), k);
    assert l in filtered;
    assert LoansPage(loans, None, Some(|loans|), Some(f)) == filtered[0..|filtered|];
  }

  /** An unknown loan has no payments. */
  lemma PaymentsOfUnknownLoan(loans: seq<Loan>, payments: seq<LoanPayment>, loanId: int,
                              cursor: Option<int>, limit: Option<int>)
    requires forall k :: 0 <= k < |loans| ==> loans[k].id != loanId
    ensures PaymentsView(loans, payments, loanId, cursor, limit) == []
  {
  }

  /** A known loan without payments gets an empty list, not a placeholder row. */
  lemma PaymentsOfLoanWithoutPayments(loans: seq<Loan>, payments: seq<LoanPayment>, loanId: int,
                                      cursor: Option<int>, limit: Option<int>)
    requires forall k :: 0 <= k < |payments| ==> payments[k].loanId != loanId
    ensures PaymentsView(loans, payments, loanId, cursor, limit) == []
  {
    FilterRejectingAll(payments, ForLoan(loanId));
  }

  /** Each listed payment belongs to the requested loan, carries a stored
      payment's id, date and amount in the store's page order, and has the
      status its date earns against the loan's due date. */
  lemma PaymentsViewItems(loans: seq<Loan>, payments: seq<LoanPayment>, loanId: int,
                          cursor: Option<int>, limit: Option<int>)
    requires FindById(loans, LoanId, loanId).Some?
    ensures var loan := FindById(loans, LoanId, loanId).value;
            var page := Page(payments, PaymentId, cursor, limit, Some(ForLoan(loanId)));
            var r := PaymentsView(loans, payments, loanId, cursor, limit);
            && |r| == |page|
            && forall k :: 0 <= k < |r| ==>
                 && page[k] in payments
                 && r[k].loanId == loanId
                 && r[k].id == page[k].id
                 && r[k].paymentDate == page[k].paymentDate
                 && r[k].amount == page[k].amount
                 && r[k].status == Some(PaymentStatus(loan.dueDate, page[k].paymentDate))
  {
    PageItemsPassFilter(payments, PaymentId, cursor, limit, Some(ForLoan(loanId)));
  }

  /** The overpayment guard looks at no more than DEFAULT_LIMIT payments. */
  lemma TotalPaidSeesOnePage(loans: seq<Loan>, payments: seq<LoanPayment>, loanId: int)
    ensures |PaymentsView(loans, payments, loanId, None, None)| <= DEFAULT_LIMIT
  {
    PageLength(payments, PaymentId, None, None, Some(ForLoan(loanId)));
  }

  /** Validation fails on the first bad field, in the order loan_id, amount, loan. */
  lemma ValidationOrder(loans: seq<Loan>, payments: seq<LoanPayment>, payload: Payload)
    ensures !ValidLoanIdField(payload) ==> ValidateRequest(loans, payments, payload) == Failure(InvalidLoanId)
    ensures ValidLoanIdField(payload) && !ValidAmountField(payload) ==>
              ValidateRequest(loans, payments, payload) == Failure(InvalidAmount)
    ensures ValidLoanIdField(payload) && ValidAmountField(payload) ==>
              var loanId := IntOf(payload["loan_id"]);
              (FindById(loans, LoanId, loanId).None? <==>
                 ValidateRequest(loans, payments, payload) == Failure(LoanNotFound(loanId)))
  {
  }

  /** For a well-formed request on a known loan, the request is refused exactly
      when the amount already paid plus the new amount exceeds principal plus
      interest; otherwise it comes back as the input to record. */
  lemma OverpaymentGuard(loans: seq<Loan>, payments: seq<LoanPayment>, payload: Payload)
    requires ValidLoanIdField(payload) && ValidAmountField(payload)
    requires FindById(loans, LoanId, IntOf(payload["loan_id"])).Some?
    ensures var loanId := IntOf(payload["loan_id"]);
            var amount := RealOf(payload["amount"]);
            var loan := FindById(loans, LoanId, loanId).value;
            var paid := TotalPaid(loans, payments, loanId);
            var r := ValidateRequest(loans, payments, payload);
            && (r.Success? <==> paid + amount <= TotalDue(loan))
            && (r.Success? ==> r.value == LoanPaymentInput(loanId, amount) && r.value.amount > 0.0)
            && (r.Failure? ==> r.error == Overpayment(loanId, TotalDue(loan), paid, amount))
  {
  }

  /** The request payloads of the route tests. */
  lemma RequestExamples(loans: seq<Loan>, payments: seq<LoanPayment>)
    requires forall k :: 0 <= k < |loans| ==> loans[k].id != 9999
    ensures ValidateRequest(loans, payments, map["amount" := JFloat(100.0)]) == Failure(InvalidLoanId)
    ensures ValidateRequest(loans, payments, map["loan_id" := JInt(-1), "amount" := JInt(5)]) == Failure(InvalidLoanId)
    ensures ValidateRequest(loans, payments, map["loan_id" := JInt(5), "amount" := JInt(-1)]) == Failure(InvalidAmount)
    ensures ValidateRequest(loans, payments, map["loan_id" := JInt(9999), "amount" := JFloat(100.0)])
            == Failure(LoanNotFound(9999))
  {
    var p := map["loan_id" := JInt(9999), "amount" := JFloat(100.0)];
    assert Get(p, "loan_id") == Some(JInt(9999));
    assert Get(p, "amount") == Some(JFloat(100.0));
  }

  /** A loan of 500 at 10% is due 550: a first payment of 1000 or 550.01 is
      refused, one of exactly 550 is accepted. */
  lemma OverpaymentExample(name: string, due: Date)
    ensures var loans := [Loan(1, name, 10.0, 500.0, due)];
            && ValidateRequest(loans, [], map["loan_id" := JInt(1), "amount" := JFloat(1000.0)])
               == Failure(Overpayment(1, 550.0, 0.0, 1000.0))
            && ValidateRequest(loans, [], map["loan_id" := JInt(1), "amount" := JFloat(550.0)])
               == Success(LoanPaymentInput(1, 550.0))
            && ValidateRequest(loans, [], map["loan_id" := JInt(1), "amount" := JFloat(550.01)]).Failure?
  {
    var loans := [Loan(1, name, 10.0, 500.0, due)];
    assert FindById(loans, LoanId, 1) == Some(loans[0]);
    assert PaymentsView(loans, [], 1, None, None) == [];
  }

  /** The route test's message for an unknown loan. */
  /** The validation errors read as services.py writes them. */
  lemma ValidationMessages()
    ensures InvalidLoanId.Message() == "loan_id must be a positive integer."
    ensures InvalidAmount.Message() == "amount must be a positive number."
    ensures Overpayment(12, 550.0, 0.0, 1000.0).Message() == "Payment exceeds total amount due for loan id 12."
  {
  }

  /** The not-found and overpayment errors name the loan: different loan ids
      give different messages. */
  lemma PaymentMessagesNameLoan(a: int, b: int, due: real, paid: real, amount: real)
    ensures LoanNotFound(a).Message() == LoanNotFound(b).Message() <==> a == b
    ensures Overpayment(a, due, paid, amount).Message() == Overpayment(b, due, paid, amount).Message() <==> a == b
  {
    IntToStringInjective(a, b);
    if LoanNotFound(a).Message() == LoanNotFound(b).Message() {
      SameFrame("Loan with id ", IntToString(a), IntToString(b), " does not exist.");
    }
    if Overpayment(a, due, paid, amount).Message() == Overpayment(b, due, paid, amount).Message() {
      SameFrame("Payment exceeds total amount due for loan id ", IntToString(a), IntToString(b), ".");
    }
  }

  lemma NotFoundMessage()
    ensures LoanNotFound(9999).Message() == "Loan with id 9999 does not exist."
  {
  }

  // ---------------------------------------------------------------------------
  // The overpayment guard over all of a loan's payments

  lemma {:induction false} TotalAmountAppend(a: seq<LoanPayment>, b: seq<LoanPayment>)
    ensures TotalAmount(a + b) == TotalAmount(a) + TotalAmount(b)
  {
    if a != [] {
      assert (a + b)[1..] == a[1..] + b;
      TotalAmountAppend(a[1..], b);
    } else {
      assert a + b == b;
    }
  }

  /** Everything recorded for the loan. */
  function TotalPaidAll(payments: seq<LoanPayment>, loanId: int): real {
    TotalAmount(Filter(payments, ForLoan(loanId)))
  }

  /** The guard as evidently intended: against every recorded payment. */
  function ValidateRequestIntended(loans: seq<Loan>, payments: seq<LoanPayment>, payload: Payload)
    : Result<LoanPaymentInput, PaymentError>
  {
    CheckRequest(loans, payload, (loanId: int) => TotalPaidAll(payments, loanId))
  }

  /** Recording a payment the intended guard accepts keeps the loan's recorded
      total within principal plus interest. */
  lemma IntendedGuardKeepsTotalWithinDue(loans: seq<Loan>, payments: seq<LoanPayment>, payload: Payload,
                                         id: int, today: Date)
    requires ValidateRequestIntended(loans, payments, payload).Success?
    ensures var input := ValidateRequestIntended(loans, payments, payload).value;
            var loan := FindById(loans, LoanId, input.loanId).value;
            FindById(loans, LoanId, input.loanId).Some?
            && TotalPaidAll(payments + [NewPayment(id, input.loanId, Some(today), input.amount)], input.loanId)
               <= TotalDue(loan)
  {
    var input := ValidateRequestIntended(loans, payments, payload).value;
    var p := NewPayment(id, input.loanId, Some(today), input.amount);
    FilterAppend(payments, [p], ForLoan(input.loanId));
    assert Filter([p], ForLoan(input.loanId)) == [p];
    TotalAmountAppend(Filter(payments, ForLoan(input.loanId)), [p]);
  }

  lemma {:induction false} TotalOfEqualAmounts(ps: seq<LoanPayment>, a: real)
    requires forall k :: 0 <= k < |ps| ==> ps[k].amount == a
    ensures TotalAmount(ps) == |ps| as real * a
  {
    if ps != [] {
      TotalOfEqualAmounts(ps[1..], a);
    }
  }

  /** As written, the guard passes a payment that takes a loan past its total
      due once it has more than DEFAULT_LIMIT payments: eleven payments of 50
      on a 1000 loan at 0% (550 recorded) and a new request of 500. */
  lemma GuardMissesPaymentsBeyondFirstPage(name: string, due: Date)
    ensures var loans := [Loan(1, name, 0.0, 1000.0, due)];
            var payments := seq(11, i => LoanPayment(i + 1, 1, Some(due), 50.0, None));
            var payload := map["loan_id" := JInt(1), "amount" := JFloat(500.0)];
            && ValidateRequest(loans, payments, payload) == Success(LoanPaymentInput(1, 500.0))
            && TotalPaidAll(payments, 1) + 500.0 > TotalDue(loans[0])
            && ValidateRequestIntended(loans, payments, payload).Failure?
  {
    var loans := [Loan(1, name, 0.0, 1000.0, due)];
    var payments := seq(11, i => LoanPayment(i + 1, 1, Some(due), 50.0, None));
    var payload := map["loan_id" := JInt(1), "amount" := JFloat(500.0)];
    assert Get(payload, "loan_id") == Some(JInt(1));
    assert Get(payload, "amount") == Some(JFloat(500.0));
    assert FindById(loans, LoanId, 1) == Some(loans[0]);
    FilterAcceptingAll(payments, ForLoan(1));
    var page := Page(payments, PaymentId, None, None, Some(ForLoan(1)));
    assert page == payments[0..10];
    var view := PaymentsView(loans, payments, 1, None, None);
    assert |view| == 10;
    TotalOfEqualAmounts(view, 50.0);
    TotalOfEqualAmounts(payments, 50.0);
  }
}
