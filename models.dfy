/** The records the server passes around (server/models.py). Calendar dates are
    day numbers; money and interest rates are exact reals. */
module Models {
  import opened Common

  /** A calendar date as a day number; subtracting two dates gives days. */
  type Date = int

  datatype Loan = Loan(id: int, name: string, interestRate: real, principal: real, dueDate: Date)

  /** Optional criteria for listing loans; an absent field constrains nothing. */
  datatype LoanFilter = LoanFilter(
    name: Option<string>,
    interestRate: Option<real>,
    principal: Option<real>,
    dueDate: Option<Date>)

  /** A validated payment request. */
  datatype LoanPaymentInput = LoanPaymentInput(loanId: int, amount: real)

  /** A recorded payment; a missing paymentDate means "not yet paid" and status
      is only filled in when payments are listed. */
  datatype LoanPayment = LoanPayment(
    id: int,
    loanId: int,
    paymentDate: Option<Date>,
    amount: real,
    status: Option<string>)

  function LoanId(l: Loan): int { l.id }

  function PaymentId(p: LoanPayment): int { p.id }

  /** LoanFilter() with every field left at its default. */
  function DefaultFilter(): (f: LoanFilter)
    ensures f.name.None? && f.interestRate.None? && f.principal.None? && f.dueDate.None?
  {
    LoanFilter(None, None, None, None)
  }

  /** LoanPayment(...) built without a status: the dataclass default is None. */
  function NewPayment(id: int, loanId: int, paymentDate: Option<Date>, amount: real): (p: LoanPayment)
    ensures p.status.None?
    ensures p.id == id && p.loanId == loanId && p.paymentDate == paymentDate && p.amount == amount
  {
    LoanPayment(id, loanId, paymentDate, amount, None)
  }

  /** A value of the dictionary that to_dict produces. */
  datatype Field = IntField(i: int) | DateField(d: Date) | RealField(r: real) | StrField(s: string) | NullField

  const PaymentKeys: set<string> := {"id", "loan_id", "payment_date", "amount", "status"}

  function DateOrNull(d: Option<Date>): Field {
    match d
    case Some(day) => DateField(day)
    case None => NullField
  }

  function StrOrNull(s: Option<string>): Field {
    match s
    case Some(t) => StrField(t)
    case None => NullField
  }

  /** LoanPayment.to_dict: one entry per field, under the field's Python name. */
  function ToDict(p: LoanPayment): (d: map<string, Field>)
    ensures d.Keys == PaymentKeys
    ensures d["id"].IntField? && d["loan_id"].IntField? && d["amount"].RealField?
    ensures d["payment_date"].NullField? <==> p.paymentDate.None?
    ensures d["status"].NullField? <==> p.status.None?
  {
    map["id" := IntField(p.id),
        "loan_id" := IntField(p.loanId),
        "payment_date" := DateOrNull(p.paymentDate),
        "amount" := RealField(p.amount),
        "status" := StrOrNull(p.status)]
  }

  /** Rebuilds a payment from a dictionary shaped like to_dict's output; the
      inverse against which ToDict is checked. */
  function FromDict(d: map<string, Field>): (r: Option<LoanPayment>)
    ensures r.Some? ==> PaymentKeys <= d.Keys
  {
    if PaymentKeys <= d.Keys
       && d["id"].IntField? && d["loan_id"].IntField? && d["amount"].RealField?
       && (d["payment_date"].DateField? || d["payment_date"].NullField?)
       && (d["status"].StrField? || d["status"].NullField?)
    then
      Some(LoanPayment(
        d["id"].i,
        d["loan_id"].i,
        if d["payment_date"].DateField? then Some(d["payment_date"].d) else None,
        d["amount"].r,
        if d["status"].StrField? then Some(d["status"].s) else None))
    else None
  }

  /** Rebuilding a payment from its dictionary gives the same payment. */
  lemma ToDictRoundTrip(p: LoanPayment)
    ensures FromDict(ToDict(p)) == Some(p)
  {
  }

  /** Every entry of the dictionary equals the matching field. */
  lemma ToDictFields(p: LoanPayment)
    ensures ToDict(p)["id"] == IntField(p.id)
    ensures ToDict(p)["loan_id"] == IntField(p.loanId)
    ensures ToDict(p)["amount"] == RealField(p.amount)
    ensures ToDict(p)["payment_date"] == (if p.paymentDate.Some? then DateField(p.paymentDate.value) else NullField)
    ensures ToDict(p)["status"] == (if p.status.Some? then StrField(p.status.value) else NullField)
  {
  }

  /** A freshly built payment serialises with a null status. */
  lemma NewPaymentSerialisesNullStatus(id: int, loanId: int, paymentDate: Option<Date>, amount: real)
    ensures ToDict(NewPayment(id, loanId, paymentDate, amount))["status"] == NullField
  {
  }
}
