/** The request helpers of the backend: the 24-hour highlight and the
    filter-combination validator. */
module RequestsHelper {
  import opened Wrappers
  import opened JsRuntime
  import opened Payments

  const MsPerHour := 1000 * 60 * 60
  const WindowMs := 24 * MsPerHour

  /** Whether a payment is due within the next 24 hours. `now` is the clock
      reading (ms since the epoch) taken by the call. The difference is
      converted to hours as the code does; an Invalid Date compares false. */
  function IsWithin24Hours(scheduledDate: string, now: int, parse: DateParser): (r: bool)
    ensures r <==> parse(scheduledDate).Some? && now < parse(scheduledDate).value <= now + WindowMs
  {
    match parse(scheduledDate)
    case None => false
    case Some(paymentDate) =>
      var diffInHours := (paymentDate - now) as real / MsPerHour as real;
      diffInHours > 0.0 && diffInHours <= 24.0
  }

  /** The JSON body of a rejection. */
  datatype ErrorBody = ErrorBody(error: string, message: string)

  /** The `error` object of a rejection: an HTTP status and the body. */
  datatype FilterError = FilterError(status: int, message: ErrorBody)

  /** `{isValid, error}`; `error` is `null` exactly when the filters are valid. */
  datatype Validation = Validation(isValid: bool, error: Option<FilterError>)

  const InvalidFilters := "Invalid filters"
  const MsgBeforeAndAfter := "before and after cannot be used together"
  const MsgDateAndRange := "date and before/after cannot be used together"
  const MsgDateInvalid := "date is invalid"
  const MsgRecipient := "recipient must be a string and not empty."

  const Valid := Validation(true, None)

  function Rejection(message: string): Validation {
    Validation(false, Some(FilterError(400, ErrorBody(InvalidFilters, message))))
  }


  /** The first failing rule wins: before with after, then date with a range
      bound, then an unparseable date, then a blank or non-string recipient. */
  function ValidateFilters(filters: Filters, parse: DateParser): (r: Validation)
    ensures r.isValid <==> r.error.None?
    ensures r.isValid ==> r == Valid
    ensures !r.isValid ==> r.error.value.status == 400 && r.error.value.message.error == InvalidFilters
  {
    var Filters(recipient, after, before, date) := filters;
    if Truthy(before) && Truthy(after) then
      Rejection(MsgBeforeAndAfter)
    else if Truthy(date) && (Truthy(before) || Truthy(after)) then
      Rejection(MsgDateAndRange)
    else if Truthy(date) && DateOf(date, parse).None? then
      Rejection(MsgDateInvalid)
    else if Truthy(recipient) && (!recipient.Str? || Trim(recipient.s) == "") then
      Rejection(MsgRecipient)
    else
      Valid
  }

  /** The conditions under which the validator accepts, independent of rule
      order. */
  predicate Acceptable(filters: Filters, parse: DateParser) {
    && !(Truthy(filters.before) && Truthy(filters.after))
    && !(Truthy(filters.date) && (Truthy(filters.before) || Truthy(filters.after)))
    && (Truthy(filters.date) ==> DateOf(filters.date, parse).Some?)
    && (Truthy(filters.recipient) ==> filters.recipient.Str? && !AllWhitespace(filters.recipient.s))
  }

  /** A filter set is valid exactly when no rule is broken. */
  lemma ValidIffAcceptable(filters: Filters, parse: DateParser)
    ensures ValidateFilters(filters, parse).isValid <==> Acceptable(filters, parse)
  {
    if filters.recipient.Str? {
      TrimEmptyIffBlank(filters.recipient.s);
    }
  }

  /** before with after is rejected by the first rule, whatever else is set. */
  lemma BeforeWithAfterRejected(filters: Filters, parse: DateParser)
    requires Truthy(filters.before) && Truthy(filters.after)
    ensures ValidateFilters(filters, parse) == Rejection(MsgBeforeAndAfter)
  {
  }

  /** date with exactly one range bound is rejected by the second rule. */
  lemma DateWithRangeRejected(filters: Filters, parse: DateParser)
    requires Truthy(filters.date) && Truthy(filters.before) != Truthy(filters.after)
    ensures ValidateFilters(filters, parse) == Rejection(MsgDateAndRange)
  {
  }

  /** With no range bound set, an unparseable date is rejected by the third
      rule, whatever the recipient holds. */
  lemma InvalidDateRejected(filters: Filters, parse: DateParser)
    requires !Truthy(filters.before) && !Truthy(filters.after)
    requires Truthy(filters.date) && DateOf(filters.date, parse).None?
    ensures ValidateFilters(filters, parse) == Rejection(MsgDateInvalid)
  {
  }

  /** An unparseable date on its own is rejected; an unparseable after or
      before on its own is not, since only date is format-checked. */
  lemma OnlyDateIsFormatChecked(d: string, bound: string, parse: DateParser)
    requires d != "" && bound != ""
    requires parse(d).None? && parse(bound).None?
    ensures ValidateFilters(NoFilters.(date := Str(d)), parse) == Rejection(MsgDateInvalid)
    ensures ValidateFilters(NoFilters.(after := Str(bound)), parse) == Valid
    ensures ValidateFilters(NoFilters.(before := Str(bound)), parse) == Valid
  {
  }

  /** A non-string or whitespace-only recipient is rejected once the date
      rules pass; an empty recipient is treated as absent. */
  lemma RecipientRule(filters: Filters, parse: DateParser)
    requires !(Truthy(filters.before) && Truthy(filters.after))
    requires !(Truthy(filters.date) && (Truthy(filters.before) || Truthy(filters.after)))
    requires Truthy(filters.date) ==> DateOf(filters.date, parse).Some?
    ensures filters.recipient.Obj? ==> ValidateFilters(filters, parse) == Rejection(MsgRecipient)
    ensures filters.recipient.Str? && filters.recipient.s != "" && AllWhitespace(filters.recipient.s) ==>
              ValidateFilters(filters, parse) == Rejection(MsgRecipient)
    ensures filters.recipient.Str? && !AllWhitespace(filters.recipient.s) ==>
              ValidateFilters(filters, parse) == Valid
    ensures filters.recipient == Str("") ==> ValidateFilters(filters, parse) == Valid
  {
    if filters.recipient.Str? {
      TrimEmptyIffBlank(filters.recipient.s);
    }
  }

  /** Empty strings and missing values are interchangeable for the validator. */
  lemma FalsyIsAbsent(filters: Filters, parse: DateParser)
    ensures ValidateFilters(filters, parse) == ValidateFilters(Normalize(filters), parse)
  {
  }
}
