/** The root service's copy of the filter validator. It keeps its own guard
    chain; the result type and messages are the backend's. */
module RootRequestsHelper {
  import opened JsRuntime
  import opened Payments
  import RequestsHelper

  /** Guard clauses in the order the root copy checks them. */
  function ValidateFilters(filters: Filters, parse: DateParser): (r: RequestsHelper.Validation)
    ensures r.isValid <==> r.error.None?
    ensures !r.isValid ==> r.error.value.status == 400
  {
    var Filters(recipient, after, before, date) := filters;
    if Truthy(before) && Truthy(after) then
      RequestsHelper.Rejection(RequestsHelper.MsgBeforeAndAfter)
    else if Truthy(date) && (Truthy(before) || Truthy(after)) then
      RequestsHelper.Rejection(RequestsHelper.MsgDateAndRange)
    else if Truthy(date) && DateOf(date, parse).None? then
      RequestsHelper.Rejection(RequestsHelper.MsgDateInvalid)
    else if Truthy(recipient) && (!recipient.Str? || Trim(recipient.s) == "") then
      RequestsHelper.Rejection(RequestsHelper.MsgRecipient)
    else
      RequestsHelper.Valid
  }

  /** Rule order, messages and statuses agree with the backend validator on
      every input, so every property proved there holds of this copy. */
  lemma SameAsBackend(filters: Filters, parse: DateParser)
    ensures ValidateFilters(filters, parse) == RequestsHelper.ValidateFilters(filters, parse)
  {
  }

  /** An empty `after` next to a set `before` is no conflict: the filter set
      `{after: "", before: b}` is valid whenever the others are unset. */
  lemma EmptyAfterIsAbsent(b: string, parse: DateParser)
    ensures ValidateFilters(NoFilters.(after := Str(""), before := Str(b)), parse).isValid
  {
  }

  /** A whitespace-only or non-string recipient, alone, is rejected with the
      recipient message. */
  lemma BlankRecipientRejected(recipient: JsValue, parse: DateParser)
    requires recipient.Obj? || (recipient.Str? && recipient.s != "" && AllWhitespace(recipient.s))
    ensures ValidateFilters(NoFilters.(recipient := recipient), parse)
            == RequestsHelper.Rejection(RequestsHelper.MsgRecipient)
  {
    if recipient.Str? {
      TrimEmptyIffBlank(recipient.s);
    }
  }
}
