/** The bodies of the `/payments` and `/payments/:id` handlers as response
    assembly: validation first, then one data-layer call, then the 24-hour
    highlight and the aggregates. The data layer is a parameter. */
module PaymentsApi {
  import opened Wrappers
  import opened JsRuntime
  import opened Sequences
  import opened Payments
  import RequestsHelper
  import FunctionalDataLayer

  /** `{...payment, isWithin24Hours}`. */
  datatype HighlightedPayment = HighlightedPayment(payment: Payment, isWithin24Hours: bool)

  /** The JSON bodies the handlers send. */
  datatype Body =
    | Rejected(reason: RequestsHelper.ErrorBody)   // `errorRequest.message`
    | Text(text: string)                            // the fallback message
    | Listing(payments: seq<HighlightedPayment>, count: int, totalAmount: int, currency: string, dataSource: string)
    | Single(payment: Payment, isWithin24Hours: bool, dataSource: string)
    | ErrorOnly(error: string)                      // `{error: ...}`

  datatype Response = Response(status: int, body: Body)

  const DefaultCurrency := "USD"
  const InternalError := Response(500, ErrorOnly("Internal server error"))
  const NotFound := Response(404, ErrorOnly("Payment not found"))

  /** `filteredPayments.map(...)`: each payment with its 24-hour flag. */
  function Highlight(payments: seq<Payment>, now: int, parse: DateParser): (r: seq<HighlightedPayment>)
    ensures |r| == |payments|
    ensures forall i :: 0 <= i < |r| ==>
              r[i].payment == payments[i]
              && r[i].isWithin24Hours == RequestsHelper.IsWithin24Hours(payments[i].scheduled_date, now, parse)
  {
    seq(|payments|, i requires 0 <= i < |payments| =>
      HighlightedPayment(payments[i], RequestsHelper.IsWithin24Hours(payments[i].scheduled_date, now, parse)))
  }

  /** The payments a listing carries, without their flags. */
  function PaymentsOf(listed: seq<HighlightedPayment>): seq<Payment> {
    seq(|listed|, i requires 0 <= i < |listed| => listed[i].payment)
  }

  /** `filteredPayments.reduce((sum, payment) => sum + payment.amount, 0)`,
      a left fold. */
  function TotalAmount(payments: seq<Payment>): int {
    if payments == [] then 0
    else TotalAmount(payments[..|payments| - 1]) + payments[|payments| - 1].amount
  }

  /** The sum of the amounts, taken from the front. */
  function SumOfAmounts(payments: seq<Payment>): int {
    if payments == [] then 0 else payments[0].amount + SumOfAmounts(payments[1..])
  }

  lemma {:induction false} SumOfAmountsAppend(a: seq<Payment>, b: seq<Payment>)
    ensures SumOfAmounts(a + b) == SumOfAmounts(a) + SumOfAmounts(b)
  {
    if a == [] {
      assert a + b == b;
    } else {
      assert (a + b)[1..] == a[1..] + b;
      SumOfAmountsAppend(a[1..], b);
    }
  }

  /** The fold computes the sum of the amounts, 0 for an empty list. */
  lemma {:induction false} TotalAmountIsSum(payments: seq<Payment>)
    ensures TotalAmount(payments) == SumOfAmounts(payments)
    decreases |payments|
  {
    if payments != [] {
      var front, last := payments[..|payments| - 1], payments[|payments| - 1];
      TotalAmountIsSum(front);
      assert payments == front + [last];
      SumOfAmountsAppend(front, [last]);
    }
  }

  /** Non-negative amounts give a non-negative total no larger than the total
      of any list the payments were filtered from. */
  lemma {:induction false} FilteredTotalBounded(all: seq<Payment>, keep: Payment -> bool)
    requires forall p :: p in all ==> p.amount >= 0
    ensures 0 <= TotalAmount(Filter(all, keep)) <= TotalAmount(all)
  {
    FilteredSumBounded(all, keep);
    TotalAmountIsSum(all);
    TotalAmountIsSum(Filter(all, keep));
  }

  lemma {:induction false} FilteredSumBounded(all: seq<Payment>, keep: Payment -> bool)
    requires forall p :: p in all ==> p.amount >= 0
    ensures 0 <= SumOfAmounts(Filter(all, keep)) <= SumOfAmounts(all)
  {
    if all != [] {
      FilteredSumBounded(all[1..], keep);
      var head := if keep(all[0]) then [all[0]] else [];
      SumOfAmountsAppend(head, Filter(all[1..], keep));
    }
  }

  /** The first payment's currency, `"USD"` for an empty list. */
  function Currency(payments: seq<Payment>): (r: string)
    ensures payments == [] ==> r == DefaultCurrency
    ensures payments != [] ==> r == payments[0].currency
  {
    if |payments| > 0 then payments[0].currency else DefaultCurrency
  }

  /** `GET /payments`. `query` is the data layer's `getPaymentsWithFilters`;
      `isLambda` is its mode; `now` is the clock reading for the highlight. */
  function ListPayments(filters: Filters, query: Filters -> Result<seq<Payment>>, isLambda: bool,
                        now: int, parse: DateParser): (r: Response)
    ensures r.status == 400 <==> !RequestsHelper.ValidateFilters(filters, parse).isValid
    ensures r.status == 200 <==> RequestsHelper.ValidateFilters(filters, parse).isValid && query(filters).Success?
    ensures r.status == 500 ==> r == InternalError
    ensures RequestsHelper.ValidateFilters(filters, parse).isValid && query(filters).Failure? ==> r == InternalError
  {
    var validation := RequestsHelper.ValidateFilters(filters, parse);
    if !validation.isValid then
      match validation.error
      case Some(error) => Response(if error.status != 0 then error.status else 400, Rejected(error.message))
      case None => Response(400, Text("Invalid request most likely bad filters."))
    else
      match query(filters)
      case Failure(_) => InternalError
      case Success(filtered) =>
        Response(200, Listing(
          Highlight(filtered, now, parse),
          |filtered|,
          TotalAmount(filtered),
          Currency(filtered),
          if isLambda then "DynamoDB" else "Local JSON"))
  }

  /** Invalid filters give 400 with the validator's body, whatever the data
      layer would have answered: it is never consulted. */
  lemma InvalidFiltersShortCircuit(filters: Filters, q1: Filters -> Result<seq<Payment>>,
                                   q2: Filters -> Result<seq<Payment>>, isLambda: bool, now: int, parse: DateParser)
    requires !RequestsHelper.ValidateFilters(filters, parse).isValid
    ensures ListPayments(filters, q1, isLambda, now, parse) == ListPayments(filters, q2, isLambda, now, parse)
    ensures ListPayments(filters, q1, isLambda, now, parse)
            == Response(400, Rejected(RequestsHelper.ValidateFilters(filters, parse).error.value.message))
  {
  }

  /** A listing reports the filtered payments in order, each flagged, with
      their number, the sum of their amounts (0 when there are none), the
      first one's currency (`"USD"` when there are none) and the backend. */
  lemma {:induction false} ListingDescribesPayments(filters: Filters, query: Filters -> Result<seq<Payment>>,
                                                    isLambda: bool, now: int, parse: DateParser)
    requires ListPayments(filters, query, isLambda, now, parse).status == 200
    ensures var body := ListPayments(filters, query, isLambda, now, parse).body;
            var filtered := query(filters).value;
            && body.Listing?
            && body.payments == Highlight(filtered, now, parse)
            && PaymentsOf(body.payments) == filtered
            && body.count == |body.payments| == |filtered|
            && body.totalAmount == SumOfAmounts(PaymentsOf(body.payments))
            && (filtered == [] ==> body.totalAmount == 0 && body.currency == DefaultCurrency)
            && (filtered != [] ==> body.currency == filtered[0].currency)
            && (isLambda ==> body.dataSource == "DynamoDB")
            && (!isLambda ==> body.dataSource == "Local JSON")
  {
    var filtered := query(filters).value;
    var body := ListPayments(filters, query, isLambda, now, parse).body;
    assert PaymentsOf(body.payments) == filtered;
    TotalAmountIsSum(filtered);
  }

  /** Served from the functional data layer, every listed payment is a
      pending stored payment, listed in store order. */
  lemma {:induction false} ListingIsPending(filters: Filters, options: FunctionalDataLayer.Options,
                                            world: FunctionalDataLayer.World, query: Filters -> Result<seq<Payment>>,
                                            isLambda: bool, now: int, parse: DateParser)
    requires query(filters) == FunctionalDataLayer.GetPaymentsWithFilters(filters, options, world, parse)
    requires ListPayments(filters, query, isLambda, now, parse).status == 200
    ensures var listed := PaymentsOf(ListPayments(filters, query, isLambda, now, parse).body.payments);
            && (forall p :: p in listed ==> IsPending(p))
            && IsSubsequence(listed, FunctionalDataLayer.GetAllPayments(options, world).value)
  {
    ListingDescribesPayments(filters, query, isLambda, now, parse);
    FunctionalDataLayer.FilteredPaymentsSelected(filters, options, world, parse);
  }

  /** `GET /payments/:id`. `lookup` is the data layer's `getPaymentById`. */
  function GetPayment(id: string, lookup: string -> Result<Option<Payment>>, isLambda: bool,
                      now: int, parse: DateParser): (r: Response)
    ensures r.status == 404 <==> lookup(id) == Success(None)
    ensures r.status == 404 ==> r == NotFound
    ensures r.status == 200 <==> lookup(id).Success? && lookup(id).value.Some?
    ensures r.status == 200 ==> r.body.Single? && r.body.payment == lookup(id).value.value
    ensures r.status == 200 ==>
              r.body.isWithin24Hours == RequestsHelper.IsWithin24Hours(r.body.payment.scheduled_date, now, parse)
    ensures r.status == 200 && isLambda ==> r.body.dataSource == "DynamoDB"
    ensures r.status == 200 && !isLambda ==> r.body.dataSource == "Local"
    ensures r.status == 500 ==> r == InternalError
    ensures lookup(id).Failure? ==> r == InternalError
  {
    match lookup(id)
    case Failure(_) => InternalError
    case Success(None) => NotFound
    case Success(Some(payment)) =>
      Response(200, Single(
        payment,
        RequestsHelper.IsWithin24Hours(payment.scheduled_date, now, parse),
        if isLambda then "DynamoDB" else "Local"))
  }

  /** Served from the functional data layer in local mode, a lookup is never
      a server error, and it is 404 exactly when no stored payment has the id;
      otherwise it is the first stored payment with that id. */
  lemma {:induction false} LocalLookupNotFoundIffAbsent(id: string, options: FunctionalDataLayer.Options,
                                                        world: FunctionalDataLayer.World,
                                                        lookup: string -> Result<Option<Payment>>,
                                                        now: int, parse: DateParser)
    requires !FunctionalDataLayer.UsesLambda(options, world)
    requires lookup(id) == FunctionalDataLayer.GetPaymentById(id, options, world)
    ensures var r := GetPayment(id, lookup, false, now, parse);
            var data := FunctionalDataLayer.LocalData(options, world);
            && r.status != 500
            && (r.status == 404 <==> forall p :: p in data ==> p.id != id)
            && (r.status == 200 ==> r.body.payment == FunctionalDataLayer.FindById(data, id).value
                                    && r.body.payment in data && r.body.payment.id == id
                                    && r.body.dataSource == "Local")
  {
  }
}
