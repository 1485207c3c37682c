/** The entities the payments core reads: payment records, the request's
    filter values, the process environment and the remote payments table. */
module Payments {
  import opened Wrappers
  import opened JsRuntime

  /** A payment record as stored in the local JSON file or the remote table. */
  datatype Payment = Payment(
    id: string,
    amount: int,
    currency: string,
    scheduled_date: string,
    recipient: string,
    status: string)

  /** The four query parameters `/payments` forwards to the validator and the
      query pipeline. */
  datatype Filters = Filters(recipient: JsValue, after: JsValue, before: JsValue, date: JsValue)

  const NoFilters := Filters(Undefined, Undefined, Undefined, Undefined)

  /** Falsy values replaced by `undefined`. */
  function Normalize(filters: Filters): (r: Filters)
    ensures forall v :: v in [r.recipient, r.after, r.before, r.date] ==> v == Undefined || Truthy(v)
  {
    var N := (v: JsValue) => if Truthy(v) then v else Undefined;
    Filters(N(filters.recipient), N(filters.after), N(filters.before), N(filters.date))
  }

  /** The environment variables the data layers read; `None` is an unset
      variable. */
  datatype ProcessEnv = ProcessEnv(
    lambdaFunctionName: Option<string>,   // AWS_LAMBDA_FUNCTION_NAME
    paymentsTableName: Option<string>,    // PAYMENTS_TABLE_NAME
    region: Option<string>)               // AWS_REGION

  /** An environment variable as a JavaScript value (`undefined` when unset). */
  function EnvValue(v: Option<string>): (r: JsValue)
    ensures Truthy(r) <==> v.Some? && v.value != ""
  {
    match v
    case None => Undefined
    case Some(s) => Str(s)
  }

  const DefaultTableName := "PaymentsTable"
  const DefaultRegion := "us-east-1"

  /** `PAYMENTS_TABLE_NAME || 'PaymentsTable'`: never empty, and the configured
      name whenever one is set. */
  function TableName(env: ProcessEnv): (r: string)
    ensures r != ""
    ensures Truthy(EnvValue(env.paymentsTableName)) ==> r == env.paymentsTableName.value
    ensures !Truthy(EnvValue(env.paymentsTableName)) ==> r == DefaultTableName
  {
    if Truthy(EnvValue(env.paymentsTableName)) then env.paymentsTableName.value else DefaultTableName
  }

  /** `AWS_REGION || 'us-east-1'`. */
  function Region(env: ProcessEnv): (r: string)
    ensures r != ""
    ensures Truthy(EnvValue(env.region)) ==> r == env.region.value
    ensures !Truthy(EnvValue(env.region)) ==> r == DefaultRegion
  {
    if Truthy(EnvValue(env.region)) then env.region.value else DefaultRegion
  }

  /** The DynamoDB table as the code sees it through the document client:
      `scan(table)` answers a ScanCommand with the response's `Items` (absent
      when the response has none) or a failure; `get(table, id)` answers a
      GetCommand with the response's `Item` or a failure. */
  datatype RemoteTable = RemoteTable(
    scan: string -> Result<Option<seq<Payment>>>,
    get: (string, string) -> Result<Option<Payment>>)

  /** `result.Items || []`: a successful scan without items is the empty list. */
  function ScanItems(response: Result<Option<seq<Payment>>>): (r: Result<seq<Payment>>)
    ensures r.Success? <==> response.Success?
    ensures response.Success? && response.value.None? ==> r.value == []
    ensures response.Success? && response.value.Some? ==> r.value == response.value.value
  {
    match response
    case Failure(e) => Failure(e)
    case Success(items) => Success(items.GetOr([]))
  }

  predicate IsPending(p: Payment) {
    p.status == "pending"
  }
}
