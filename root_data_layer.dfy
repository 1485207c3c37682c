/** The root service's `DataLayer` class: the environment is read once at
    construction, the local JSON data is loaded eagerly outside Lambda, and the
    DynamoDB document client is built on first use and then reused. */
module RootDataLayer {
  import opened Wrappers
  import opened JsRuntime
  import opened Sequences
  import opened Payments
  import FunctionalDataLayer

  /** A DynamoDB document client, built for one region. */
  class DocumentClient {
    const region: string

    constructor (region: string)
      ensures this.region == region
    {
      this.region := region;
    }
  }

  class DataLayer {
    var isLambda: bool
    var tableName: string
    var docClient: DocumentClient?          // `_docClient`, `null` until first use
    var localData: Option<seq<Payment>>     // `undefined` until loaded

    /** Outside Lambda the local data is loaded and no client is ever built. */
    ghost predicate Valid()
      reads this
    {
      !isLambda ==> localData.Some? && docClient == null
    }

    /** The payments the instance reads: a scan of its table in Lambda mode,
        its local data otherwise. */
    ghost function AllPayments(remote: RemoteTable): Result<seq<Payment>>
      reads this
      requires Valid()
    {
      if isLambda then ScanItems(remote.scan(tableName)) else Success(localData.value)
    }

    /** `env` is the process environment read when the module is loaded;
        `localFile` is the outcome of reading and parsing the local JSON file. */
    constructor (env: ProcessEnv, localFile: Result<seq<Payment>>)
      ensures Valid()
      ensures isLambda == FunctionalDataLayer.IsLambdaEnvironment(env)
      ensures tableName == TableName(env)
      ensures docClient == null
      ensures localData == if isLambda then None else Some(FunctionalDataLayer.LoadLocalData(localFile))
    {
      isLambda := Truthy(EnvValue(env.lambdaFunctionName));
      tableName := TableName(env);
      docClient := null;
      localData := None;
      new;
      if !isLambda {
        LoadLocalData(localFile);
      }
    }

    /** Load the local JSON file; a read or parse failure leaves `[]`. */
    method LoadLocalData(localFile: Result<seq<Payment>>)
      requires !isLambda ==> docClient == null
      modifies this`localData
      ensures Valid()
      ensures localData == Some(FunctionalDataLayer.LoadLocalData(localFile))
    {
      match localFile {
        case Success(parsed) =>
          localData := Some(parsed);
        case Failure(_) =>
          localData := Some([]);
      }
    }

    /** The memoised client: `null` outside Lambda; in Lambda mode built on
        the first call and the same object on every later call. */
    method GetDynamoClient(env: ProcessEnv) returns (client: DocumentClient?)
      requires Valid()
      modifies this`docClient
      ensures Valid()
      ensures client == docClient
      ensures !isLambda ==> client == null
      ensures old(docClient) != null ==> client == old(docClient)
      ensures old(docClient) == null && isLambda ==> client != null && fresh(client) && client.region == Region(env)
    {
      if docClient == null && isLambda {
        docClient := new DocumentClient(Region(env));
      }
      client := docClient;
    }

    /** `getAllPayments`. The local branch returns the stored data, unchanged. */
    method GetAllPayments(env: ProcessEnv, remote: RemoteTable) returns (r: Result<seq<Payment>>)
      requires Valid()
      modifies this`docClient
      ensures Valid()
      ensures unchanged(this`isLambda, this`tableName, this`localData)
      ensures r == AllPayments(remote)
      ensures !isLambda ==> r.Success? && docClient == old(docClient)
      ensures isLambda ==> docClient != null && (old(docClient) != null ==> docClient == old(docClient))
      ensures isLambda && old(docClient) == null ==> fresh(docClient) && docClient.region == Region(env)
    {
      if isLambda {
        var client := GetDynamoClient(env);
        r := ScanItems(remote.scan(tableName));
      } else {
        r := Success(localData.value);
      }
    }

    /** `getPendingPayments`: the pending entries, in their original order. */
    method GetPendingPayments(env: ProcessEnv, remote: RemoteTable) returns (r: Result<seq<Payment>>)
      requires Valid()
      modifies this`docClient
      ensures Valid()
      ensures unchanged(this`isLambda, this`tableName, this`localData)
      ensures r.Success? <==> AllPayments(remote).Success?
      ensures r.Success? ==> r.value == FunctionalDataLayer.Pending(AllPayments(remote).value)
      ensures r.Success? ==> IsSubsequence(r.value, AllPayments(remote).value)
      ensures !isLambda ==> docClient == old(docClient)
      ensures isLambda ==> docClient != null && (old(docClient) != null ==> docClient == old(docClient))
      ensures isLambda && old(docClient) == null ==> fresh(docClient) && docClient.region == Region(env)
    {
      var all := GetAllPayments(env, remote);
      if all.Failure? {
        return Failure(all.error);
      }
      r := Success(FunctionalDataLayer.Pending(all.value));
      FilterIsSubsequence(all.value, IsPending);
    }

    /** `getPaymentById`: a key lookup in Lambda mode; otherwise the first
        local entry with the id, or `null`, never a failure. */
    method GetPaymentById(id: string, env: ProcessEnv, remote: RemoteTable) returns (r: Result<Option<Payment>>)
      requires Valid()
      modifies this`docClient
      ensures Valid()
      ensures unchanged(this`isLambda, this`tableName, this`localData)
      ensures isLambda ==> r == remote.get(tableName, id)
      ensures !isLambda ==> r == Success(FunctionalDataLayer.FindById(localData.value, id))
      ensures !isLambda ==> docClient == old(docClient)
      ensures isLambda ==> docClient != null && (old(docClient) != null ==> docClient == old(docClient))
      ensures isLambda && old(docClient) == null ==> fresh(docClient) && docClient.region == Region(env)
    {
      if isLambda {
        var client := GetDynamoClient(env);
        r := remote.get(tableName, id);
      } else {
        r := Success(FunctionalDataLayer.FindById(localData.value, id));
      }
    }

    /** `getPaymentsWithFilters`: a copy of the pending payments narrowed
        stage by stage. Its result is the functional pipeline's: the stored
        payments that are pending and pass every truthy filter, in order. */
    method GetPaymentsWithFilters(filters: Filters, env: ProcessEnv, remote: RemoteTable, parse: DateParser)
      returns (r: Result<seq<Payment>>)
      requires Valid()
      modifies this`docClient
      ensures Valid()
      ensures unchanged(this`isLambda, this`tableName, this`localData)
      ensures r.Success? <==> AllPayments(remote).Success? && FunctionalDataLayer.RecipientUsable(filters)
      ensures r.Success? ==>
                r == FunctionalDataLayer.ApplyFilters(FunctionalDataLayer.Pending(AllPayments(remote).value), filters, parse)
      ensures r.Success? ==>
                && r.value == Filter(AllPayments(remote).value, FunctionalDataLayer.SelectedKeep(filters, parse))
                && IsSubsequence(r.value, AllPayments(remote).value)
                && forall p :: p in r.value ==> IsPending(p)
      ensures !isLambda ==> docClient == old(docClient)
      ensures isLambda ==> docClient != null && (old(docClient) != null ==> docClient == old(docClient))
      ensures isLambda && old(docClient) == null ==> fresh(docClient) && docClient.region == Region(env)
    {
      var pending := GetPendingPayments(env, remote);
      if pending.Failure? {
        return Failure(pending.error);
      }
      var filtered := pending.value;
      if Truthy(filters.recipient) {
        if !filters.recipient.Str? {
          return Failure(FunctionalDataLayer.RecipientTypeError);
        }
        filtered := Filter(filtered, FunctionalDataLayer.RecipientKeep(Lower(filters.recipient.s)));
      }
      if Truthy(filters.after) {
        filtered := Filter(filtered, FunctionalDataLayer.AfterKeep(DateOf(filters.after, parse), parse));
      }
      if Truthy(filters.before) {
        filtered := Filter(filtered, FunctionalDataLayer.BeforeKeep(DateOf(filters.before, parse), parse));
      }
      if Truthy(filters.date) {
        filtered := Filter(filtered, FunctionalDataLayer.DateKeep(filters.date));
      }
      r := Success(filtered);
      FunctionalDataLayer.PipelineSelects(AllPayments(remote).value, filters, parse);
    }
  }
}
