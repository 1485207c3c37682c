/** The backend's functional data layer: payments come from injected local
    data, the local JSON file or the remote table, and the query pipeline
    narrows them stage by stage. */
module FunctionalDataLayer {
  import opened Wrappers
  import opened JsRuntime
  import opened Sequences
  import opened Payments

  /** `isLambdaEnvironment`: Lambda mode is marked by a non-empty function name. */
  function IsLambdaEnvironment(env: ProcessEnv): (r: bool)
    ensures r <==> env.lambdaFunctionName.Some? && env.lambdaFunctionName.value != ""
  {
    Truthy(EnvValue(env.lambdaFunctionName))
  }

  /** `loadLocalData`: the parsed file, or the empty list when reading or
      parsing failed. `file` is the outcome of the read and the parse. */
  function LoadLocalData(file: Result<seq<Payment>>): (r: seq<Payment>)
    ensures file.Success? ==> r == file.value
    ensures file.Failure? ==> r == []
  {
    match file
    case Success(payments) => payments
    case Failure(_) => []
  }

  /** The `options` argument: `isLambda` and `localData` are `undefined` when
      `None`. */
  datatype Options = Options(isLambda: Option<bool>, localData: Option<seq<Payment>>)

  /** What lies outside the module: the environment, the outcome of reading
      and parsing the local JSON file, and the remote table. */
  datatype World = World(env: ProcessEnv, localFile: Result<seq<Payment>>, remote: RemoteTable)

  /** `isLambda = isLambdaEnvironment()`: the option wins when it is given. */
  function UsesLambda(options: Options, world: World): (r: bool)
    ensures options.isLambda.Some? ==> r == options.isLambda.value
    ensures options.isLambda.None? ==> (r <==> IsLambdaEnvironment(world.env))
  {
    options.isLambda.GetOr(IsLambdaEnvironment(world.env))
  }

  /** `localData || loadLocalData()`: an injected list, even an empty one,
      takes precedence over the file. */
  function LocalData(options: Options, world: World): (r: seq<Payment>)
    ensures options.localData.Some? ==> r == options.localData.value
    ensures options.localData.None? ==> r == LoadLocalData(world.localFile)
  {
    options.localData.GetOr(LoadLocalData(world.localFile))
  }

  /** `getAllPayments`: a scan of the table in Lambda mode, the local data
      otherwise. The local branch never fails. */
  function GetAllPayments(options: Options, world: World): (r: Result<seq<Payment>>)
    ensures !UsesLambda(options, world) ==> r.Success?
    ensures !UsesLambda(options, world) && options.localData.Some? ==> r.value == options.localData.value
    ensures !UsesLambda(options, world) && options.localData.None? ==> r.value == LoadLocalData(world.localFile)
    ensures !UsesLambda(options, world) && options.localData.None? && world.localFile.Failure? ==> r.value == []
    ensures UsesLambda(options, world) ==> (r.Success? <==> world.remote.scan(TableName(world.env)).Success?)
    ensures UsesLambda(options, world) ==> r == ScanItems(world.remote.scan(TableName(world.env)))
  {
    if UsesLambda(options, world) then
      ScanItems(world.remote.scan(TableName(world.env)))
    else
      Success(LocalData(options, world))
  }

  /** The pending entries of `s`, in their original order. */
  function Pending(s: seq<Payment>): (r: seq<Payment>)
    ensures forall p :: p in r <==> p in s && IsPending(p)
    ensures IsSubsequence(r, s)
  {
    FilterIsSubsequence(s, IsPending);
    Filter(s, IsPending)
  }

  /** `getPendingPayments`. */
  function GetPendingPayments(options: Options, world: World): (r: Result<seq<Payment>>)
    ensures r.Success? <==> GetAllPayments(options, world).Success?
    ensures r.Success? ==> forall p :: p in r.value <==> p in GetAllPayments(options, world).value && IsPending(p)
    ensures r.Success? ==> r.value == Pending(GetAllPayments(options, world).value)
    ensures r.Success? ==> IsSubsequence(r.value, GetAllPayments(options, world).value)
  {
    var all :- GetAllPayments(options, world);
    Success(Pending(all))
  }

  /** `payment.recipient.toLowerCase().includes(needle)`. */
  function RecipientKeep(needle: string): Payment -> bool {
    (p: Payment) => Contains(Lower(p.recipient), needle)
  }

  /** `new Date(payment.scheduled_date) > bound`: false when either side is
      an Invalid Date. */
  predicate LaterThan(p: Payment, bound: Option<int>, parse: DateParser) {
    parse(p.scheduled_date).Some? && bound.Some? && parse(p.scheduled_date).value > bound.value
  }

  /** `new Date(payment.scheduled_date) < bound`, false on an Invalid Date. */
  predicate EarlierThan(p: Payment, bound: Option<int>, parse: DateParser) {
    parse(p.scheduled_date).Some? && bound.Some? && parse(p.scheduled_date).value < bound.value
  }

  function AfterKeep(bound: Option<int>, parse: DateParser): Payment -> bool {
    p => LaterThan(p, bound, parse)
  }

  function BeforeKeep(bound: Option<int>, parse: DateParser): Payment -> bool {
    p => EarlierThan(p, bound, parse)
  }

  /** `payment.scheduled_date === date`: strict equality, never true for a
      non-string filter value. */
  function DateKeep(date: JsValue): Payment -> bool {
    (p: Payment) => date.Str? && p.scheduled_date == date.s
  }

  const RecipientTypeError := "TypeError: filters.recipient.toLowerCase is not a function"

  /** A recipient filter the pipeline can lower-case: absent, or a string. */
  predicate RecipientUsable(filters: Filters) {
    !Truthy(filters.recipient) || filters.recipient.Str?
  }

  /** The narrowing stages of `getPaymentsWithFilters`, in order: recipient,
      after, before, exact date. Each stage runs only for a truthy filter. */
  function ApplyFilters(pending: seq<Payment>, filters: Filters, parse: DateParser): (r: Result<seq<Payment>>)
    ensures r.Success? <==> RecipientUsable(filters)
  {
    var byRecipient :-
      if !Truthy(filters.recipient) then Success(pending)
      else if filters.recipient.Str? then Success(Filter(pending, RecipientKeep(Lower(filters.recipient.s))))
      else Failure(RecipientTypeError);
    var byAfter :=
      if Truthy(filters.after) then Filter(byRecipient, AfterKeep(DateOf(filters.after, parse), parse))
      else byRecipient;
    var byBefore :=
      if Truthy(filters.before) then Filter(byAfter, BeforeKeep(DateOf(filters.before, parse), parse))
      else byAfter;
    var byDate :=
      if Truthy(filters.date) then Filter(byBefore, DateKeep(filters.date))
      else byBefore;
    Success(byDate)
  }

  /** `getPaymentsWithFilters`: the pending payments narrowed by the filters. */
  function GetPaymentsWithFilters(filters: Filters, options: Options, world: World, parse: DateParser)
    : (r: Result<seq<Payment>>)
    ensures r.Success? <==> GetAllPayments(options, world).Success? && RecipientUsable(filters)
  {
    var pending :- GetPendingPayments(options, world);
    ApplyFilters(pending, filters, parse)
  }

  /** Whether a payment passes every truthy filter. */
  predicate Matches(filters: Filters, parse: DateParser, p: Payment) {
    && (Truthy(filters.recipient) && filters.recipient.Str? ==>
          Contains(Lower(p.recipient), Lower(filters.recipient.s)))
    && (Truthy(filters.after) ==> LaterThan(p, DateOf(filters.after, parse), parse))
    && (Truthy(filters.before) ==> EarlierThan(p, DateOf(filters.before, parse), parse))
    && (Truthy(filters.date) ==> filters.date.Str? && p.scheduled_date == filters.date.s)
  }

  /** The single-pass reference for the whole pipeline: pending and matching. */
  predicate Selected(filters: Filters, parse: DateParser, p: Payment) {
    IsPending(p) && Matches(filters, parse, p)
  }

  function MatchKeep(filters: Filters, parse: DateParser): Payment -> bool {
    p => Matches(filters, parse, p)
  }

  function SelectedKeep(filters: Filters, parse: DateParser): Payment -> bool {
    p => Selected(filters, parse, p)
  }

  /** The stages distribute over concatenation. */
  lemma {:induction false} ApplyFiltersAppend(a: seq<Payment>, b: seq<Payment>, filters: Filters, parse: DateParser)
    requires RecipientUsable(filters)
    ensures ApplyFilters(a + b, filters, parse).value
            == ApplyFilters(a, filters, parse).value + ApplyFilters(b, filters, parse).value
  {
    var r1, r2, r3 := a + b, a, b;
    if Truthy(filters.recipient) {
      var k := RecipientKeep(Lower(filters.recipient.s));
      FilterAppend(a, b, k);
      r1, r2, r3 := Filter(a + b, k), Filter(a, k), Filter(b, k);
    }
    assert r1 == r2 + r3;
    if Truthy(filters.after) {
      var k := AfterKeep(DateOf(filters.after, parse), parse);
      FilterAppend(r2, r3, k);
      r1, r2, r3 := Filter(r1, k), Filter(r2, k), Filter(r3, k);
    }
    assert r1 == r2 + r3;
    if Truthy(filters.before) {
      var k := BeforeKeep(DateOf(filters.before, parse), parse);
      FilterAppend(r2, r3, k);
      r1, r2, r3 := Filter(r1, k), Filter(r2, k), Filter(r3, k);
    }
    assert r1 == r2 + r3;
    if Truthy(filters.date) {
      var k := DateKeep(filters.date);
      FilterAppend(r2, r3, k);
      r1, r2, r3 := Filter(r1, k), Filter(r2, k), Filter(r3, k);
    }
    assert r1 == r2 + r3;
  }

  lemma ApplyFiltersSingleton(x: Payment, filters: Filters, parse: DateParser)
    requires RecipientUsable(filters)
    ensures ApplyFilters([x], filters, parse).value == if Matches(filters, parse, x) then [x] else []
  {
    var r := [x];
    if Truthy(filters.recipient) {
      var k := RecipientKeep(Lower(filters.recipient.s));
      FilterSingleton(x, k);
      r := Filter(r, k);
    }
    if Truthy(filters.after) {
      var k := AfterKeep(DateOf(filters.after, parse), parse);
      if r == [x] { FilterSingleton(x, k); }
      r := Filter(r, k);
    }
    if Truthy(filters.before) {
      var k := BeforeKeep(DateOf(filters.before, parse), parse);
      if r == [x] { FilterSingleton(x, k); }
      r := Filter(r, k);
    }
    if Truthy(filters.date) {
      var k := DateKeep(filters.date);
      if r == [x] { FilterSingleton(x, k); }
      r := Filter(r, k);
    }
  }

  /** The staged pipeline is one order-preserving filter by `Matches`. */
  lemma {:induction false} ApplyFiltersIsFilter(s: seq<Payment>, filters: Filters, parse: DateParser)
    requires RecipientUsable(filters)
    ensures ApplyFilters(s, filters, parse) == Success(Filter(s, MatchKeep(filters, parse)))
  {
    if s == [] {
      ApplyFiltersSingletonEmpty(filters, parse);
    } else {
      assert s == [s[0]] + s[1..];
      ApplyFiltersAppend([s[0]], s[1..], filters, parse);
      ApplyFiltersSingleton(s[0], filters, parse);
      ApplyFiltersIsFilter(s[1..], filters, parse);
    }
  }

  lemma ApplyFiltersSingletonEmpty(filters: Filters, parse: DateParser)
    requires RecipientUsable(filters)
    ensures ApplyFilters([], filters, parse) == Success([])
  {
  }

  /** Every result of `getPaymentsWithFilters` is pending, the results are an
      order-preserving subsequence of the stored payments, and a stored payment
      is returned exactly when it is pending and passes every truthy filter. */
  lemma {:induction false} FilteredPaymentsSelected(filters: Filters, options: Options, world: World, parse: DateParser)
    requires GetPaymentsWithFilters(filters, options, world, parse).Success?
    ensures var all := GetAllPayments(options, world).value;
            var r := GetPaymentsWithFilters(filters, options, world, parse).value;
            && r == Filter(all, SelectedKeep(filters, parse))
            && IsSubsequence(r, all)
            && (forall p :: p in r ==> IsPending(p))
            && (forall p :: p in r <==> p in all && Selected(filters, parse, p))
  {
    PipelineSelects(GetAllPayments(options, world).value, filters, parse);
  }

  /** The pipeline over a list of payments: pending-only, then the stages. */
  lemma {:induction false} PipelineSelects(all: seq<Payment>, filters: Filters, parse: DateParser)
    requires RecipientUsable(filters)
    ensures var r := ApplyFilters(Pending(all), filters, parse).value;
            && r == Filter(all, SelectedKeep(filters, parse))
            && IsSubsequence(r, all)
            && (forall p :: p in r ==> IsPending(p))
            && (forall p :: p in r <==> p in all && Selected(filters, parse, p))
  {
    ApplyFiltersIsFilter(Pending(all), filters, parse);
    FilterFilter(all, IsPending, MatchKeep(filters, parse), SelectedKeep(filters, parse));
    FilterIsSubsequence(all, SelectedKeep(filters, parse));
  }

  /** With no truthy filter the pipeline returns the pending payments. */
  lemma NoFilterIsPending(filters: Filters, options: Options, world: World, parse: DateParser)
    requires !Truthy(filters.recipient) && !Truthy(filters.after)
    requires !Truthy(filters.before) && !Truthy(filters.date)
    ensures GetPaymentsWithFilters(filters, options, world, parse) == GetPendingPayments(options, world)
  {
  }

  /** Empty strings and missing values are interchangeable for the pipeline. */
  lemma FalsyFilterIsAbsent(pending: seq<Payment>, filters: Filters, parse: DateParser)
    ensures ApplyFilters(pending, filters, parse) == ApplyFilters(pending, Normalize(filters), parse)
  {
  }

  /** The recipient filter ignores case: two filter strings that lower-case
      alike select the same payments. */
  lemma RecipientIgnoresCase(pending: seq<Payment>, filters: Filters, a: string, b: string, parse: DateParser)
    requires Lower(a) == Lower(b)
    ensures ApplyFilters(pending, filters.(recipient := Str(a)), parse)
            == ApplyFilters(pending, filters.(recipient := Str(b)), parse)
  {
  }

  /** The recipient filter is a substring match: with only a recipient set,
      a pending payment is kept exactly when its lower-cased recipient
      contains the lower-cased filter at some position. */
  lemma {:induction false} RecipientIsSubstringMatch(pending: seq<Payment>, needle: string, parse: DateParser, p: Payment)
    requires needle != "" && p in pending
    ensures p in ApplyFilters(pending, NoFilters.(recipient := Str(needle)), parse).value
            <==> exists i :: OccursAt(Lower(p.recipient), Lower(needle), i)
  {
    ContainsIffOccurs(Lower(p.recipient), Lower(needle));
  }

  /** `after` and `before` are strict: every kept payment lies strictly beyond
      the bound, so one dated exactly at the bound is dropped. */
  lemma {:induction false} RangeBoundsAreStrict(pending: seq<Payment>, filters: Filters, parse: DateParser, p: Payment)
    requires RecipientUsable(filters)
    ensures p in ApplyFilters(pending, filters, parse).value && Truthy(filters.after) ==>
              && parse(p.scheduled_date).Some? && DateOf(filters.after, parse).Some?
              && parse(p.scheduled_date).value > DateOf(filters.after, parse).value
    ensures p in ApplyFilters(pending, filters, parse).value && Truthy(filters.before) ==>
              && parse(p.scheduled_date).Some? && DateOf(filters.before, parse).Some?
              && parse(p.scheduled_date).value < DateOf(filters.before, parse).value
    ensures Truthy(filters.after) && parse(p.scheduled_date) == DateOf(filters.after, parse) ==>
              p !in ApplyFilters(pending, filters, parse).value
    ensures Truthy(filters.before) && parse(p.scheduled_date) == DateOf(filters.before, parse) ==>
              p !in ApplyFilters(pending, filters, parse).value
  {
    ApplyFiltersIsFilter(pending, filters, parse);
  }

  /** An `after` or `before` that does not parse compares false with every
      date, so nothing survives. */
  lemma {:induction false} UnparseableBoundEmptiesResult(pending: seq<Payment>, filters: Filters, parse: DateParser)
    requires RecipientUsable(filters)
    requires (Truthy(filters.after) && DateOf(filters.after, parse).None?)
          || (Truthy(filters.before) && DateOf(filters.before, parse).None?)
    ensures ApplyFilters(pending, filters, parse) == Success([])
  {
    ApplyFiltersIsFilter(pending, filters, parse);
    FilterKeepsNone(pending, MatchKeep(filters, parse));
  }

  /** The exact-date filter keeps the payments whose date string equals the
      filter string, and only those. */
  lemma {:induction false} DateFilterIsStringEquality(pending: seq<Payment>, d: string, parse: DateParser)
    requires d != ""
    ensures ApplyFilters(pending, NoFilters.(date := Str(d)), parse).value
            == Filter(pending, (p: Payment) => p.scheduled_date == d)
  {
    ApplyFiltersIsFilter(pending, NoFilters.(date := Str(d)), parse);
    FilterAgrees(pending, MatchKeep(NoFilters.(date := Str(d)), parse), (p: Payment) => p.scheduled_date == d);
  }

  /** `data.find(payment => payment.id === id) || null`. */
  function FindById(data: seq<Payment>, id: string): (r: Option<Payment>)
    ensures r.Some? ==> r.value in data && r.value.id == id
    ensures r.None? <==> forall p :: p in data ==> p.id != id
  {
    if data == [] then None
    else if data[0].id == id then Some(data[0])
    else FindById(data[1..], id)
  }

  /** The lookup returns the first entry carrying the id. */
  lemma {:induction false} FindByIdIsFirst(data: seq<Payment>, id: string, i: nat)
    requires i < |data| && data[i].id == id
    requires forall j :: 0 <= j < i ==> data[j].id != id
    ensures FindById(data, id) == Some(data[i])
  {
    if i > 0 {
      FindByIdIsFirst(data[1..], id, i - 1);
    }
  }

  /** `getPaymentById`: a key lookup on the table in Lambda mode, the first
      local entry with the id otherwise; the local branch never fails and
      gives `null` when nothing matches. */
  function GetPaymentById(id: string, options: Options, world: World): (r: Result<Option<Payment>>)
    ensures !UsesLambda(options, world) ==> r.Success?
    ensures !UsesLambda(options, world) ==>
              (r.value.None? <==> forall p :: p in LocalData(options, world) ==> p.id != id)
    ensures !UsesLambda(options, world) && r.value.Some? ==>
              r.value.value in LocalData(options, world) && r.value.value.id == id
    ensures !UsesLambda(options, world) ==> r == Success(FindById(LocalData(options, world), id))
    ensures UsesLambda(options, world) ==> r == world.remote.get(TableName(world.env), id)
  {
    if UsesLambda(options, world) then
      world.remote.get(TableName(world.env), id)
    else
      Success(FindById(LocalData(options, world), id))
  }
}
