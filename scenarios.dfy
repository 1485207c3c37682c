/** The three-payment store the data-layer tests use, and what the pipeline
    returns on it. */
module Scenarios {
  import opened Wrappers
  import opened JsRuntime
  import opened Payments
  import opened Sequences
  import opened FunctionalDataLayer

  const John := Payment("txn_001", 5000, "USD", "2025-07-26", "John Doe", "pending")
  const Jane := Payment("txn_002", 2500, "USD", "2025-10-01", "Jane Smith", "pending")
  const Bob := Payment("txn_003", 1000, "USD", "2025-09-30", "Bob Johnson", "completed")

  const Store := [John, Jane, Bob]
  const Local := Options(Some(false), Some(Store))

  /** The store's pipeline result for a filter set whose recipient, if any,
      is a string. */
  lemma {:induction false} StoreResult(filters: Filters, world: World, parse: DateParser)
    requires RecipientUsable(filters)
    ensures GetPaymentsWithFilters(filters, Local, world, parse)
            == Success((if Matches(filters, parse, John) then [John] else [])
                       + (if Matches(filters, parse, Jane) then [Jane] else []))
  {
    assert GetAllPayments(Local, world) == Success(Store);
    FilteredPaymentsSelected(filters, Local, world, parse);
    var keep := SelectedKeep(filters, parse);
    FilterStore(keep);
    assert !keep(Bob);
    assert keep(John) == Matches(filters, parse, John);
    assert keep(Jane) == Matches(filters, parse, Jane);
    var front := (if keep(John) then [John] else []) + (if keep(Jane) then [Jane] else []);
    assert front + [] == front;
    assert Filter(Store, keep) == front;
  }

  lemma JohnMatches()
    ensures Contains("john doe", "john")
    ensures !Contains("jane smith", "john")
  {
    assert "john doe"[..4] == "john";
    assert "john"[1] == 'o' && 'o' !in "jane smith";
    MissingCharacterNotContained("jane smith", "john", 'o');
  }

  /** With only a recipient set, the two pending payments match by their
      lower-cased names. */
  lemma RecipientOnly(filters: Filters, parse: DateParser, r: string)
    requires filters == NoFilters.(recipient := Str(r)) && r != ""
    ensures Matches(filters, parse, John) == Contains("john doe", Lower(r))
    ensures Matches(filters, parse, Jane) == Contains("jane smith", Lower(r))
  {
    LowerJohn();
  }

  /** `{recipient: "John"}` and `{recipient: "JOHN"}` both give John Doe's
      payment alone. */
  lemma RecipientJohn(filters: Filters, world: World, parse: DateParser)
    requires filters == NoFilters.(recipient := Str("John")) || filters == NoFilters.(recipient := Str("JOHN"))
    ensures GetPaymentsWithFilters(filters, Local, world, parse) == Success([John])
  {
    LowerJohn();
    JohnMatches();
    var r := filters.recipient.s;
    assert Lower(r) == "john";
    RecipientOnly(filters, parse, r);
    StoreResult(filters, world, parse);
    assert [John] + [] == [John];
  }

  lemma BobMatchesNoPendingRecipient()
    ensures !Contains("john doe", "bob") && !Contains("jane smith", "bob")
  {
    assert "bob"[0] == 'b' && 'b' !in "john doe" && 'b' !in "jane smith";
    MissingCharacterNotContained("john doe", "bob", 'b');
    MissingCharacterNotContained("jane smith", "bob", 'b');
  }

  lemma NoPendingPaymentToBob(filters: Filters, parse: DateParser)
    requires filters == NoFilters.(recipient := Str("Bob"))
    ensures !Matches(filters, parse, John) && !Matches(filters, parse, Jane)
  {
    LowerJohn();
    BobMatchesNoPendingRecipient();
    assert Lower(filters.recipient.s) == "bob";
  }

  /** `{recipient: "Bob"}` gives nothing: Bob's payment is completed. */
  lemma RecipientOfCompletedPayment(filters: Filters, world: World, parse: DateParser)
    requires filters == NoFilters.(recipient := Str("Bob"))
    ensures GetPaymentsWithFilters(filters, Local, world, parse) == Success([])
  {
    NoPendingPaymentToBob(filters, parse);
    StoreResult(filters, world, parse);
    var none: seq<Payment> := [];
    assert none + none == none;
  }

  /** `{after: "2025-09-29"}` gives Jane Smith's payment alone, for any date
      parser that orders the three dates as the calendar does. */
  lemma AfterSeptember29(world: World, parse: DateParser)
    requires parse("2025-09-29").Some? && parse("2025-07-26").Some? && parse("2025-10-01").Some?
    requires parse("2025-07-26").value < parse("2025-09-29").value < parse("2025-10-01").value
    ensures GetPaymentsWithFilters(NoFilters.(after := Str("2025-09-29")), Local, world, parse) == Success([Jane])
  {
    var filters := NoFilters.(after := Str("2025-09-29"));
    assert !Matches(filters, parse, John);
    assert Matches(filters, parse, Jane);
    StoreResult(filters, world, parse);
    assert [] + [Jane] == [Jane];
  }

  /** `{after: "2025-10-01"}` gives nothing: the bound is exclusive. */
  lemma AfterIsExclusive(world: World, parse: DateParser)
    requires parse("2025-07-26").Some? && parse("2025-10-01").Some?
    requires parse("2025-07-26").value < parse("2025-10-01").value
    ensures GetPaymentsWithFilters(NoFilters.(after := Str("2025-10-01")), Local, world, parse) == Success([])
  {
    var filters := NoFilters.(after := Str("2025-10-01"));
    assert !Matches(filters, parse, John);
    assert !Matches(filters, parse, Jane);
    StoreResult(filters, world, parse);
  }

  lemma LowerJohn()
    ensures Lower("John") == "john" && Lower("JOHN") == "john" && Lower("Bob") == "bob"
    ensures Lower("John Doe") == "john doe" && Lower("Jane Smith") == "jane smith"
  {
  }

  /** Filtering the store, one payment at a time. */
  lemma FilterStore(keep: Payment -> bool)
    ensures Filter(Store, keep)
            == (if keep(John) then [John] else []) + (if keep(Jane) then [Jane] else [])
               + (if keep(Bob) then [Bob] else [])
  {
    var s := Store;
    assert s[0] == John && s[1..] == [Jane, Bob];
    assert s[1..][0] == Jane && s[1..][1..] == [Bob];
    FilterSingleton(Bob, keep);
    assert Filter([Jane, Bob], keep) == (if keep(Jane) then [Jane] else []) + Filter([Bob], keep);
  }

  /** `getPendingPayments` on the store gives the two pending payments, and
      the lookup finds `txn_001` and nothing for an unknown id. */
  lemma PendingAndLookupOnStore(world: World)
    ensures GetPendingPayments(Local, world) == Success([John, Jane])
    ensures GetPaymentById("txn_001", Local, world) == Success(Some(John))
    ensures GetPaymentById("non-existent", Local, world) == Success(None)
  {
    FilterStore(IsPending);
    var none: seq<Payment> := [];
    assert [John] + [Jane] + none == [John, Jane];
    FindByIdIsFirst(Store, "txn_001", 0);
  }
}
