/** The soft-assertion collector: eight checks that each append one
    formatted record to a shared buffer when their condition fails,
    `assertAll`, which surfaces every collected record at once, and the
    report text it throws. A thrown `Error` is modelled as the Outcome
    value `Thrown(message)`. */
module OeaAssertion {
  import opened JsValues
  import opened JsBuiltins

  /** One collected failure, `{ message: string }`. */
  datatype ErrorRecord = ErrorRecord(message: string)

  datatype Option<T> = None | Some(value: T)

  /** The object `assert` takes as its message, `{ page?: string; errorMsg: string }`. */
  datatype AssertMessage = AssertMessage(page: Option<string>, errorMsg: string)

  /** How a call ends: it returns normally, or it throws `new Error(message)`. */
  datatype Outcome = Returned | Thrown(message: string)

  // The emoji decorating the record templates.
  const Knife := "\U{1F52A}"
  const GestureNo := "\U{1F645}\U{1F3FC}"
  const TippingHand := "\U{1F481}\U{1F3FC}"
  const CrossMark := "\U{274C}"

  /** What `${m}` yields for a plain object such as an AssertMessage. */
  const ObjectText := "[object Object]"

  const ReportHeader := "Assertion Errors(click to expand Allure report):\n"

  // ---------------------------------------------------------------------
  // The checks as values: what was called, when it fails, what it records.

  datatype Check =
    | AssertCheck(actual: Value, expected: Value, details: AssertMessage)
    | ContainsCheck(actual: Value, expected: Value, message: string)
    | IsTrueCheck(flag: bool, message: string)
    | IsFalseCheck(flag: bool, message: string)
    | IsNotEqualCheck(actual: Value, expected: Value, message: string)
    | IsGreaterThanCheck(actualNumber: int, expectedNumber: int, message: string)
    | IsLessThanCheck(actualNumber: int, expectedNumber: int, message: string)
    | IsNotNullCheck(value: Value, message: string)

  /** `actual !== expected`: strict, so a number never equals a string. */
  function AssertFails(actual: Value, expected: Value): (r: bool)
    ensures r <==> actual != expected
  {
    !StrictEquals(actual, expected)
  }

  /** `!String(actual).includes(String(expected))`: no offset of the actual
      text holds the expected text; an empty expected text never fails. */
  function ContainsFails(actual: Value, expected: Value): (r: bool)
    ensures r <==> !exists k: nat :: OccursAt(Render(actual), Render(expected), k)
    ensures Render(expected) == "" ==> !r
  {
    IncludesIff(Render(actual), Render(expected));
    !Includes(Render(actual), Render(expected))
  }

  /** `!value` */
  function IsTrueFails(value: bool): (r: bool)
    ensures r <==> value != true
  {
    !value
  }

  /** `value` */
  function IsFalseFails(value: bool): (r: bool)
    ensures r <==> value != false
  {
    value
  }

  /** `actual === expected`: exactly when `assert` on the same pair passes. */
  function IsNotEqualFails(actual: Value, expected: Value): (r: bool)
    ensures r <==> !AssertFails(actual, expected)
  {
    StrictEquals(actual, expected)
  }

  /** `actual <= expected` */
  function IsGreaterThanFails(actual: int, expected: int): (r: bool)
    ensures r <==> !(actual > expected)
  {
    actual <= expected
  }

  /** `actual >= expected` */
  function IsLessThanFails(actual: int, expected: int): (r: bool)
    ensures r <==> !(actual < expected)
  {
    actual >= expected
  }

  /** `value === null || value === undefined`: only the two absent values
      fail; 0, false and "" pass. */
  function IsNotNullFails(value: Value): (r: bool)
    ensures r <==> value.Null? || value.Undefined?
  {
    StrictEquals(value, Null) || StrictEquals(value, Undefined)
  }

  function Fails(c: Check): bool {
    match c
    case AssertCheck(a, e, _) => AssertFails(a, e)
    case ContainsCheck(a, e, _) => ContainsFails(a, e)
    case IsTrueCheck(v, _) => IsTrueFails(v)
    case IsFalseCheck(v, _) => IsFalseFails(v)
    case IsNotEqualCheck(a, e, _) => IsNotEqualFails(a, e)
    case IsGreaterThanCheck(a, e, _) => IsGreaterThanFails(a, e)
    case IsLessThanCheck(a, e, _) => IsLessThanFails(a, e)
    case IsNotNullCheck(v, _) => IsNotNullFails(v)
  }

  /** The text a check records when it fails. Every check except `assert`
      begins its record with the caller's message; `assert` interpolates its
      message object, which renders as "[object Object]", so the caller's
      errorMsg never reaches the record. */
  function RecordOf(c: Check): (r: ErrorRecord)
    ensures !c.AssertCheck? ==> c.message <= r.message
    ensures c.AssertCheck? ==> Knife + ObjectText <= r.message
  {
    match c
    case AssertCheck(a, e, m) =>
      ErrorRecord(Knife + ObjectText + "\n" + GestureNo + " Actual: " + Render(a)
                  + "\n" + TippingHand + " Expected: " + Render(e))
    case ContainsCheck(a, e, m) =>
      ErrorRecord(m + "\n" + TippingHand + " Actual: \"" + Render(a)
                  + "\" does not contain \"" + Render(e) + "\"")
    case IsTrueCheck(v, m) =>
      ErrorRecord(m + "\n" + TippingHand + " Expected: true, but got: " + BoolToString(v))
    case IsFalseCheck(v, m) =>
      ErrorRecord(m + "\n" + TippingHand + " Expected: false, but got: " + BoolToString(v))
    case IsNotEqualCheck(a, e, m) =>
      ErrorRecord(m + "\n" + TippingHand + " Values were not supposed to be the same. Got: "
                  + Render(a))
    case IsGreaterThanCheck(a, e, m) =>
      ErrorRecord(m + "\n" + TippingHand + " " + NumberToString(a)
                  + " is not greater than " + NumberToString(e))
    case IsLessThanCheck(a, e, m) =>
      ErrorRecord(m + "\n" + TippingHand + " " + NumberToString(a)
                  + " is not less than " + NumberToString(e))
    case IsNotNullCheck(v, m) =>
      ErrorRecord(m + "\n" + TippingHand + " Received value is: " + Render(v)
                  + ". It should not be null or undefined")
  }

  /** What one call of a check appends to the buffer: its record when it
      fails, nothing when it passes. */
  function Recorded(c: Check): (r: seq<ErrorRecord>)
    ensures |r| <= 1
    ensures r != [] <==> Fails(c)
    ensures r != [] ==> r[0] == RecordOf(c)
  {
    if Fails(c) then [RecordOf(c)] else []
  }

  /** Every record shows the values its check was given: the rendered actual
      value of every check, and the expected value of every check that
      prints one (`isNotEqual` prints only the actual value). */
  lemma RecordShowsValues(c: Check)
    ensures (c.AssertCheck? || c.ContainsCheck? || c.IsNotEqualCheck?) ==>
              Includes(RecordOf(c).message, Render(c.actual))
    ensures (c.AssertCheck? || c.ContainsCheck?) ==>
              Includes(RecordOf(c).message, Render(c.expected))
    ensures (c.IsTrueCheck? || c.IsFalseCheck?) ==>
              Includes(RecordOf(c).message, BoolToString(c.flag))
    ensures (c.IsGreaterThanCheck? || c.IsLessThanCheck?) ==>
              Includes(RecordOf(c).message, NumberToString(c.actualNumber))
              && Includes(RecordOf(c).message, NumberToString(c.expectedNumber))
    ensures c.IsNotNullCheck? ==> Includes(RecordOf(c).message, Render(c.value))
  {
    match c
    case AssertCheck(a, e, d) => AssertRecordShowsValues(a, e, d);
    case ContainsCheck(a, e, m) => ContainsRecordShowsValues(a, e, m);
    case IsTrueCheck(v, m) => BooleanRecordShowsValue(v, m);
    case IsFalseCheck(v, m) => BooleanRecordShowsValue(v, m);
    case IsNotEqualCheck(a, e, m) =>
      var front := m + "\n" + TippingHand + " Values were not supposed to be the same. Got: ";
      assert RecordOf(c).message == front + Render(a) + "";
      IncludesMiddle(front, Render(a), "");
    case IsGreaterThanCheck(a, e, m) => OrderingRecordShowsValues(a, e, m);
    case IsLessThanCheck(a, e, m) => OrderingRecordShowsValues(a, e, m);
    case IsNotNullCheck(v, m) =>
      var front := m + "\n" + TippingHand + " Received value is: ";
      assert RecordOf(c).message == front + Render(v) + ". It should not be null or undefined";
      IncludesMiddle(front, Render(v), ". It should not be null or undefined");
  }

  lemma AssertRecordShowsValues(a: Value, e: Value, d: AssertMessage)
    ensures Includes(RecordOf(AssertCheck(a, e, d)).message, Render(a))
    ensures Includes(RecordOf(AssertCheck(a, e, d)).message, Render(e))
  {
    AssertRecordParts(a, e, d);
    IncludesBothParts(Knife + ObjectText + "\n" + GestureNo + " Actual: ", Render(a),
                      "\n" + TippingHand + " Expected: ", Render(e));
  }

  /** The record of `assert`, grouped as fixed text, actual, fixed text, expected. */
  lemma AssertRecordParts(a: Value, e: Value, d: AssertMessage)
    ensures RecordOf(AssertCheck(a, e, d)).message
            == (Knife + ObjectText + "\n" + GestureNo + " Actual: ") + Render(a)
               + ("\n" + TippingHand + " Expected: ") + Render(e)
  {
  }

  lemma ContainsRecordShowsValues(a: Value, e: Value, m: string)
    ensures Includes(RecordOf(ContainsCheck(a, e, m)).message, Render(a))
    ensures Includes(RecordOf(ContainsCheck(a, e, m)).message, Render(e))
  {
    var text := RecordOf(ContainsCheck(a, e, m)).message;
    var front := m + "\n" + TippingHand + " Actual: \"";
    var middle := "\" does not contain \"";
    assert text == front + Render(a) + (middle + Render(e) + "\"");
    IncludesMiddle(front, Render(a), middle + Render(e) + "\"");
    assert text == (front + Render(a) + middle) + Render(e) + "\"";
    IncludesMiddle(front + Render(a) + middle, Render(e), "\"");
  }

  lemma BooleanRecordShowsValue(v: bool, m: string)
    ensures Includes(RecordOf(IsTrueCheck(v, m)).message, BoolToString(v))
    ensures Includes(RecordOf(IsFalseCheck(v, m)).message, BoolToString(v))
  {
    var whenTrue := m + "\n" + TippingHand + " Expected: true, but got: ";
    var whenFalse := m + "\n" + TippingHand + " Expected: false, but got: ";
    assert RecordOf(IsTrueCheck(v, m)).message == whenTrue + BoolToString(v) + "";
    assert RecordOf(IsFalseCheck(v, m)).message == whenFalse + BoolToString(v) + "";
    IncludesMiddle(whenTrue, BoolToString(v), "");
    IncludesMiddle(whenFalse, BoolToString(v), "");
  }

  lemma OrderingRecordShowsValues(a: int, e: int, m: string)
    ensures Includes(RecordOf(IsGreaterThanCheck(a, e, m)).message, NumberToString(a))
    ensures Includes(RecordOf(IsGreaterThanCheck(a, e, m)).message, NumberToString(e))
    ensures Includes(RecordOf(IsLessThanCheck(a, e, m)).message, NumberToString(a))
    ensures Includes(RecordOf(IsLessThanCheck(a, e, m)).message, NumberToString(e))
  {
    var front := m + "\n" + TippingHand + " ";
    var greater := " is not greater than ";
    var less := " is not less than ";
    var g := RecordOf(IsGreaterThanCheck(a, e, m)).message;
    var l := RecordOf(IsLessThanCheck(a, e, m)).message;
    assert g == front + NumberToString(a) + (greater + NumberToString(e));
    assert g == (front + NumberToString(a) + greater) + NumberToString(e) + "";
    assert l == front + NumberToString(a) + (less + NumberToString(e));
    assert l == (front + NumberToString(a) + less) + NumberToString(e) + "";
    IncludesMiddle(front, NumberToString(a), greater + NumberToString(e));
    IncludesMiddle(front + NumberToString(a) + greater, NumberToString(e), "");
    IncludesMiddle(front, NumberToString(a), less + NumberToString(e));
    IncludesMiddle(front + NumberToString(a) + less, NumberToString(e), "");
  }

  // ---------------------------------------------------------------------
  // The report.

  /** Entry `index` (0-based) of the report, labelled `index + 1`. */
  function EntryText(index: nat, record: ErrorRecord): (r: string)
    ensures Includes(r, record.message)
    ensures r != [] && r[|r| - 1] == '\n'
  {
    IncludesMiddle(CrossMark + " [Assertion " + NumberToString(index + 1) + "]: \n", record.message, "\n");
    CrossMark + " [Assertion " + NumberToString(index + 1) + "]: \n" + record.message + "\n"
  }

  /** `records.map(({ message }, index) => ...)` */
  function Entries(records: seq<ErrorRecord>): (r: seq<string>)
    ensures |r| == |records|
  {
    MapIndexed(records, EntryText)
  }

  /** The message of the Error that printResults throws. */
  function ReportText(records: seq<ErrorRecord>): (r: string)
    ensures ReportHeader <= r
    ensures records == [] ==> r == ReportHeader
  {
    ReportHeader + Join(Entries(records), "\n")
  }

  /** printResults: formats the records and throws, whatever they are. */
  function PrintResults(records: seq<ErrorRecord>): (r: Outcome)
    ensures r.Thrown?
    ensures ReportHeader <= r.message
  {
    Thrown(ReportText(records))
  }

  lemma ReportOfOne(record: ErrorRecord)
    ensures ReportText([record]) == ReportHeader + EntryText(0, record)
  {
    assert Entries([record]) == [EntryText(0, record)];
  }

  /** A further record extends the report by a separator and one entry,
      numbered after the existing ones; the earlier text stays as it was. */
  lemma ReportSnoc(records: seq<ErrorRecord>, record: ErrorRecord)
    requires records != []
    ensures ReportText(records + [record])
            == ReportText(records) + "\n" + EntryText(|records|, record)
    ensures ReportText(records) <= ReportText(records + [record])
  {
    var entry := EntryText(|records|, record);
    MapIndexedSnoc(records, EntryText, record);
    JoinSnoc(Entries(records), "\n", entry);
    AppendRegroup(ReportHeader, Join(Entries(records), "\n"), "\n", entry);
  }

  /** `a + (b + c + d)` is `(a + b) + c + d`, which begins with `a + b`. */
  lemma AppendRegroup(a: string, b: string, c: string, d: string)
    ensures a + (b + c + d) == a + b + c + d
    ensures a + b <= a + b + c + d
  {
  }

  /** The report of the first k records is the beginning of the report of
      all of them: entries appear in insertion order. */
  lemma {:induction false} ReportPrefix(records: seq<ErrorRecord>, k: nat)
    requires k <= |records|
    ensures ReportText(records[..k]) <= ReportText(records)
    decreases |records| - k
  {
    if k == 0 {
      assert records[..0] == [];
    } else if k < |records| {
      var front := records[..k];
      ReportPrefix(records, k + 1);
      assert records[..k + 1] == front + [records[k]];
      ReportSnoc(front, records[k]);
    } else {
      assert records[..k] == records;
    }
  }

  /** Every record appears in the report as its own numbered entry. */
  lemma ReportListsEveryRecord(records: seq<ErrorRecord>, i: nat)
    requires i < |records|
    ensures Includes(ReportText(records), EntryText(i, records[i]))
  {
    JoinIncludesPart(Entries(records), "\n", i);
    IncludesExtendLeft(ReportHeader, Join(Entries(records), "\n"), EntryText(i, records[i]));
  }

  /** Entries at different positions carry different "[Assertion n]" labels. */
  lemma EntryLabelsDistinct(i: nat, j: nat)
    requires i != j
    ensures NumberToString(i + 1) != NumberToString(j + 1)
  {
    if NumberToString(i + 1) == NumberToString(j + 1) {
      NumberToStringInjective(i + 1, j + 1);
    }
  }

  // ---------------------------------------------------------------------
  // The state.

  /** The module-level array `assertionErrors`, which every OeaAssertion
      instance shares. */
  class AssertionErrors {
    var errors: seq<ErrorRecord>

    /** `let assertionErrors = []` at module load. */
    constructor ()
      ensures errors == []
    {
      errors := [];
    }
  }

  class OeaAssertion {
    /** The buffer this instance appends to: the one module-level array, so
        two instances built over the same AssertionErrors share it. */
    const store: AssertionErrors

    constructor (store: AssertionErrors)
      ensures this.store == store
    {
      this.store := store;
    }

    // Each check appends its record to the end of the buffer when it fails
    // and leaves the buffer as it was when it passes; the records already
    // there are never changed or reordered.

    method Assert(actual: Value, expected: Value, message: AssertMessage)
      modifies store
      ensures store.errors == old(store.errors) + Recorded(AssertCheck(actual, expected, message))
    {
      if Fails(AssertCheck(actual, expected, message)) {
        store.errors := store.errors + [RecordOf(AssertCheck(actual, expected, message))];
      }
    }

    method Contains(actual: Value, expected: Value, message: string)
      modifies store
      ensures store.errors == old(store.errors) + Recorded(ContainsCheck(actual, expected, message))
    {
      if Fails(ContainsCheck(actual, expected, message)) {
        store.errors := store.errors + [RecordOf(ContainsCheck(actual, expected, message))];
      }
    }

    method IsTrue(value: bool, message: string)
      modifies store
      ensures store.errors == old(store.errors) + Recorded(IsTrueCheck(value, message))
    {
      if Fails(IsTrueCheck(value, message)) {
        store.errors := store.errors + [RecordOf(IsTrueCheck(value, message))];
      }
    }

    method IsFalse(value: bool, message: string)
      modifies store
      ensures store.errors == old(store.errors) + Recorded(IsFalseCheck(value, message))
    {
      if Fails(IsFalseCheck(value, message)) {
        store.errors := store.errors + [RecordOf(IsFalseCheck(value, message))];
      }
    }

    method IsNotEqual(actual: Value, expected: Value, message: string)
      modifies store
      ensures store.errors == old(store.errors) + Recorded(IsNotEqualCheck(actual, expected, message))
    {
      if Fails(IsNotEqualCheck(actual, expected, message)) {
        store.errors := store.errors + [RecordOf(IsNotEqualCheck(actual, expected, message))];
      }
    }

    method IsGreaterThan(actual: int, expected: int, message: string)
      modifies store
      ensures store.errors == old(store.errors) + Recorded(IsGreaterThanCheck(actual, expected, message))
    {
      if Fails(IsGreaterThanCheck(actual, expected, message)) {
        store.errors := store.errors + [RecordOf(IsGreaterThanCheck(actual, expected, message))];
      }
    }

    method IsLessThan(actual: int, expected: int, message: string)
      modifies store
      ensures store.errors == old(store.errors) + Recorded(IsLessThanCheck(actual, expected, message))
    {
      if Fails(IsLessThanCheck(actual, expected, message)) {
        store.errors := store.errors + [RecordOf(IsLessThanCheck(actual, expected, message))];
      }
    }

    method IsNotNull(value: Value, message: string)
      modifies store
      ensures store.errors == old(store.errors) + Recorded(IsNotNullCheck(value, message))
    {
      if Fails(IsNotNullCheck(value, message)) {
        store.errors := store.errors + [RecordOf(IsNotNullCheck(value, message))];
      }
    }

    /** assertAll: returns normally on an empty buffer; otherwise throws
        the report of every collected record, in insertion order. The
        reset that follows the call of printResults is never reached, since
        printResults always throws, so assertAll changes no state at all
        (it has no modifies clause): the buffer is the same afterwards. */
    method AssertAll() returns (r: Outcome)
      ensures store.errors == [] ==> r == Returned
      ensures store.errors != [] ==> r == Thrown(ReportText(store.errors))
    {
      if |store.errors| > 0 {
        // The Error thrown here propagates out of assertAll.
        r := PrintResults(store.errors);
      } else {
        r := Returned;
      }
    }
  }
}
