/** How the eight failure conditions relate to one another, and what a few
    concrete calls do. */
module CheckLaws {
  import opened JsValues
  import opened JsBuiltins
  import opened OeaAssertion

  /** For any pair, exactly one of `assert` and `isNotEqual` records a failure. */
  lemma AssertAndIsNotEqualComplementary(actual: Value, expected: Value, details: AssertMessage, message: string)
    ensures (Recorded(AssertCheck(actual, expected, details)) == [])
            != (Recorded(IsNotEqualCheck(actual, expected, message)) == [])
  {
  }

  /** Strict equality does not coerce: 5 and 5 are equal, 5 and "5" are not. */
  lemma AssertIsStrict()
    ensures !AssertFails(Num(5), Num(5))
    ensures AssertFails(Num(5), Str("5"))
    ensures AssertFails(Null, Undefined)
  {
  }

  /** Equal numbers fail both ordering checks; distinct numbers fail exactly one. */
  lemma OrderingChecks(actual: int, expected: int)
    ensures actual == expected ==> IsGreaterThanFails(actual, expected) && IsLessThanFails(actual, expected)
    ensures actual != expected ==> IsGreaterThanFails(actual, expected) != IsLessThanFails(actual, expected)
  {
  }

  /** `isTrue` fails exactly on false and `isFalse` exactly on true, so for any
      flag exactly one of the two records a failure. */
  lemma BooleanChecks(value: bool)
    ensures IsTrueFails(value) <==> value == false
    ensures IsFalseFails(value) <==> value == true
    ensures IsTrueFails(value) != IsFalseFails(value)
  {
  }

  /** `isNotNull` lets 0, false and "" through. */
  lemma IsNotNullPassesFalsyValues()
    ensures !IsNotNullFails(Num(0)) && !IsNotNullFails(Bool(false)) && !IsNotNullFails(Str(""))
    ensures IsNotNullFails(Null) && IsNotNullFails(Undefined)
  {
  }

  /** `contains("hello world", "world")` passes. */
  lemma ContainsPasses()
    ensures !ContainsFails(Str("hello world"), Str("world"))
  {
    assert "hello world"[6..11] == "world";
    assert OccursAt("hello world", "world", 6);
  }

  /** `contains("hello", "world")` fails. */
  lemma ContainsFailsOnDifferentWord()
    ensures ContainsFails(Str("hello"), Str("world"))
  {
    forall k: nat ensures !OccursAt("hello", "world", k) {
      if k == 0 {
        assert "hello"[0] != "world"[0];
      }
    }
  }

  /** The record of a failing `contains` says that the actual text does not
      contain the expected one. */
  lemma ContainsRecordNamesBoth(message: string)
    ensures Includes(RecordOf(ContainsCheck(Str("hello"), Str("world"), message)).message,
                     "\"hello\" does not contain \"world\"")
  {
    var rest := "\"hello\" does not contain \"world\"";
    var front := message + "\n" + TippingHand + " Actual: ";
    assert RecordOf(ContainsCheck(Str("hello"), Str("world"), message)).message == front + rest;
    assert Includes(rest, rest);
    IncludesExtendLeft(front, rest, rest);
  }

  /** Numbers can be equal in text and still differ strictly: `assert(5, "5")`
      fails, and its record cannot tell which side was the string. */
  lemma AssertOfNumberAndNumeral(details: AssertMessage)
    ensures Recorded(AssertCheck(Num(5), Str("5"), details)) != []
    ensures RecordOf(AssertCheck(Num(5), Str("5"), details))
            == RecordOf(AssertCheck(Str("5"), Num(5), details))
  {
    RenderForgetsType();
  }

  /** The record of `assert` does not depend on its message object at all. */
  lemma AssertRecordIgnoresMessage(actual: Value, expected: Value, d1: AssertMessage, d2: AssertMessage)
    ensures RecordOf(AssertCheck(actual, expected, d1)) == RecordOf(AssertCheck(actual, expected, d2))
  {
  }

  /** Four sample calls that pass record nothing. */
  lemma SamplePassingChecks()
    ensures Recorded(AssertCheck(Num(5), Num(5), AssertMessage(None, "equal"))) == []
    ensures Recorded(ContainsCheck(Str("hello world"), Str("world"), "substring")) == []
    ensures Recorded(IsGreaterThanCheck(5, 3, "greater")) == []
    ensures Recorded(IsNotNullCheck(Num(0), "zero")) == []
  {
    ContainsPasses();
  }
}
