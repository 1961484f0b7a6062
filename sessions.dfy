/** A session: a series of checks on one shared buffer, then `assertAll`. */
module Sessions {
  import opened JsValues
  import opened JsBuiltins
  import opened OeaAssertion
  import opened CheckLaws

  /** The buffer after running `checks`, in order, on an empty buffer. */
  function Run(checks: seq<Check>): seq<ErrorRecord>
    decreases |checks|
  {
    if checks == [] then [] else Run(checks[..|checks| - 1]) + Recorded(checks[|checks| - 1])
  }

  /** Running two series of checks one after the other collects the records
      of the first, then those of the second. */
  lemma {:induction false} RunAppend(first: seq<Check>, second: seq<Check>)
    ensures Run(first + second) == Run(first) + Run(second)
    decreases |second|
  {
    if second == [] {
      assert first + second == first;
    } else {
      var n := |second| - 1;
      assert (first + second)[..|first + second| - 1] == first + second[..n];
      assert (first + second)[|first + second| - 1] == second[n];
      RunAppend(first, second[..n]);
    }
  }

  /** How many of `checks` fail. */
  function FailureCount(checks: seq<Check>): nat
    decreases |checks|
  {
    if checks == [] then 0
    else FailureCount(checks[..|checks| - 1]) + (if Fails(checks[|checks| - 1]) then 1 else 0)
  }

  /** The buffer holds one record per failing check. */
  lemma {:induction false} RunLength(checks: seq<Check>)
    ensures |Run(checks)| == FailureCount(checks)
    decreases |checks|
  {
    if checks != [] {
      RunLength(checks[..|checks| - 1]);
    }
  }

  /** Every record in the buffer comes from a failing check: record k is
      the record of the check at some position j that fails, with exactly k
      failing checks before it. */
  lemma {:induction false} RunOnlyFailures(checks: seq<Check>, k: nat)
    requires k < |Run(checks)|
    ensures exists j :: 0 <= j < |checks| && Fails(checks[j])
                        && k == FailureCount(checks[..j]) && Run(checks)[k] == RecordOf(checks[j])
    decreases |checks|
  {
    var n := |checks| - 1;
    assert checks[..n] + [checks[n]] == checks;
    if k < |Run(checks[..n])| {
      RunOnlyFailures(checks[..n], k);
      var j :| 0 <= j < n && Fails(checks[..n][j])
               && k == FailureCount(checks[..n][..j]) && Run(checks[..n])[k] == RecordOf(checks[..n][j]);
      assert checks[..n][..j] == checks[..j];
      assert checks[..n][j] == checks[j];
    } else {
      RunLength(checks[..n]);
      assert Fails(checks[n]);
    }
  }

  /** A failing check at position i is reported as entry number 1 + (the
      number of failing checks before it). */
  lemma FailingCheckIsReported(checks: seq<Check>, i: nat)
    requires i < |checks| && Fails(checks[i])
    ensures |Run(checks[..i])| == FailureCount(checks[..i])
    ensures |Run(checks[..i])| < |Run(checks)|
    ensures Run(checks)[|Run(checks[..i])|] == RecordOf(checks[i])
    ensures Includes(ReportText(Run(checks)), EntryText(|Run(checks[..i])|, RecordOf(checks[i])))
  {
    assert checks == checks[..i] + [checks[i]] + checks[i + 1..];
    RunAppend(checks[..i] + [checks[i]], checks[i + 1..]);
    RunAppend(checks[..i], [checks[i]]);
    assert Run([checks[i]]) == [RecordOf(checks[i])] by {
      assert [checks[i]][..0] == [];
    }
    ReportListsEveryRecord(Run(checks), |Run(checks[..i])|);
    RunLength(checks[..i]);
  }

  lemma {:induction false} NoFailureCollectsNothing(checks: seq<Check>)
    requires forall i :: 0 <= i < |checks| ==> !Fails(checks[i])
    ensures Run(checks) == []
    decreases |checks|
  {
    if checks != [] {
      var n := |checks| - 1;
      var front := checks[..n];
      forall i | 0 <= i < n ensures !Fails(front[i]) {
        assert front[i] == checks[i];
      }
      NoFailureCollectsNothing(front);
      assert !Fails(checks[n]);
    }
  }

  /** Nothing is collected exactly when no check fails. */
  lemma RunEmptyIff(checks: seq<Check>)
    ensures Run(checks) == [] <==> forall i :: 0 <= i < |checks| ==> !Fails(checks[i])
  {
    if forall i :: 0 <= i < |checks| ==> !Fails(checks[i]) {
      NoFailureCollectsNothing(checks);
    } else {
      var j :| 0 <= j < |checks| && Fails(checks[j]);
      FailingCheckIsReported(checks, j);
    }
  }

  // ---------------------------------------------------------------------
  // Client sessions against the class.

  /** Calls the check method that `c` names, with `c`'s arguments. */
  method Perform(oea: OeaAssertion, c: Check)
    modifies oea.store
    ensures oea.store.errors == old(oea.store.errors) + Recorded(c)
  {
    match c
    case AssertCheck(a, e, d) => oea.Assert(a, e, d);
    case ContainsCheck(a, e, m) => oea.Contains(a, e, m);
    case IsTrueCheck(v, m) => oea.IsTrue(v, m);
    case IsFalseCheck(v, m) => oea.IsFalse(v, m);
    case IsNotEqualCheck(a, e, m) => oea.IsNotEqual(a, e, m);
    case IsGreaterThanCheck(a, e, m) => oea.IsGreaterThan(a, e, m);
    case IsLessThanCheck(a, e, m) => oea.IsLessThan(a, e, m);
    case IsNotNullCheck(v, m) => oea.IsNotNull(v, m);
  }

  /** Runs `checks` in order through one instance, then calls `assertAll`.
      The buffer gains exactly `Run(checks)`; `assertAll` throws the report
      of the whole buffer when it is non-empty. On a fresh buffer it throws
      exactly when some check failed. */
  method RunSession(oea: OeaAssertion, checks: seq<Check>) returns (r: Outcome)
    modifies oea.store
    ensures oea.store.errors == old(oea.store.errors) + Run(checks)
    ensures r == if oea.store.errors == [] then Returned else Thrown(ReportText(oea.store.errors))
    ensures old(oea.store.errors) == [] ==>
              (r.Thrown? <==> exists i :: 0 <= i < |checks| && Fails(checks[i]))
  {
    var i := 0;
    while i < |checks|
      invariant 0 <= i <= |checks|
      invariant oea.store.errors == old(oea.store.errors) + Run(checks[..i])
    {
      Perform(oea, checks[i]);
      assert checks[..i + 1][..i] == checks[..i];
      i := i + 1;
    }
    assert checks[..|checks|] == checks;
    r := oea.AssertAll();
    RunEmptyIff(checks);
  }

  /** `isTrue(false, "A")`, `assert(1, 2, { errorMsg: "B" })` and
      `isNotNull(null, "C")`, then `assertAll`: one Error whose report holds
      three entries numbered 1, 2 and 3, in call order. */
  method ThreeFailures() returns (r: Outcome)
    ensures r == Thrown(ReportHeader
                        + EntryText(0, RecordOf(IsTrueCheck(false, "A"))) + "\n"
                        + EntryText(1, RecordOf(AssertCheck(Num(1), Num(2), AssertMessage(None, "B")))) + "\n"
                        + EntryText(2, RecordOf(IsNotNullCheck(Null, "C"))))
  {
    var store := new AssertionErrors();
    var oea := new OeaAssertion(store);
    oea.IsTrue(false, "A");
    oea.Assert(Num(1), Num(2), AssertMessage(None, "B"));
    oea.IsNotNull(Null, "C");
    var a := RecordOf(IsTrueCheck(false, "A"));
    var b := RecordOf(AssertCheck(Num(1), Num(2), AssertMessage(None, "B")));
    var c := RecordOf(IsNotNullCheck(Null, "C"));
    assert store.errors == [a, b, c];
    r := oea.AssertAll();
    ReportOfThree(a, b, c);
  }

  lemma ReportOfThree(a: ErrorRecord, b: ErrorRecord, c: ErrorRecord)
    ensures ReportText([a, b, c])
            == ReportHeader + EntryText(0, a) + "\n" + EntryText(1, b) + "\n" + EntryText(2, c)
  {
    ReportOfOne(a);
    assert [a] + [b] == [a, b] && [a, b] + [c] == [a, b, c];
    ReportSnoc([a], b);
    ReportSnoc([a, b], c);
  }

  /** Checks that all pass leave the buffer empty, and assertAll returns. */
  method AllPass() returns (r: Outcome)
    ensures r == Returned
  {
    SamplePassingChecks();
    var store := new AssertionErrors();
    var oea := new OeaAssertion(store);
    oea.Assert(Num(5), Num(5), AssertMessage(None, "equal"));
    oea.Contains(Str("hello world"), Str("world"), "substring");
    oea.IsGreaterThan(5, 3, "greater");
    oea.IsNotNull(Num(0), "zero");
    r := oea.AssertAll();
  }

  /** Two instances share the one buffer: a failure recorded through one is
      thrown by assertAll on the other. */
  method SharedBuffer() returns (r: Outcome)
    ensures r == Thrown(ReportHeader + EntryText(0, RecordOf(IsLessThanCheck(7, 3, "A"))))
  {
    var store := new AssertionErrors();
    var first := new OeaAssertion(store);
    var second := new OeaAssertion(store);
    first.IsLessThan(7, 3, "A");
    r := second.AssertAll();
    ReportOfOne(RecordOf(IsLessThanCheck(7, 3, "A")));
  }

  /** A throwing assertAll does not empty the buffer: the next assertAll
      reports the earlier failure again, ahead of the new one. */
  method NoResetAfterThrow() returns (r1: Outcome, r2: Outcome)
    ensures r1 == Thrown(ReportText([RecordOf(IsTrueCheck(false, "A"))]))
    ensures r2 == Thrown(ReportText([RecordOf(IsTrueCheck(false, "A")), RecordOf(IsFalseCheck(true, "B"))]))
  {
    var store := new AssertionErrors();
    var oea := new OeaAssertion(store);
    oea.IsTrue(false, "A");
    r1 := oea.AssertAll();
    oea.IsFalse(true, "B");
    assert store.errors == [RecordOf(IsTrueCheck(false, "A")), RecordOf(IsFalseCheck(true, "B"))];
    r2 := oea.AssertAll();
  }
}
