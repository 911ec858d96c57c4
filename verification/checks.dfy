/** Validators in the source test a fixed list of rules one after the other
    and push the error of every rule that fails, without stopping at the
    first. `Failures` is that behaviour over a list of rules. */
module Checks {
  /** One rule: whether it fails on the input at hand, and its error. */
  datatype Check<E> = Check(fails: bool, error: E)

  /** What one rule reports: its error when it fails, nothing otherwise. */
  function Reported<E>(check: Check<E>): seq<E>
  {
    if check.fails then [check.error] else []
  }

  /** Tests one rule and pushes its error onto `errors` when it fails. */
  method Report<E>(errors: seq<E>, check: Check<E>) returns (r: seq<E>)
    ensures r == errors + Reported(check)
  {
    r := errors;
    if check.fails {
      r := r + [check.error];
    }
  }

  /** The errors of the failing rules, in rule order. */
  function Failures<E>(checks: seq<Check<E>>): (r: seq<E>)
    ensures |r| <= |checks|
  {
    if checks == [] then [] else Reported(checks[0]) + Failures(checks[1..])
  }

  lemma FailuresSingle<E>(check: Check<E>)
    ensures Failures([check]) == Reported(check)
  {
    assert [check][1..] == [];
  }

  /** No error is reported exactly when every rule passes. */
  lemma {:induction false} NoFailuresIffAllPass<E>(checks: seq<Check<E>>)
    ensures Failures(checks) == [] <==> forall i :: 0 <= i < |checks| ==> !checks[i].fails
  {
    if checks != [] {
      NoFailuresIffAllPass(checks[1..]);
      assert forall i :: 1 <= i < |checks| ==> checks[i] == checks[1..][i - 1];
    }
  }

  /** Every failing rule contributes its error, and every reported error
      comes from a failing rule. */
  lemma {:induction false} FailuresSoundAndComplete<E>(checks: seq<Check<E>>)
    ensures forall i :: 0 <= i < |checks| && checks[i].fails ==> checks[i].error in Failures(checks)
    ensures forall e :: e in Failures(checks) ==> exists i :: 0 <= i < |checks| && checks[i].fails && checks[i].error == e
  {
    if checks != [] {
      FailuresSoundAndComplete(checks[1..]);
      forall e | e in Failures(checks)
        ensures exists i :: 0 <= i < |checks| && checks[i].fails && checks[i].error == e
      {
        if checks[0].fails && e == checks[0].error {
        } else {
          assert e in Failures(checks[1..]);
          var j :| 0 <= j < |checks[1..]| && checks[1..][j].fails && checks[1..][j].error == e;
          assert checks[j + 1] == checks[1..][j];
        }
      }
      forall i | 0 <= i < |checks| && checks[i].fails
        ensures checks[i].error in Failures(checks)
      {
        if i > 0 {
          assert checks[i] == checks[1..][i - 1];
        }
      }
    }
  }

  /** Rules of two lists report the errors of the first list, then those
      of the second. */
  lemma {:induction false} FailuresAppend<E>(a: seq<Check<E>>, b: seq<Check<E>>)
    ensures Failures(a + b) == Failures(a) + Failures(b)
  {
    if a != [] {
      assert (a + b)[1..] == a[1..] + b;
      FailuresAppend(a[1..], b);
    } else {
      assert a + b == b;
    }
  }
}
