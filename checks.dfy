/** Early-return validation chains. Each submit handler of the source tests
    its conditions one after another and stops at the first that fails; this
    module gives that shape an independent, list-based reading. */
module Checks {
  import opened Wrappers

  /** One test of a chain: whether it passed, and what it reports if not. */
  datatype Check<E> = Check(passed: bool, error: E)

  /** The error of the first failing check, or None when all pass. */
  function FirstFailure<E>(checks: seq<Check<E>>): (r: Option<E>)
    ensures r == None <==> forall i :: 0 <= i < |checks| ==> checks[i].passed
  {
    if checks == [] then None
    else if !checks[0].passed then Some(checks[0].error)
    else FirstFailure(checks[1..])
  }

  /** Reading FirstFailure by position: the reported error is that of the
      check at index k exactly when k fails and every earlier check passes. */
  lemma {:induction false} FirstFailureAt<E>(checks: seq<Check<E>>, k: nat)
    requires k < |checks|
    requires !checks[k].passed
    requires forall i :: 0 <= i < k ==> checks[i].passed
    ensures FirstFailure(checks) == Some(checks[k].error)
  {
    if k > 0 {
      assert checks[0].passed;
      FirstFailureAt(checks[1..], k - 1);
    }
  }

  /** Conversely, a reported error comes from a failing check all of whose
      predecessors passed. */
  lemma {:induction false} FirstFailureWitness<E>(checks: seq<Check<E>>)
    requires FirstFailure(checks).Some?
    ensures exists k :: 0 <= k < |checks| && !checks[k].passed
                        && (forall i :: 0 <= i < k ==> checks[i].passed)
                        && FirstFailure(checks) == Some(checks[k].error)
  {
    if !checks[0].passed {
      assert !checks[0].passed && FirstFailure(checks) == Some(checks[0].error);
    } else {
      FirstFailureWitness(checks[1..]);
      var k :| 0 <= k < |checks[1..]| && !checks[1..][k].passed
               && (forall i :: 0 <= i < k ==> checks[1..][i].passed)
               && FirstFailure(checks[1..]) == Some(checks[1..][k].error);
      assert !checks[k + 1].passed;
      assert forall i :: 0 <= i < k + 1 ==> checks[i].passed by {
        forall i | 0 <= i < k + 1 ensures checks[i].passed {
          if i > 0 { assert checks[i] == checks[1..][i - 1]; }
        }
      }
    }
  }

  /** A chain made of two chains reports the first one's failure if it
      has one, and the second one's otherwise. */
  lemma {:induction false} FirstFailureAppend<E>(a: seq<Check<E>>, b: seq<Check<E>>)
    ensures FirstFailure(a + b) == if FirstFailure(a).Some? then FirstFailure(a) else FirstFailure(b)
  {
    if a != [] {
      assert (a + b)[1..] == a[1..] + b;
      FirstFailureAppend(a[1..], b);
    } else {
      assert a + b == b;
    }
  }
}
