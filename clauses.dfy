/**
 * Python's `try ... except A ... except B ... except Exception` chain: the clauses are tried
 * in order and the first whose class the exception belongs to handles it. This module is the
 * reference definition the hand-written status mappings are proved against.
 */
module Clauses {
  import opened Http

  /** The exception classes named in the gateway's `except` clauses. */
  datatype ErrorClass = RequestErrorClass | TimeoutClass | StatusErrorClass | AnyException

  /** Whether an exception belongs to a class; `Exception` catches everything. */
  predicate Matches(c: ErrorClass, f: Fault) {
    match c
    case RequestErrorClass => f.isRequestError
    case TimeoutClass => f.isTimeout
    case StatusErrorClass => f.isStatusError
    case AnyException => true
  }

  /** The index of the clause that handles `f`, or `|chain|` when no clause does. */
  function FirstMatch(chain: seq<ErrorClass>, f: Fault): (i: nat)
    ensures i <= |chain|
    ensures i < |chain| ==> Matches(chain[i], f)
    ensures forall j :: 0 <= j < i && j < |chain| ==> !Matches(chain[j], f)
  {
    if |chain| == 0 then 0
    else if Matches(chain[0], f) then 0
    else 1 + FirstMatch(chain[1..], f)
  }

  /** A chain that ends in `except Exception` handles every exception. */
  lemma CatchAllHandles(chain: seq<ErrorClass>, f: Fault)
    requires |chain| > 0 && chain[|chain| - 1] == AnyException
    ensures FirstMatch(chain, f) < |chain|
  {
  }
}
