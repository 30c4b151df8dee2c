/** What the send and the receive side of a socket share. */
module SocketTypes {

  type Byte = bv8

  /** An error code other than NO_ERROR. */
  type ErrorCode = e: nat | e > 0 witness 1

  datatype Platform = Windows | Posix

  /** One answer of the operating system to a call: what it grants, or that the call would block, or an
      error, which leaves `length` in the length output. */
  datatype Answer<T> = Grants(grant: T) | WouldBlock | Fails(error: ErrorCode, length: nat)

  /** `rest` is what is left of a script of answers once a prefix of it has been used up. */
  ghost predicate IsRest<T>(rest: seq<T>, script: seq<T>) {
    |rest| <= |script| && rest == script[|script| - |rest|..]
  }

  /** The prefix that has been used up. */
  function Used<T>(script: seq<T>, rest: seq<T>): seq<T>
    requires |rest| <= |script|
  {
    script[..|script| - |rest|]
  }

  lemma UsedConcat<T>(script: seq<T>, middle: seq<T>, rest: seq<T>)
    requires IsRest(middle, script) && IsRest(rest, middle)
    ensures IsRest(rest, script) && Used(script, rest) == Used(script, middle) + Used(middle, rest)
  {
  }

  // ---------------------------------------------------------------- failures, as the platforms read them

  /** On Windows a length output of 0 reads as "would block" before the error code is looked at. */
  predicate ReadsAsFailure<T>(platform: Platform, a: Answer<T>) {
    a.Fails? && !(platform == Windows && a.length == 0)
  }

  /** No failure hides behind a zero length output. */
  ghost predicate Frank<T>(answers: seq<Answer<T>>) {
    forall i :: 0 <= i < |answers| && answers[i].Fails? ==> answers[i].length != 0
  }

  lemma FrankParts<T>(a: seq<Answer<T>>, b: seq<Answer<T>>)
    requires Frank(a + b)
    ensures Frank(a) && Frank(b)
  {
    assert forall i :: 0 <= i < |a| ==> (a + b)[i] == a[i];
    assert forall i :: 0 <= i < |b| ==> (a + b)[|a| + i] == b[i];
  }

  /** The codes of the answers the platform reads as failures, in order. */
  function Failures<T>(platform: Platform, answers: seq<Answer<T>>): seq<ErrorCode> {
    if answers == [] then []
    else (if ReadsAsFailure(platform, answers[0]) then [answers[0].error] else []) + Failures(platform, answers[1..])
  }

  lemma OneFailure<T>(platform: Platform, a: Answer<T>)
    ensures Failures(platform, [a]) == if ReadsAsFailure(platform, a) then [a.error] else []
  {
    assert [a][1..] == [];
  }

  lemma {:induction false} FailuresConcat<T>(platform: Platform, a: seq<Answer<T>>, b: seq<Answer<T>>)
    ensures Failures(platform, a + b) == Failures(platform, a) + Failures(platform, b)
  {
    if a == [] {
      assert a + b == b;
    } else {
      assert (a + b)[1..] == a[1..] + b;
      FailuresConcat(platform, a[1..], b);
    }
  }

  /** The platforms see the same failures only among frank answers. */
  lemma {:induction false} SameFailures<T>(answers: seq<Answer<T>>)
    ensures |Failures(Windows, answers)| <= |Failures(Posix, answers)|
    ensures |Failures(Windows, answers)| == |Failures(Posix, answers)| ==> Frank(answers)
  {
    if answers != [] {
      SameFailures(answers[1..]);
      assert answers == [answers[0]] + answers[1..];
    }
  }
}
