/** Small datatypes and sequence facts shared by every part of the model. */
module Common {

  datatype Option<+T> = None | Some(value: T)

  /** What one read of the API server can answer. An error means the read told nothing. */
  datatype Answer<+T> = Found(value: T) | NotFound | Failed

  /** The namespace in which the operator keeps the resources of cluster-scoped volumes. */
  const OPERATION_NAMESPACE := "shared-volume-controller"

  /** The name of the claim and of the volume of a reference in the namespace of a pod. */
  function Joined(reference: string, namespace: string): string {
    reference + "-" + namespace
  }

  ghost predicate Distinct<T>(s: seq<T>) {
    forall i, j :: 0 <= i < j < |s| ==> s[i] != s[j]
  }

  /** The strings with no occurrence of c. */
  ghost predicate Free(c: char, s: string) {
    c !in s
  }

  /** A separator that the left parts do not contain splits a string in one way only. */
  lemma SplitUnique(a: string, b: string, c: char, x: string, y: string)
    requires c !in a && c !in x
    requires a + [c] + b == x + [c] + y
    ensures a == x && b == y
  {
    var s := a + [c] + b;
    assert s == x + [c] + y;
    assert s[|a|] == c && s[|x|] == c;
    assert forall i :: 0 <= i < |a| ==> s[i] == a[i];
    assert forall i :: 0 <= i < |x| ==> s[i] == x[i];
    assert a == s[..|a|] && x == s[..|x|];
    assert b == s[|a| + 1..] && y == s[|x| + 1..];
  }

  /** The mirror image: the right parts do not contain the separator. */
  lemma SplitUniqueRight(a: string, b: string, c: char, x: string, y: string)
    requires c !in b && c !in y
    requires a + [c] + b == x + [c] + y
    ensures a == x && b == y
  {
    var s := a + [c] + b;
    assert s == x + [c] + y;
    assert s[|a|] == c && s[|x|] == c;
    assert forall i :: |a| < i < |s| ==> s[i] == b[i - |a| - 1];
    assert forall i :: |x| < i < |s| ==> s[i] == y[i - |x| - 1];
    assert a == s[..|a|] && x == s[..|x|];
    assert b == s[|a| + 1..] && y == s[|x| + 1..];
  }

  lemma ConcatAssociates<T>(a: seq<T>, b: seq<T>, c: seq<T>)
    ensures a + (b + c) == (a + b) + c
  {
  }

  /** Equal prefixes can be cancelled. */
  lemma CancelLeft(p: string, a: string, b: string)
    requires p + a == p + b
    ensures a == b
  {
    assert a == (p + a)[|p|..] && b == (p + b)[|p|..];
  }

  /** Equal suffixes can be cancelled. */
  lemma CancelRight(a: string, b: string, s: string)
    requires a + s == b + s
    ensures a == b
  {
    assert |a + s| == |b + s|;
    assert a == (a + s)[..|a|] && b == (b + s)[..|b|];
  }
}
