/** What several models share. */
module Common {

  datatype Option<+T> = None | Some(value: T)

  /** Whether an operation of the file system fails; none does when it is reliable. */
  method Fails(reliable: bool) returns (failed: bool)
    ensures reliable ==> !failed
  {
    failed := *;
    failed := failed && !reliable;
  }

  lemma FrontAndLast<T>(s: seq<T>)
    requires s != []
    ensures s == s[..|s| - 1] + [s[|s| - 1]]
    ensures multiset(s) == multiset(s[..|s| - 1]) + multiset{s[|s| - 1]}
    ensures forall x :: x in s <==> x in s[..|s| - 1] || x == s[|s| - 1]
  {
    assert s == s[..|s| - 1] + [s[|s| - 1]];
  }

  lemma SubsetNotLarger<T>(a: set<T>, b: set<T>)
    requires a <= b
    ensures |a| <= |b| && (|a| == |b| ==> a == b)
  {
    assert b == a + (b - a);
  }
}
