/**
 * The two LINQ scans the lobby queries use, over an ordered list: `SingleOrDefault`
 * with a predicate that cannot fail, and `First` with a test that may itself throw.
 */
module Scans {

  /**
   * The answer of `SingleOrDefault`: no element matches (the default, null),
   * exactly one does, or more than one does (an InvalidOperationException).
   */
  datatype Single<+T> = NoMatch | Unique(value: T) | Ambiguous

  /** `s.SingleOrDefault(p)`. */
  function SingleOrDefault<T>(s: seq<T>, p: T -> bool): (r: Single<T>)
    ensures r.NoMatch? <==> forall i :: 0 <= i < |s| ==> !p(s[i])
    ensures r.Unique? ==>
      exists i :: 0 <= i < |s| && s[i] == r.value && p(s[i]) &&
        forall j :: 0 <= j < |s| && j != i ==> !p(s[j])
    ensures r.Ambiguous? <==> exists i, j :: 0 <= i < j < |s| && p(s[i]) && p(s[j])
  {
    if s == [] then NoMatch
    else
      var rest := SingleOrDefault(s[1..], p);
      if !p(s[0]) then
        assert forall i :: 0 < i < |s| ==> s[i] == s[1..][i - 1];
        rest
      else if rest.NoMatch? then Unique(s[0])
      else
        assert exists i :: 0 < i < |s| && p(s[i]) by {
          var k :| 0 <= k < |s[1..]| && p(s[1..][k]);
          assert p(s[k + 1]);
        }
        Ambiguous
  }

  /** An element that fails the predicate can be inserted anywhere without changing the answer. */
  lemma {:induction false} SingleOrDefaultSkips<T>(s: seq<T>, k: nat, x: T, p: T -> bool)
    requires k <= |s|
    requires !p(x)
    ensures SingleOrDefault(s[..k] + [x] + s[k..], p) == SingleOrDefault(s, p)
  {
    if k == 0 {
      assert ([] + [x] + s)[1..] == s;
      assert s[..0] + [x] + s[0..] == [x] + s;
    } else {
      var t := s[..k] + [x] + s[k..];
      assert t[0] == s[0];
      assert t[1..] == s[1..][..k - 1] + [x] + s[1..][k - 1..];
      SingleOrDefaultSkips(s[1..], k - 1, x, p);
    }
  }

  /** The outcome of a predicate that may throw: true, false, or an exception. */
  datatype Verdict = Holds | Fails | Throws

  /**
   * The outcome of `s.First(test)`, by list position: the element at `at` is
   * the first the test holds for; no element qualifies (an
   * InvalidOperationException); or the test threw on the element at `at`.
   */
  datatype FirstResult = Found(at: nat) | Exhausted | ThrewAt(at: nat)

  /** `s.First(test)`: tries the elements in list order and stops at the first that does not fail. */
  function First<T>(s: seq<T>, test: T -> Verdict): (r: FirstResult)
    ensures r.Found? ==> r.at < |s| && test(s[r.at]) == Holds
    ensures r.ThrewAt? ==> r.at < |s| && test(s[r.at]) == Throws
    ensures !r.Exhausted? ==> forall j :: 0 <= j < r.at ==> test(s[j]) == Fails
    ensures r.Exhausted? <==> forall j :: 0 <= j < |s| ==> test(s[j]) == Fails
  {
    if s == [] then Exhausted
    else match test(s[0])
      case Holds => Found(0)
      case Throws => ThrewAt(0)
      case Fails =>
        var rest := First(s[1..], test);
        assert forall j :: 0 < j < |s| ==> s[j] == s[1..][j - 1];
        match rest
        case Exhausted => Exhausted
        case Found(at) => Found(at + 1)
        case ThrewAt(at) => ThrewAt(at + 1)
  }
}
