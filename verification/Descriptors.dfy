/** The order in which a std::map keyed by file descriptors is walked. */
module Descriptors {
  lemma LeastExists(s: set<int>)
    requires s != {}
    ensures exists m :: m in s && forall y :: y in s ==> m <= y
  {
    assert (forall x :: x !in s) ==> s == {};
    var x :| x in s;
    if s == {x} {
      assert forall y :: y in s ==> x <= y;
    } else {
      var rest := s - {x};
      LeastExists(rest);
      var m :| m in rest && forall y :: y in rest ==> m <= y;
      assert forall y :: y in s ==> y == x || y in rest;
      assert (if x < m then x else m) in s;
    }
  }

  function Least(s: set<int>): (m: int)
    requires s != {}
    ensures m in s && forall y :: y in s ==> m <= y
  {
    LeastExists(s);
    var m :| m in s && forall y :: y in s ==> m <= y;
    m
  }

  /** The iteration order of std::map. */
  function Ascending(s: set<int>): (fds: seq<int>)
    ensures forall fd :: fd in fds <==> fd in s
    ensures forall i, j :: 0 <= i < j < |fds| ==> fds[i] < fds[j]
  {
    if s == {} then []
    else
      var m := Least(s);
      assert s == {m} + (s - {m});
      [m] + Ascending(s - {m})
  }
}
