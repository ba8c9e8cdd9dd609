/** The search the loops of the source share. */
module Search {

  /** The first position whose element satisfies `p`, or the length. */
  function FirstWhere<T>(s: seq<T>, p: T -> bool): (i: nat)
    ensures i <= |s|
    ensures i < |s| ==> p(s[i])
    ensures forall j :: 0 <= j < i ==> !p(s[j])
  {
    if s == [] || p(s[0]) then 0
    else
      var i := FirstWhere(s[1..], p);
      assert forall j :: 0 < j < 1 + i ==> s[j] == s[1..][j - 1];
      1 + i
  }
}
