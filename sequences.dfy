/** Searching a sequence for its first element with a property. */
module Sequences {

  /** The index used by the source to say that nothing matched. */
  const NotFound: int := -1

  /** The first index of `s` whose element satisfies `p`, or `NotFound` when none does. */
  function FirstIndex<T>(s: seq<T>, p: T -> bool): (i: int)
    ensures NotFound <= i < |s|
    ensures i == NotFound <==> forall j :: 0 <= j < |s| ==> !p(s[j])
    ensures 0 <= i ==> p(s[i]) && forall j :: 0 <= j < i ==> !p(s[j])
  {
    if |s| == 0 then NotFound
    else if p(s[0]) then 0
    else
      var k := FirstIndex(s[1..], p);
      if k == NotFound then NotFound else k + 1
  }

  /** The last index of `s` whose element satisfies `p`, or `NotFound` when none does. */
  function LastIndex<T>(s: seq<T>, p: T -> bool): (i: int)
    ensures NotFound <= i < |s|
    ensures i == NotFound <==> forall j :: 0 <= j < |s| ==> !p(s[j])
    ensures 0 <= i ==> p(s[i]) && forall j :: i < j < |s| ==> !p(s[j])
  {
    if |s| == 0 then NotFound
    else if p(s[|s| - 1]) then |s| - 1
    else LastIndex(s[..|s| - 1], p)
  }
}
