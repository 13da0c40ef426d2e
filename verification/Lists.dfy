/** Where something is in a list, and how lists join. */
module Lists {
  /** The first position whose element meets `test`; the length when none does. */
  function FirstWhere<T>(list: seq<T>, test: T -> bool): (i: nat)
    ensures i <= |list|
    ensures i < |list| ==> test(list[i])
    ensures forall j :: 0 <= j < i ==> !test(list[j])
  {
    if list == [] || test(list[0]) then 0 else 1 + FirstWhere(list[1..], test)
  }

  lemma Regroup<T>(a: seq<T>, b: seq<T>, c: seq<T>)
    ensures a + b + c == a + (b + c)
  {}
}
