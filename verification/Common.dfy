/** Notions several parts share. */
module Common {

  datatype Option<T> = None | Some(value: T)

  /** The least index holding `x`, or -1. */
  function FirstIndex<T(==)>(s: seq<T>, x: T): (k: int)
    ensures k == -1 <==> x !in s
    ensures k != -1 ==> 0 <= k < |s| && s[k] == x && forall j :: 0 <= j < k ==> s[j] != x
  {
    if s == [] then -1
    else if s[0] == x then 0
    else var k := FirstIndex(s[1..], x); assert s == [s[0]] + s[1..]; if k == -1 then -1 else k + 1
  }
}
