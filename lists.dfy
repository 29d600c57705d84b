/** The two `java.util.List` operations the recorder relies on, on sequences. */
module Lists {

  /** Position of the first occurrence of `v` in `s`, or -1 when there is
      none (the contract of `List.indexOf`). */
  function IndexOf<T(==)>(s: seq<T>, v: T): (i: int)
    ensures -1 <= i < |s|
    ensures i == -1 <==> v !in s
    ensures 0 <= i ==> s[i] == v && v !in s[..i]
  {
    if s == [] then -1
    else if s[0] == v then 0
    else
      var j := IndexOf(s[1..], v);
      if j == -1 then -1
      else
        assert s[..j + 1] == [s[0]] + s[1..][..j];
        j + 1
  }

  /** `s` without the first occurrence of `v`, or `s` itself when `v` does
      not occur (the contract of `List.remove(Object)`). */
  function RemoveFirst<T(==)>(s: seq<T>, v: T): (r: seq<T>)
    ensures multiset(r) == multiset(s) - multiset{v}
    ensures v in s ==> |r| == |s| - 1
    ensures v in s ==> exists i :: 0 <= i < |s| && s[i] == v && v !in s[..i] && r == s[..i] + s[i + 1..]
    ensures v !in s ==> r == s
  {
    var i := IndexOf(s, v);
    if i < 0 then s
    else
      assert s == s[..i] + [s[i]] + s[i + 1..];
      s[..i] + s[i + 1..]
  }
}
