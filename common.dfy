/** Values shared by the front-end engines: optional values, points in
    canvas-logical space, and the index-based filtering that the handlers use
    when they drop one element of a list (`list.filter((_, i) => i !== index)`). */
module Common {

  datatype Option<+T> = None | Some(value: T)

  /** A point in canvas-logical coordinates. */
  datatype Point = Point(x: real, y: real)

  /** A poly-line or polygon as an ordered list of vertices. */
  type Path = seq<Point>

  function Abs(v: real): (r: real)
    ensures r >= 0.0 && (r == v || r == -v)
  {
    if v < 0.0 then -v else v
  }

  function MinReal(a: real, b: real): (r: real)
    ensures r <= a && r <= b && (r == a || r == b)
  {
    if a <= b then a else b
  }

  function MaxReal(a: real, b: real): (r: real)
    ensures r >= a && r >= b && (r == a || r == b)
  {
    if a >= b then a else b
  }

  /** `s.filter((_, i) => i !== k)`, written element by element as the filter
      visits the list; the contract relates it to slicing. */
  function Without<T>(s: seq<T>, k: int): (r: seq<T>)
    ensures 0 <= k < |s| ==> r == s[..k] + s[k + 1..]
    ensures !(0 <= k < |s|) ==> r == s
    ensures |r| == if 0 <= k < |s| then |s| - 1 else |s|
  {
    if |s| == 0 then []
    else
      var rest := Without(s[1..], k - 1);
      if k == 0 then rest else [s[0]] + rest
  }

  /** No element occurs twice. */
  predicate Distinct<T(==)>(s: seq<T>) {
    forall i, j :: 0 <= i < j < |s| ==> s[i] != s[j]
  }

  /** `s.filter(v => v !== x)`: every occurrence of `x` dropped, the rest in order. */
  function Remove(s: seq<int>, x: int): (r: seq<int>)
    ensures forall v :: v in r <==> v in s && v != x
    ensures |r| <= |s|
    ensures x in s ==> |r| < |s|
    ensures Distinct(s) ==> Distinct(r)
  {
    if |s| == 0 then []
    else
      var rest := Remove(s[1..], x);
      assert forall v :: v in s <==> v == s[0] || v in s[1..];
      if s[0] == x then rest
      else
        assert Distinct(s) ==> Distinct(s[1..]) && s[0] !in s[1..] by {
          if Distinct(s) {
            forall i, j | 0 <= i < j < |s[1..]| ensures s[1..][i] != s[1..][j] {
              assert s[1..][i] == s[i + 1] && s[1..][j] == s[j + 1];
            }
            forall j | 0 <= j < |s[1..]| ensures s[1..][j] != s[0] {
              assert s[1..][j] == s[j + 1];
            }
          }
        }
        var r := [s[0]] + rest;
        assert forall i :: 1 <= i < |r| ==> r[i] == rest[i - 1];
        r
  }
}
