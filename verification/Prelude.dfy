// Small definitions shared by every module of the model.

module Prelude {

  datatype Option<+T> = None | Some(value: T) {
    function GetOr(default: T): T {
      match this
      case Some(v) => v
      case None => default
    }
  }

  datatype Result<+T> = Ok(value: T) | Err(reason: string)

  /** The id a wrapper process registers under. */
  type WrapperId = string

  /** The id `claude` gives a session. */
  type Session = string

  /** A byte as it travels over HID, a PTY or a pipe. */
  type byte = b: int | 0 <= b < 256 witness 0

  /** `Vec::retain` and `Iterator::filter`: keep the elements that satisfy `f`, in order. */
  function Filter<T(!new)>(s: seq<T>, f: T -> bool): (r: seq<T>)
    ensures forall x :: x in r <==> x in s && f(x)
    ensures |r| <= |s|
  {
    if s == [] then []
    else if f(s[0]) then [s[0]] + Filter(s[1..], f)
    else Filter(s[1..], f)
  }

  /** Every two elements of `s`, taken in order, are related by `r`. */
  ghost predicate Ordered<T(!new)>(s: seq<T>, r: (T, T) -> bool) {
    forall i, j :: 0 <= i < j < |s| ==> r(s[i], s[j])
  }

  lemma {:induction false} FilterKeepsOrder<T(!new)>(s: seq<T>, f: T -> bool, r: (T, T) -> bool)
    requires Ordered(s, r)
    ensures Ordered(Filter(s, f), r)
  {
    if s != [] {
      FilterKeepsOrder(s[1..], f, r);
      var rest := Filter(s[1..], f);
      forall x | x in rest ensures r(s[0], x) {
        var k :| 0 <= k < |s[1..]| && s[1..][k] == x;
        assert r(s[0], s[k + 1]);
      }
    }
  }

  lemma {:induction false} FilterConcat<T(!new)>(a: seq<T>, b: seq<T>, f: T -> bool)
    ensures Filter(a + b, f) == Filter(a, f) + Filter(b, f)
  {
    if a == [] {
      assert a + b == b;
    } else {
      assert (a + b)[1..] == a[1..] + b;
      FilterConcat(a[1..], b, f);
    }
  }

  lemma {:induction false} FilterAll<T(!new)>(s: seq<T>, f: T -> bool)
    requires forall x :: x in s ==> f(x)
    ensures Filter(s, f) == s
  {
    if s != [] {
      FilterAll(s[1..], f);
    }
  }

  /** The concatenation of a sequence of reads, frames or chunks. */
  function Flatten<T>(chunks: seq<seq<T>>): seq<T> {
    if chunks == [] then [] else chunks[0] + Flatten(chunks[1..])
  }

  /** Two hand-overs in a row are one: what is passed on after the first is taken up by the second. */
  lemma Relay<T>(put1: seq<T>, held1: seq<T>, put2: seq<T>, held2: seq<T>, held0: seq<T>, in1: seq<T>, in2: seq<T>)
    requires put1 + held1 == held0 + in1 && put2 + held2 == held1 + in2
    ensures (put1 + put2) + held2 == held0 + (in1 + in2)
  {
    assert (put1 + put2) + held2 == put1 + (put2 + held2) == put1 + (held1 + in2) == (put1 + held1) + in2;
    assert (held0 + in1) + in2 == held0 + (in1 + in2);
  }

  lemma Regroup<T>(a: seq<T>, b: seq<T>, c: seq<T>)
    ensures a + b + c == a + (b + c)
  {
  }

  lemma Unit<T>(s: seq<T>)
    ensures [] + s == s && s + [] == s
  {
  }
}
