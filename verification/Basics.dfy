/** Small value types and sequence facts shared by the other modules. */
module Basics {

  datatype Option<+T> = None | Some(value: T) {
    function GetOr(default: T): T {
      match this
      case Some(v) => v
      case None => default
    }
  }

  datatype Result<+T, +E> = Ok(value: T) | Err(error: E)

  /** The last n elements of s, or all of s when it is shorter. */
  function LastN<T>(s: seq<T>, n: nat): (r: seq<T>)
  {
    if |s| <= n then s else s[|s| - n..]
  }

  /** Pushing one element and keeping the last n gives the last n of the longer sequence. */
  lemma LastNPush<T>(s: seq<T>, x: T, n: nat)
    ensures LastN(LastN(s, n) + [x], n) == LastN(s + [x], n)
  {
    if |s| > n {
      assert s + [x] == s[..|s| - n] + (s[|s| - n..] + [x]);
    }
  }

  function Min(a: int, b: int): int {
    if a <= b then a else b
  }

  /** A finite set of numbers has an upper bound. */
  lemma {:induction false} Above(s: set<nat>) returns (n: nat)
    ensures forall x :: x in s ==> x < n
    decreases |s|
  {
    n := 0;
    if s != {} {
      var x :| x in s;
      var m := Above(s - {x});
      n := m + x + 1;
      forall y | y in s ensures y < n {
        assert y == x || y in s - {x};
      }
    }
  }

  newtype byte = x: int | 0 <= x < 256
  type Bytes = seq<byte>

  /** Unicode white space. */
  predicate IsWhitespace(c: char) {
    var u := c as int;
    || 0x9 <= u <= 0xD || u == 0x20 || u == 0x85 || u == 0xA0 || u == 0x1680 || 0x2000 <= u <= 0x200A
    || u == 0x2028 || u == 0x2029 || u == 0x202F || u == 0x205F || u == 0x3000
  }

  function Trim(s: string): string {
    if s == "" then s
    else if IsWhitespace(s[0]) then Trim(s[1..])
    else if IsWhitespace(s[|s| - 1]) then Trim(s[..|s| - 1])
    else s
  }

  function LowerChar(c: char): char {
    if 'A' <= c <= 'Z' then (c as int + 32) as char else c
  }

  function Lower(s: string): string {
    seq(|s|, i requires 0 <= i < |s| => LowerChar(s[i]))
  }
}
