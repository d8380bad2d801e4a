/** Datatypes and small functions that several modules share. */
module Common {

  /** A nullable column or an optional answer. */
  datatype Option<+T> = None | Some(value: T)

  /** A command either returns a value or raises; a raise rolls its transaction back. */
  datatype Result<+T, +E> = Ok(value: T) | Err(error: E)

  type Time = int
  type AssetId = nat
  type MoveJobId = nat
  type Token = nat
  type TaskId = nat

  /** The provider error kinds, and the code recorded for any other exception. */
  datatype ErrorCode =
    | NotFound | Conflict | InvalidInput | Unavailable | DeadlineExceeded | PermissionDenied
    | Unexpected

  /** The characters that stripping a string removes: white space of Unicode, and the four separators of ASCII. */
  predicate IsSpace(c: char) {
    var n := c as int;
    || 0x9 <= n <= 0xD || 0x1C <= n <= 0x20 || n == 0x85 || n == 0xA0 || n == 0x1680 || 0x2000 <= n <= 0x200A
    || n == 0x2028 || n == 0x2029 || n == 0x202F || n == 0x205F || n == 0x3000
  }

  function StripLeft(s: string): string
    decreases |s|
  {
    if s != "" && IsSpace(s[0]) then StripLeft(s[1..]) else s
  }

  function StripRight(s: string): string
    decreases |s|
  {
    if s != "" && IsSpace(s[|s| - 1]) then StripRight(s[..|s| - 1]) else s
  }

  function Strip(s: string): string {
    StripRight(StripLeft(s))
  }

  predicate AllSpace(s: string) {
    forall i :: 0 <= i < |s| ==> IsSpace(s[i])
  }

  /** No white space at either end. */
  predicate Bare(s: string) {
    |s| > 0 ==> !IsSpace(s[0]) && !IsSpace(s[|s| - 1])
  }

  lemma {:induction false} LeftStripped(s: string) returns (front: string)
    ensures s == front + StripLeft(s) && AllSpace(front)
    ensures StripLeft(s) != "" ==> !IsSpace(StripLeft(s)[0])
    decreases |s|
  {
    front := "";
    if s != "" && IsSpace(s[0]) {
      var rest := LeftStripped(s[1..]);
      front := [s[0]] + rest;
      assert s == [s[0]] + s[1..];
    }
  }

  lemma {:induction false} RightStripped(s: string)
    ensures StripRight(s) <= s && AllSpace(s[|StripRight(s)|..])
    ensures StripRight(s) != "" ==> !IsSpace(StripRight(s)[|StripRight(s)| - 1])
    decreases |s|
  {
    if s != "" && IsSpace(s[|s| - 1]) {
      var n := |s| - 1;
      var front := s[..n];
      RightStripped(front);
      var k := |StripRight(front)|;
      assert StripRight(s) == StripRight(front);
      forall i | 0 <= i < |s| - k ensures IsSpace(s[k..][i]) {
        assert i < n - k ==> s[k..][i] == front[k..][i];
      }
    }
  }

  /** Stripping removes white space from both ends, and all of it. */
  lemma StripIsBare(s: string) returns (front: string, back: string)
    ensures s == front + Strip(s) + back && AllSpace(front) && AllSpace(back) && Bare(Strip(s))
  {
    hide IsSpace, StripLeft, StripRight;
    front := LeftStripped(s);
    var middle := StripLeft(s);
    RightStripped(middle);
    back := middle[|Strip(s)|..];
    assert middle == Strip(s) + back;
    assert Strip(s) != "" ==> middle[0] == Strip(s)[0];
    hide AllSpace;
  }

  function Max(x: int, y: int): int {
    if x < y then y else x
  }

  /** There is always another identifier. */
  lemma {:induction false} FreshNumber(used: set<nat>) returns (next: nat)
    ensures next !in used && forall n :: n in used ==> n < next
    decreases |used|
  {
    if used == {} {
      next := 0;
    } else {
      var n :| n in used;
      var rest := FreshNumber(used - {n});
      next := if n < rest then rest else n + 1;
      assert forall m :: m in used ==> m == n || m in used - {n};
    }
  }
}
