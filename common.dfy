/** Small value types shared by the auction engine and the platform:
    an optional value (Python's `None`), a result carrying the exception
    a call would raise, and ASCII lower-casing for method names. */
module Common {

  datatype Option<+T> = None | Some(value: T)

  /** The exceptions the auction code raises, with the messages it raises them with. */
  datatype Error =
    | AssertionError
    | ValueError(message: string)
    | IndexError

  datatype Result<+T> = Success(value: T) | Failure(error: Error)

  function LowerChar(c: char): (d: char)
    ensures 'A' <= c <= 'Z' ==> 'a' <= d <= 'z' && d as int - c as int == 32
    ensures !('A' <= c <= 'Z') ==> d == c
  {
    if 'A' <= c <= 'Z' then (c as int + 32) as char else c
  }

  /** `str.lower()` on the ASCII range. */
  function Lower(s: string): (r: string)
    ensures |r| == |s|
    ensures forall i :: 0 <= i < |s| ==> r[i] == LowerChar(s[i])
  {
    seq(|s|, i requires 0 <= i < |s| => LowerChar(s[i]))
  }

  /** Lower-casing twice changes nothing more than lower-casing once. */
  lemma LowerIdempotent(s: string)
    ensures Lower(Lower(s)) == Lower(s)
  {
    forall i | 0 <= i < |s|
      ensures Lower(Lower(s))[i] == Lower(s)[i]
    {
      assert Lower(s)[i] == LowerChar(s[i]);
    }
  }

  /** A string with no upper-case ASCII letter is its own lower-case form. */
  lemma LowerOfLowerCase(s: string)
    requires forall i :: 0 <= i < |s| ==> !('A' <= s[i] <= 'Z')
    ensures Lower(s) == s
  {
  }

  function Min(a: int, b: int): (m: int)
    ensures m <= a && m <= b && (m == a || m == b)
  {
    if a <= b then a else b
  }
}
