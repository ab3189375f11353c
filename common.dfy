/** Small value types and string helpers shared by the other modules. */
module Common {

  datatype Option<T> = None | Some(value: T)

  /** An operation that either produces a value or fails with an error. */
  datatype Result<T, E> = Ok(value: T) | Err(error: E)

  /** Python's `str.upper()` restricted to ASCII: a..z become A..Z, every other character is kept. */
  function UpperChar(c: char): char {
    if 'a' <= c <= 'z' then (c as int - 'a' as int + 'A' as int) as char else c
  }

  function Upper(s: string): (r: string)
    ensures |r| == |s|
    ensures forall i :: 0 <= i < |s| ==> r[i] == UpperChar(s[i])
  {
    if s == [] then [] else [UpperChar(s[0])] + Upper(s[1..])
  }

  /** Upper-casing twice is upper-casing once. */
  lemma UpperIdempotent(s: string)
    ensures Upper(Upper(s)) == Upper(s)
  {
    var u := Upper(s);
    assert forall i :: 0 <= i < |u| ==> UpperChar(u[i]) == u[i];
  }

  /** A string made only of characters outside a..z is its own upper case. */
  lemma UpperOfUpperCaseString(s: string)
    requires forall i :: 0 <= i < |s| ==> !('a' <= s[i] <= 'z')
    ensures Upper(s) == s
  {
  }
}
