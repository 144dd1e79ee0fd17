/** The few pieces of the Java platform the model leans on: references that may be
    null, thrown exceptions as values, `String.toUpperCase` and a `PrintWriter`
    seen as the list of lines written to it. */
module Lang {

  /** A Java reference that may be null. */
  datatype Nullable<+T> = Null | NonNull(value: T)

  /** A call that either returns a value or throws. */
  datatype Result<+R, +E> = Success(value: R) | Failure(error: E)

  /** A `void` call that either returns normally or throws. */
  datatype Outcome<+E> = Pass | Fail(error: E)

  datatype IllegalStateException = IllegalStateException(message: string)

  predicate IsLower(c: char) {
    'a' <= c <= 'z'
  }

  /** Upper-cases one character; only the ASCII letters a-z change. */
  function UpperChar(c: char): (u: char)
    ensures !IsLower(u)
    ensures !IsLower(c) ==> u == c
    ensures IsLower(c) ==> 'A' <= u <= 'Z' && u as int - 'A' as int == c as int - 'a' as int
  {
    if IsLower(c) then (c as int - 'a' as int + 'A' as int) as char else c
  }

  /** `String.toUpperCase`, character by character (no locale rules). */
  function ToUpper(s: string): (r: string)
    ensures |r| == |s|
    ensures forall i :: 0 <= i < |s| ==> r[i] == UpperChar(s[i])
  {
    if s == [] then [] else [UpperChar(s[0])] + ToUpper(s[1..])
  }

  /** Upper-casing twice is upper-casing once, and an upper-cased string has no
      lower-case letter left. */
  lemma ToUpperIdempotent(s: string)
    ensures ToUpper(ToUpper(s)) == ToUpper(s)
    ensures forall i :: 0 <= i < |s| ==> !IsLower(ToUpper(s)[i])
  {
  }

  /** A writer; what it holds is the sequence of lines printed to it so far. */
  class PrintWriter {
    var lines: seq<string>

    constructor ()
      ensures lines == []
    {
      lines := [];
    }

    /** `println(s)`; `println()` is `Println("")`. */
    method Println(s: string)
      modifies this
      ensures lines == old(lines) + [s]
    {
      lines := lines + [s];
    }

    /** Writes a block of lines at once, as a library formatter does. */
    method PrintLines(block: seq<string>)
      modifies this
      ensures lines == old(lines) + block
    {
      lines := lines + block;
    }
  }
}
