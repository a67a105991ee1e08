/** Results and errors shared by every module: a Python exception is an `Err`. */
module Basics {
  datatype Option<+T> = None | Some(value: T)

  /** The exceptions the modelled code raises, by class. */
  datatype Error =
    | ConfigError
    | DomainValidationError
    | RecordNotFound
    | RecordConflict
    | PersistenceError
    | DispatchError
    | IndexError
    | OtherError(message: string)

  datatype Result<+T> = Ok(value: T) | Err(error: Error) {
    predicate IsFailure() { Err? }

    function PropagateFailure<U>(): Result<U>
      requires Err?
    {
      Err(error)
    }

    function Extract(): T
      requires Ok?
    {
      value
    }
  }

  // ----- Text -----

  /** Python's `str.isspace` for one code point. */
  predicate IsSpace(c: char) {
    var x := c as int;
    || 9 <= x <= 13 || 28 <= x <= 32 || x == 133 || x == 160 || x == 5760
    || 8192 <= x <= 8202 || x == 8232 || x == 8233 || x == 8239 || x == 8287 || x == 12288
  }

  predicate Blank(s: string) {
    forall i :: 0 <= i < |s| ==> IsSpace(s[i])
  }

  /** Python's `str.strip`. */
  function Strip(s: string): string {
    if s == "" then ""
    else if IsSpace(s[0]) then Strip(s[1..])
    else if IsSpace(s[|s| - 1]) then Strip(s[..|s| - 1])
    else s
  }

  /** Stripping leaves text that neither starts nor ends in white space, and nothing of blank text. */
  lemma {:induction false} StripFacts(s: string)
    ensures Strip(s) == "" <==> Blank(s)
    ensures Strip(s) != "" ==> !IsSpace(Strip(s)[0]) && !IsSpace(Strip(s)[|Strip(s)| - 1])
    ensures |Strip(s)| <= |s|
  {
    if s != "" {
      if IsSpace(s[0]) {
        StripFacts(s[1..]);
        assert s == [s[0]] + s[1..];
      } else if IsSpace(s[|s| - 1]) {
        StripFacts(s[..|s| - 1]);
        assert s[..|s| - 1][0] == s[0];
      }
    }
  }
}
