/** The optional value used throughout: an absent value stands for the program's null. */
module Prelude {
  datatype Option<+T> = None | Some(value: T)
}

/** Names that are compared without regard to the case of ASCII letters. */
module CaseFolding {
  function UpperChar(c: char): char {
    if 'a' <= c <= 'z' then (c as int - 32) as char else c
  }

  function Upper(s: string): (u: string)
    ensures |u| == |s| && forall i | 0 <= i < |s| :: u[i] == UpperChar(s[i])
  {
    if s == "" then "" else [UpperChar(s[0])] + Upper(s[1..])
  }
}
