/** NUL-terminated strings as the C code passes them around: a buffer of
    characters whose text ends at the first '\0'. */
module CStrings {

  /** strlen: the number of characters before the first NUL, or the whole
      buffer when it holds none. */
  function StrLen(s: seq<char>): (n: nat)
    ensures n <= |s|
    ensures forall i :: 0 <= i < n ==> s[i] != '\0'
    ensures n < |s| ==> s[n] == '\0'
  {
    if s == [] || s[0] == '\0' then 0 else 1 + StrLen(s[1..])
  }

  /** The text a C reader sees in a buffer: everything before the first NUL. */
  function Text(s: seq<char>): string
  {
    s[..StrLen(s)]
  }

  /** A buffer that holds a NUL-free text t followed by a NUL reads back as t,
      whatever follows the terminator. */
  lemma {:induction false} TextOfTerminated(t: string, rest: seq<char>)
    requires '\0' !in t
    ensures Text(t + ['\0'] + rest) == t
  {
    if t != [] {
      assert (t + ['\0'] + rest)[1..] == t[1..] + ['\0'] + rest;
      TextOfTerminated(t[1..], rest);
    }
  }

  /** A buffer whose first character is NUL reads as the empty string (the test
      incoming_message[0] != '\0' in the subscriber example). */
  lemma TextEmptyIffLeadingNul(s: seq<char>)
    ensures Text(s) == [] <==> (s == [] || s[0] == '\0')
  {
  }
}
