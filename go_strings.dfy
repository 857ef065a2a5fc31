/**
 The part of Go's `strings` package that the configuration loader relies on.
 Go strings are byte strings; here they are `seq<char>`. For the ASCII prefix
 the loader tests, a byte-wise and a character-wise prefix test agree.
 */
module GoStrings {

  /** Is `prefix` a prefix of `s`? Compared character by character; the
      contract is Go's own definition, `len(s) >= len(prefix) && s[:len(prefix)] == prefix`. */
  function HasPrefix(s: string, prefix: string): (r: bool)
    ensures r <==> |prefix| <= |s| && s[..|prefix|] == prefix
  {
    if prefix == [] then true
    else if s == [] then false
    else s[0] == prefix[0] && HasPrefix(s[1..], prefix[1..])
  }
}
