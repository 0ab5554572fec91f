/**
 * C strings as the binding sees them: a text is a sequence of characters
 * without NUL, stored in a buffer terminated by one NUL. This module gives
 * the two libc operations the binding relies on -- `strncmp` for the
 * completion prefix test and the malloc-and-copy of `clonestr` and
 * `lua_stepgenerator` -- and reading a buffer back as a text.
 *
 * One `char` stands for one byte: `strncmp` compares `unsigned char` values,
 * and over NUL-free texts only equality of characters matters to the binding.
 */
module CStrings {

  const NUL: char := '\0'

  /** A text that a C string can hold: no embedded NUL. */
  predicate NulFree(s: seq<char>) {
    forall i :: 0 <= i < |s| ==> s[i] != NUL
  }

  /** The character at position i of a C string; past its end a reader sees the terminator. */
  function At(s: seq<char>, i: nat): char {
    if i < |s| then s[i] else NUL
  }

  /**
   * `strncmp(a, b, n)`: compare at most n characters, stopping at the first
   * difference or at the end of `a`. Zero means "equal over the compared part";
   * otherwise the sign of the difference of the first unequal characters.
   */
  function Strncmp(a: seq<char>, b: seq<char>, n: nat): int
    decreases n
  {
    if n == 0 then 0
    else if At(a, 0) != At(b, 0) then At(a, 0) as int - At(b, 0) as int
    else if At(a, 0) == NUL then 0
    else Strncmp(a[1..], b[1..], n - 1)
  }

  /**
   * The completion filter's test on a candidate `res` for the prefix `pref`:
   * the candidate is at least as long and `strncmp` over the prefix's length is zero.
   */
  predicate PrefixTest(pref: seq<char>, res: seq<char>) {
    |res| >= |pref| && Strncmp(pref, res, |pref|) == 0
  }

  /** Over NUL-free texts, `strncmp` compares the first n characters exactly. */
  lemma {:induction false} StrncmpZeroIffEqual(a: seq<char>, b: seq<char>, n: nat)
    requires NulFree(a) && NulFree(b)
    requires n <= |a| && n <= |b|
    ensures Strncmp(a, b, n) == 0 <==> a[..n] == b[..n]
  {
    if n > 0 {
      assert At(a, 0) == a[0] && At(b, 0) == b[0];
      if a[0] == b[0] {
        assert NulFree(a[1..]) && NulFree(b[1..]);
        StrncmpZeroIffEqual(a[1..], b[1..], n - 1);
        assert a[..n] == [a[0]] + a[1..][..n - 1];
        assert b[..n] == [b[0]] + b[1..][..n - 1];
      } else {
        assert a[..n][0] != b[..n][0];
      }
    }
  }

  /**
   * The C prefix test is exactly the (case-sensitive, character-wise) prefix
   * relation on NUL-free texts; in particular the empty prefix admits every text.
   */
  lemma PrefixTestIsPrefix(pref: seq<char>, res: seq<char>)
    requires NulFree(pref) && NulFree(res)
    ensures PrefixTest(pref, res) <==> pref <= res
  {
    if |res| >= |pref| {
      StrncmpZeroIffEqual(pref, res, |pref|);
      assert pref[..|pref|] == pref;
    }
  }

  /** The text a NUL-terminated buffer holds: its characters before the first NUL. */
  function CStr(buf: seq<char>): (s: seq<char>)
    ensures NulFree(s) && s <= buf
    ensures |s| < |buf| ==> buf[|s|] == NUL
  {
    if buf == [] || buf[0] == NUL then []
    else [buf[0]] + CStr(buf[1..])
  }

  /** Reading back a buffer that holds a NUL-free text and its terminator gives the text. */
  lemma {:induction false} CStrOfTerminated(s: seq<char>)
    requires NulFree(s)
    ensures CStr(s + [NUL]) == s
  {
    if s != [] {
      assert (s + [NUL])[1..] == s[1..] + [NUL];
      assert NulFree(s[1..]);
      CStrOfTerminated(s[1..]);
    }
  }

  /**
   * `malloc(strlen(s) + 1)` followed by a copy of the text and its terminator,
   * as `clonestr` and `lua_stepgenerator` do: a fresh buffer owned by the caller.
   */
  method Duplicate(s: seq<char>) returns (buf: array<char>)
    ensures fresh(buf)
    ensures buf[..] == s + [NUL]
  {
    buf := new char[|s| + 1](i requires 0 <= i <= |s| => if i < |s| then s[i] else NUL);
  }
}
