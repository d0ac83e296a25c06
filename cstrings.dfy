/**
 * Models of the <string.h> routines the game calls (strlen, strcpy, strcat, strncat,
 * strncpy), over fixed-size character buffers that hold NUL-terminated strings.
 * A C string's contents are a `string` with no NUL in it; the terminator is implicit.
 */
module CStrings {

  const NUL: char := '\0'

  /** A C string's contents: nothing before the terminator is a NUL. */
  predicate NoNul(s: string) {
    forall i :: 0 <= i < |s| ==> s[i] != NUL
  }

  /** The character `*(s + i)` reads: past the last character sits the terminator. */
  function CharAt(s: string, i: nat): char {
    if i < |s| then s[i] else NUL
  }

  /** The string a buffer holds: everything before its first NUL (the whole buffer if it has none). */
  function CStr(buf: seq<char>): (s: string)
    ensures |s| <= |buf| && s == buf[..|s|] && NoNul(s)
    ensures |s| < |buf| ==> buf[|s|] == NUL
  {
    if buf == [] || buf[0] == NUL then [] else [buf[0]] + CStr(buf[1..])
  }

  /** A buffer whose first `n` characters are not NUL and whose character `n` is NUL holds exactly those `n` characters. */
  lemma CStrOfTerminated(buf: seq<char>, n: nat)
    requires n < |buf| && buf[n] == NUL && NoNul(buf[..n])
    ensures CStr(buf) == buf[..n]
  {
  }

  /** Appending at most `count` characters of `src`, as strncat does. */
  function Prefix(src: string, count: nat): (r: string)
    ensures |r| <= count && r <= src
    ensures |src| <= count ==> r == src
  {
    if |src| <= count then src else src[..count]
  }

  /** strlen: the index of the buffer's first NUL. */
  method StrLen(buf: array<char>) returns (n: nat)
    requires |CStr(buf[..])| < buf.Length
    ensures n == |CStr(buf[..])| && n < buf.Length && buf[n] == NUL
  {
    ghost var s := CStr(buf[..]);
    n := 0;
    while buf[n] != NUL
      invariant n <= |s|
      invariant buf[..n] == s[..n]
      decreases |s| - n
    {
      n := n + 1;
    }
  }

  /** The copy loop of strcpy and strcat: `src` and a terminator at offset `n`, every other cell untouched. */
  method WriteAt(dst: array<char>, n: nat, src: string)
    requires n + |src| < dst.Length
    modifies dst
    ensures dst[..] == old(dst[..n]) + src + [NUL] + old(dst[n + |src| + 1..])
  {
    var i := 0;
    while i < |src|
      invariant i <= |src|
      invariant forall k :: 0 <= k < n ==> dst[k] == old(dst[k])
      invariant forall k :: 0 <= k < i ==> dst[n + k] == src[k]
      invariant forall k :: n + i <= k < dst.Length ==> dst[k] == old(dst[k])
    {
      dst[n + i] := src[i];
      i := i + 1;
    }
    dst[n + i] := NUL;
  }

  /** strcpy: the buffer now holds `src`; the cells after its terminator are untouched. */
  method StrCpy(dst: array<char>, src: string)
    requires NoNul(src) && |src| < dst.Length
    modifies dst
    ensures dst[..] == src + [NUL] + old(dst[|src| + 1..])
    ensures CStr(dst[..]) == src
  {
    WriteAt(dst, 0, src);
    assert dst[..|src|] == src;
    CStrOfTerminated(dst[..], |src|);
  }

  /** strncat: appends the first `count` characters of `src` (all of it if shorter) and a terminator. */
  method StrNCat(dst: array<char>, src: string, count: nat)
    requires NoNul(src)
    requires |CStr(dst[..])| + |Prefix(src, count)| < dst.Length
    modifies dst
    ensures CStr(dst[..]) == old(CStr(dst[..])) + Prefix(src, count)
    ensures var n := |old(CStr(dst[..]))| + |Prefix(src, count)|;
            dst[n + 1..] == old(dst[n + 1..])
  {
    ghost var s := CStr(dst[..]);
    var add := Prefix(src, count);
    var n := StrLen(dst);
    WriteAt(dst, n, add);
    assert dst[..n + |add|] == s + add;
    assert NoNul(s + add);
    CStrOfTerminated(dst[..], n + |add|);
  }

  /** strcat: appends all of `src` and a terminator. */
  method StrCat(dst: array<char>, src: string)
    requires NoNul(src)
    requires |CStr(dst[..])| + |src| < dst.Length
    modifies dst
    ensures CStr(dst[..]) == old(CStr(dst[..])) + src
    ensures var n := |old(CStr(dst[..]))| + |src|;
            dst[n + 1..] == old(dst[n + 1..])
  {
    StrNCat(dst, src, |src|);
  }

  /**
   * strncpy: writes exactly `count` cells: the characters of `src` and, once `src` ends,
   * NUL padding. No terminator is added after the `count` cells.
   */
  method StrNCpy(dst: array<char>, src: string, count: nat)
    requires count <= dst.Length
    modifies dst
    ensures forall k :: 0 <= k < count ==> dst[k] == CharAt(src, k)
    ensures dst[count..] == old(dst[count..])
  {
    var i := 0;
    while i < count
      invariant i <= count
      invariant forall k :: 0 <= k < i ==> dst[k] == CharAt(src, k)
      invariant dst[i..] == old(dst[i..])
    {
      dst[i] := CharAt(src, i);
      i := i + 1;
    }
  }
}
