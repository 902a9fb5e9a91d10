// The few C library services cgiwifi.c relies on: bytes, isalnum() in the
// "C" locale, NUL-terminated strings inside fixed buffers, and the
// os_memset / os_memcpy primitives that fill those buffers in place.
module CLib {

  /** An unsigned char. */
  newtype byte = x: int | 0 <= x < 256

  const NUL: byte := 0

  /** isalnum() in the "C" locale: '0'..'9', 'A'..'Z', 'a'..'z'. */
  predicate IsAlnum(c: byte) {
    (48 <= c <= 57) || (65 <= c <= 90) || (97 <= c <= 122)
  }

  /** n copies of v. */
  function Fill(v: byte, n: nat): (r: seq<byte>)
    ensures |r| == n
    ensures forall i :: 0 <= i < n ==> r[i] == v
  {
    if n == 0 then [] else [v] + Fill(v, n - 1)
  }

  /** The content of an n-byte buffer that was zeroed and then had s copied to its start. */
  function Pad(s: seq<byte>, n: nat): (r: seq<byte>)
    requires |s| <= n
    ensures |r| == n
    ensures r[..|s|] == s
    ensures forall i :: |s| <= i < n ==> r[i] == NUL
  {
    s + Fill(NUL, n - |s|)
  }

  predicate NoNul(s: seq<byte>) {
    forall i :: 0 <= i < |s| ==> s[i] != NUL
  }

  /** The C string a buffer holds: its bytes up to (not including) the first NUL. */
  function CStringOf(buf: seq<byte>): (s: seq<byte>)
    ensures |s| <= |buf| && s == buf[..|s|] && NoNul(s)
    ensures |s| < |buf| ==> buf[|s|] == NUL
  {
    if buf == [] then []
    else if buf[0] == NUL then []
    else [buf[0]] + CStringOf(buf[1..])
  }

  /** A string without NUL bytes, padded with zeros into a larger buffer, reads back as itself. */
  lemma {:induction false} CStringOfPad(s: seq<byte>, n: nat)
    requires NoNul(s) && |s| < n
    ensures CStringOf(Pad(s, n)) == s
  {
    if s == [] {
      assert Pad(s, n)[0] == NUL;
    } else {
      assert Pad(s, n)[1..] == Pad(s[1..], n - 1);
      CStringOfPad(s[1..], n - 1);
    }
  }

  /** os_memset(a, v, n). */
  method Memset(a: array<byte>, v: byte, n: nat)
    requires n <= a.Length
    modifies a
    ensures a[..] == Fill(v, n) + old(a[n..])
  {
    forall i | 0 <= i < n {
      a[i] := v;
    }
    assert a[..] == Fill(v, n) + old(a[n..]);
  }

  /** os_memcpy(dst, src, n). */
  method Memcpy(dst: array<byte>, src: seq<byte>, n: nat)
    requires n <= |src| && n <= dst.Length
    modifies dst
    ensures dst[..] == src[..n] + old(dst[n..])
  {
    forall i | 0 <= i < n {
      dst[i] := src[i];
    }
    assert dst[..] == src[..n] + old(dst[n..]);
  }
}
