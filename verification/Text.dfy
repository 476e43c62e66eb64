/**
 Text: white space at its ends, and its length in bytes.
 */
module Text {
  predicate IsSpace(c: char) {
    || c in " \t\n\U{0B}\U{0C}\r\U{85}\U{A0}\U{1680}\U{2028}\U{2029}\U{202F}\U{205F}\U{3000}"
    || '\U{2000}' <= c <= '\U{200A}'
  }

  function TrimLeft(s: string): string {
    if s != "" && IsSpace(s[0]) then TrimLeft(s[1..]) else s
  }

  function TrimRight(s: string): string {
    if s != "" && IsSpace(s[|s| - 1]) then TrimRight(s[..|s| - 1]) else s
  }

  function TrimSpace(s: string): string {
    TrimRight(TrimLeft(s))
  }

  /** What is taken off is white space at the ends, and there is none left there. */
  lemma TrimsExactly(s: string) returns (i: nat, j: nat)
    ensures i <= j <= |s| && TrimSpace(s) == s[i..j]
    ensures forall k :: 0 <= k < i || j <= k < |s| ==> IsSpace(s[k])
    ensures i < j ==> !IsSpace(s[i]) && !IsSpace(s[j - 1])
  {
    i := TrimsLeft(s);
    var n := TrimsRight(s[i..]);
    j := i + n;
    assert forall k :: j <= k < |s| ==> s[k] == s[i..][k - i];
    assert s[i..][..n] == s[i..j];
  }

  lemma {:induction false} TrimsLeft(s: string) returns (i: nat)
    ensures i <= |s| && TrimLeft(s) == s[i..] && forall k :: 0 <= k < i ==> IsSpace(s[k])
    ensures i < |s| ==> !IsSpace(s[i])
  {
    i := 0;
    if s != "" && IsSpace(s[0]) {
      var n := TrimsLeft(s[1..]);
      i := n + 1;
      assert forall k :: 1 <= k < |s| ==> s[k] == s[1..][k - 1];
    }
  }

  lemma {:induction false} TrimsRight(s: string) returns (n: nat)
    ensures n <= |s| && TrimRight(s) == s[..n] && forall k :: n <= k < |s| ==> IsSpace(s[k])
    ensures n > 0 ==> !IsSpace(s[n - 1])
  {
    n := |s|;
    if s != "" && IsSpace(s[|s| - 1]) {
      n := TrimsRight(s[..|s| - 1]);
      assert s[..|s| - 1][..n] == s[..n];
    }
  }

  /** The bytes a character takes in UTF-8. */
  function Utf8Size(c: char): nat {
    if c < '\U{80}' then 1 else if c < '\U{800}' then 2 else if c < '\U{10000}' then 3 else 4
  }

  /** The length of a text as the program measures it. */
  function ByteLength(s: string): nat {
    if s == "" then 0 else Utf8Size(s[0]) + ByteLength(s[1..])
  }

  predicate Ascii(s: string) {
    forall i :: 0 <= i < |s| ==> s[i] < '\U{80}'
  }

  /**
   Bytes and characters are as many exactly in plain ASCII; otherwise there are more bytes, up to
   four times as many.
   */
  lemma {:induction false} BytesAndCharacters(s: string)
    ensures |s| <= ByteLength(s) <= 4 * |s|
    ensures ByteLength(s) == |s| <==> Ascii(s)
  {
    if s != "" {
      BytesAndCharacters(s[1..]);
      if s[0] < '\U{80}' && Ascii(s[1..]) {
        forall i | 0 <= i < |s| ensures s[i] < '\U{80}' {
          if i > 0 { assert s[i] == s[1..][i - 1]; }
        }
      }
    }
  }
}
