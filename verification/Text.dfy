/** Trimming of white space, with every character Python counts as such. */
module Text {
  predicate IsSpace(c: char) {
    || c == ' ' || '\t' <= c <= '\r' || '\U{1C}' <= c <= '\U{1F}' || c == '\U{85}' || c == '\U{A0}'
    || c == '\U{1680}' || '\U{2000}' <= c <= '\U{200A}' || c == '\U{2028}' || c == '\U{2029}'
    || c == '\U{202F}' || c == '\U{205F}' || c == '\U{3000}'
  }

  function LStrip(s: string): string {
    if s != [] && IsSpace(s[0]) then LStrip(s[1..]) else s
  }

  function RStrip(s: string): string {
    if s != [] && IsSpace(s[|s| - 1]) then RStrip(s[..|s| - 1]) else s
  }

  function Strip(s: string): string { RStrip(LStrip(s)) }

  lemma {:induction false} LStripIs(s: string) returns (i: nat)
    ensures i <= |s| && LStrip(s) == s[i..] && (i < |s| ==> !IsSpace(s[i]))
    ensures forall k :: 0 <= k < i ==> IsSpace(s[k])
  {
    i := 0;
    if s != [] && IsSpace(s[0]) {
      var n := LStripIs(s[1..]);
      i := n + 1;
      assert s[1..][n..] == s[i..];
      forall k | 1 <= k < i ensures IsSpace(s[k]) { assert s[k] == s[1..][k - 1]; }
    }
  }

  lemma {:induction false} RStripIs(s: string) returns (j: nat)
    ensures j <= |s| && RStrip(s) == s[..j] && (j > 0 ==> !IsSpace(s[j - 1]))
    ensures forall k :: j <= k < |s| ==> IsSpace(s[k])
  {
    j := |s|;
    if s != [] && IsSpace(s[|s| - 1]) {
      var front := s[..|s| - 1];
      j := RStripIs(front);
      assert front[..j] == s[..j];
      forall k | j <= k < |s| - 1 ensures IsSpace(s[k]) { assert s[k] == front[k]; }
    } else {
      assert s[..j] == s;
    }
  }

  /** Trimming leaves the text between the first and the last character that is no white space. */
  lemma StripIs(s: string) returns (i: nat, j: nat)
    ensures i <= j <= |s| && Strip(s) == s[i..j] && (i < j ==> !IsSpace(s[i]) && !IsSpace(s[j - 1]))
    ensures forall k :: (0 <= k < i || j <= k < |s|) ==> IsSpace(s[k])
  {
    i := LStripIs(s);
    var n := RStripIs(s[i..]);
    j := i + n;
    assert s[i..][..n] == s[i..j];
    forall k | j <= k < |s| ensures IsSpace(s[k]) { assert s[k] == s[i..][k - i]; }
    if i < j { assert s[j - 1] == s[i..][n - 1]; }
  }
}
