/** Trimming as ECMAScript defines it: white space and line terminators at both ends. */
module JsText {

  predicate IsSpace(c: char) {
    || c in "\t\n\r " || c as int == 0x0B || c as int == 0x0C || c as int == 0xA0 || c as int == 0xFEFF
    || c as int == 0x1680 || 0x2000 <= c as int <= 0x200A || c as int == 0x2028 || c as int == 0x2029
    || c as int == 0x202F || c as int == 0x205F || c as int == 0x3000
  }

  function TrimStart(s: string): string {
    if s != "" && IsSpace(s[0]) then TrimStart(s[1..]) else s
  }

  function TrimEnd(s: string): string {
    if s != "" && IsSpace(s[|s| - 1]) then TrimEnd(s[..|s| - 1]) else s
  }

  function Trim(s: string): string { TrimEnd(TrimStart(s)) }

  /** Something is left after trimming. */
  predicate Visible(s: string) { Trim(s) != "" }

  lemma {:induction false} TrimStartCuts(s: string) returns (i: nat)
    ensures i <= |s| && TrimStart(s) == s[i..]
    ensures forall k | 0 <= k < i :: IsSpace(s[k])
    ensures i < |s| ==> !IsSpace(s[i])
  {
    hide IsSpace;
    i := 0;
    while i < |s| && IsSpace(s[i])
      invariant i <= |s| && TrimStart(s) == TrimStart(s[i..])
      invariant forall k | 0 <= k < i :: IsSpace(s[k])
    {
      i := i + 1;
    }
  }

  lemma {:induction false} TrimEndCuts(s: string) returns (j: nat)
    ensures j <= |s| && TrimEnd(s) == s[..j]
    ensures forall k | j <= k < |s| :: IsSpace(s[k])
    ensures j > 0 ==> !IsSpace(s[j - 1])
  {
    hide IsSpace;
    j := |s|;
    assert s[..j] == s;
    while j > 0 && IsSpace(s[j - 1])
      invariant j <= |s| && TrimEnd(s) == TrimEnd(s[..j])
      invariant forall k | j <= k < |s| :: IsSpace(s[k])
    {
      assert s[..j][..j - 1] == s[..j - 1];
      j := j - 1;
    }
  }

  /** What is cut off at both ends is blank, and what stays neither starts nor ends with a blank. */
  ghost predicate TrimmedTo(s: string, t: string, i: nat, j: nat) {
    && i <= j <= |s| && t == s[i..j]
    && (forall k | 0 <= k < i || j <= k < |s| :: IsSpace(s[k]))
    && (t != "" ==> !IsSpace(t[0]) && !IsSpace(t[|t| - 1]))
  }

  lemma TrimCutsBlanks(s: string)
    ensures exists i: nat, j: nat :: TrimmedTo(s, Trim(s), i, j)
    ensures Visible(s) <==> exists k :: 0 <= k < |s| && !IsSpace(s[k])
  {
    hide IsSpace;
    var i := TrimStartCuts(s);
    var j := TrimEndCuts(s[i..]);
    assert forall k | i + j <= k < |s| :: s[k] == s[i..][k - i];
    assert s[i..][..j] == s[i..i + j];
    assert TrimmedTo(s, Trim(s), i, i + j);
    if Visible(s) {
      assert Trim(s)[0] == s[i];
    }
  }

  /** No printed character of the ASCII set is blank; tabs, breaks and spaces are. */
  lemma PrintedIsNotBlank(c: char)
    ensures ' ' <= c <= '~' ==> (IsSpace(c) <==> c == ' ')
    ensures c < ' ' ==> (IsSpace(c) <==> 9 <= c as int <= 13)
  {
  }
}
