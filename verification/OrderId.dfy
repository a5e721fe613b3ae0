// Order identifiers as they appear in text: "O-" and four to twenty ASCII digits.

module OrderId {
  import opened Records

  predicate IsDigit(c: char) { '0' <= c <= '9' }

  predicate IsLetter(c: char) { 'a' <= c <= 'z' || 'A' <= c <= 'Z' }

  predicate IsAlnum(c: char) { IsDigit(c) || IsLetter(c) }

  // The code points Python's str.strip() removes.
  predicate IsSpace(c: char) {
    var n := c as int;
    || 0x09 <= n <= 0x0D || 0x1C <= n <= 0x20 || n == 0x85 || n == 0xA0 || n == 0x1680
    || 0x2000 <= n <= 0x200A || n == 0x2028 || n == 0x2029 || n == 0x202F || n == 0x205F || n == 0x3000
  }

  function StripLeft(s: string): (r: string)
    ensures |r| <= |s| && s[|s| - |r|..] == r
    ensures r != "" ==> !IsSpace(r[0])
  {
    if s != "" && IsSpace(s[0]) then StripLeft(s[1..]) else s
  }

  function StripRight(s: string): (r: string)
    ensures r <= s
    ensures r != "" ==> !IsSpace(r[|r| - 1])
  {
    if s != "" && IsSpace(s[|s| - 1]) then StripRight(s[..|s| - 1]) else s
  }

  function Strip(s: string): string { StripRight(StripLeft(s)) }

  predicate IsOrderId(s: string) {
    6 <= |s| <= 22 && s[0] == 'O' && s[1] == '-' && forall i :: 2 <= i < |s| ==> IsDigit(s[i])
  }

  function UpperPrefix(s: string): string {
    if 2 <= |s| && (s[0] == 'o' || s[0] == 'O') && s[1] == '-' then "O-" + s[2..] else s
  }

  // Strip, capitalise the prefix, and accept only a full match of the pattern.
  function Normalize(s: string): (r: Option<string>)
    ensures r.Some? ==> IsOrderId(r.value)
  {
    var n := UpperPrefix(Strip(s));
    if IsOrderId(n) then Some(n) else None
  }

  lemma OrderIdIsNormal(s: string)
    requires IsOrderId(s)
    ensures Normalize(s) == Some(s)
  {
    assert StripLeft(s) == s && StripRight(s) == s;
    assert "O-" + s[2..] == s;
  }

  // ----- What the normal form is, character by character -----

  predicate Blank(s: string) { forall i :: 0 <= i < |s| ==> IsSpace(s[i]) }

  // The order id itself, its first letter in either case.
  predicate Spells(s: string, orderId: string) {
    IsOrderId(orderId) && |s| == |orderId| && (s[0] == 'o' || s[0] == 'O') && s[1..] == orderId[1..]
  }

  // Nothing but white space around a spelling of the order id.
  predicate Names(s: string, orderId: string) {
    exists i, j :: 0 <= i <= j <= |s| && Blank(s[..i]) && Spells(s[i..j], orderId) && Blank(s[j..])
  }

  lemma {:induction false} LeftSplits(s: string)
    ensures Blank(s[..|s| - |StripLeft(s)|])
  {
    if s != "" && IsSpace(s[0]) {
      LeftSplits(s[1..]);
      var n := |s| - |StripLeft(s)|;
      assert s[1..][..n - 1] == s[1..n];
      assert forall i :: 1 <= i < n ==> s[i] == s[1..n][i - 1];
    }
  }

  lemma {:induction false} RightSplits(s: string)
    ensures Blank(s[|StripRight(s)|..])
  {
    if s != "" && IsSpace(s[|s| - 1]) {
      RightSplits(s[..|s| - 1]);
      var n := |StripRight(s)|;
      assert forall i :: n <= i < |s| - 1 ==> s[i] == s[..|s| - 1][n..][i - n];
    }
  }

  lemma {:induction false} LeftBlankGoes(a: string, t: string)
    requires Blank(a) && t != "" && !IsSpace(t[0])
    ensures StripLeft(a + t) == t
  {
    if a == "" {
      assert a + t == t;
    } else {
      LeftBlankGoes(a[1..], t);
      assert (a + t)[1..] == a[1..] + t;
    }
  }

  lemma {:induction false} RightBlankGoes(t: string, b: string)
    requires Blank(b) && t != "" && !IsSpace(t[|t| - 1])
    ensures StripRight(t + b) == t
  {
    if b == "" {
      assert t + b == t;
    } else {
      RightBlankGoes(t, b[..|b| - 1]);
      assert (t + b)[..|t + b| - 1] == t + b[..|b| - 1];
    }
  }

  // Capitalising the prefix is all that separates a spelling from its order id.
  lemma CapitalIsSpelled(t: string, orderId: string)
    requires IsOrderId(orderId)
    ensures UpperPrefix(t) == orderId <==> Spells(t, orderId)
  {
    hide IsDigit;
    if UpperPrefix(t) == orderId {
      if 2 <= |t| && (t[0] == 'o' || t[0] == 'O') && t[1] == '-' { assert t[2..] == orderId[2..]; }
      forall k | 0 <= k < |t| - 1 ensures t[1..][k] == orderId[1..][k] { assert k > 0 ==> t[2..][k - 1] == orderId[k + 1]; }
    }
    if Spells(t, orderId) {
      assert t[1] == t[1..][0] == orderId[1..][0] == '-';
      assert ("O-" + t[2..])[..2] == orderId[..2];
      forall k | 2 <= k < |t| ensures t[k] == orderId[k] { assert t[1..][k - 1] == orderId[1..][k - 1]; }
    }
  }

  lemma StripSplits(s: string) returns (i: nat, j: nat)
    ensures i <= j <= |s| && Blank(s[..i]) && Strip(s) == s[i..j] && Blank(s[j..])
  {
    hide IsSpace, Blank;
    var left := StripLeft(s);
    LeftSplits(s);
    RightSplits(left);
    i := |s| - |left|;
    j := i + |Strip(s)|;
    assert left[..|Strip(s)|] == s[i..j] && left[|Strip(s)|..] == s[j..];
  }

  lemma StripIs(before: string, t: string, after: string)
    requires Blank(before) && t != "" && !IsSpace(t[0]) && !IsSpace(t[|t| - 1]) && Blank(after)
    ensures Strip(before + (t + after)) == t
  {
    hide IsSpace, Blank, StripLeft, StripRight;
    LeftBlankGoes(before, t + after);
    RightBlankGoes(t, after);
  }

  lemma SpellingEnds(t: string, orderId: string)
    requires Spells(t, orderId)
    ensures !IsSpace(t[0]) && !IsSpace(t[|t| - 1])
  {
    assert t[|t| - 1] == t[1..][|t| - 2] == orderId[1..][|t| - 2] == orderId[|t| - 1];
    assert IsDigit(orderId[|t| - 1]);
  }

  // The normal form of a text is the order id it names, and a text that names none has none.
  lemma NormalizesExactly(s: string, orderId: string)
    ensures Normalize(s) == Some(orderId) <==> Names(s, orderId)
  {
    hide IsSpace, Blank, UpperPrefix, Strip;
    if Normalize(s) == Some(orderId) {
      var i, j := StripSplits(s);
      CapitalIsSpelled(Strip(s), orderId);
    }
    if Names(s, orderId) {
      var i, j :| 0 <= i <= j <= |s| && Blank(s[..i]) && Spells(s[i..j], orderId) && Blank(s[j..]);
      SpellingEnds(s[i..j], orderId);
      StripIs(s[..i], s[i..j], s[j..]);
      assert s[..i] + (s[i..j] + s[j..]) == s;
      CapitalIsSpelled(s[i..j], orderId);
    }
  }

  lemma SpellingIsNamed(s: string, orderId: string)
    requires Spells(s, orderId)
    ensures Names(s, orderId)
  {
    assert s[..0] == "" && s[0..|s|] == s && s[|s|..] == "" && Blank(s[..0]) && Blank(s[|s|..]);
  }
}
