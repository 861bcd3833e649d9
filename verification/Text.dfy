/** The few Python string operations that identities and recipients go through, on ASCII. */
module Text {

  function LowerChar(ch: char): char {
    if 'A' <= ch <= 'Z' then (ch as int - 'A' as int + 'a' as int) as char else ch
  }

  function Lower(s: string): (r: string)
    ensures |r| == |s|
    ensures forall i :: 0 <= i < |s| ==> r[i] == if 'A' <= s[i] <= 'Z' then (s[i] as int + 32) as char else s[i]
  {
    if s == "" then "" else [LowerChar(s[0])] + Lower(s[1..])
  }

  predicate IsSpace(ch: char) {
    ch in " \t\n\r"
  }

  function StripLeft(s: string): string {
    if s != "" && IsSpace(s[0]) then StripLeft(s[1..]) else s
  }

  function StripRight(s: string): string {
    if s != "" && IsSpace(s[|s| - 1]) then StripRight(s[..|s| - 1]) else s
  }

  function Strip(s: string): string {
    StripRight(StripLeft(s))
  }

  /** Stripping takes the spaces at both ends and nothing else. */
  lemma {:induction false} StripIs(s: string) returns (i: nat, j: nat)
    ensures i <= j <= |s| && Strip(s) == s[i..j]
    ensures forall k :: 0 <= k < i || j <= k < |s| ==> s[k] in " \t\n\r"
    ensures i < j ==> s[i] !in " \t\n\r" && s[j - 1] !in " \t\n\r"
  {
    i := StripLeftIs(s);
    var right := StripRightIs(s[i..]);
    j := i + right;
    forall k | j <= k < |s| ensures s[k] in " \t\n\r" { assert s[k] == s[i..][k - i]; }
  }

  lemma {:induction false} StripLeftIs(s: string) returns (i: nat)
    ensures i <= |s| && StripLeft(s) == s[i..]
    ensures (forall k :: 0 <= k < i ==> s[k] in " \t\n\r") && (i < |s| ==> s[i] !in " \t\n\r")
  {
    i := 0;
    if s != "" && IsSpace(s[0]) {
      var rest := StripLeftIs(s[1..]);
      i := rest + 1;
      forall k | 0 < k < i ensures s[k] in " \t\n\r" { assert s[k] == s[1..][k - 1]; }
    }
  }

  lemma {:induction false} StripRightIs(s: string) returns (j: nat)
    ensures j <= |s| && StripRight(s) == s[..j]
    ensures (forall k :: j <= k < |s| ==> s[k] in " \t\n\r") && (0 < j ==> s[j - 1] !in " \t\n\r")
  {
    j := |s|;
    if s != "" && IsSpace(s[|s| - 1]) {
      j := StripRightIs(s[..|s| - 1]);
    }
  }

  /** The part after the first `ch`, or all of `s` when there is none. */
  function AfterFirst(s: string, ch: char): string {
    if ch !in s then s else if s[0] == ch then s[1..] else AfterFirst(s[1..], ch)
  }

  /** The part before the first `ch`, or all of `s` when there is none. */
  function BeforeFirst(s: string, ch: char): string {
    if s == "" || s[0] == ch then "" else [s[0]] + BeforeFirst(s[1..], ch)
  }

  predicate StartsWith(s: string, prefix: string) {
    prefix <= s
  }

  /** The part after the last "->", or all of `s` when there is none. */
  function AfterLastArrow(s: string): string {
    if |s| < 2 then s
    else if HasArrow(s[1..]) then AfterLastArrow(s[1..])
    else if s[..2] == "->" then s[2..]
    else s
  }

  predicate HasArrow(s: string) {
    |s| >= 2 && (s[..2] == "->" || HasArrow(s[1..]))
  }

  lemma {:induction false} AfterFirstIs(a: string, ch: char, b: string)
    requires ch !in a
    ensures AfterFirst(a + [ch] + b, ch) == b && BeforeFirst(a + [ch] + b, ch) == a
    ensures AfterFirst(a, ch) == BeforeFirst(a, ch) == a
  {
    var s := a + [ch] + b;
    if a == "" {
      assert s[0] == ch && s[1..] == b;
    } else {
      assert s[1..] == a[1..] + [ch] + b && ch in s && a[0] in a;
      assert a == [a[0]] + a[1..];
      AfterFirstIs(a[1..], ch, b);
    }
  }

  lemma {:induction false} NoDashNoArrow(s: string)
    requires '-' !in s
    ensures !HasArrow(s)
  {
    if |s| >= 2 {
      assert s[..2][0] == s[0] && s[0] in s;
      NoDashNoArrow(s[1..]);
    }
  }

  /** The part after the last arrow. */
  lemma {:induction false} AfterArrow(a: string, b: string)
    requires !HasArrow(b)
    ensures HasArrow(a + "->" + b) && AfterLastArrow(a + "->" + b) == b
  {
    var s := a + "->" + b;
    if a == "" {
      assert s[0] == '-' && s[1] == '>' && s[1..] == ">" + b;
      assert s[..2] == "->" && s[2..] == b;
      assert (">" + b)[1..] == b && (b != "" ==> (">" + b)[..2][0] == '>');
    } else {
      assert s[1..] == a[1..] + "->" + b;
      AfterArrow(a[1..], b);
    }
  }

  /** The order of strings by code points. */
  predicate LexLess(a: string, b: string) {
    b != "" && (a == "" || a[0] < b[0] || (a[0] == b[0] && LexLess(a[1..], b[1..])))
  }

  lemma {:induction false} LexTotal(a: string, b: string)
    ensures LexLess(a, b) || a == b || LexLess(b, a)
    ensures !(LexLess(a, b) && LexLess(b, a)) && !LexLess(a, a)
    decreases |a|
  {
    if a != "" {
      LexTotal(a[1..], a[1..]);
      if b != "" && a[0] == b[0] {
        LexTotal(a[1..], b[1..]);
        if a[1..] == b[1..] { assert a == [a[0]] + a[1..] == b; }
      }
    }
  }

  lemma {:induction false} LexTransitive(a: string, b: string, c: string)
    requires LexLess(a, b) && LexLess(b, c)
    ensures LexLess(a, c)
    decreases |a|
  {
    if a != "" && a[0] == b[0] == c[0] {
      LexTransitive(a[1..], b[1..], c[1..]);
    }
  }
}
