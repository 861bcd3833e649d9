/** How a peer's name becomes a file name. */
module PeerName {

  predicate Allowed(ch: char) {
    'a' <= ch <= 'z' || 'A' <= ch <= 'Z' || '0' <= ch <= '9' || ch in "_-@."
  }

  function Filtered(s: string): (r: string)
    ensures forall ch :: ch in r ==> Allowed(ch)
  {
    if s == "" then "" else (if Allowed(s[0]) then [s[0]] else []) + Filtered(s[1..])
  }

  function DropLeadingDots(s: string): (r: string)
    ensures r != "" ==> r[0] != '.'
    ensures forall ch :: ch in r ==> ch in s
  {
    if s != "" && s[0] == '.' then DropLeadingDots(s[1..]) else s
  }

  function DropTrailingDots(s: string): (r: string)
    ensures r <= s && (r != "" ==> r[|r| - 1] != '.')
  {
    if s != "" && s[|s| - 1] == '.' then DropTrailingDots(s[..|s| - 1]) else s
  }

  /** Filtering keeps, in order, exactly the letters, digits and `_-@.`. */
  lemma {:induction false} FilteredIs(a: string, b: string, ch: char)
    ensures Filtered(a + b) == Filtered(a) + Filtered(b)
    ensures Filtered([ch]) ==
              if 'a' <= ch <= 'z' || 'A' <= ch <= 'Z' || '0' <= ch <= '9' || ch in "_-@." then [ch] else []
  {
    FilteredOne(ch);
    hide Filtered, Allowed;
    if a == "" {
      assert a + b == b;
      FilteredNone();
    } else {
      var rest := a[1..];
      assert a == [a[0]] + rest && a + b == [a[0]] + (rest + b);
      FilteredCons(a[0], rest);
      FilteredCons(a[0], rest + b);
      FilteredIs(rest, b, ch);
    }
  }

  lemma FilteredNone()
    ensures Filtered("") == ""
  {
  }

  lemma FilteredCons(ch: char, s: string)
    ensures Filtered([ch] + s) == (if Allowed(ch) then [ch] else []) + Filtered(s)
  {
    assert ([ch] + s)[1..] == s;
  }

  lemma FilteredOne(ch: char)
    ensures Filtered([ch]) ==
              if 'a' <= ch <= 'z' || 'A' <= ch <= 'Z' || '0' <= ch <= '9' || ch in "_-@." then [ch] else []
  {
    assert [ch][1..] == [];
  }

  /** The dots dropped are those at both ends. */
  lemma {:induction false} WithoutLeadingDots(s: string) returns (i: nat)
    ensures i <= |s| && DropLeadingDots(s) == s[i..] && forall k :: 0 <= k < i ==> s[k] == '.'
  {
    i := 0;
    if s != "" && s[0] == '.' {
      var rest := WithoutLeadingDots(s[1..]);
      i := rest + 1;
      forall k | 0 < k < i ensures s[k] == '.' { assert s[k] == s[1..][k - 1]; }
    }
  }

  lemma {:induction false} WithoutTrailingDots(s: string) returns (j: nat)
    ensures j <= |s| && DropTrailingDots(s) == s[..j] && forall k :: j <= k < |s| ==> s[k] == '.'
  {
    j := |s|;
    if s != "" && s[|s| - 1] == '.' { j := WithoutTrailingDots(s[..|s| - 1]); }
  }

  const MAX_NAME := 64

  /** The allowed characters of the name, without dots at either end. */
  function Stripped(peer: string): string {
    DropTrailingDots(DropLeadingDots(Filtered(peer)))
  }

  /** `_sanitize_peer_name`. */
  function Sanitize(peer: string): (r: string) {
    var name := Stripped(peer);
    var cut := if |name| > MAX_NAME then name[..MAX_NAME] else name;
    if cut == "" then "unknown" else cut
  }

  /** The file name: the filtered name without dots at either end, cut at 64, or `unknown` when nothing is left. */
  lemma SanitizeIs(peer: string) returns (i: nat, j: nat)
    ensures var f := Filtered(peer);
            && i <= j <= |f| && (forall k :: 0 <= k < i || j <= k < |f| ==> f[k] == '.')
            && (i < j ==> f[i] != '.' && f[j - 1] != '.')
            && Sanitize(peer) == if i == j then "unknown" else if j - i > 64 then f[i..i + 64] else f[i..j]
  {
    i, j := StrippedIs(peer);
    hide Filtered, Stripped;
  }

  lemma StrippedIs(peer: string) returns (i: nat, j: nat)
    ensures var f := Filtered(peer);
            && i <= j <= |f| && (forall k :: 0 <= k < i || j <= k < |f| ==> f[k] == '.')
            && (i < j ==> f[i] != '.' && f[j - 1] != '.') && Stripped(peer) == f[i..j]
  {
    var f := Filtered(peer);
    hide Filtered, DropLeadingDots, DropTrailingDots;
    i := WithoutLeadingDots(f);
    var right := WithoutTrailingDots(f[i..]);
    j := i + right;
    forall k | j <= k < |f| ensures f[k] == '.' { assert f[k] == f[i..][k - i]; }
    assert f[i..][..right] == f[i..j];
    if i < j { assert f[i..j][0] == f[i] && f[i..j][j - i - 1] == f[j - 1]; }
  }

  /** A name that is already its own file name. */
  predicate IsPlain(peer: string) {
    1 <= |peer| <= MAX_NAME && (forall ch :: ch in peer ==> Allowed(ch)) && peer[0] != '.' && peer[|peer| - 1] != '.'
  }

  lemma SanitizeIsSafe(peer: string)
    ensures var r := Sanitize(peer);
            1 <= |r| <= MAX_NAME && (forall ch :: ch in r ==> Allowed(ch)) && r[0] != '.'
  {
  }

  lemma {:induction false} FilteredKeepsAll(s: string)
    requires forall ch :: ch in s ==> Allowed(ch)
    ensures Filtered(s) == s
  {
    if s != "" {
      assert s[0] in s && forall ch :: ch in s[1..] ==> ch in s;
      FilteredKeepsAll(s[1..]);
      assert s == [s[0]] + s[1..];
    }
  }

  /** Exactly the plain names are left alone. */
  lemma FixedPointIff(peer: string)
    ensures Sanitize(peer) == peer <==> IsPlain(peer)
  {
    if IsPlain(peer) {
      FilteredKeepsAll(peer);
    }
    if Sanitize(peer) == peer {
      SanitizeIsSafe(peer);
      FilteredKeepsAll(peer);
    }
  }

  /** The stripped name is too long, and has a dot as its last character that is kept. */
  predicate CutAtDot(peer: string) {
    |Stripped(peer)| > MAX_NAME && Stripped(peer)[MAX_NAME - 1] == '.'
  }

  lemma LastCharacter(peer: string)
    ensures Sanitize(peer)[|Sanitize(peer)| - 1] == '.' <==> CutAtDot(peer)
  {
  }

  /** A sanitized name is plain, and a second pass leaves it alone, unless the cut to 64 characters ends at a dot. */
  lemma SanitizeTwiceIff(peer: string)
    ensures IsPlain(Sanitize(peer)) <==> !CutAtDot(peer)
    ensures Sanitize(Sanitize(peer)) == Sanitize(peer) <==> !CutAtDot(peer)
  {
    SanitizeIsSafe(peer);
    FixedPointIff(Sanitize(peer));
    LastCharacter(peer);
  }

  /** A second pass always ends in a plain name. */
  lemma SecondPassIsPlain(peer: string)
    ensures IsPlain(Sanitize(Sanitize(peer)))
  {
    var name := Sanitize(peer);
    SanitizeIsSafe(peer);
    FilteredKeepsAll(name);
    SanitizeIsSafe(name);
    var again := DropTrailingDots(name);
    assert Sanitize(name) == if again == "" then "unknown" else again;
  }

  /** Sixty-three letters, a dot, a letter: the cut leaves the dot, and a second pass drops it. */
  lemma CutLeavesDot()
    ensures var peer := seq(65, i => if i == 63 then '.' else 'a');
            Sanitize(peer) == peer[..64] && Sanitize(Sanitize(peer)) != Sanitize(peer)
  {
    var peer := seq(65, i => if i == 63 then '.' else 'a');
    FilteredKeepsAll(peer);
    assert peer[0] == 'a' && peer[64] == 'a';
    assert Sanitize(peer) == peer[..64];
    SanitizeTwiceIff(peer);
  }
}
