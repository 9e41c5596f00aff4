// Unicode white space as Go's `strings` package sees it.
module Text {

  /** `unicode.IsSpace`. */
  predicate Space(ch: char) {
    || ch in " \t\n\U{000B}\U{000C}\r\U{0085}\U{00A0}\U{1680}\U{2028}\U{2029}\U{202F}\U{205F}\U{3000}"
    || '\U{2000}' <= ch <= '\U{200A}'
  }

  ghost predicate Blank(s: string) { forall i :: 0 <= i < |s| ==> Space(s[i]) }

  function TrimLeft(s: string): string {
    if s != "" && Space(s[0]) then TrimLeft(s[1..]) else s
  }

  function TrimRight(s: string): string {
    if s != "" && Space(s[|s| - 1]) then TrimRight(s[..|s| - 1]) else s
  }

  /** `strings.TrimSpace`. */
  function Trim(s: string): string { TrimRight(TrimLeft(s)) }

  lemma {:induction false} TrimLeftCuts(s: string) returns (k: nat)
    ensures k <= |s| && Blank(s[..k]) && TrimLeft(s) == s[k..]
    ensures TrimLeft(s) != "" ==> !Space(TrimLeft(s)[0])
  {
    hide Space;
    if s != "" && Space(s[0]) {
      k := TrimLeftCuts(s[1..]);
      k := k + 1;
      assert s[..k] == [s[0]] + s[1..][..k - 1];
    } else {
      k := 0;
    }
  }

  lemma {:induction false} TrimRightCuts(s: string) returns (k: nat)
    ensures k <= |s| && Blank(s[k..]) && TrimRight(s) == s[..k]
    ensures k > 0 ==> !Space(s[k - 1])
  {
    hide Space;
    if s != "" && Space(s[|s| - 1]) {
      k := TrimRightCuts(s[..|s| - 1]);
      assert s[k..] == s[..|s| - 1][k..] + [s[|s| - 1]];
    } else {
      k := |s|;
    }
  }

  /** Trimming cuts blanks off both ends and nothing else, and leaves nothing exactly of a blank text. */
  lemma TrimCutsBlanks(s: string) returns (a: nat, b: nat)
    ensures a <= b <= |s| && Trim(s) == s[a..b] && Blank(s[..a]) && Blank(s[b..])
    ensures Trim(s) != "" ==> !Space(Trim(s)[0]) && !Space(Trim(s)[|Trim(s)| - 1])
    ensures Trim(s) == "" <==> Blank(s)
  {
    hide Space;
    a := TrimLeftCuts(s);
    var k := TrimRightCuts(s[a..]);
    b := a + k;
    assert s[a..][..k] == s[a..b] && s[a..][k..] == s[b..];
    if a < b {
      assert Trim(s)[0] == s[a] == TrimLeft(s)[0];
      assert !Blank(s) by { assert !Space(s[a]); }
    } else {
      assert s == s[..a] + s[b..];
    }
  }
}
