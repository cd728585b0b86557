/** The string helpers of Go's standard library that the modelled code calls. */
module Text {

  /** Unicode's White_Space property, the class that strings.TrimSpace removes. */
  predicate IsSpace(c: char) {
    || '\t' <= c <= '\r'
    || c == ' '
    || c == '\U{0085}'
    || c == '\U{00A0}'
    || c == '\U{1680}'
    || '\U{2000}' <= c <= '\U{200A}'
    || c == '\U{2028}'
    || c == '\U{2029}'
    || c == '\U{202F}'
    || c == '\U{205F}'
    || c == '\U{3000}'
  }

  predicate AllSpace(s: string) {
    forall c | c in s :: IsSpace(c)
  }

  /** strings.TrimSpace */
  function TrimSpace(s: string): string {
    if s == "" then s
    else if IsSpace(s[0]) then TrimSpace(s[1..])
    else if IsSpace(s[|s| - 1]) then TrimSpace(s[..|s| - 1])
    else s
  }

  lemma TailSlices(s: string, i: nat, j: nat)
    requires s != "" && i <= j < |s|
    ensures s[1..][i..j] == s[i + 1..j + 1] && s[1..][j..] == s[j + 1..] && s[..i + 1] == [s[0]] + s[1..][..i]
  {
  }

  lemma FrontSlices(s: string, i: nat, j: nat)
    requires s != "" && i <= j < |s|
    ensures var front := s[..|s| - 1];
            front[i..j] == s[i..j] && front[..i] == s[..i] && s[j..] == front[j..] + [s[|s| - 1]]
  {
  }

  lemma SpaceBefore(c: char, s: string)
    requires IsSpace(c) && AllSpace(s)
    ensures AllSpace([c] + s) && AllSpace(s + [c])
  {
  }

  /** What is left once the spaces on both sides are gone, and no more than those. */
  lemma {:induction false} TrimSpaceMeans(s: string) returns (i: nat, j: nat)
    ensures i <= j <= |s| && TrimSpace(s) == s[i..j]
    ensures AllSpace(s[..i]) && AllSpace(s[j..])
    ensures i < j ==> !IsSpace(s[i]) && !IsSpace(s[j - 1])
  {
    i, j := 0, |s|;
    if s != "" && IsSpace(s[0]) {
      i, j := TrimSpaceMeans(s[1..]);
      TailSlices(s, i, j);
      SpaceBefore(s[0], s[1..][..i]);
      i, j := i + 1, j + 1;
    } else if s != "" && IsSpace(s[|s| - 1]) {
      i, j := TrimSpaceMeans(s[..|s| - 1]);
      FrontSlices(s, i, j);
      SpaceBefore(s[|s| - 1], s[..|s| - 1][j..]);
    }
  }

  /** A string is its own trim exactly when it has no space at either end. */
  predicate Trimmed(s: string) {
    s == "" || (!IsSpace(s[0]) && !IsSpace(s[|s| - 1]))
  }

  lemma TrimmedIff(s: string)
    ensures Trimmed(s) <==> TrimSpace(s) == s
  {
    var i, j := TrimSpaceMeans(s);
  }

  /** Trimming a second time changes nothing. */
  lemma TrimIdempotent(s: string)
    ensures TrimSpace(TrimSpace(s)) == TrimSpace(s)
  {
    var i, j := TrimSpaceMeans(s);
    TrimmedIff(TrimSpace(s));
  }

  /** unicode.ToLower on ASCII letters and on the two other letters that it maps into ASCII. */
  function LowerChar(c: char): char {
    if 'A' <= c <= 'Z' then (c as int - 'A' as int + 'a' as int) as char
    else if c == '\U{0130}' then 'i'
    else if c == '\U{212A}' then 'k'
    else c
  }

  function ToLower(s: string): (r: string)
    ensures |r| == |s|
    ensures forall i | 0 <= i < |s| :: r[i] == LowerChar(s[i])
  {
    seq(|s|, i requires 0 <= i < |s| => LowerChar(s[i]))
  }

  /** Lower-casing undoes the capitals one by one. */
  lemma LowerAlphabet()
    ensures ToLower("ABCDEFGHIJKLMNOPQRSTUVWXYZ") == "abcdefghijklmnopqrstuvwxyz"
  {
    var lower := "abcdefghijklmnopqrstuvwxyz";
    assert forall i | 0 <= i < 26 :: LowerChar("ABCDEFGHIJKLMNOPQRSTUVWXYZ"[i]) == lower[i];
  }

  /** It leaves no capital, and changes exactly the texts that have one, or one of the two other letters. */
  lemma LowerLaws(s: string)
    ensures forall c | c in ToLower(s) :: !('A' <= c <= 'Z')
    ensures ToLower(s) == s <==> forall c | c in s :: !('A' <= c <= 'Z') && c != '\U{0130}' && c != '\U{212A}'
    ensures ToLower(ToLower(s)) == ToLower(s)
  {
    forall c | c in s
      ensures LowerChar(c) == c <==> !('A' <= c <= 'Z') && c != '\U{0130}' && c != '\U{212A}'
    {
    }
    if ToLower(s) == s {
      forall c | c in s
        ensures LowerChar(c) == c
      {
        var i :| 0 <= i < |s| && s[i] == c;
        assert ToLower(s)[i] == s[i];
      }
    } else {
      var i :| 0 <= i < |s| && ToLower(s)[i] != s[i];
      assert s[i] in s;
    }
  }

  /** The normal form in which channels, branches and operators are compared. */
  function Fold(s: string): string {
    ToLower(TrimSpace(s))
  }
}
