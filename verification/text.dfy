/** The string operations the modelled code relies on, on ASCII letters. */
module Text {

  function LowerChar(c: char): char {
    if 'A' <= c <= 'Z' then (c as int + 32) as char else c
  }

  function UpperChar(c: char): char {
    if 'a' <= c <= 'z' then (c as int - 32) as char else c
  }

  function Lower(s: string): string {
    seq(|s|, i requires 0 <= i < |s| => LowerChar(s[i]))
  }

  function Upper(s: string): string {
    seq(|s|, i requires 0 <= i < |s| => UpperChar(s[i]))
  }

  predicate EqIgnoreCase(a: string, b: string) {
    Lower(a) == Lower(b)
  }

  /** The white space of ASCII: the blank, and the control characters from the tabulator to the carriage return. */
  predicate IsSpace(c: char) {
    c == ' ' || '\t' <= c <= '\r'
  }

  function TrimStart(s: string): string {
    if s != [] && IsSpace(s[0]) then TrimStart(s[1..]) else s
  }

  function TrimEnd(s: string): string {
    if s != [] && IsSpace(s[|s| - 1]) then TrimEnd(s[..|s| - 1]) else s
  }

  function Trim(s: string): string {
    TrimEnd(TrimStart(s))
  }

  /** `trim_start_matches('@')`: every leading sign is removed. */
  function StripAllAts(s: string): string {
    if s != [] && s[0] == '@' then StripAllAts(s[1..]) else s
  }

  /** `strip_prefix('@').unwrap_or(s)`: at most one sign is removed. */
  function StripAt(s: string): string {
    if s != [] && s[0] == '@' then s[1..] else s
  }

  // ---------------------------------------------------------------- what they do, character by character

  const LETTERS_UP: string := "ABCDEFGHIJKLMNOPQRSTUVWXYZ"
  const LETTERS_LOW: string := "abcdefghijklmnopqrstuvwxyz"

  /** The letters of the alphabet change case one by one, and no other character changes. */
  lemma CaseExactly(c: char)
    ensures forall i | 0 <= i < 26 ::
              LowerChar(LETTERS_UP[i]) == LETTERS_LOW[i] && UpperChar(LETTERS_LOW[i]) == LETTERS_UP[i]
    ensures c !in LETTERS_UP ==> LowerChar(c) == c
    ensures c !in LETTERS_LOW ==> UpperChar(c) == c
  {
    assert forall i | 0 <= i < 26 ::
        LETTERS_UP[i] as int == 'A' as int + i && LETTERS_LOW[i] as int == 'a' as int + i;
    if 'A' <= c <= 'Z' {
      assert LETTERS_UP[c as int - 'A' as int] == c;
    }
    if 'a' <= c <= 'z' {
      assert LETTERS_LOW[c as int - 'a' as int] == c;
    }
  }

  lemma CaseOfWords(a: string, b: string)
    ensures |Lower(a)| == |Upper(a)| == |a|
    ensures forall i | 0 <= i < |a| :: Lower(a)[i] == LowerChar(a[i]) && Upper(a)[i] == UpperChar(a[i])
    ensures EqIgnoreCase(a, b) <==> |a| == |b| && forall i | 0 <= i < |a| :: LowerChar(a[i]) == LowerChar(b[i])
  {
    if EqIgnoreCase(a, b) {
      assert forall i | 0 <= i < |a| :: Lower(a)[i] == Lower(b)[i];
    }
    if |a| == |b| && forall i | 0 <= i < |a| :: LowerChar(a[i]) == LowerChar(b[i]) {
      assert Lower(a) == Lower(b);
    }
  }

  predicate IsBlank(s: string) {
    forall i | 0 <= i < |s| :: s[i] in " \t\n\U{B}\U{C}\r"
  }

  /** Neither end is white space. */
  predicate HasEnds(s: string) {
    s != "" ==> !IsBlank(s[..1]) && !IsBlank(s[|s| - 1..])
  }

  lemma SpaceExactly(c: char)
    ensures IsSpace(c) <==> c in " \t\n\U{B}\U{C}\r"
  {
    assert " \t\n\U{B}\U{C}\r" == [' ', '\t', '\n', '\U{B}', '\U{C}', '\r'];
  }

  lemma BlankCharacter(c: char)
    ensures IsBlank([c]) <==> IsSpace(c)
  {
    SpaceExactly(c);
    assert [c][0] == c;
  }

  lemma {:induction false} TrimStartSkips(pre: string, s: string)
    requires IsBlank(pre) && (s == "" || !IsSpace(s[0]))
    ensures TrimStart(pre + s) == s
  {
    if pre == "" {
      assert pre + s == s;
    } else {
      SpaceExactly(pre[0]);
      assert (pre + s)[1..] == pre[1..] + s;
      TrimStartSkips(pre[1..], s);
    }
  }

  lemma {:induction false} TrimEndSkips(s: string, post: string)
    requires IsBlank(post) && (s == "" || !IsSpace(s[|s| - 1]))
    ensures TrimEnd(s + post) == s
  {
    if post == "" {
      assert s + post == s;
    } else {
      var n := |post| - 1;
      SpaceExactly(post[n]);
      assert (s + post)[..|s + post| - 1] == s + post[..n];
      TrimEndSkips(s, post[..n]);
    }
  }

  /** Trimming removes the white space around a text and nothing else. */
  lemma TrimExactly(pre: string, s: string, post: string)
    requires IsBlank(pre) && IsBlank(post) && HasEnds(s)
    ensures Trim(pre + s + post) == s
  {
    if s == "" {
      assert pre + s + post == (pre + post) + "";
      TrimStartSkips(pre + post, "");
    } else {
      assert s[..1] == [s[0]] && s[|s| - 1..] == [s[|s| - 1]];
      SpaceExactly(s[0]);
      SpaceExactly(s[|s| - 1]);
      assert pre + s + post == pre + (s + post);
      TrimStartSkips(pre, s + post);
      TrimEndSkips(s, post);
    }
  }

  lemma {:induction false} TrimSplits(s: string) returns (pre: string, core: string, post: string)
    ensures s == pre + core + post && IsBlank(pre) && IsBlank(post) && HasEnds(core)
  {
    if s == "" {
      pre, core, post := "", "", "";
    } else if IsBlank(s[..1]) {
      pre, core, post := TrimSplits(s[1..]);
      pre := s[..1] + pre;
    } else {
      core, post := TrimEndSplits(s);
      pre := "";
    }
  }

  lemma {:induction false} TrimEndSplits(s: string) returns (core: string, post: string)
    requires s != "" && !IsBlank(s[..1])
    ensures s == core + post && IsBlank(post) && HasEnds(core)
  {
    if IsBlank(s[|s| - 1..]) {
      assert |s| > 1;
      assert s[..|s| - 1][..1] == s[..1];
      core, post := TrimEndSplits(s[..|s| - 1]);
      post := post + s[|s| - 1..];
    } else {
      core, post := s, "";
    }
  }

  predicate AllAts(s: string) {
    forall i | 0 <= i < |s| :: s[i] == '@'
  }

  /** One sign is removed, or all leading ones, and nothing else. */
  lemma {:induction false} StripExactly(ats: string, s: string)
    requires AllAts(ats) && (s == "" || s[0] != '@')
    ensures StripAllAts(ats + s) == s
    ensures StripAt(ats + s) == if ats == "" then s else ats[1..] + s
  {
    if ats == "" {
      assert ats + s == s;
    } else {
      assert (ats + s)[1..] == ats[1..] + s;
      StripExactly(ats[1..], s);
    }
  }
}
