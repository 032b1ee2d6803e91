/** The string primitives the forms and filters rely on: trim, toLowerCase,
    includes, indexOf, and the e-mail pattern ^[^\s@]+@[^\s@]+\.[^\s@]+$. */
module Text {

  /** JavaScript white space and line terminators: what `trim` strips and
      what `\s` matches in a regular expression. */
  predicate IsSpace(c: char)
  {
    c == ' ' || c == '\t' || c == '\n' || c == '\r' || c == '\U{000B}' || c == '\U{000C}'
    || c == '\U{00A0}' || c == '\U{1680}' || ('\U{2000}' <= c <= '\U{200A}')
    || c == '\U{2028}' || c == '\U{2029}' || c == '\U{202F}' || c == '\U{205F}'
    || c == '\U{3000}' || c == '\U{FEFF}'
  }

  /** Every character is white space (the empty string included). */
  predicate IsBlank(s: string)
  {
    forall i :: 0 <= i < |s| ==> IsSpace(s[i])
  }

  /** The number of white-space characters at the start of `s`. */
  function LeadingSpaces(s: string): (k: nat)
    ensures k <= |s|
    ensures forall i :: 0 <= i < k ==> IsSpace(s[i])
    ensures k < |s| ==> !IsSpace(s[k])
  {
    if s != [] && IsSpace(s[0]) then 1 + LeadingSpaces(s[1..]) else 0
  }

  /** The number of white-space characters at the end of `s`. */
  function TrailingSpaces(s: string): (k: nat)
    ensures k <= |s|
    ensures forall i :: |s| - k <= i < |s| ==> IsSpace(s[i])
    ensures k < |s| ==> !IsSpace(s[|s| - k - 1])
  {
    if s != [] && IsSpace(s[|s| - 1]) then 1 + TrailingSpaces(s[..|s| - 1]) else 0
  }

  /** `trimStart`: `s` without its leading white space. */
  function TrimStart(s: string): (r: string)
    ensures |r| <= |s| && r == s[|s| - |r|..]
    ensures IsBlank(s[..|s| - |r|])
    ensures r == [] || !IsSpace(r[0])
  {
    var k := LeadingSpaces(s);
    assert forall i :: 0 <= i < k ==> s[..k][i] == s[i];
    s[k..]
  }

  /** `trimEnd`: `s` without its trailing white space. */
  function TrimEnd(s: string): (r: string)
    ensures |r| <= |s| && r == s[..|r|]
    ensures IsBlank(s[|r|..])
    ensures r == [] || !IsSpace(r[|r| - 1])
  {
    var k := TrailingSpaces(s);
    assert forall i :: |s| - k <= i < |s| ==> s[|s| - k..][i - (|s| - k)] == s[i];
    s[..|s| - k]
  }

  /** `trim`: the string is empty after trimming exactly when it is blank. */
  function Trim(s: string): (r: string)
    ensures r == [] <==> IsBlank(s)
  {
    var t := TrimStart(s);
    assert s == s[..|s| - |t|] + t;
    TrimEnd(t)
  }

  /** `toLowerCase`, on the letters A-Z. */
  function LowerChar(c: char): char
  {
    if 'A' <= c <= 'Z' then (c as int + 32) as char else c
  }

  /** `toLowerCase`: the same length, no capital A-Z left, each capital moved
      to its small letter and every other character kept. */
  function Lower(s: string): (r: string)
    ensures |r| == |s|
    ensures forall i :: 0 <= i < |r| ==> !('A' <= r[i] <= 'Z')
    ensures forall i :: 0 <= i < |s| && !('A' <= s[i] <= 'Z') ==> r[i] == s[i]
    ensures forall i :: 0 <= i < |s| && 'A' <= s[i] <= 'Z' ==> r[i] as int == s[i] as int + 32
  {
    seq(|s|, i requires 0 <= i < |s| => LowerChar(s[i]))
  }

  /** Lower-casing twice is lower-casing once. */
  lemma LowerIdempotent(s: string)
    ensures Lower(Lower(s)) == Lower(s)
  {
  }

  /** `t` occurs in `s` starting at index `i`. */
  ghost predicate OccursAt(s: string, t: string, i: int)
  {
    0 <= i && i + |t| <= |s| && s[i..i + |t|] == t
  }

  /** `s.includes(t)`. */
  predicate Contains(s: string, t: string)
  {
    t <= s || (s != [] && Contains(s[1..], t))
  }

  /** `includes` holds exactly when the text occurs somewhere in the string. */
  lemma {:induction false} ContainsIff(s: string, t: string)
    ensures Contains(s, t) <==> exists i :: OccursAt(s, t, i)
  {
    if t <= s {
      assert OccursAt(s, t, 0);
    } else if s == [] {
    } else {
      ContainsIff(s[1..], t);
      if Contains(s[1..], t) {
        var i :| OccursAt(s[1..], t, i);
        assert s[i + 1..i + 1 + |t|] == s[1..][i..i + |t|];
        assert OccursAt(s, t, i + 1);
      }
      if exists i :: OccursAt(s, t, i) {
        var i :| OccursAt(s, t, i);
        assert OccursAt(s, t, 0) ==> t <= s;
        assert i != 0;
        assert s[1..][i - 1..i - 1 + |t|] == s[i..i + |t|];
        assert OccursAt(s[1..], t, i - 1);
      }
    }
  }

  /** Every string includes the empty string, so an empty search term keeps everything. */
  lemma ContainsEmpty(s: string)
    ensures Contains(s, "")
  {
  }

  /** `indexOf(c)`: the first position of `c`, or -1 when it is absent. */
  function IndexOf(s: string, c: char): (r: int)
    ensures -1 <= r < |s|
    ensures r == -1 <==> c !in s
    ensures r >= 0 ==> s[r] == c
    ensures forall j :: 0 <= j < |s| && s[j] == c ==> r != -1 && r <= j
  {
    if s == [] then -1
    else if s[0] == c then 0
    else
      var k := IndexOf(s[1..], c);
      if k < 0 then -1 else k + 1
  }

  /** The character class [^\s@]+ : non-empty, no white space and no '@'. */
  predicate Plain(s: string)
  {
    s != [] && forall i :: 0 <= i < |s| ==> !IsSpace(s[i]) && s[i] != '@'
  }

  /** `s` splits as part "@" part "." part around positions `at` and `dot`. */
  ghost predicate EmailSplit(s: string, at: int, dot: int)
  {
    0 < at < dot < |s| && s[at] == '@' && s[dot] == '.'
    && Plain(s[..at]) && Plain(s[at + 1..dot]) && Plain(s[dot + 1..])
  }

  /** The regular expression ^[^\s@]+@[^\s@]+\.[^\s@]+$ matches `s`. */
  ghost predicate MatchesEmailPattern(s: string)
  {
    exists at, dot :: EmailSplit(s, at, dot)
  }

  /** A direct test for the e-mail pattern: no white space, exactly one '@'
      that is not first, and a '.' after it that is neither right after
      the '@' nor last. */
  predicate ValidEmail(s: string)
  {
    var at := IndexOf(s, '@');
    && (forall i :: 0 <= i < |s| ==> !IsSpace(s[i]))
    && 0 < at
    && '@' !in s[at + 1..]
    && at + 2 < |s|
    && '.' in s[at + 2..|s| - 1]
  }

  /** A string the direct test accepts matches the regular expression. */
  lemma ValidEmailMatches(s: string)
    requires ValidEmail(s)
    ensures MatchesEmailPattern(s)
  {
    var at := IndexOf(s, '@');
    var k :| 0 <= k < |s[at + 2..|s| - 1]| && s[at + 2..|s| - 1][k] == '.';
    var dot := at + 2 + k;
    assert s[dot] == '.';
    forall i | 0 <= i < at ensures s[i] != '@' {
      assert s[..at][i] == s[i];
    }
    forall i | at + 1 <= i < |s| ensures s[i] != '@' {
      assert s[at + 1..][i - at - 1] == s[i];
    }
    assert Plain(s[..at]);
    assert Plain(s[at + 1..dot]);
    assert Plain(s[dot + 1..]);
    assert EmailSplit(s, at, dot);
  }

  /** A string the regular expression matches passes the direct test. */
  lemma MatchesAreValid(s: string)
    requires MatchesEmailPattern(s)
    ensures ValidEmail(s)
  {
    var at := IndexOf(s, '@');
    var a, d :| EmailSplit(s, a, d);
    forall i | 0 <= i < |s| ensures !IsSpace(s[i]) && (s[i] == '@' ==> i == a) {
      if i < a {
        assert s[..a][i] == s[i];
      } else if a < i < d {
        assert s[a + 1..d][i - a - 1] == s[i];
      } else if d < i {
        assert s[d + 1..][i - d - 1] == s[i];
      }
    }
    assert s[a] == '@';
    assert at == a;
    assert s[at + 2..|s| - 1][d - at - 2] == '.';
  }

  /** The direct test accepts exactly the strings the regular expression matches. */
  lemma EmailPatternIff(s: string)
    ensures ValidEmail(s) <==> MatchesEmailPattern(s)
  {
    if ValidEmail(s) {
      ValidEmailMatches(s);
    }
    if MatchesEmailPattern(s) {
      MatchesAreValid(s);
    }
  }
}

