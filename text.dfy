/**
 * The JavaScript string built-ins the stage relies on, restricted to ASCII:
 * `toLowerCase`, `includes`, `some` over a keyword list, `trim`, `join`, and
 * `replace` with a global pattern and a replacement string.
 */
module Text {

  /** ASCII whitespace: the part of the regex class `\s` and of `trim` covered here. */
  predicate IsSpace(c: char) {
    c == ' ' || c == '\t' || c == '\n' || c == '\U{B}' || c == '\U{C}' || c == '\r'
  }

  predicate IsAsciiLetter(c: char) {
    'a' <= c <= 'z' || 'A' <= c <= 'Z'
  }

  predicate IsUpperAscii(c: char) {
    'A' <= c <= 'Z'
  }

  /** `toLowerCase` on one character: only `A`..`Z` change. */
  function LowerChar(c: char): (r: char)
    ensures IsUpperAscii(c) ==> r as int == c as int + 32
    ensures !IsUpperAscii(c) ==> r == c
    ensures !IsUpperAscii(r)
  {
    if IsUpperAscii(c) then (c as int + 32) as char else c
  }

  /** `toLowerCase`: every character lowered, the length kept. */
  function Lower(s: string): (r: string)
    ensures |r| == |s|
    ensures forall i :: 0 <= i < |s| ==> r[i] == LowerChar(s[i])
  {
    if s == [] then [] else [LowerChar(s[0])] + Lower(s[1..])
  }

  /** A string with no upper-case ASCII letter; `Lower` leaves it as it is. */
  predicate IsLowerCase(s: string) {
    forall i :: 0 <= i < |s| ==> !IsUpperAscii(s[i])
  }

  lemma {:induction false} LowerOfLowerCase(s: string)
    requires IsLowerCase(s)
    ensures Lower(s) == s
  {
    if s != [] {
      LowerOfLowerCase(s[1..]);
    }
  }

  /** `sub` occurs in `s` starting at index `i`. */
  predicate OccursAt(s: string, sub: string, i: int) {
    0 <= i && i + |sub| <= |s| && s[i..i + |sub|] == sub
  }

  lemma OccursShift(s: string, sub: string)
    requires s != []
    ensures forall i :: OccursAt(s[1..], sub, i) ==> OccursAt(s, sub, i + 1)
    ensures forall j :: OccursAt(s, sub, j) && j > 0 ==> OccursAt(s[1..], sub, j - 1)
  {
    forall i | OccursAt(s[1..], sub, i) ensures OccursAt(s, sub, i + 1) {
      assert s[1..][i..i + |sub|] == s[i + 1..i + 1 + |sub|];
    }
    forall j | OccursAt(s, sub, j) && j > 0 ensures OccursAt(s[1..], sub, j - 1) {
      assert s[1..][j - 1..j - 1 + |sub|] == s[j..j + |sub|];
    }
  }

  /** `s.includes(sub)`: a left-to-right search for `sub` as a substring. */
  function Includes(s: string, sub: string): (r: bool)
    ensures r <==> exists i :: OccursAt(s, sub, i)
    decreases |s|
  {
    if |sub| > |s| then false
    else if s[..|sub|] == sub then assert OccursAt(s, sub, 0); true
    else if s == [] then false
    else OccursShift(s, sub); Includes(s[1..], sub)
  }

  /** `words.some(w => s.includes(w))`. */
  function AnyIncluded(s: string, words: seq<string>): (r: bool)
    ensures r <==> exists i :: 0 <= i < |words| && Includes(s, words[i])
  {
    if words == [] then false
    else
      assert forall i :: 0 <= i < |words| - 1 ==> words[1..][i] == words[i + 1];
      Includes(s, words[0]) || AnyIncluded(s, words[1..])
  }

  lemma AnyIncludedMember(s: string, words: seq<string>)
    ensures AnyIncluded(s, words) <==> exists w :: w in words && Includes(s, w)
  {
    if exists w :: w in words && Includes(s, w) {
      var w :| w in words && Includes(s, w);
      var j :| 0 <= j < |words| && words[j] == w;
    }
  }

  /** The number of whitespace characters `s` starts with. */
  function LeadingSpaces(s: string): (n: nat)
    ensures n <= |s|
    ensures forall i :: 0 <= i < n ==> IsSpace(s[i])
    ensures n == |s| || !IsSpace(s[n])
  {
    if s != [] && IsSpace(s[0]) then 1 + LeadingSpaces(s[1..]) else 0
  }

  /** The number of whitespace characters `s` ends with. */
  function TrailingSpaces(s: string): (n: nat)
    ensures n <= |s|
    ensures forall i :: |s| - n <= i < |s| ==> IsSpace(s[i])
    ensures n == |s| || !IsSpace(s[|s| - n - 1])
  {
    if s != [] && IsSpace(s[|s| - 1]) then 1 + TrailingSpaces(s[..|s| - 1]) else 0
  }

  /**
   * `trim`: whitespace cut off both ends. The result is the slice of `s` that
   * remains once a run of leading and a run of trailing whitespace are dropped.
   */
  function Trim(s: string): (r: string)
    ensures |r| <= |s|
    ensures forall c :: c in r ==> c in s
    ensures r == [] || (!IsSpace(r[0]) && !IsSpace(r[|r| - 1]))
    ensures exists a ::
              && 0 <= a <= |s| - |r| && OccursAt(s, r, a)
              && (forall i :: 0 <= i < a ==> IsSpace(s[i]))
              && (forall i :: a + |r| <= i < |s| ==> IsSpace(s[i]))
  {
    var a := LeadingSpaces(s);
    if a == |s| then
      assert OccursAt(s, [], a);
      []
    else
      var e := |s| - TrailingSpaces(s);
      var r := s[a..e];
      assert OccursAt(s, r, a);
      assert forall c :: c in r ==> c in s by {
        forall c | c in r ensures c in s {
          var j :| 0 <= j < |r| && r[j] == c;
          assert s[a + j] == c;
        }
      }
      r
  }

  /** `parts.join(sep)`. */
  function Join(parts: seq<string>, sep: string): (r: string)
    ensures parts == [] ==> r == ""
    ensures |parts| == 1 ==> r == parts[0]
    ensures |parts| > 0 ==> |r| >= |parts[0]| && r[..|parts[0]|] == parts[0]
    ensures |parts| == 2 ==> r == parts[0] + sep + parts[1]
    ensures |parts| == 3 ==> r == parts[0] + sep + parts[1] + sep + parts[2]
  {
    if parts == [] then ""
    else if |parts| == 1 then parts[0]
    else parts[0] + sep + Join(parts[1..], sep)
  }

  predicate HasNoDollar(s: string) {
    forall i :: 0 <= i < |s| ==> s[i] != '$'
  }

  /**
   * The text `replace` inserts for the match `s[start..end]` when the replacement
   * is the string `rep` and the pattern has no capture groups: `$$` gives `$`,
   * `$&` the match, `` $` `` the text before it, `$'` the text after it; every
   * other character, including `$` before anything else, is copied.
   */
  function Expand(rep: string, s: string, start: nat, end: nat): string
    requires start <= end <= |s|
    decreases |rep|
  {
    if rep == [] then []
    else if |rep| >= 2 && rep[0] == '$' && rep[1] == '$' then "$" + Expand(rep[2..], s, start, end)
    else if |rep| >= 2 && rep[0] == '$' && rep[1] == '&' then s[start..end] + Expand(rep[2..], s, start, end)
    else if |rep| >= 2 && rep[0] == '$' && rep[1] == '`' then s[..start] + Expand(rep[2..], s, start, end)
    else if |rep| >= 2 && rep[0] == '$' && rep[1] == '\'' then s[end..] + Expand(rep[2..], s, start, end)
    else [rep[0]] + Expand(rep[1..], s, start, end)
  }

  /** A replacement without `$` is inserted literally. */
  lemma {:induction false} ExpandLiteral(rep: string, s: string, start: nat, end: nat)
    requires start <= end <= |s|
    requires HasNoDollar(rep)
    ensures Expand(rep, s, start, end) == rep
  {
    if rep != [] {
      ExpandLiteral(rep[1..], s, start, end);
    }
  }

  /** The output of a global `replace` of the literal `pat` in `s`, from index `i` on. */
  function ReplaceFrom(s: string, i: nat, pat: string, rep: string): string
    requires i <= |s| && pat != []
    decreases |s| - i
  {
    if i == |s| then []
    else if OccursAt(s, pat, i) then Expand(rep, s, i, i + |pat|) + ReplaceFrom(s, i + |pat|, pat, rep)
    else [s[i]] + ReplaceFrom(s, i + 1, pat, rep)
  }

  /** `s.replace(/pat/g, rep)` for a pattern that matches the literal text `pat`. */
  function ReplaceAll(s: string, pat: string, rep: string): string
    requires pat != []
  {
    ReplaceFrom(s, 0, pat, rep)
  }

  lemma {:induction false} ReplaceFromUntouched(s: string, i: nat, pat: string, rep: string)
    requires i <= |s| && pat != []
    requires forall j :: i <= j ==> !OccursAt(s, pat, j)
    ensures ReplaceFrom(s, i, pat, rep) == s[i..]
    decreases |s| - i
  {
    if i < |s| {
      ReplaceFromUntouched(s, i + 1, pat, rep);
    }
  }

  /** Text without the pattern comes back unchanged, whatever the replacement. */
  lemma ReplaceAllUntouched(s: string, pat: string, rep: string)
    requires pat != [] && !Includes(s, pat)
    ensures ReplaceAll(s, pat, rep) == s
  {
    ReplaceFromUntouched(s, 0, pat, rep);
  }

  /** Every occurrence found at `i` becomes the expanded replacement, and the scan resumes after it. */
  lemma ReplaceFromAtMatch(s: string, i: nat, pat: string, rep: string)
    requires i <= |s| && pat != [] && OccursAt(s, pat, i) && HasNoDollar(rep)
    ensures ReplaceFrom(s, i, pat, rep) == rep + ReplaceFrom(s, i + |pat|, pat, rep)
  {
    ExpandLiteral(rep, s, i, i + |pat|);
  }
}
