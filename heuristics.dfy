/**
 * The content heuristics run on every turn: keyword-gated discovery extraction
 * and the transition test. The three extraction patterns all have the shape
 * `(?:verb|...)\s+(?:a|an|the)\s+([a-zA-Z\s]{5,35})` with the `i` flag; they are
 * given here by the semantics of a backtracking regex engine: the leftmost
 * start index wins, alternatives are tried in order, `\s+` is greedy and gives
 * characters back one at a time, and the capture takes as many characters of
 * its class as it can, up to 35.
 */
module Heuristics {
  import opened Wrappers
  import opened Text
  import opened StageTypes
  import opened PhaseCatalog

  const ItemTriggers: seq<string> := ["found", "discovered", "took"]
  const ItemVerbs: seq<string> := ["found", "discovered", "took", "grabbed", "obtained"]
  const CreatureTriggers: seq<string> := ["encountered", "fought", "faced"]
  const CreatureVerbs: seq<string> := ["encountered", "fought", "faced", "saw"]
  const LocationTriggers: seq<string> := ["entered", "reached"]
  const LocationVerbs: seq<string> := ["entered", "reached", "arrived at"]
  const Articles: seq<string> := ["a", "an", "the"]

  /** Bounds of the quantifier `{5,35}` on the captured phrase. */
  const MinPhrase: nat := 5
  const MaxPhrase: nat := 35

  /** The character class `[a-zA-Z\s]` of the captured phrase. */
  predicate InPhraseClass(c: char) {
    IsAsciiLetter(c) || IsSpace(c)
  }

  /** What the capture group can hold: 5 to 35 letters or spaces. */
  predicate IsCapture(t: string) {
    MinPhrase <= |t| <= MaxPhrase && forall c :: c in t ==> InPhraseClass(c)
  }

  /** What a discovery's content can be: at most 35 letters or spaces, with no space at either end. */
  predicate IsTrimmedPhrase(t: string) {
    && |t| <= MaxPhrase
    && (forall c :: c in t ==> InPhraseClass(c))
    && (t == [] || (!IsSpace(t[0]) && !IsSpace(t[|t| - 1])))
  }

  /** `t` is a slice of `s` that starts at index `lo` or later. */
  ghost predicate TextFrom(s: string, t: string, lo: nat) {
    exists q :: lo <= q && OccursAt(s, t, q)
  }

  /** The lower-case literal `w` matches `s` at index `i` under the `i` flag. */
  predicate MatchesAt(s: string, i: nat, w: string) {
    i + |w| <= |s| && Lower(s[i..i + |w|]) == w
  }

  /** The number of whitespace characters in a row starting at index `i`. */
  function SpaceRun(s: string, i: nat): (n: nat)
    requires i <= |s|
    ensures i + n <= |s|
    ensures forall j :: i <= j < i + n ==> IsSpace(s[j])
    ensures i + n == |s| || !IsSpace(s[i + n])
    decreases |s| - i
  {
    if i < |s| && IsSpace(s[i]) then 1 + SpaceRun(s, i + 1) else 0
  }

  /** The number of phrase-class characters in a row starting at index `i`. */
  function ClassRun(s: string, i: nat): (n: nat)
    requires i <= |s|
    ensures i + n <= |s|
    ensures forall j :: i <= j < i + n ==> InPhraseClass(s[j])
    ensures i + n == |s| || !InPhraseClass(s[i + n])
    decreases |s| - i
  {
    if i < |s| && InPhraseClass(s[i]) then 1 + ClassRun(s, i + 1) else 0
  }

  /**
   * `\s+([a-zA-Z\s]{5,35})` at index `p`, where the `\s+` first takes `k`
   * spaces and, while the capture fails, gives them back one by one.
   */
  function CaptureAfter(s: string, p: nat, k: nat): (r: Option<string>)
    requires p + k <= |s|
    ensures r.Some? ==> IsCapture(r.value)
    ensures r.Some? ==> TextFrom(s, r.value, p)
    decreases k
  {
    if k == 0 then None
    else
      var run := ClassRun(s, p + k);
      if run >= MinPhrase then
        var len := if run < MaxPhrase then run else MaxPhrase;
        var t := s[p + k..p + k + len];
        assert forall c :: c in t ==> InPhraseClass(c) by {
          forall c | c in t ensures InPhraseClass(c) {
            var j :| 0 <= j < |t| && t[j] == c;
            assert c == s[p + k + j];
          }
        }
        assert OccursAt(s, t, p + k);
        Some(t)
      else CaptureAfter(s, p, k - 1)
  }

  /** `\s+([a-zA-Z\s]{5,35})` at index `p`: the greedy `\s+` starts with every space it can take. */
  function Phrase(s: string, p: nat): (r: Option<string>)
    requires p <= |s|
    ensures r.Some? ==> IsCapture(r.value)
    ensures r.Some? ==> TextFrom(s, r.value, p)
  {
    CaptureAfter(s, p, SpaceRun(s, p))
  }

  /** `(?:a|an|the)\s+([a-zA-Z\s]{5,35})` at index `p`, the articles tried in order. */
  function ArticleThenPhrase(s: string, p: nat, articles: seq<string>): (r: Option<string>)
    requires p <= |s|
    ensures r.Some? ==> IsCapture(r.value)
    ensures r.Some? ==> TextFrom(s, r.value, p)
    decreases |articles|
  {
    if articles == [] then None
    else
      var here := if MatchesAt(s, p, articles[0]) then Phrase(s, p + |articles[0]|) else None;
      if here.Some? then here else ArticleThenPhrase(s, p, articles[1..])
  }

  /** `\s+(?:a|an|the)\s+([a-zA-Z\s]{5,35})` at index `p`, the `\s+` first taking `k` spaces. */
  function SpacesThenArticle(s: string, p: nat, k: nat): (r: Option<string>)
    requires p + k <= |s|
    ensures r.Some? ==> IsCapture(r.value)
    ensures r.Some? ==> TextFrom(s, r.value, p)
    decreases k
  {
    if k == 0 then None
    else
      var here := ArticleThenPhrase(s, p + k, Articles);
      if here.Some? then here else SpacesThenArticle(s, p, k - 1)
  }

  /** The whole pattern anchored at index `i`, the verbs tried in order; the capture if it matches. */
  function MatchAt(s: string, i: nat, verbs: seq<string>): (r: Option<string>)
    requires i <= |s|
    ensures r.Some? ==> IsCapture(r.value)
    ensures r.Some? ==> TextFrom(s, r.value, i)
    ensures r.Some? ==> exists j :: 0 <= j < |verbs| && MatchesAt(s, i, verbs[j])
    decreases |verbs|
  {
    if verbs == [] then None
    else
      var v := verbs[0];
      var here := if MatchesAt(s, i, v) then SpacesThenArticle(s, i + |v|, SpaceRun(s, i + |v|)) else None;
      if here.Some? then here
      else
        var rest := MatchAt(s, i, verbs[1..]);
        assert rest.Some? ==> exists j :: 0 <= j < |verbs| && MatchesAt(s, i, verbs[j]) by {
          if rest.Some? {
            var j :| 0 <= j < |verbs| - 1 && MatchesAt(s, i, verbs[1..][j]);
            assert verbs[1..][j] == verbs[j + 1];
          }
        }
        rest
  }

  /**
   * `exec` from index `i`: the capture of the match that starts at the smallest
   * index where the pattern matches, or None when it matches nowhere.
   */
  function FirstMatch(s: string, i: nat, verbs: seq<string>): (r: Option<string>)
    requires i <= |s|
    ensures r.Some? ==> IsCapture(r.value)
    ensures r.Some? ==> TextFrom(s, r.value, i)
    decreases |s| - i
  {
    var here := MatchAt(s, i, verbs);
    if here.Some? then here
    else if i == |s| then None
    else FirstMatch(s, i + 1, verbs)
  }

  /** No start index in `lo..|s|` gives a match. */
  predicate NoMatchFrom(s: string, lo: nat, verbs: seq<string>)
    requires lo <= |s|
  {
    forall j :: lo <= j <= |s| ==> MatchAt(s, j, verbs).None?
  }

  /**
   * `FirstMatch` is the leftmost match: it finds nothing exactly when no start
   * index matches, and otherwise returns the capture at a start index before
   * which nothing matches.
   */
  lemma {:induction false} FirstMatchIsLeftmost(s: string, i: nat, verbs: seq<string>)
    requires i <= |s|
    ensures FirstMatch(s, i, verbs).None? <==> NoMatchFrom(s, i, verbs)
    ensures FirstMatch(s, i, verbs).Some? ==>
      exists j :: i <= j <= |s| && MatchAt(s, j, verbs) == FirstMatch(s, i, verbs) && NoMatchBetween(s, i, j, verbs)
    decreases |s| - i
  {
    if MatchAt(s, i, verbs).Some? {
      assert NoMatchBetween(s, i, i, verbs);
    } else if i < |s| {
      FirstMatchIsLeftmost(s, i + 1, verbs);
      if FirstMatch(s, i, verbs).Some? {
        var j :| i + 1 <= j <= |s| && MatchAt(s, j, verbs) == FirstMatch(s, i, verbs) && NoMatchBetween(s, i + 1, j, verbs);
        assert NoMatchBetween(s, i, j, verbs);
      }
    }
  }

  /** No start index in `lo..hi-1` gives a match. */
  predicate NoMatchBetween(s: string, lo: nat, hi: nat, verbs: seq<string>)
    requires hi <= |s|
  {
    forall m :: lo <= m < hi ==> MatchAt(s, m, verbs).None?
  }

  /** One category: the trigger words gate the pattern; a match gives one discovery with the trimmed capture. */
  function Detect(content: string, triggers: seq<string>, verbs: seq<string>, kind: DiscoveryType, phase: int)
    : (r: seq<Discovery>)
    ensures Single(r, kind, phase)
    ensures |r| == 1 <==> AnyIncluded(Lower(content), triggers) && FirstMatch(content, 0, verbs).Some?
    ensures |r| == 1 ==> (r[0].kind == kind && r[0].phase == phase && IsTrimmedPhrase(r[0].content)
      && r[0].content == Trim(FirstMatch(content, 0, verbs).value))
  {
    if AnyIncluded(Lower(content), triggers) then
      match FirstMatch(content, 0, verbs)
      case Some(capture) => [Discovery(kind, Trim(capture), phase)]
      case None => []
    else []
  }

  /** The order in which the categories are extracted. */
  function KindRank(kind: DiscoveryType): nat {
    match kind
    case Item => 0
    case Creature => 1
    case Location => 2
    case Revelation => 3
  }

  /** The discoveries one turn's text yields, all tagged with `phase`. */
  function Extraction(content: string, phase: int): (r: seq<Discovery>)
    ensures |r| <= 3
    ensures forall i, j :: 0 <= i < j < |r| ==> KindRank(r[i].kind) < KindRank(r[j].kind)
    ensures forall i :: 0 <= i < |r| ==>
      r[i].kind != Revelation && r[i].phase == phase && IsTrimmedPhrase(r[i].content)
  {
    var a := Detect(content, ItemTriggers, ItemVerbs, Item, phase);
    var b := Detect(content, CreatureTriggers, CreatureVerbs, Creature, phase);
    var c := Detect(content, LocationTriggers, LocationVerbs, Location, phase);
    InCategoryOrder(a, b, c, phase);
    a + b + c
  }

  /** What a single category contributes: nothing, or one discovery of that kind with the given tag. */
  predicate Single(d: seq<Discovery>, kind: DiscoveryType, phase: int) {
    |d| <= 1 && (|d| == 1 ==> d[0].kind == kind && d[0].phase == phase && IsTrimmedPhrase(d[0].content))
  }

  lemma InCategoryOrder(a: seq<Discovery>, b: seq<Discovery>, c: seq<Discovery>, phase: int)
    requires Single(a, Item, phase) && Single(b, Creature, phase) && Single(c, Location, phase)
    ensures var r := a + b + c;
      && |r| <= 3
      && (forall i, j :: 0 <= i < j < |r| ==> KindRank(r[i].kind) < KindRank(r[j].kind))
      && (forall i :: 0 <= i < |r| ==> r[i].kind != Revelation && r[i].phase == phase && IsTrimmedPhrase(r[i].content))
  {
    var r := a + b + c;
    forall i | 0 <= i < |r|
      ensures KindRank(r[i].kind) == (if i < |a| then 0 else if i < |a| + |b| then 1 else 2)
      ensures r[i].kind != Revelation && r[i].phase == phase && IsTrimmedPhrase(r[i].content)
    {
      if i < |a| { assert r[i] == a[0]; }
      else if i < |a| + |b| { assert r[i] == b[0]; }
      else { assert r[i] == c[0]; }
    }
  }

  /** The text yields a discovery of `kind`. */
  predicate Yields(r: seq<Discovery>, kind: DiscoveryType) {
    exists i :: 0 <= i < |r| && r[i].kind == kind
  }

  lemma YieldsByCategory(a: seq<Discovery>, b: seq<Discovery>, c: seq<Discovery>, phase: int)
    requires Single(a, Item, phase) && Single(b, Creature, phase) && Single(c, Location, phase)
    ensures Yields(a + b + c, Item) <==> |a| == 1
    ensures Yields(a + b + c, Creature) <==> |b| == 1
    ensures Yields(a + b + c, Location) <==> |c| == 1
  {
    var r := a + b + c;
    if |a| == 1 { assert r[0].kind == Item; }
    if |b| == 1 { assert r[|a|].kind == Creature; }
    if |c| == 1 { assert r[|a| + |b|].kind == Location; }
    if Yields(r, Item) {
      var i :| 0 <= i < |r| && r[i].kind == Item;
      assert i < |a|;
    }
    if Yields(r, Creature) {
      var i :| 0 <= i < |r| && r[i].kind == Creature;
      assert |a| <= i < |a| + |b|;
    }
    if Yields(r, Location) {
      var i :| 0 <= i < |r| && r[i].kind == Location;
      assert |a| + |b| <= i;
    }
  }

  /**
   * A category is present exactly when one of its trigger words occurs in the
   * lowered text and its pattern matches somewhere; the pattern alone is not enough.
   */
  lemma ExtractionGates(content: string, phase: int)
    ensures Yields(Extraction(content, phase), Item) <==>
      AnyIncluded(Lower(content), ItemTriggers) && FirstMatch(content, 0, ItemVerbs).Some?
    ensures Yields(Extraction(content, phase), Creature) <==>
      AnyIncluded(Lower(content), CreatureTriggers) && FirstMatch(content, 0, CreatureVerbs).Some?
    ensures Yields(Extraction(content, phase), Location) <==>
      AnyIncluded(Lower(content), LocationTriggers) && FirstMatch(content, 0, LocationVerbs).Some?
  {
    var a := Detect(content, ItemTriggers, ItemVerbs, Item, phase);
    var b := Detect(content, CreatureTriggers, CreatureVerbs, Creature, phase);
    var c := Detect(content, LocationTriggers, LocationVerbs, Location, phase);
    YieldsByCategory(a, b, c, phase);
  }

  /**
   * The transition test: false for a phase number outside the table or a phase
   * with no keywords; otherwise true exactly when some keyword of the phase is a
   * substring of the lowered text.
   */
  function CheckPhaseTransition(content: string, currentPhase: int): (r: bool)
    ensures r <==> (InCatalog(currentPhase) && PhaseKeywords(currentPhase) != []
      && exists k :: k in PhaseKeywords(currentPhase) && Includes(Lower(content), k))
  {
    if !InCatalog(currentPhase) || PhaseKeywords(currentPhase) == [] then false
    else
      var keywords := PhaseKeywords(currentPhase);
      var lower := Lower(content);
      AnyIncludedMember(lower, keywords);
      AnyIncluded(lower, keywords)
  }

  /** The test reads the text only through its lowered form: a turn and its lowered copy signal alike. */
  lemma TransitionIgnoresCase(content: string, currentPhase: int)
    ensures CheckPhaseTransition(Lower(content), currentPhase) == CheckPhaseTransition(content, currentPhase)
  {
    LowerOfLowerCase(Lower(content));
  }

  /** The last phase never signals a transition, whatever the text. */
  lemma TerminalPhaseNeverSignals(content: string)
    ensures !CheckPhaseTransition(content, PhaseCount)
  {
    OnlyLastPhaseWithoutKeywords(PhaseCount);
  }
}
