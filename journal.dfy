/**
 * The journal line written when a phase is left: the phase's name followed by
 * either its description or the first location, creature and item recorded
 * under that phase.
 */
module Journal {
  import opened Wrappers
  import opened Text
  import opened StageTypes
  import opened PhaseCatalog

  /** `ds.filter(d => d.phase === phase)`. */
  function WithPhase(ds: seq<Discovery>, phase: int): seq<Discovery> {
    if ds == [] then []
    else (if ds[0].phase == phase then [ds[0]] else []) + WithPhase(ds[1..], phase)
  }

  /** `ds.filter(d => d.type === kind)`. */
  function OfKind(ds: seq<Discovery>, kind: DiscoveryType): seq<Discovery> {
    if ds == [] then []
    else (if ds[0].kind == kind then [ds[0]] else []) + OfKind(ds[1..], kind)
  }

  /** `ds.map(d => d.content)`. */
  function Contents(ds: seq<Discovery>): (r: seq<string>)
    ensures |r| == |ds| && forall i :: 0 <= i < |ds| ==> r[i] == ds[i].content
  {
    if ds == [] then [] else [ds[0].content] + Contents(ds[1..])
  }

  predicate Tagged(d: Discovery, phase: int, kind: DiscoveryType) {
    d.phase == phase && d.kind == kind
  }

  /** `ds[i]` is the first discovery of the log tagged with `phase` and `kind`. */
  predicate IsFirst(ds: seq<Discovery>, i: int, phase: int, kind: DiscoveryType) {
    && 0 <= i < |ds|
    && Tagged(ds[i], phase, kind)
    && forall j :: 0 <= j < i ==> !Tagged(ds[j], phase, kind)
  }

  /** The content of the first discovery of `kind` recorded under `phase`, if there is one. */
  function FirstOf(ds: seq<Discovery>, phase: int, kind: DiscoveryType): (r: Option<string>)
    ensures r.None? <==> forall i :: 0 <= i < |ds| ==> !Tagged(ds[i], phase, kind)
    ensures r.Some? ==> exists i :: IsFirst(ds, i, phase, kind) && ds[i].content == r.value
  {
    if ds == [] then None
    else if Tagged(ds[0], phase, kind) then
      assert IsFirst(ds, 0, phase, kind);
      Some(ds[0].content)
    else
      var r := FirstOf(ds[1..], phase, kind);
      assert r.Some? ==> exists i :: IsFirst(ds, i, phase, kind) && ds[i].content == r.value by {
        if r.Some? {
          var i :| IsFirst(ds[1..], i, phase, kind) && ds[1..][i].content == r.value;
          assert IsFirst(ds, i + 1, phase, kind);
        }
      }
      assert r.None? ==> forall i :: 0 <= i < |ds| ==> !Tagged(ds[i], phase, kind) by {
        if r.None? {
          forall i | 0 < i < |ds| ensures !Tagged(ds[i], phase, kind) {
            assert ds[i] == ds[1..][i - 1];
          }
        }
      }
      r
  }

  /** One clause of the summary, present only when the category was found. */
  function Clause(verb: string, first: Option<string>): seq<string> {
    if first.Some? then [verb + first.value] else []
  }

  /** The clauses in the summary's order: location, creature, item. */
  function Clauses(phase: int, ds: seq<Discovery>): seq<string> {
    Clause("explored ", FirstOf(ds, phase, Location))
    + Clause("encountered ", FirstOf(ds, phase, Creature))
    + Clause("found ", FirstOf(ds, phase, Item))
  }

  /** The journal line for leaving `phase`, given every discovery recorded so far. */
  function JournalText(phase: int, ds: seq<Discovery>): string
    requires InCatalog(phase)
  {
    var parts := Clauses(phase, ds);
    Phase(phase).name + ": " + (if parts == [] then Phase(phase).description else Join(parts, ", "))
  }

  /**
   * Filtering by phase, then by kind, then taking the first element finds the
   * same discovery as `FirstOf`.
   */
  lemma {:induction false} FilterFirst(ds: seq<Discovery>, phase: int, kind: DiscoveryType)
    ensures var f := OfKind(WithPhase(ds, phase), kind);
      && (f == [] <==> FirstOf(ds, phase, kind).None?)
      && (f != [] ==> f[0].content == FirstOf(ds, phase, kind).value)
  {
    if ds != [] {
      FilterFirst(ds[1..], phase, kind);
      var head := if ds[0].phase == phase then [ds[0]] else [];
      assert WithPhase(ds, phase) == head + WithPhase(ds[1..], phase);
      OfKindAppend(head, WithPhase(ds[1..], phase), kind);
    }
  }

  lemma {:induction false} OfKindAppend(a: seq<Discovery>, b: seq<Discovery>, kind: DiscoveryType)
    ensures OfKind(a + b, kind) == OfKind(a, kind) + OfKind(b, kind)
  {
    if a != [] {
      assert (a + b)[1..] == a[1..] + b;
      OfKindAppend(a[1..], b, kind);
    } else {
      assert a + b == b;
    }
  }

  /** With no discovery of phase `phase` in the log, no category is found for it. */
  lemma {:induction false} WithPhaseEmpty(ds: seq<Discovery>, phase: int)
    requires WithPhase(ds, phase) == []
    ensures forall i :: 0 <= i < |ds| ==> ds[i].phase != phase
  {
    if ds != [] {
      WithPhaseEmpty(ds[1..], phase);
      forall i | 0 < i < |ds| ensures ds[i].phase != phase {
        assert ds[i] == ds[1..][i - 1];
      }
    }
  }

  /**
   * When nothing of location, creature or item type was recorded under the
   * phase, the line is the phase's name and its description.
   */
  lemma JournalWithoutFinds(phase: int, ds: seq<Discovery>)
    requires InCatalog(phase)
    requires forall i :: 0 <= i < |ds| ==> ds[i].phase != phase || ds[i].kind == Revelation
    ensures JournalText(phase, ds) == Phase(phase).name + ": " + Phase(phase).description
  {
  }

  /**
   * Otherwise the line lists the first location, creature and item recorded
   * under the phase, in that order, each with its verb, separated by ", ".
   */
  lemma JournalWithFinds(phase: int, ds: seq<Discovery>, i: int)
    requires InCatalog(phase)
    requires 0 <= i < |ds| && ds[i].phase == phase && ds[i].kind != Revelation
    ensures Clauses(phase, ds) != []
    ensures JournalText(phase, ds) == Phase(phase).name + ": " + Join(Clauses(phase, ds), ", ")
  {
    assert Tagged(ds[i], phase, ds[i].kind);
  }

  /** Discoveries of other phases never change a phase's line. */
  lemma {:induction false} JournalOnlySeesItsPhase(phase: int, ds: seq<Discovery>)
    requires InCatalog(phase)
    ensures JournalText(phase, ds) == JournalText(phase, WithPhase(ds, phase))
  {
    FirstOfWithPhase(ds, phase, Location);
    FirstOfWithPhase(ds, phase, Creature);
    FirstOfWithPhase(ds, phase, Item);
  }

  lemma {:induction false} FirstOfWithPhase(ds: seq<Discovery>, phase: int, kind: DiscoveryType)
    ensures FirstOf(WithPhase(ds, phase), phase, kind) == FirstOf(ds, phase, kind)
  {
    if ds != [] {
      FirstOfWithPhase(ds[1..], phase, kind);
      if ds[0].phase == phase {
        assert WithPhase(ds, phase) == [ds[0]] + WithPhase(ds[1..], phase);
        assert WithPhase(ds, phase)[1..] == WithPhase(ds[1..], phase);
      } else {
        assert WithPhase(ds, phase) == WithPhase(ds[1..], phase);
      }
    }
  }

  /** Discoveries appended later under other phases never change a phase's line. */
  lemma JournalIgnoresLaterPhases(phase: int, ds: seq<Discovery>, later: seq<Discovery>)
    requires InCatalog(phase)
    requires forall i :: 0 <= i < |later| ==> later[i].phase != phase
    ensures JournalText(phase, ds + later) == JournalText(phase, ds)
  {
    FirstOfAppend(ds, later, phase, Location);
    FirstOfAppend(ds, later, phase, Creature);
    FirstOfAppend(ds, later, phase, Item);
  }

  lemma {:induction false} FirstOfAppend(ds: seq<Discovery>, later: seq<Discovery>, phase: int, kind: DiscoveryType)
    requires forall i :: 0 <= i < |later| ==> later[i].phase != phase
    ensures FirstOf(ds + later, phase, kind) == FirstOf(ds, phase, kind)
  {
    if ds == [] {
      assert ds + later == later;
    } else {
      assert (ds + later)[1..] == ds[1..] + later;
      FirstOfAppend(ds[1..], later, phase, kind);
    }
  }
}
