/**
 * What holds across a whole conversation: the shape every reachable message
 * state keeps, and how phase, journal, discovery log and furthest phase evolve
 * over a sequence of turns.
 */
module Turns {
  import opened Text
  import opened StageTypes
  import opened PhaseCatalog
  import opened Heuristics
  import opened Journal
  import opened StageEngine

  /** The journal of a story that has left phases 1 to `n`: one summary per phase over the log `ds`. */
  function JournalOf(ds: seq<Discovery>, n: nat): (r: seq<JournalEntry>)
    requires n < PhaseCount
    ensures |r| == n
    ensures forall i :: 0 <= i < n ==> r[i].phase == i + 1
  {
    if n == 0 then [] else JournalOf(ds, n - 1) + [JournalEntry(n, JournalText(n, ds))]
  }

  /** The log holds no revelation, no phase beyond `phase`, and is ordered by phase. */
  predicate LogShape(ds: seq<Discovery>, phase: int) {
    && |ds| <= DiscoveryCap + 2
    && (forall i :: 0 <= i < |ds| ==> 1 <= ds[i].phase <= phase && ds[i].kind != Revelation)
    && (forall i, j :: 0 <= i < j < |ds| ==> ds[i].phase <= ds[j].phase)
  }

  /**
   * The shape of every message state reachable from the default one: the
   * phase is in the table, one journal entry per phase already left, each
   * entry is the summary of its phase's discoveries in the current log, and
   * the log is bounded, free of revelations and ordered by phase.
   */
  predicate WellFormed(s: MessageState) {
    && InCatalog(s.currentPhase)
    && s.journalEntries == JournalOf(s.discoveries, s.currentPhase - 1)
    && LogShape(s.discoveries, s.currentPhase)
  }

  lemma DefaultWellFormed()
    ensures WellFormed(DefaultMessageState())
  {
  }

  /** One turn, by the user or the character, keeps the shape. */
  lemma TurnPreservesWellFormed(s: MessageState, content: string)
    requires WellFormed(s)
    ensures WellFormed(NextMessageState(s, content))
  {
    LogStep(s, content);
    JournalStep(s, content);
  }

  lemma LogStep(s: MessageState, content: string)
    requires InCatalog(s.currentPhase) && LogShape(s.discoveries, s.currentPhase)
    ensures LogShape(AllDiscoveries(s, content), NextPhase(s, content))
  {
    var all := AllDiscoveries(s, content);
    var n := |s.discoveries|;
    assert forall i :: 0 <= i < n ==> all[i] == s.discoveries[i];
    forall i, j | 0 <= i < j < |all| ensures all[i].phase <= all[j].phase {
      if j >= n {
        assert all[j].phase == s.currentPhase;
      }
    }
  }

  lemma JournalStep(s: MessageState, content: string)
    requires InCatalog(s.currentPhase) && s.journalEntries == JournalOf(s.discoveries, s.currentPhase - 1)
    ensures NextJournal(s, content) == JournalOf(AllDiscoveries(s, content), NextPhase(s, content) - 1)
  {
    var all := AllDiscoveries(s, content);
    var added := all[|s.discoveries|..];
    assert all == s.discoveries + added;
    assert forall k :: 0 <= k < |added| ==> added[k] == all[|s.discoveries| + k];
    JournalAfterTurn(s.discoveries, added, s.currentPhase);
  }

  /** The journal over the extended log, before and after the current phase is left. */
  lemma JournalAfterTurn(ds: seq<Discovery>, added: seq<Discovery>, phase: int)
    requires InCatalog(phase)
    requires forall k :: 0 <= k < |added| ==> added[k].phase == phase
    ensures JournalOf(ds + added, phase - 1) == JournalOf(ds, phase - 1)
    ensures phase < PhaseCount ==>
      JournalOf(ds + added, phase) == JournalOf(ds, phase - 1) + [JournalEntry(phase, JournalText(phase, ds + added))]
  {
    JournalOfIgnoresLaterPhases(ds, added, phase - 1);
  }

  /** Discoveries of a later phase leave the summaries of the phases already left unchanged. */
  lemma {:induction false} JournalOfIgnoresLaterPhases(ds: seq<Discovery>, added: seq<Discovery>, n: nat)
    requires n < PhaseCount
    requires forall k :: 0 <= k < |added| ==> added[k].phase > n
    ensures JournalOf(ds + added, n) == JournalOf(ds, n)
  {
    if n > 0 {
      JournalOfIgnoresLaterPhases(ds, added, n - 1);
      JournalIgnoresLaterPhases(n, ds, added);
    }
  }

  /** The message state after the turns `turns`, in order. */
  function Run(s: MessageState, turns: seq<string>): MessageState
    decreases |turns|
  {
    if turns == [] then s else Run(NextMessageState(s, turns[0]), turns[1..])
  }

  lemma {:induction false} RunKeepsWellFormed(s: MessageState, turns: seq<string>)
    requires WellFormed(s)
    ensures WellFormed(Run(s, turns))
    decreases |turns|
  {
    if turns != [] {
      TurnPreservesWellFormed(s, turns[0]);
      RunKeepsWellFormed(NextMessageState(s, turns[0]), turns[1..]);
    }
  }

  /**
   * Over any sequence of turns the phase never decreases, rises by at most
   * one per turn and never passes the last phase; the journal and the
   * discovery log only grow at their ends.
   */
  lemma {:induction false} RunProgress(s: MessageState, turns: seq<string>)
    ensures var t := Run(s, turns);
      s.currentPhase <= t.currentPhase <= s.currentPhase + |turns|
    ensures s.currentPhase <= PhaseCount ==> Run(s, turns).currentPhase <= PhaseCount
    ensures var t := Run(s, turns);
      |s.journalEntries| <= |t.journalEntries| && t.journalEntries[..|s.journalEntries|] == s.journalEntries
    ensures var t := Run(s, turns);
      |s.discoveries| <= |t.discoveries| && t.discoveries[..|s.discoveries|] == s.discoveries
    decreases |turns|
  {
    if turns != [] {
      var n := NextMessageState(s, turns[0]);
      RunProgress(n, turns[1..]);
      var t := Run(n, turns[1..]);
      assert t.journalEntries[..|s.journalEntries|] == n.journalEntries[..|s.journalEntries|];
      assert t.discoveries[..|s.discoveries|] == n.discoveries[..|s.discoveries|];
    }
  }

  /** Both halves of the state a turn updates. */
  datatype Session = Session(message: MessageState, chat: ChatState)

  function Step(x: Session, content: string): Session {
    var m := NextMessageState(x.message, content);
    Session(m, NextChatState(x.chat, m.currentPhase))
  }

  function RunSession(x: Session, turns: seq<string>): Session
    decreases |turns|
  {
    if turns == [] then x else RunSession(Step(x, turns[0]), turns[1..])
  }

  /**
   * The furthest phase never decreases and, once it is at least the current
   * phase, stays at least the current phase; the message half evolves as `Run`.
   */
  lemma {:induction false} FurthestPhaseTracks(x: Session, turns: seq<string>)
    ensures RunSession(x, turns).message == Run(x.message, turns)
    ensures RunSession(x, turns).chat.furthestPhase >= x.chat.furthestPhase
    ensures x.chat.furthestPhase >= x.message.currentPhase ==>
      RunSession(x, turns).chat.furthestPhase >= RunSession(x, turns).message.currentPhase
    decreases |turns|
  {
    if turns != [] {
      FurthestPhaseTracks(Step(x, turns[0]), turns[1..]);
    }
  }

  /**
   * A keyword of phase 1 in the very first turn moves the story on: there is
   * no minimum stay in a phase and no count of turns.
   */
  lemma NoMinimumDwell(content: string)
    requires Includes(Lower(content), "dawn")
    ensures NextPhase(DefaultMessageState(), content) == 2
    ensures |NextJournal(DefaultMessageState(), content)| == 1
  {
    assert "dawn" in PhaseKeywords(1);
  }
}
