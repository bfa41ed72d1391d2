/**
 * The phase-progression engine: the per-turn update of the message and chat
 * state, the memoised stage directions, and the `Stage` object that owns them.
 */
module StageEngine {
  import opened Wrappers
  import opened Text
  import opened StageTypes
  import opened PhaseCatalog
  import opened Heuristics
  import opened Journal

  /** What one turn hands back to the host. */
  datatype StageResponse = StageResponse(
    stageDirections: Option<string>,
    messageState: MessageState,
    chatState: ChatState)

  const DirectionPrefix: string := "[Stage Direction: "

  /**
   * The directions for `phase`: its template with every `{{char}}` and then
   * every `{{user}}` replaced, wrapped in the direction brackets; empty for a
   * phase number outside the table.
   */
  function Directions(phase: int, characterName: string, userName: string): (r: string)
    ensures r == "" <==> !InCatalog(phase)
    ensures r != "" ==> |r| > |DirectionPrefix| && r[..|DirectionPrefix|] == DirectionPrefix && r[|r| - 1] == ']'
  {
    if !InCatalog(phase) then ""
    else
      var directions := ReplaceAll(ReplaceAll(DirectionsTemplate(phase), "{{char}}", characterName), "{{user}}", userName);
      DirectionPrefix + directions + "]"
  }

  /** The discoveries a turn adds: none once the log holds `DiscoveryCap` entries. */
  function NewDiscoveries(s: MessageState, content: string): seq<Discovery> {
    if |s.discoveries| < DiscoveryCap then Extraction(content, s.currentPhase) else []
  }

  /** The discovery log after a turn. */
  function AllDiscoveries(s: MessageState, content: string): (r: seq<Discovery>)
    ensures |s.discoveries| <= |r| <= |s.discoveries| + 3 && r[..|s.discoveries|] == s.discoveries
    ensures |s.discoveries| >= DiscoveryCap ==> r == s.discoveries
    ensures forall i :: |s.discoveries| <= i < |r| ==>
      r[i].phase == s.currentPhase && r[i].kind != Revelation && IsTrimmedPhrase(r[i].content)
  {
    s.discoveries + NewDiscoveries(s, content)
  }

  /** The turn leaves the current phase: its text signals a transition and the phase is not the last. */
  predicate Advances(s: MessageState, content: string) {
    CheckPhaseTransition(content, s.currentPhase) && s.currentPhase < PhaseCount
  }

  /** The phase number after a turn. */
  function NextPhase(s: MessageState, content: string): (r: int)
    ensures r == s.currentPhase || r == s.currentPhase + 1
    ensures r == s.currentPhase + 1 <==> (1 <= s.currentPhase < PhaseCount
      && exists k :: k in PhaseKeywords(s.currentPhase) && Includes(Lower(content), k))
    ensures s.currentPhase <= PhaseCount ==> r <= PhaseCount
  {
    if Advances(s, content) then s.currentPhase + 1 else s.currentPhase
  }

  /** The journal after a turn. */
  function NextJournal(s: MessageState, content: string): (r: seq<JournalEntry>)
    ensures |r| == |s.journalEntries| + (NextPhase(s, content) - s.currentPhase)
    ensures r[..|s.journalEntries|] == s.journalEntries
    ensures NextPhase(s, content) != s.currentPhase ==>
      r[|r| - 1] == JournalEntry(s.currentPhase, JournalText(s.currentPhase, AllDiscoveries(s, content)))
  {
    if Advances(s, content) then
      s.journalEntries + [JournalEntry(s.currentPhase, JournalText(s.currentPhase, AllDiscoveries(s, content)))]
    else s.journalEntries
  }

  /** The message state after one turn with text `content`, whoever wrote it. */
  function NextMessageState(s: MessageState, content: string): MessageState {
    MessageState(NextPhase(s, content), AllDiscoveries(s, content), NextJournal(s, content))
  }

  function Max(a: int, b: int): int {
    if a < b then b else a
  }

  /** The chat state after a turn that ends in phase `phase`. */
  function NextChatState(c: ChatState, phase: int): (r: ChatState)
    ensures r.furthestPhase >= c.furthestPhase && r.furthestPhase >= phase
    ensures r.furthestPhase == c.furthestPhase || r.furthestPhase == phase
  {
    ChatState(Max(c.furthestPhase, phase))
  }

  class Stage {
    const characterName: string
    const userName: string
    var cachedStageDirections: map<int, string>
    var currentMessageState: MessageState
    var currentChatState: ChatState

    /** Every memoised direction belongs to a phase in the table and equals a fresh computation. */
    ghost predicate Valid()
      reads this`cachedStageDirections
    {
      forall phase :: phase in cachedStageDirections ==>
        InCatalog(phase) && cachedStageDirections[phase] == Directions(phase, characterName, userName)
    }

    /**
     * A stage for a chat whose first character and first user have the given
     * names (None when the host has none), resuming the given states when the
     * host supplies them.
     */
    constructor (characterName: Option<string>, userName: Option<string>,
                 messageState: Option<MessageState>, chatState: Option<ChatState>)
      ensures Valid() && cachedStageDirections == map[]
      ensures this.characterName == characterName.GetOr("Character")
      ensures this.userName == userName.GetOr("User")
      ensures currentMessageState == messageState.GetOr(DefaultMessageState())
      ensures currentChatState == chatState.GetOr(DefaultChatState)
    {
      this.characterName := characterName.GetOr("Character");
      this.userName := userName.GetOr("User");
      cachedStageDirections := map[];
      currentMessageState := messageState.GetOr(DefaultMessageState());
      currentChatState := chatState.GetOr(DefaultChatState);
    }

    /** Replaces the message state with the one the host supplies; an absent state changes nothing. */
    method SetState(state: Option<MessageState>)
      modifies this`currentMessageState
      ensures currentMessageState == state.GetOr(old(currentMessageState))
    {
      if state.Some? {
        currentMessageState := state.value;
      }
    }

    /** The discoveries in one turn's text, built category by category. */
    method ExtractDiscoveries(content: string, phase: int) returns (discoveries: seq<Discovery>)
      ensures discoveries == Extraction(content, phase)
    {
      ghost var items := Detect(content, ItemTriggers, ItemVerbs, Item, phase);
      ghost var creatures := Detect(content, CreatureTriggers, CreatureVerbs, Creature, phase);
      ghost var locations := Detect(content, LocationTriggers, LocationVerbs, Location, phase);
      discoveries := [];
      var lower := Lower(content);
      if AnyIncluded(lower, ItemTriggers) {
        var found := FirstMatch(content, 0, ItemVerbs);
        if found.Some? {
          discoveries := discoveries + [Discovery(Item, Trim(found.value), phase)];
          assert items == [Discovery(Item, Trim(found.value), phase)];
        } else {
          assert items == [];
        }
      } else {
        assert items == [];
      }
      assert discoveries == items;
      ghost var before := discoveries;
      if AnyIncluded(lower, CreatureTriggers) {
        var found := FirstMatch(content, 0, CreatureVerbs);
        if found.Some? {
          discoveries := discoveries + [Discovery(Creature, Trim(found.value), phase)];
          assert creatures == [Discovery(Creature, Trim(found.value), phase)];
        } else {
          assert creatures == [];
        }
      } else {
        assert creatures == [];
      }
      assert discoveries == before + creatures;
      before := discoveries;
      if AnyIncluded(lower, LocationTriggers) {
        var found := FirstMatch(content, 0, LocationVerbs);
        if found.Some? {
          discoveries := discoveries + [Discovery(Location, Trim(found.value), phase)];
          assert locations == [Discovery(Location, Trim(found.value), phase)];
        } else {
          assert locations == [];
        }
      } else {
        assert locations == [];
      }
      assert discoveries == before + locations;
    }

    /** The journal line for leaving `phase`, by filtering the log and joining the clauses. */
    method GenerateJournalEntry(phase: int, discoveries: seq<Discovery>) returns (entry: string)
      requires InCatalog(phase)
      ensures entry == JournalText(phase, discoveries)
    {
      var phaseConfig := Phase(phase);
      var phaseDiscoveries := WithPhase(discoveries, phase);
      FilterFirst(discoveries, phase, Location);
      FilterFirst(discoveries, phase, Creature);
      FilterFirst(discoveries, phase, Item);
      if |phaseDiscoveries| == 0 {
        WithPhaseEmpty(discoveries, phase);
        JournalWithoutFinds(phase, discoveries);
        return phaseConfig.name + ": " + phaseConfig.description;
      }
      var items := Contents(OfKind(phaseDiscoveries, Item));
      var creatures := Contents(OfKind(phaseDiscoveries, Creature));
      var locations := Contents(OfKind(phaseDiscoveries, Location));
      var parts: seq<string> := [];
      if |locations| > 0 {
        parts := parts + ["explored " + locations[0]];
      }
      assert parts == Clause("explored ", FirstOf(discoveries, phase, Location));
      if |creatures| > 0 {
        parts := parts + ["encountered " + creatures[0]];
      }
      assert parts == Clause("explored ", FirstOf(discoveries, phase, Location))
        + Clause("encountered ", FirstOf(discoveries, phase, Creature));
      if |items| > 0 {
        parts := parts + ["found " + items[0]];
      }
      assert parts == Clauses(phase, discoveries);
      var joined := Join(parts, ", ");
      assert parts != [] ==> |parts[0]| > 0;
      var summary := if joined != "" then joined else phaseConfig.description;
      assert summary == if parts == [] then phaseConfig.description else Join(parts, ", ");
      entry := phaseConfig.name + ": " + summary;
    }

    /** The directions for `phase`, from the memo when present, otherwise computed and memoised. */
    method GetStageDirections(phase: int) returns (directions: string)
      requires Valid()
      modifies this`cachedStageDirections
      ensures Valid()
      ensures directions == Directions(phase, characterName, userName)
      ensures cachedStageDirections ==
        if InCatalog(phase) then old(cachedStageDirections)[phase := directions] else old(cachedStageDirections)
    {
      if phase in cachedStageDirections {
        directions := cachedStageDirections[phase];
        assert cachedStageDirections[phase := directions] == cachedStageDirections;
        return;
      }
      if !InCatalog(phase) {
        return "";
      }
      var text := ReplaceAll(ReplaceAll(DirectionsTemplate(phase), "{{char}}", characterName), "{{user}}", userName);
      directions := DirectionPrefix + text + "]";
      cachedStageDirections := cachedStageDirections[phase := directions];
    }

    /**
     * One turn: record the discoveries, leave the phase if the text signals it,
     * raise the furthest phase, and return directions for a user turn only.
     */
    method ProcessMessage(content: string, isUserMessage: bool) returns (response: StageResponse)
      requires Valid()
      modifies this
      ensures Valid()
      ensures currentMessageState == NextMessageState(old(currentMessageState), content)
      ensures currentChatState == NextChatState(old(currentChatState), currentMessageState.currentPhase)
      ensures response.messageState == currentMessageState && response.chatState == currentChatState
      ensures response.stageDirections ==
        if isUserMessage then Some(Directions(currentMessageState.currentPhase, characterName, userName)) else None
      ensures cachedStageDirections ==
        if isUserMessage && InCatalog(currentMessageState.currentPhase)
        then old(cachedStageDirections)[currentMessageState.currentPhase := response.stageDirections.value]
        else old(cachedStageDirections)
    {
      var newMessageState, newChatState := AdvanceState(content);
      var stageDirections: Option<string> := None;
      if isUserMessage {
        var directions := GetStageDirections(newMessageState.currentPhase);
        stageDirections := Some(directions);
      }
      response := StageResponse(stageDirections, newMessageState, newChatState);
    }

    /** The state half of a turn: the new message and chat states, stored in place. */
    method AdvanceState(content: string) returns (newMessageState: MessageState, newChatState: ChatState)
      modifies this`currentMessageState, this`currentChatState
      ensures newMessageState == NextMessageState(old(currentMessageState), content)
      ensures newChatState == NextChatState(old(currentChatState), newMessageState.currentPhase)
      ensures currentMessageState == newMessageState && currentChatState == newChatState
    {
      var currentState := currentMessageState;
      var currentPhase := currentState.currentPhase;

      var newDiscoveries: seq<Discovery> := [];
      if |currentState.discoveries| < DiscoveryCap {
        newDiscoveries := ExtractDiscoveries(content, currentPhase);
      }
      var allDiscoveries := currentState.discoveries + newDiscoveries;
      assert allDiscoveries == AllDiscoveries(currentState, content);

      var nextPhase := currentPhase;
      var newJournalEntries := currentState.journalEntries;
      if CheckPhaseTransition(content, currentPhase) && currentPhase < PhaseCount {
        var journalEntry := GenerateJournalEntry(currentPhase, allDiscoveries);
        newJournalEntries := newJournalEntries + [JournalEntry(currentPhase, journalEntry)];
        nextPhase := currentPhase + 1;
      }
      assert nextPhase == NextPhase(currentState, content);
      assert newJournalEntries == NextJournal(currentState, content);

      newMessageState := MessageState(nextPhase, allDiscoveries, newJournalEntries);
      newChatState := ChatState(Max(currentChatState.furthestPhase, nextPhase));
      currentMessageState := newMessageState;
      currentChatState := newChatState;
    }
  }
}
