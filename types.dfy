/**
 * The records the stage keeps per message and per chat: discoveries, journal
 * entries, the message state that travels with every turn and the chat state
 * that records the furthest phase reached.
 */
module StageTypes {

  /** The tag of a discovery; `Revelation` is declared but no heuristic ever produces it. */
  datatype DiscoveryType = Item | Creature | Revelation | Location

  /** A phrase captured from a turn, tagged with the phase current when it was captured. */
  datatype Discovery = Discovery(kind: DiscoveryType, content: string, phase: int)

  /** The one-line summary written when a phase is left. */
  datatype JournalEntry = JournalEntry(phase: int, content: string)

  /** The per-message state the host stores and hands back unchanged. */
  datatype MessageState = MessageState(
    currentPhase: int,
    discoveries: seq<Discovery>,
    journalEntries: seq<JournalEntry>)

  /** The per-chat state: the highest phase number ever reached. */
  datatype ChatState = ChatState(furthestPhase: int)

  /** Extraction runs only while the discovery log is shorter than this. */
  const DiscoveryCap: nat := 50

  /** The state of a fresh session: phase 1, nothing discovered, nothing journalled. */
  function DefaultMessageState(): (s: MessageState)
    ensures s.currentPhase == 1 && |s.discoveries| == 0 && |s.journalEntries| == 0
  {
    MessageState(1, [], [])
  }

  /** The chat state of a fresh session. */
  const DefaultChatState: ChatState := ChatState(1)
}
