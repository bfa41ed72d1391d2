# Stage phase-progression engine, modelled in Dafny

The stage follows a role-play chat through a fixed story of eight phases, from
"Phase 1: Planning" to "Phase 8: Moving Forward Together". Every turn of the
conversation, from the user or from the character, is one step of a small
state machine, and each step does four things:

- **Extraction.** It pulls discoveries out of the turn's text: at most one
  item, one creature and one location. Each category is gated by trigger words
  and captured by a regular expression.
- **Transition.** It checks whether the lowered text contains one of the
  current phase's keywords. If so, and the phase is not the last, the story
  moves to the next phase.
- **Journal.** On such a move it writes a one-line journal entry for the phase
  being left. The line names the first location explored, the first creature
  encountered and the first item found in that phase, or gives the phase's
  description when none was recorded.
- **Directions.** It raises the chat's furthest phase. For a user turn it also
  returns the stage directions of the (new) current phase: the phase's template
  with the character's and the user's names filled in. These are memoised per
  phase.

The project is organised by the program's own concepts:

| file | module | contents |
|---|---|---|
| `wrappers.dfy` | `Wrappers` | `Option` |
| `types.dfy` | `StageTypes` | discoveries, journal entries, message and chat state, the default state, the cap of 50 |
| `text.dfy` | `Text` | the JavaScript string built-ins the stage uses (`toLowerCase`, `includes`, `some`, `trim`, `join`, global `replace`), ASCII only |
| `catalog.dfy` | `PhaseCatalog` | the table of the eight phases, with the real names, descriptions, objectives, keywords and direction templates |
| `heuristics.dfy` | `Heuristics` | discovery extraction, with the three regular expressions given by backtracking-regex semantics, and the transition test |
| `journal.dfy` | `Journal` | the journal line of a phase |
| `stage.dfy` | `StageEngine` | the per-turn update as functions, and the class `Stage` with its fields, the directions memo and the imperative methods proved equal to those functions |
| `turns.dfy` | `Turns` | what holds over whole conversations: the invariant of every reachable message state, monotone progress and the furthest phase |

The class `Stage` keeps the source's mutable fields:
- `currentMessageState` and `currentChatState`;
- the memo `cachedStageDirections`, modelled as a `map<int, string>`;
- the two names, as constants.

Its invariant `Valid()` says that every memoised entry belongs to a phase in
the table and equals a fresh computation of the directions for that phase.

## Model

| member | source | states |
|---|---|---|
| StageTypes.DefaultMessageState | src/Stage.tsx:181-187 | a fresh session starts in phase 1 with an empty discovery log and an empty journal |
| Text.Lower | src/Stage.tsx:210 | `toLowerCase` keeps the length and lowers each character; only `A`..`Z` change |
| Text.LowerOfLowerCase | src/Stage.tsx:240 | lowering text that has no upper-case letter leaves it unchanged |
| Text.Includes | src/Stage.tsx:213 | `includes` is true exactly when the word occurs at some index of the text |
| Text.AnyIncluded | src/Stage.tsx:241 | `some(... includes ...)` is true exactly when some word of the list occurs in the text |
| Text.AnyIncludedMember | src/Stage.tsx:241 | the same, stated over list membership rather than indices |
| Text.Trim | src/Stage.tsx:215 | `trim` returns the slice of the input left after dropping a run of leading and a run of trailing whitespace, with no whitespace at either end |
| Text.Join | src/Stage.tsx:264 | joining no parts gives "", one part gives that part, two or three parts give them in order with the separator between each pair, and the result always starts with the first part |
| Text.ExpandLiteral | src/Stage.tsx:278-280 | a replacement string without `$` is inserted literally |
| Text.ReplaceAllUntouched | src/Stage.tsx:278-280 | a global replace leaves text without the pattern unchanged |
| Text.ReplaceFromAtMatch | src/Stage.tsx:278-280 | at each occurrence a `$`-free replacement is inserted and the scan resumes after the occurrence |
| PhaseCatalog.PhaseIds | src/Stage.tsx:55-156 | the table has entries for phase numbers 1 to 8 exactly, each with its own number as id |
| PhaseCatalog.OnlyLastPhaseWithoutKeywords | src/Stage.tsx:153 | phase 8 is the only phase with an empty keyword list |
| Heuristics.MatchAt | src/Stage.tsx:214 | a match anchored at an index starts with one of the verbs and captures 5 to 35 letters or whitespace, a slice of the text at or after that index |
| Heuristics.FirstMatch | src/Stage.tsx:220 | `exec` yields a capture of 5 to 35 letters or whitespace that is a slice of the searched text |
| Heuristics.FirstMatchIsLeftmost | src/Stage.tsx:226 | `exec` fails exactly when no start index matches; otherwise it returns the capture of a matching start with no match before it |
| Heuristics.Detect | src/Stage.tsx:212-227 | a category yields one discovery exactly when a trigger word occurs in the lowered text and the pattern matches; that discovery holds the trimmed capture and the given phase |
| Heuristics.Extraction | src/Stage.tsx:208-231 | at most three discoveries, in the order item, creature, location, none a revelation, all tagged with the given phase, each a trimmed phrase of at most 35 characters |
| Heuristics.InCategoryOrder | src/Stage.tsx:209-230 | concatenating one optional discovery per category keeps the category order and the tags |
| Heuristics.YieldsByCategory | src/Stage.tsx:209-230 | the concatenated result contains a kind exactly when that kind's category produced a discovery |
| Heuristics.ExtractionGates | src/Stage.tsx:212-227 | an item, creature or location is extracted if and only if its trigger words occur and its pattern matches; a pattern match alone is not enough |
| Heuristics.CheckPhaseTransition | src/Stage.tsx:236-242 | false outside the table and for a phase without keywords; otherwise true exactly when a keyword of the phase is a substring of the lowered text |
| Heuristics.TransitionIgnoresCase | src/Stage.tsx:240-241 | a text and its lowered copy give the same transition signal |
| Heuristics.TerminalPhaseNeverSignals | src/Stage.tsx:238 | the last phase never signals a transition, whatever the text |
| Journal.Contents | src/Stage.tsx:255-257 | `map(d => d.content)` keeps the length and takes each entry's content |
| Journal.FirstOf | src/Stage.tsx:249-262 | the first content of a kind recorded under a phase, absent exactly when no such discovery exists |
| Journal.FilterFirst | src/Stage.tsx:249-257 | filtering by phase, then by kind, then taking element 0 finds what `FirstOf` finds |
| Journal.WithPhaseEmpty | src/Stage.tsx:249-251 | an empty phase filter means no discovery carries that phase |
| Journal.JournalWithoutFinds | src/Stage.tsx:251-253 | with no location, creature or item recorded under the phase, the line is `name: description` |
| Journal.JournalWithFinds | src/Stage.tsx:259-264 | otherwise the line is `name: ` and the explored/encountered/found clauses joined by ", " |
| Journal.JournalOnlySeesItsPhase | src/Stage.tsx:249 | discoveries of other phases never change a phase's line |
| Journal.JournalIgnoresLaterPhases | src/Stage.tsx:249 | appending discoveries of other phases never changes a phase's line |
| StageEngine.Directions | src/Stage.tsx:270-285 | "" exactly for a phase outside the table; otherwise the text opens with `[Stage Direction: ` and ends with `]` |
| StageEngine.AllDiscoveries | src/Stage.tsx:295-299 | the old log is a prefix of the new one; at most three entries are added, none once the log holds 50; new entries carry the phase current at the start of the turn and are never revelations |
| StageEngine.NextPhase | src/Stage.tsx:302-312 | the phase stays or rises by one; it rises exactly when the phase is below 8 and the lowered text contains one of its keywords; it never passes 8 |
| StageEngine.NextJournal | src/Stage.tsx:303-312 | one entry is appended exactly when the phase rises, tagged with the phase left and holding its journal line over the new log; otherwise the journal is unchanged |
| StageEngine.NextChatState | src/Stage.tsx:320-322 | the furthest phase becomes the larger of the old furthest phase and the new phase |
| StageEngine.Stage.constructor | src/Stage.tsx:165-179 | names default to "Character" and "User", states default to phase 1 and furthest phase 1, the memo starts empty |
| StageEngine.Stage.SetState | src/Stage.tsx:199-203 | a supplied state replaces the message state; an absent one changes nothing |
| StageEngine.Stage.ExtractDiscoveries | src/Stage.tsx:208-231 | the discoveries built by the three guarded pushes are exactly `Extraction` |
| StageEngine.Stage.GenerateJournalEntry | src/Stage.tsx:247-265 | the line built from the filtered arrays and `parts` is exactly `JournalText` |
| StageEngine.Stage.GetStageDirections | src/Stage.tsx:270-285 | the result equals a fresh computation whether memoised or not; only a phase in the table is memoised; the memo stays valid |
| StageEngine.Stage.ProcessMessage | src/Stage.tsx:290-336 | the fields become the next message and chat state; directions only for a user turn; the memo stays valid |
| StageEngine.Stage.AdvanceState | src/Stage.tsx:291-326 | the locals computed in place equal `NextMessageState` and `NextChatState` and are stored in the fields |
| Turns.JournalOf | src/Stage.tsx:303-311 | the journal of a story that has left phases 1 to n holds n entries, the i-th tagged with phase i |
| Turns.DefaultWellFormed | src/Stage.tsx:181-187 | the default state satisfies the conversation invariant |
| Turns.LogStep | src/Stage.tsx:295-299 | a turn keeps the log bounded by 52, free of revelations and ordered by phase |
| Turns.JournalStep | src/Stage.tsx:303-312 | after a turn the journal holds, for each phase left, that phase's line over the new log |
| Turns.JournalAfterTurn | src/Stage.tsx:306-310 | discoveries of the current phase leave earlier lines unchanged and feed the line written on leaving it |
| Turns.JournalOfIgnoresLaterPhases | src/Stage.tsx:299 | discoveries of later phases leave every earlier journal line unchanged |
| Turns.TurnPreservesWellFormed | src/Stage.tsx:290-326 | any turn, by user or character, keeps the invariant: phase in 1..8, one journal line per phase left, each equal to that phase's line over the current log |
| Turns.RunKeepsWellFormed | src/Stage.tsx:290-326 | the invariant holds after any sequence of turns |
| Turns.RunProgress | src/Stage.tsx:302-316 | over n turns the phase never decreases, rises by at most n and never passes 8; journal and log only grow at their ends |
| Turns.FurthestPhaseTracks | src/Stage.tsx:320-322 | the furthest phase never decreases and, once at least the current phase, stays so |
| Turns.NoMinimumDwell | src/Stage.tsx:305-311 | from the default state a first turn containing "dawn" already moves to phase 2 and writes one journal line |

## Left out

- `render()` is presentation only. It is the only reader of a phase's objectives, which the catalogue keeps as data.
- `load()` is host plumbing with a clock timestamp.
- `beforePrompt` and `afterResponse` only call `ProcessMessage` with the flag set and cleared.
- The host's character and user records are not modelled. The constructor takes the first character's and the first user's names as `Option<string>`, `None` standing for an empty record.
- The `modifiedMessage`, `systemMessage` and `error` fields of the response are always null and are not modelled.
- `toLowerCase`, `trim` and the regex class `\s` are modelled on ASCII only. Non-ASCII letters and Unicode whitespace are not covered.
- Phase numbers are integers. A JavaScript number that is fractional, `NaN` or out of the safe range is not modelled.
- That every keyword in the table is lower case is not proved. It is what makes the substring test on the lowered text case-insensitive; the model proves only that the test reads the text through its lowered form (Heuristics.TransitionIgnoresCase).
- StageEngine.Stage.GenerateJournalEntry requires a phase in the table. The source reads `name` of an undefined entry otherwise, and its only caller passes the current phase once the transition test has accepted it.
- StageEngine.Stage.ProcessMessage delegates the state update to `AdvanceState` and then computes the directions. The source does both in one body; the split keeps each proof small and does not change the order of effects.
- StageEngine.Directions states the frame of the directions (prefix, closing bracket, empty outside the table), not the exact text. The exact text is the definition itself.
- StageEngine.Directions: the names are inserted with the `$` patterns of `String.replace` expanded (`$$`, `$&`, `` $` ``, `$'`), as the source does. A name without `$` is inserted literally (Text.ExpandLiteral).

## Notable behaviour

- **No pacing.** There is no per-phase message counter, no minimum stay in a phase and no error recovery. A transition fires on the first turn, by the user or the character, that contains a keyword (Turns.NoMinimumDwell).
- **Discovery cap.** Extraction runs while the log has fewer than 50 entries. One turn may add up to three, so the log can hold up to 52 entries (Turns.LogStep); it is not capped at 50.
- **Empty captures.** A capture made only of whitespace trims to an empty content.
- **Memo key.** Stage directions are memoised by phase number only. This is sound because the names never change after construction, and `Valid()` records it.
