/**
 * The static table of the eight story phases. Every phase carries an id, a
 * display name, a description, objective labels and the lower-case keywords
 * that signal readiness to leave it; `DirectionsTemplate` gives the direction
 * text of each phase, with the placeholders `{{char}}` and `{{user}}`.
 */
module PhaseCatalog {
  import opened Wrappers

  datatype PhaseConfig = PhaseConfig(
    id: int,
    name: string,
    description: string,
    objectives: seq<string>,
    keywords: seq<string>)

  /** The length of the table. */
  const PhaseCount: nat := 8

  /** Phase number `phase` (1-based) has an entry in the table. */
  predicate InCatalog(phase: int) {
    1 <= phase <= PhaseCount
  }

  /** The table entry of phase number `phase`, or None outside the table (an index past either end). */
  function PhaseAt(phase: int): Option<PhaseConfig> {
    match phase
    case 1 => Some(PhaseConfig(
        1,
        "Phase 1: Planning",
        "Meeting at the inn to discuss the mission",
        ["Meet at the inn", "Discuss the mission", "Plan the route", "Rest for the night"],
        PhaseKeywords(1)))
    case 2 => Some(PhaseConfig(
        2,
        "Phase 2: Travel to Temple",
        "Journey from the inn to the temple",
        ["Leave at dawn", "Choose travel route", "Overcome obstacles", "Arrive at temple"],
        PhaseKeywords(2)))
    case 3 => Some(PhaseConfig(
        3,
        "Phase 3: Exploring the Temple",
        "Searching the temple's main floor",
        ["Enter temple", "Explore atrium", "Investigate chambers", "Find hidden staircase"],
        PhaseKeywords(3)))
    case 4 => Some(PhaseConfig(
        4,
        "Phase 4: The Hidden Chamber",
        "Descending into the depths of the temple",
        ["Descend staircase", "Enter cavern", "Study prophecy", "Approach artifact"],
        PhaseKeywords(4)))
    case 5 => Some(PhaseConfig(
        5,
        "Phase 5: The Artifact",
        "Discovering the twin daggers",
        ["Examine daggers", "Sense their power", "Take the daggers"],
        PhaseKeywords(5)))
    case 6 => Some(PhaseConfig(
        6,
        "Phase 6: The Escape",
        "Fleeing the collapsing temple",
        ["Escape collapsing temple", "Avoid hazards", "Return to Velaris"],
        PhaseKeywords(6)))
    case 7 => Some(PhaseConfig(
        7,
        "Phase 7: Accepting Their Fates",
        "Facing the prophecy's implications",
        ["Discuss prophecy", "Acknowledge threats", "Decide to train together"],
        PhaseKeywords(7)))
    case 8 => Some(PhaseConfig(
        8,
        "Phase 8: Moving Forward Together",
        "Preparing for the coming storm",
        ["Research daggers", "Train together", "Prepare for Hybern"],
        PhaseKeywords(8)))
    case _ => None
  }

  /** The entry of a phase number known to be in the table. */
  function Phase(phase: int): PhaseConfig
    requires InCatalog(phase)
  {
    PhaseAt(phase).value
  }

  /** The lower-case words whose presence in a turn signals readiness to leave a phase. */
  function PhaseKeywords(phase: int): seq<string>
    requires InCatalog(phase)
  {
    match phase
    case 1 => ["first light", "dawn", "morning", "good night", "rest for"]
    case 2 => ["temple", "arrived", "reach", "entrance", "gates"]
    case 3 => ["hidden", "staircase", "stairs", "descend", "below", "beneath", "underground"]
    case 4 => ["artifact", "daggers", "pedestal", "approach"]
    case 5 => ["take", "took", "grab", "claim", "both"]
    case 6 => ["velaris", "returned", "safe", "escaped", "made it"]
    case 7 => ["learn", "train", "master", "together", "practice"]
    case _ => []
  }

  /** The direction template of a phase in the table. */
  function DirectionsTemplate(phase: int): string
    requires InCatalog(phase)
  {
    match phase
    case 1 =>
      "{{char}} is meeting {{user}} at an inn on the edge of {{char}}'s territory. They need to discuss a mission to retrieve a powerful magical artifact from an ancient temple in a neighboring court. {{char}} should guide the conversation toward planning their travel route (air, forest, or road) and discussing potential complications from rivals who may also be seeking the artifact. The phase should end with {{char}} suggesting they rest for the night and leave at first light. {{char}} does not yet know what they will find at the temple. PACING: Take time with this scene - don't rush through all the planning in one message. Focus on one or two topics at a time (e.g., first discuss the mission itself, then in subsequent messages discuss the route options, then potential dangers). Let the conversation unfold naturally over multiple exchanges."
    case 2 =>
      "{{char}} and {{user}} are traveling to the ancient temple to retrieve the artifact. They left at dawn and must navigate challenges based on their chosen route: if traveling by air, they risk being spotted and attacked from below; through the forest, they must watch for dangerous beasts and monsters; by road, the journey takes longer and they risk being intercepted by rivals. {{char}} should introduce obstacles and friction that must be overcome during the journey. Guide the story toward their arrival at the temple. {{char}} still does not know what awaits them inside. PACING: This journey should take multiple messages to complete. Don't have them arrive at the temple immediately. First describe the beginning of the journey, then introduce one obstacle or challenge at a time in separate messages. Build tension gradually as they approach their destination."
    case 3 =>
      "{{char}} and {{user}} are exploring a large, ancient temple. The architecture is labyrinthine with mysterious murals painted on the walls. A central atrium leads to approximately a dozen chambers on the main floor. As they search, they find that none of these chambers contain the artifact they seek, though they may discover other interesting magical items or encounter creatures that inhabit the temple. {{char}} should describe the temple's eerie atmosphere and guide the exploration. The artifact must be somewhere else - perhaps deeper within the temple. The phase advances when they discover a hidden staircase leading down beneath the main atrium. PACING: Explore the temple slowly over many messages. Don't find the hidden staircase immediately. First describe entering the temple and the main atrium, then explore individual chambers one or two at a time in separate messages. Build atmosphere and mystery. Save the discovery of the hidden staircase for after exploring several chambers."
    case 4 =>
      "{{char}} and {{user}} are descending a long, dark, damp spiral staircase. Water drips constantly from the walls. The descent seems endless. When they finally reach the bottom, they enter a massive underground cavern unlike anything above. The chamber is filled with stained glass windows that seem to glow with their own light, elaborate murals, and ancient statues. As {{char}} studies these images, they begin to realize these depictions tell a story - a prophecy. The images show two figures (who bear a striking resemblance to {{char}} and {{user}}) finding an artifact, falling in love, and standing together against a terrible threat. {{char}} should express shock, confusion, or disbelief at seeing this prophecy about themselves. The phase advances when they approach what appears to be the artifact on a pedestal in the center of the chamber. PACING: This is a major revelation - take your time. First focus on the long descent down the staircase (2-3 messages). Then describe entering the cavern and initial impressions. In subsequent messages, gradually have {{char}} realize what the murals depict. Let the weight of the prophecy sink in before approaching the artifact. This should unfold over at least 5-6 messages."
    case 5 =>
      "{{char}} and {{user}} approach the pedestal at the center of the chamber. What they find is unexpected - the artifact is not a single object, but a pair of daggers resting on the ancient stone. One blade appears to be forged from pure starlight itself, glowing softly and seeming to whisper directly to {{user}}. The other is carved from obsidian so dark it seems to absorb light, and it pulses with a presence that calls specifically to {{char}}. Both weapons have an otherworldly, almost alive quality that makes {{char}} hesitate. These are clearly objects of immense power - perhaps even dangerous power. {{char}} should express hesitation, awe, fear, or wonder at what they've found. The prophecy suggested they would find this together. Guide toward both {{char}} and {{user}} claiming their respective daggers. PACING: Don't rush to take the daggers immediately. First describe approaching the pedestal and seeing the daggers. Then focus on the strange sensations and calls from the weapons. Have {{char}} express their hesitation and discuss with {{user}} whether they should take them. Build the tension before they finally claim the daggers. This should take at least 3-4 messages."
    case 6 =>
      "The moment the daggers are removed from their resting place, the entire temple begins to collapse! Ancient mechanisms have been triggered. {{char}} and {{user}} must flee immediately through crumbling passages and collapsing chambers. Stone falls from above, water floods through cracks in the walls, and the very ground shakes beneath their feet. They may encounter creatures and monsters that also inhabit the temple, now desperately trying to escape the destruction. {{char}} should create a sense of urgency and danger as they describe the environmental hazards. Guide the story toward {{char}} and {{user}} successfully escaping the temple and making their way back to Velaris ({{char}}'s home territory). PACING: This is an action sequence but should still take multiple messages. Don't have them escape immediately. Describe obstacles one at a time - falling debris in one message, a flooded passage in another, perhaps a creature encounter in a third. Build the tension and make the escape feel earned. The journey back to Velaris should be mentioned but can be quicker once they're clear of the temple."
    case 7 =>
      "{{char}} and {{user}} have returned safely to Velaris with the twin daggers. Now they must face what the prophecy in the temple revealed and what it means for their future. The daggers are incredibly powerful and dangerous - they can feel the raw magic thrumming through the weapons. Other court rulers will inevitably learn about the daggers and come seeking them, either to take them or to eliminate the threat. The weapons are both a blessing and a burden - symbols of power but also targets painted on their backs. {{char}} should discuss the weight of this responsibility, their feelings about the prophecy (especially the part about falling in love), the threats they now face, and what they should do next. Guide the conversation toward {{char}} and {{user}} deciding to learn how to properly wield and control the daggers together rather than hiding them away or trying to destroy them. PACING: This is a major emotional scene - don't rush it. Start with the immediate aftermath of returning (catching their breath, processing what happened). Then address different aspects of the prophecy one at a time across multiple messages - first the practical concerns about threats, then the emotional weight of destiny, then their feelings about each other. Let this conversation breathe and develop naturally over many exchanges."
    case _ =>
      "{{char}} and {{user}} have committed to learning how to wield the ancient daggers together. They are now researching the weapons' origins and the legends surrounding them, searching for any information that might help them understand and control the immense power contained within. They train together, attempting to master the daggers while also preparing for the inevitable threats that will come. Somewhere across the sea, their greatest enemy - Hybern - will eventually learn of what they've found, and that danger looms on the horizon. {{char}} should describe their training sessions, any discoveries they make about the daggers' history or abilities, and the growing bond between them as they face this challenge together. This is an ongoing phase where their partnership and skills continue to develop. PACING: This is the long-term phase where the relationship develops. Focus on individual training sessions, research discoveries, or moments between {{char}} and {{user}} one at a time. Don't try to cover weeks of training in one message. Each response should show a specific moment, scene, or discovery. Let their partnership evolve gradually and naturally over many interactions."
  }

  /** Entries exist exactly for the phase numbers 1 to 8, and each carries its own number as id. */
  lemma PhaseIds(phase: int)
    ensures PhaseAt(phase).Some? <==> InCatalog(phase)
    ensures PhaseAt(phase).Some? ==> PhaseAt(phase).value.id == phase
  {
    match phase
    case 1 => case 2 => case 3 => case 4 =>
    case 5 => case 6 => case 7 => case 8 =>
    case _ =>
  }

  /** Only the last phase has no keywords, so it is the only phase that is never left. */
  lemma OnlyLastPhaseWithoutKeywords(phase: int)
    requires InCatalog(phase)
    ensures PhaseKeywords(phase) == [] <==> phase == PhaseCount
  {
  }
}
