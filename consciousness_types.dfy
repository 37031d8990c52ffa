// Value types shared by the v2 consciousness layer.
module ConsciousnessTypes {
  import opened Motivation

  type ThoughtCategory = string

  const ThoughtCategoryDrive: ThoughtCategory := "drive"
  const ThoughtCategoryAssociativeDrift: ThoughtCategory := "associative_drift"

  /** A thought; `drive` is "" for a thought that belongs to no drive. */
  datatype Thought = Thought(category: ThoughtCategory, drive: Drive, text: string)

  datatype TickSchedule = TickSchedule(everyTicks: int)

  /** Arousal and valence as parsed from the model's reply, nominally in [-1,1]. */
  datatype ParsedState = ParsedState(arousal: real, valence: real)

  datatype ActionOutcome = ActionOutcome(action: string, executed: bool, satisfied: bool)
}
