# virtualPerson core, modelled in Dafny

virtualPerson simulates a person in layers: a biology layer (a physiological state
of some twenty variables with ranges, decay, interaction rules, threshold
classifiers and stimulus handlers), a psychology layer (isolation, coping, a
spontaneous-thought queue), and a motivation and consciousness layer (five drives,
goal selection, action candidates, cooldowns) that reads speech, `*actions*` and
`~environment` lines typed by a user. A web dashboard plots the streamed state.
The code exists in three generations: `internal`, `v1` and `v2`.

This project models the deterministic rule code of those layers and proves what it
promises. Each core source file becomes one Dafny module:

- value logic (classifiers, parsers, rankings, decision trees) becomes datatypes,
  functions and lemmas;
- code that updates an object in place becomes a `class` whose methods state the
  new state (the biology `State`, the feedback buffer, the continuity and reviewer
  buffers, the thought queue, the input adapter, the dashboard's history);
- loops in the source become methods with loop invariants, proved against a
  specification function whose properties are lemmas.

`float64` is modelled as `real`, and times and durations as `int` nanoseconds or
`real` seconds, as the source uses them. Go's zero values for missing map keys
(0, false, an empty list) are written out explicitly. Three shared modules support
the others: `Wrappers` (Option and Result), `Text` (Go's `strings.TrimSpace`,
`ToLower`, `Contains` and `Join`, with Go's whitespace set and ASCII case mapping),
and `Window` (keep the last N items).

The `internal` generation's biology code (internal/biology/processor.go and
internal/biology/thresholds.go) works on a state of the same shape as the v1 one.
Its own state file is not part of this model, so those two modules use the v1 `Body`,
its `Get`/`Set` and the v1 `ClampVariable` range table.

## Model

| member | source | states |
|---|---|---|
| Dashboard.Meta | internal/server/web/dashboard.js:5-26 | every charted variable's natural range is non-degenerate (min < max), so normalization is defined |
| Dashboard.BioVarsFollowGroups | internal/server/web/dashboard.js:28-34 | the panel walks the variables group by group: vital, metabolic, hormonal, physical, circadian |
| Dashboard.Ordinal | internal/server/web/dashboard.js:50-55 | each variable has exactly one history slot, the position at which the panel walk reaches it |
| Dashboard.EveryVarCharted | internal/server/web/dashboard.js:50-55 | every bio variable gets a history series |
| Dashboard.OrdinalOfPosition | internal/server/web/dashboard.js:50-55 | slot and walk position agree in both directions |
| Dashboard.NormalizeInverts | internal/server/web/dashboard.js:39-42 | normalization is exactly (v-min)/(max-min): scaling back recovers the raw value, so nothing is clamped |
| Dashboard.NormalizeInUnitIffInRange | internal/server/web/dashboard.js:39-42 | the normalized value is in [0,1] iff the raw value is inside the variable's range; min maps to 0, max to 1 |
| Dashboard.HeartRateMidpoint | internal/server/web/dashboard.js:7 | heart rate 120 normalizes to 0.5 |
| Dashboard.RawValue | internal/server/web/dashboard.js:218 | a variable missing from the payload is recorded as 0, a present one as its value |
| Dashboard.ThresholdMatchesGroup | internal/server/web/dashboard.js:262-272 | true iff the lower-cased system contains one of the group's keywords; an unknown group never matches |
| Dashboard.GlycemicControlMatches | internal/server/web/dashboard.js:262-272 | "Glycemic_Control" outlines the vital and metabolic charts but not the hormonal one |
| Dashboard.GroupHasThreshold | internal/server/web/dashboard.js:232-237 | a group is outlined iff some threshold of the update matches it |
| Dashboard.AlertLines | internal/server/web/dashboard.js:249-259 | one alert line per threshold, in order, each "[CONDITION] system: description" |
| Dashboard.Toggled | internal/server/web/dashboard.js:183-189 | hiding adds the key, showing removes it, and no other key changes |
| Dashboard.ToggleIdempotent | internal/server/web/dashboard.js:183-189 | toggling twice to the same visibility equals toggling once; hide-then-show only removes the key |
| Dashboard.Session.constructor | internal/server/web/dashboard.js:46-60 | the store starts with empty labels and series, nothing hidden, no alerts |
| Dashboard.Session.UpdateBioPanel | internal/server/web/dashboard.js:194-260 | labels and every raw and normalized series roll the new value in at the end, dropping the oldest only at 60; all series keep one point per label and at most 60; alerts, banner and outlines are rebuilt from this update's thresholds alone; the hidden set is unchanged |
| Dashboard.Session.ToggleVar | internal/server/web/dashboard.js:178-190 | only the hidden set changes, as Toggled says; a group without a chart changes nothing |
| Dashboard.Session.OnMessage | internal/server/web/dashboard.js:413-418 | only a decoded bio_state message with a snapshot changes the store (exactly as UpdateBioPanel); undecodable text and every other kind leave it unchanged |
| Dashboard.RollSeries | internal/server/web/dashboard.js:217-227 | every variable's raw series gains its reading (0 if absent) and its chart series the normalized reading, both rolled at 60 |
| Dashboard.RolledSeriesStayAligned | internal/server/web/dashboard.js:221-224 | rolling a chart series and its raw series with the same reading keeps both the labels' length and each point the normalized form of its raw reading |
| Protocol.Validate | internal/server/protocol.go:15-25 | accepted iff the type is speech, action or environment and the content is non-empty; an unknown type is reported before empty content |
| Protocol.ToInputLineRoundTrip | internal/server/protocol.go:29-38 | a valid message with trimmed content (speech without a marker of its own) converted to an input line classifies back to its own type and content: action becomes "*c*", environment "~c", speech c |
| SenseParser.Parse | v2/internal/sense/parser.go:32-53 | rejects exactly the blank lines; every content is trimmed; an action is never empty; speech is the trimmed input |
| SenseParser.ParseAction | v2/internal/sense/parser.go:38-43 | "*x*" with non-blank x is the action x, trimmed |
| SenseParser.BlankStarsAreSpeech | v2/internal/sense/parser.go:38-52 | stars around blank text fall back to speech, content as typed |
| SenseParser.SpeechWhenNotActionOrEnvironment | v2/internal/sense/parser.go:52 | a trimmed line that is neither a real action nor "~"-prefixed is speech, unchanged |
| SenseParser.ParseEnvironment | v2/internal/sense/parser.go:45-50 | "~" followed by text is the environment change of that text trimmed, possibly empty |
| SenseParser.DoubleStarIsSpeech | v2/internal/sense/parser_test.go:47-53 | "**" is speech with content "**" |
| InputClassifier.ClassifyInput | internal/simulation/loop.go:31-40 | classification of the trimmed input: action iff star-wrapped with length over 2, environment iff otherwise "~"-prefixed, else speech with the trimmed text; content is always trimmed |
| InputClassifier.ClassifyTrimmed | internal/simulation/loop.go:33-39 | the same conventions on an already trimmed string |
| InputClassifier.ClassifyIgnoresPadding | internal/simulation/loop.go:32 | surrounding white space never changes the result |
| InputClassifier.ClassifyAction | internal/simulation/loop.go:33-35 | "*x*" with any non-empty x is the action x trimmed, so "*  *" is an empty action |
| InputClassifier.DoubleStarIsSpeech | internal/simulation/loop_test.go:294-299 | "**" is speech |
| InputClassifier.ClassifyEnvironment | internal/simulation/loop.go:36-38 | "~x" is the environment change x trimmed; a bare "~" gives "" |
| Window.RollAllKeepsNewest | internal/server/web/dashboard.js:221-224 | a history rolled at capacity n, fed any run of values, holds exactly the newest n of them in arrival order |
| Window.PushAllKeepsNewest | v2/internal/consciousness/continuity_buffer.go:17-20 | appending then trimming to n after every step keeps exactly the newest n of everything added, in insertion order |
| ContinuityBufferModule.ContinuityBuffer.constructor | v2/internal/consciousness/continuity_buffer.go:3-11 | a negative capacity becomes 0; the buffer starts empty |
| ContinuityBufferModule.ContinuityBuffer.Add | v2/internal/consciousness/continuity_buffer.go:13-21 | a zero-capacity buffer is unchanged; otherwise the contents become the newest `capacity` thoughts of old contents plus the new one, so the length never exceeds the capacity |
| ContinuityBufferModule.ContinuityBuffer.Items | v2/internal/consciousness/continuity_buffer.go:23-30 | returns the contents, oldest first, never more than the capacity; the empty sequence stands for the nil result of an empty buffer |
| ContinuityBufferModule.KeepsMostRecentExample | v2/internal/consciousness/consciousness_test.go:97-110 | capacity 2 fed first, second, third yields second then third |
| PsychologistReviewer.Reviewer.constructor | v1/internal/reviewer/psychologist.go:36-48 | a configured capacity of 0 becomes 20, so the capacity is always positive; a negative capacity is excluded, because the `make` call panics on it; no thoughts and no previous review |
| PsychologistReviewer.Reviewer.AddThought | v1/internal/reviewer/psychologist.go:52-60 | below capacity the thought is appended; at capacity the oldest is dropped and the new one is last, length unchanged; never more than the capacity |
| PsychologistReviewer.Reviewer.Review | v1/internal/reviewer/psychologist.go:66-92 | the model is consulted iff thoughts are buffered and the interval gate passes; skipped or failed reviews keep the last review time, a successful one records now and returns the observation |
| PsychologistReviewer.ZeroIntervalAlwaysCalls | v1/internal/reviewer/psychologist.go:94-99 | with a zero minimum interval the rate gate always passes |
| PsychologistReviewer.EvictsOldestExample | v1/internal/reviewer/psychologist_test.go:42-62 | capacity 3 fed any four thoughts keeps the newest three, oldest first |
| PsychologistReviewer.DefaultCapacityExample | v1/internal/reviewer/psychologist_test.go:193-198 | capacity 0 means 20 |
| PsychologistReviewer.EmptyBufferSkipsExample | v1/internal/reviewer/psychologist.go:71-73 | an empty buffer is skipped without a model call |
| ConsciousnessActions.ClampSigned | v2/internal/consciousness/helpers.go:7-9 | the result lies in [-1,1] and is the input when that already lies there |
| ConsciousnessActions.Max0 | v2/internal/consciousness/helpers.go:11-16 | the result is the input or 0, whichever is larger |
| ConsciousnessActions.EmotionalPulseFromState | v2/internal/consciousness/actions.go:12-22 | four pulses, on stress, mood, physical_tension and cognitive_capacity in that order, each bounded because arousal and valence are clamped first |
| ConsciousnessActions.EmotionalPulseSaturates | v2/internal/consciousness/actions.go:13-14 | arousal and valence outside [-1,1] give the same pulses as their bounds |
| ConsciousnessActions.NeutralStateNoPulse | v2/internal/consciousness/actions.go:16-21 | arousal 0 and valence 0 move nothing |
| ConsciousnessActions.EmotionalPulseExample | v2/internal/consciousness/actions.go:16-21 | arousal 0.8, valence -0.5 gives stress +0.136, mood -0.12, tension +0.08, capacity -0.048 |
| ConsciousnessActions.NormalizeIdempotent | v2/internal/consciousness/actions.go:31 | trimming and lower-casing an action key twice equals doing it once |
| ConsciousnessActions.PulsesFor | v2/internal/consciousness/actions.go:31-86 | a key has a non-empty effect iff it is one of the ten known actions |
| ConsciousnessActions.ActionPulse | v2/internal/consciousness/actions.go:26-87 | no pulses unless executed and satisfied; then pulses exactly when the normalized action is a known one |
| ConsciousnessActions.PulseFieldsAreVariables | v2/internal/consciousness/actions.go:33-83 | every action pulse names one of the eight bio fields |
| ConsciousnessActions.KnownActionsNormalized | v2/internal/consciousness/actions.go:31-32 | the known action names survive normalization unchanged, so each switch case is reachable |
| ConsciousnessActions.EatingRelievesHunger | v2/internal/consciousness/actions.go:32-37 | a satisfied eat, committed at tick end, lowers hunger by exactly 0.30 when hunger is at least 0.30 |
| ConsciousnessActions.ResolveActionOutcome | v2/internal/consciousness/actions.go:89-96 | the action is trimmed and lower-cased; executed and satisfied both equal the environment's verdict |
| ConsciousnessActions.ResolvedPulse | v2/internal/consciousness/actions.go:89-96 | a blocked action has no effect; an allowed one has the effect of its spelling however it was padded or cased |
| ConsciousnessActions.CooldownOutcome | v2/internal/consciousness/actions.go:107-122 | executed iff allowed and not inside a stored cooldown; a rejection keeps the state; an execution with a positive duration sets until-time to now + duration and touches no other key |
| ConsciousnessActions.CloneCooldownState | v2/internal/consciousness/actions.go:125-134 | the copy has exactly the entries of the input |
| ConsciousnessActions.ResolveActionOutcomeWithCooldown | v2/internal/consciousness/actions.go:100-123 | returns CooldownOutcome of the normalized key; the caller's map is a value and cannot change |
| ConsciousnessActions.CooldownWindow | v2/internal/consciousness/actions.go:113-120 | after an execution starts a cooldown, a retry is refused iff it comes before now + duration |
| ConsciousnessActions.RepeatedEatExample | v2/internal/consciousness/actions.go:113-120 | eat with a 30 s cooldown is accepted at 100, refused at 110 and accepted at 130 |
| ConsciousnessActions.BlockedStartsNoCooldown | v2/internal/consciousness/actions.go:109-111 | an environment-blocked action leaves the cooldown state empty |
| DriveOverrides.PriorityOf | v2/internal/consciousness/drive_overrides.go:37-43 | the tie-break rank of each drive is its position in the priority order Safety, Energy, Social, Identity, Stimulation; a missing key reads 0 |
| DriveOverrides.EffectiveDrive | v2/internal/consciousness/drive_overrides.go:63-75 | no override gives clamp01(raw); an override gives max(clamp01(override), 0.5·clamp01(raw)); every result lies in [0,1] |
| DriveOverrides.NotBeforeTransitive | v2/internal/consciousness/drive_overrides.go:54-59 | the comparator's "not ahead of" relation is transitive, so sorting by it is well defined |
| DriveOverrides.Insert | v2/internal/consciousness/drive_overrides.go:54-59 | inserting into a sorted list keeps it sorted and adds exactly the new entry |
| DriveOverrides.SortRanked | v2/internal/consciousness/drive_overrides.go:54-59 | the result is sorted by the comparator and a permutation of the input |
| DriveOverrides.RankedDrives | v2/internal/consciousness/drive_overrides.go:45-61 | the five clamped drive entries, as a sorted permutation |
| DriveOverrides.RankedDrivesOrder | v2/internal/consciousness/drive_overrides.go:54-59 | earlier entries have urgency at least as high, and on equal urgency a lower priority index |
| DriveOverrides.HeadDominates | v2/internal/consciousness/drive_overrides.go:23-27 | the head of a sorted permutation is one of the entries and no entry ranks ahead of it |
| DriveOverrides.RankedHeadIsActiveGoal | v2/internal/consciousness/drive_overrides.go:23-27 | for urgencies in [0,1] the ranking's head is the first drive of maximal urgency in priority order |
| DriveOverrides.DominantEntryIsActiveGoal | v2/internal/consciousness/drive_overrides.go:37-59 | an entry no other entry ranks ahead of is the active goal in the priority-order sense |
| DriveOverrides.EffectiveUrgencies | v2/internal/consciousness/drive_overrides.go:16-21 | each of the five urgencies becomes its effective drive; goal fields are copied |
| DriveOverrides.ActiveGoalIgnoresGoalFields | v2/internal/consciousness/drive_overrides.go:23-27 | which drive is the active goal depends on the five urgencies only |
| DriveOverrides.WithRankedGoal | v2/internal/consciousness/drive_overrides.go:23-27 | the active goal becomes the ranking's head with its urgency, and that is a maximal, priority-first drive; urgencies are unchanged |
| DriveOverrides.ApplyDriveOverrides | v2/internal/consciousness/drive_overrides.go:15-29 | all five urgencies are the effective drives and the goal is the maximal one, ties to the earlier priority |
| DriveOverrides.OverrideGoalAgreesWithScan | v2/internal/motivation/compute.go:44-62 | after overrides, the active goal is what the motivation layer's own priority scan would select |
| DriveOverrides.HalfRawFloorExample | v2/internal/consciousness/consciousness_test.go:382-400 | raw 0.8 with report 0.1 gives 0.4 |
| DriveOverrides.HigherReportWinsExample | v2/internal/consciousness/consciousness_test.go:402-425 | a report of 0.9 for energy wins over raw 0.2 and makes energy the active goal |
| DriveOverrides.ClampsInputsExample | v2/internal/consciousness/drive_overrides.go:64-69 | raw 1.5 with report -3 gives 0.5; a report of 3 gives 1 |
| ThoughtSelection.DueIffMultiple | v2/internal/consciousness/thought_selection.go:26-31 | a schedule fires iff period and tick are positive and the tick is a multiple of the period |
| ThoughtSelection.DueExamples | v2/internal/consciousness/thought_selection.go:26-31 | period 3 fires on tick 6, period 4 not on tick 3; tick 0 and period 0 never fire |
| ThoughtSelection.DriveThoughtText | v2/internal/consciousness/prompt_context.go:104-119 | the fallback text is used exactly for a string that is none of the five drives |
| ThoughtSelection.SelectSpontaneousThought | v2/internal/consciousness/thought_selection.go:5-24 | no thought iff the tick is not due; else drift when the top ranked urgency is at most 0, otherwise a drive thought for the top-ranked drive |
| ThoughtSelection.ClampedUrgencies | v2/internal/consciousness/drive_overrides.go:47-51 | the urgencies as the ranking sees them all lie in [0,1] |
| ThoughtSelection.ThoughtFollowsTopDrive | v2/internal/consciousness/thought_selection.go:10-23 | on a due tick the thought is a drive thought iff some clamped urgency is positive, and then its drive is the first maximal drive in priority order |
| ThoughtSelection.NoPressingDriveDrifts | v2/internal/consciousness/thought_selection.go:11-16 | with no positive urgency a due tick yields the drift thought |
| ThoughtSelection.StrictlyTopDriveSurfaces | v2/internal/consciousness/thought_selection.go:18-23 | a positive drive strictly above the others surfaces with its own text |
| ThoughtSelection.SafetyThoughtExample | v2/internal/consciousness/thought_selection.go:18-23 | safety 0.9 against 0.1 elsewhere on tick 6 of period 3 gives the safety thought |
| ThoughtSelection.OffTickSilentExample | v2/internal/consciousness/thought_selection.go:6-8 | tick 3 of period 4 yields no thought |
| Motivation.Clamp01 | v2/internal/motivation/helpers.go:30-42 | the result lies in [0,1] and is the input when that already lies there |
| Motivation.ActiveGoalUnique | v2/internal/motivation/compute.go:44-62 | at most one drive is maximal and earliest in priority order, so the active goal is well defined |
| Motivation.PickFrom | v2/internal/motivation/compute.go:53-60 | the scan returns an index at or after the current best whose value is at least the best's |
| Motivation.PickFromFirstMax | v2/internal/motivation/compute.go:55-59 | because the scan replaces only on a strictly larger value, it returns the first maximum |
| Motivation.UrgenciesByPriority | v2/internal/motivation/compute.go:45-51 | the urgency of each drive, listed in priority order |
| Motivation.SelectActiveGoal | v2/internal/motivation/compute.go:44-62 | returns a drive of maximal urgency with that urgency, the earliest in priority order on ties (Safety first) |
| Motivation.NormalizedBioIsClampAll | v2/internal/motivation/compute.go:64-74 | the motivation layer's bio normalization is the biology layer's ClampAll |
| Motivation.ClampedPersonality | v2/internal/motivation/compute.go:76-85 | every trait lies in [0,1], and an in-range personality is unchanged |
| Motivation.ClampedChronic | v2/internal/motivation/compute.go:87-93 | every chronic load lies in [0,1], and in-range loads are unchanged |
| Motivation.TempDeviation | v2/internal/motivation/helpers.go:5-7 | in [0,1]; 0 at 36.6 °C and saturated 6 °C away from it |
| Motivation.EnergyMultiplier | v2/internal/motivation/helpers.go:9-12 | lies in [0.5,1.5] |
| Motivation.SocialMultiplier | v2/internal/motivation/helpers.go:14-16 | lies in [0.6,1.4] |
| Motivation.StimulationMultiplier | v2/internal/motivation/helpers.go:18-20 | lies in [0.6,1.4] |
| Motivation.SafetyMultiplier | v2/internal/motivation/helpers.go:22-24 | lies in [0.5,1.5] |
| Motivation.IdentityMultiplier | v2/internal/motivation/helpers.go:26-28 | lies in [0.5,1.5] |
| Motivation.Scaled01 | v2/internal/motivation/compute.go:27-31 | a base scaled by a multiplier, clamped back into [0,1] |
| Motivation.Scaled01Monotone | v2/internal/motivation/compute.go:27-31 | scaling by a non-negative multiplier preserves the order of bases |
| Motivation.WithActiveGoal | v2/internal/motivation/compute.go:40 | the urgencies are kept and the goal fields hold the maximal, priority-first drive and its urgency |
| Motivation.Compute | v2/internal/motivation/compute.go:16-42 | the five urgencies are each base-times-multiplier of the clamped inputs, all in [0,1]; the goal is the maximal drive, ties to priority order, and its urgency lies in [0,1] |
| Motivation.ComputeClampsInputs | v2/internal/motivation/compute.go:17-19 | out-of-range bio, personality and chronic inputs act exactly as their clamped values |
| Motivation.EnergyUrgencyMonotone | v2/internal/motivation/compute.go:21 | less energy never lowers the energy urgency |
| Motivation.SocialUrgencyMonotone | v2/internal/motivation/compute.go:22 | a larger social deficit never lowers the social urgency |
| Motivation.CuriosityOnlyAffectsStimulation | v2/internal/motivation/helpers.go:18-20 | curiosity changes no urgency but stimulation |
| Motivation.CuriosityRaisesStimulationExample | v2/internal/motivation/helpers.go:18-20 | at the baseline snapshot, curiosity 0 gives stimulation urgency 0.12 and curiosity 1 gives 0.28 |
| Motivation.TieBreakPrefersSafety | v2/internal/motivation/compute.go:7-13 | with energy and safety both at 1, safety is the active goal |
| MotivationActions.ActionCandidatesFor | v2/internal/motivation/actions.go:4-47 | never empty; eat iff the goal is energy and food is at hand; reach_out iff the goal is social and people are nearby; energy always offers hydrate and rest iff resting is possible; safety starts with breathe, scan and offers rest iff there is quiet space; stimulation starts with micro_task and offers scan iff exploring is possible; identity starts with journal; an unknown drive gets only breathe |
| MotivationActions.CandidatesAreKnownActions | v2/internal/motivation/actions.go:4-47 | every candidate is one of the ten known actions |
| MotivationActions.NoFoodNoEat | v2/internal/motivation/motivation_test.go:154-172 | an energy goal without food but with rest possible offers exactly rest and hydrate |
| V1Biology.VariableName | v1/internal/biology/state.go:115-120 | the corrected String: indices 0..19 give their names, every other integer "unknown" |
| V1Biology.VariableNameAsWritten | v1/internal/biology/state.go:115-120 | String as written: agrees with the corrected one on every non-negative index; every negative index panics |
| V1Biology.NegativeVariableNamePanics | v1/internal/biology/state.go:116-117 | Variable(-1).String() panics where "unknown" is intended |
| V1Biology.UnknownIsNoName | v1/internal/biology/state.go:92-113 | no variable is named "unknown", so the fallback is unambiguous |
| V1Biology.DefaultBody | v1/internal/biology/state.go:39-64 | the default state carries no cortisol load |
| V1Biology.GetAfterSet | v1/internal/biology/state_test.go:50-61 | Set(v, x) then Get(v) returns x for all twenty variables |
| V1Biology.SetLeavesOthers | v1/internal/biology/state.go:171-214 | Set changes only the named field; the cortisol load is untouched |
| V1Biology.UnknownVariable | v1/internal/biology/state.go:165-166 | an unknown index reads as 0 and Set of it changes nothing |
| V1Biology.SetOwnValue | v1/internal/biology/state.go:171-214 | writing back the value just read changes nothing |
| V1Biology.BodyExtensional | v1/internal/biology/state.go:7-31 | two states agreeing on the twenty variables and the cortisol load are equal |
| V1Biology.State.constructor | v1/internal/biology/state.go:39-64 | NewDefaultState: the baseline values of a rested, fed person at 8:00 |
| V1Biology.State.Get | v1/internal/biology/state.go:123-167 | reads the value the index names, 0 for an unknown index |
| V1Biology.State.Set | v1/internal/biology/state.go:171-214 | the new state is the old one with exactly the named field replaced; nothing for an unknown index |
| V1Interactions.Clamp | v1/internal/biology/interactions.go:523-531 | below the range gives the minimum, above gives the maximum, inside is the identity; for a non-empty range the result lies in it |
| V1Interactions.RangesCoverAllVariables | v1/internal/biology/interactions.go:534-555 | the range table has an entry exactly for the twenty variables, each with min < max |
| V1Interactions.ClampVariable | v1/internal/biology/interactions.go:558-564 | a variable's value is clamped into its table range, unchanged inside it; an unknown index passes through |
| V1Interactions.ClampVariableIdempotent | v1/internal/biology/interactions.go:558-564 | clamping twice equals clamping once |
| V1Interactions.DefaultWithinRanges | v1/internal/biology/state_test.go:200-212 | every default value lies within its table range |
| V1Interactions.CappedIncrementsStayBelowOne | v1/internal/biology/interactions.go:166-172 | the low-blood-sugar hunger increment and the dehydration thirst increment (lines 445-452) never lift their variable above 1, and hunger below 1 always grows for positive dt |
| CriticalThresholds.CriticalStateName | internal/biology/thresholds.go:23-28 | values 0..4 get their names in order and every other value, negative ones included, is "unknown" |
| CriticalThresholds.CriticalStateNameAsWritten | internal/biology/thresholds.go:23-28 | the guard as written agrees with the intended naming on every non-negative value, and every negative value panics |
| CriticalThresholds.NegativeCriticalStateNamePanics | internal/biology/thresholds.go:24-25 | `CriticalState(-1)` passes the upper-bound guard and indexes out of range, where "unknown" was intended |
| CriticalThresholds.Report | internal/biology/thresholds.go:59-90 | a classifier reports nothing in the normal band and otherwise exactly one result, of its own system, carrying the tier |
| CriticalThresholds.HypothermiaLevel | internal/biology/thresholds.go:59-90 | below 28 degrees lethal, below 30 unconscious, below 33 critical, below 35 impaired; normal exactly from 35 up |
| CriticalThresholds.HyperthermiaLevel | internal/biology/thresholds.go:92-117 | above 42 degrees lethal, above 41.5 critical, above 40 impaired; normal exactly up to 40 |
| CriticalThresholds.HypoglycemiaLevel | internal/biology/thresholds.go:119-150 | below 25 mg/dL lethal, below 35 unconscious, below 45 critical, below 55 impaired; normal exactly from 55 |
| CriticalThresholds.HyperglycemiaLevel | internal/biology/thresholds.go:152-170 | above 300 mg/dL critical, above 180 impaired; normal exactly up to 180 |
| CriticalThresholds.HypoxiaLevel | internal/biology/thresholds.go:172-203 | SpO2 below 60 lethal, below 75 unconscious, below 85 critical, below 90 impaired; normal exactly from 90 |
| CriticalThresholds.BandsDisjoint | internal/biology/thresholds.go:42-45 | a body is never both hypo- and hyperthermic, nor both hypo- and hyperglycemic |
| CriticalThresholds.EvaluatorSystems | internal/biology/thresholds.go:59-217 | each of the six evaluators reports at most one result, always naming its own system |
| CriticalThresholds.EvaluateThresholdsShape | internal/biology/thresholds.go:39-50 | the combined report has at most four results, never two thermoregulation results and never two glycemic results |
| CriticalThresholds.EvaluateThresholdsEmpty | internal/biology/thresholds.go:39-50 | the report is empty exactly when temperature is in 35..40, blood sugar in 55..180, SpO2 at least 90 and blood pressure at least 70 |
| CriticalThresholds.HypothermiaMonotone | internal/biology/thresholds.go:59-90 | a colder body is never classified less severely |
| CriticalThresholds.HypoglycemiaMonotone | internal/biology/thresholds.go:119-150 | lower blood sugar is never classified less severely |
| CriticalThresholds.HypoxiaMonotone | internal/biology/thresholds.go:172-203 | lower oxygen saturation is never classified less severely |
| CriticalThresholds.ReversalIsCriticalHypothermia | internal/biology/thresholds.go:55-57 | the reversal holds exactly when the hypothermia classifier reports critical or worse |
| CriticalThresholds.AdrenalineGoesNegativeAsWritten | internal/biology/thresholds.go:252-256 | the uncapped drop takes adrenaline 0.5 to -0.5 over a 20-second step |
| CriticalThresholds.AdrenalineDrop | internal/biology/thresholds.go:252-256 | the corrected drop never takes non-negative adrenaline below zero and equals the uncapped 10%/s drop whenever that is not too large |
| CriticalThresholds.TensionDrop | internal/biology/thresholds.go:231-238 | the drop never exceeds the excess over 0.3 and is non-negative for a non-negative dt |
| CriticalThresholds.HeartRateDrop | internal/biology/thresholds.go:240-249 | the drop never exceeds the excess over the temperature-dependent target and is non-negative for a non-negative dt |
| CriticalThresholds.OverridesTouchThree | internal/biology/thresholds.go:223-259 | outside reversal nothing changes and nothing is reported; in reversal only muscle tension, heart rate and adrenaline can move |
| CriticalThresholds.OverridesFloors | internal/biology/thresholds.go:230-256 | of the corrected override (see Findings): tension and heart rate converge to their floors without crossing them, values already at or below a floor are untouched, and adrenaline does not go negative, which the source as written breaks for dt > 10 |
| CriticalThresholds.OverridesNeverRaise | internal/biology/thresholds.go:230-256 | over a non-negative dt none of the three overridden values rises |
| CriticalThresholds.OverrideChangesMatch | internal/biology/thresholds.go:237-255 | every reported change is tagged "hypothermia_reversal" and its delta is the amount its variable actually moved |
| CriticalThresholds.ApplyHypothermiaOverrides | internal/biology/thresholds.go:223-259 | the corrected override (see Findings), with the adrenaline drop capped at the current level: the new state and the reported changes are those of the value-level override, so the lemmas above hold of the method; for dt up to 10 it equals the source as written |
| CriticalThresholds.OverriddenAsWritten | internal/biology/thresholds.go:223-259 | the override as the source writes it: outside reversal nothing changes; in reversal adrenaline above 0.05 drops by the uncapped 10%/s of its level, reported as the last change |
| CriticalThresholds.OverriddenAsWrittenGoesNegative | internal/biology/thresholds.go:252-256 | as written, a 20-second reversal step takes adrenaline 0.5 to -0.5 and reports -1.0, where the corrected override stops at 0 |
| CriticalThresholds.OverridesAgreeWithinTenSeconds | internal/biology/thresholds.go:252-256 | for 0 <= dt <= 10 the corrected and the as-written override give the same state and the same changes |
| CriticalThresholds.ImmuneSuppressionFactor | internal/biology/thresholds.go:265-267 | for a non-negative load the factor lies in (0, 1], and it is exactly 1 only with no load |
| CriticalThresholds.ImmuneSuppressionDecreasing | internal/biology/thresholds.go:261-267 | a larger load never suppresses less, and a load of 10 halves immune efficiency |
| BiologyProcessor.SignificanceIgnoresSign | internal/biology/processor.go:390-408 | a change and its negation are equally significant |
| BiologyProcessor.SignificanceMonotone | internal/biology/processor.go:390-408 | a larger change of the same variable is significant whenever a smaller one is |
| BiologyProcessor.SignificanceThresholdExamples | internal/biology/processor.go:391-406 | heart rate 2, blood pressure 3, body temperature 0.1, respiratory rate 1, blood sugar 2, SpO2 0.5 and 0.01 for ratio variables, each shown just below and above its cut-off |
| BiologyProcessor.SignificantMembership | internal/biology/processor.go:380-388 | a change survives the filter exactly when it was in the input and is significant |
| BiologyProcessor.SignificantAppend | internal/biology/processor.go:380-388 | filtering a concatenation filters each part, so the input order is kept |
| BiologyProcessor.SignificantKeepsSignificant | internal/biology/processor.go:380-388 | nothing is dropped when every change is significant |
| BiologyProcessor.SignificantIdempotent | internal/biology/processor.go:380-388 | filtering the filtered list changes nothing |
| BiologyProcessor.SignificantChanges | internal/biology/processor.go:380-388 | the loop returns exactly the order-preserving filter, and empty input gives an empty result |
| BiologyProcessor.ThermalChanges | internal/biology/processor.go:131-156 | one body-temperature change, negative exactly when the intensity is below 0.5, and within plus or minus 2 degrees for intensities in 0..1 |
| BiologyProcessor.PainChanges | internal/biology/processor.go:158-171 | pain rises by the intensity and adrenaline by 30% of it, in that order |
| BiologyProcessor.AuditoryChanges | internal/biology/processor.go:173-190 | only a sound above 0.7 produces changes: an adrenaline rise, then a heart-rate rise 40 times as large |
| BiologyProcessor.VisualChanges | internal/biology/processor.go:192-204 | only a sight above 0.8 produces a change: one adrenaline rise |
| BiologyProcessor.QuietStimuliAreSilent | internal/biology/processor.go:175-194 | a sound at or below 0.7 and a sight at or below 0.8 change nothing |
| BiologyProcessor.ApplyChangeEffect | internal/biology/processor.go:124-126 | a change puts its own variable inside that variable's range and leaves every other variable alone |
| BiologyProcessor.AppliedLeavesOthers | internal/biology/processor.go:124-126 | applying the changes in order leaves every variable they do not name as it was |
| BiologyProcessor.AppliedInRange | internal/biology/processor.go:124-126 | every variable the changes name ends inside its range |
| BiologyProcessor.UnhandledChannelsAreSilent | internal/biology/processor.go:113-122 | tactile, olfactory, gustatory, vestibular and interoceptive events produce no change and leave the body as it was |
| BiologyProcessor.ProcessStimulus | internal/biology/processor.go:110-129 | returns the channel's changes and leaves the state with each of them applied and clamped, in order |
| BiologyProcessor.PainEventExample | internal/biology/processor.go:158-171 | a pain event of 0.5 on a resting body leaves pain at 0.5 and adrenaline at 0.15 |
| BiologyProcessor.TickDt | internal/biology/processor.go:35-42 | no tick unless time moved forward, and a tick never accounts for more than 300 seconds; shorter gaps are kept as they are |
| BiologyProcessor.TickDtCapped | internal/biology/processor.go:39-42 | any gap of five minutes or more ticks exactly as five minutes do |
| BiologyProcessor.TickCapAllowsNegativeAdrenaline | internal/biology/processor.go:39-60 | a 20-second tick, inside the cap, takes adrenaline 0.5 below zero with the uncapped reversal drop and to exactly 0 with the capped one |
| BioState.RangeOf | v2/internal/biology/state.go:51-63 | every range is non-empty: body temperature uses 25..43 and the seven other variables 0..1 |
| BioState.SameFieldsSameBio | v2/internal/biology/state.go:15-25 | the eight named fields are the whole snapshot: two snapshots agreeing on them are equal |
| BioState.Clamp | v2/internal/biology/state.go:65-74 | below the range gives the minimum, above gives the maximum, inside is the identity, so the result lies in any non-empty range |
| BioState.Clamped | v2/internal/biology/state.go:76-86 | the clamped snapshot lies in the range table, and every field already in range keeps its value |
| BioState.ClampedIdempotent | v2/internal/biology/state.go:76-86 | clamping a clamped snapshot changes nothing |
| BioState.ClampedFieldInRange | v2/internal/biology/state.go:51-86 | read by name, each clamped field lies in the range its name is given |
| BioState.DefaultBio | v2/internal/biology/state.go:29-41 | the default person lies within the range table |
| BioState.WithDelta | v2/bio/interactions.go:169-188 | each field moves by the delta's amount exactly when the delta names it |
| BioState.WithDeltaOnlyNamedField | v2/bio/interactions.go:169-188 | read by name, a delta moves the field it names by its amount and leaves the other seven alone |
| BioState.UnknownFieldNoOp | v2/bio/interactions.go:169-188 | a delta naming no known field changes nothing |
| BioState.ApplyDeltasAppend | v2/bio/interactions.go:169-188 | applying two lists one after the other is applying their concatenation |
| BioState.ApplyDeltasSnoc | v2/bio/interactions.go:169-188 | one more delta at the end is one more single-delta step |
| BioState.ApplyDeltasSums | v2/bio/interactions.go:169-188 | after a list of deltas each field has moved by the sum of the amounts naming it |
| BioState.ZeroDeltasNoOp | v2/bio/interactions.go:169-188 | deltas whose amounts are all zero leave the snapshot unchanged |
| BioState.State.constructor | v2/internal/biology/state.go:29-41 | a new state holds the default values |
| BioState.ClampAll | v2/internal/biology/state.go:76-86 | the state ends clamped, so inside the range table |
| BioState.ApplyDelta | v2/bio/interactions.go:169-188 | the state moves exactly as the value-level delta says |
| BioFeedback.RateDeltas | v2/internal/biology/feedback.go:57-62 | one delta per rate, for the same field, worth the per-second rate times dt |
| BioFeedback.RateDeltasSnoc | v2/internal/biology/feedback.go:57-62 | appending a rate appends its scaled delta |
| BioFeedback.PulseDeltas | v2/internal/biology/feedback.go:63-68 | one delta per pulse, for the same field and the same amount, whatever dt is |
| BioFeedback.FeedbackResult | v2/internal/biology/feedback.go:56-70 | the state after the tick-end commit lies within the range table |
| BioFeedback.ZeroDtOnlyPulses | v2/internal/biology/feedback.go:56-70 | at dt = 0 rates contribute nothing and only pulses act |
| BioFeedback.RateScaledPulseAbsoluteExample | v2/internal/biology/feedback_test.go:10-30 | a 0.01/s mood rate over 10 s plus a 0.10 mood pulse lift mood from 0.30 to 0.50 |
| BioFeedback.PulseAppliesAtZeroDtExample | v2/internal/biology/feedback_test.go:32-50 | at dt = 0 a stress rate is ignored but a -0.10 stress pulse takes stress from 0.20 to 0.10 |
| BioFeedback.ApplyFeedbackAtTickEnd | v2/internal/biology/feedback.go:56-70 | the loops leave the state as rates-then-pulses-then-clamp says |
| BioFeedback.TickFeedbackBuffer.constructor | v2/internal/biology/feedback.go:24-29 | a new buffer has nothing collected |
| BioFeedback.TickFeedbackBuffer.AddRates | v2/internal/biology/feedback.go:31-36 | rates are appended and nothing else changes |
| BioFeedback.TickFeedbackBuffer.AddPulses | v2/internal/biology/feedback.go:38-43 | pulses are appended and nothing else changes |
| BioFeedback.TickFeedbackBuffer.ApplyAtTickEnd | v2/internal/biology/feedback.go:45-52 | everything collected is committed to the state and both buffers are emptied |
| BioFeedback.BufferAppliesOnlyAtTickEnd | v2/internal/biology/feedback_test.go:52-74 | collecting leaves the state untouched; the commit over 2 s takes hunger 0.70 to 0.50 and stress 0.10 to 0.20 |
| BioInteractions.FiredDeltas | v2/bio/interactions.go:154-166 | a pass yields at most one delta per rule, each computed from the snapshot taken before the pass, in table order |
| BioInteractions.OneDeltaPerFiredRule | v2/bio/interactions.go:157-163 | the number of deltas is exactly the number of rules whose condition holds of the snapshot |
| BioInteractions.FiredDeltasComeFromFiringRules | v2/bio/interactions.go:157-163 | every returned delta is the delta, on the snapshot, of some rule that fires on the snapshot |
| BioInteractions.NothingFiresNoDeltas | v2/bio/interactions.go:157-163 | when no condition holds nothing is returned |
| BioInteractions.QuietSuffix | v2/bio/interactions.go:157-163 | rules after a position that do not fire add nothing to the result |
| BioInteractions.DefaultStateIsQuiet | v2/bio/interactions.go:18-148 | none of the 22 rules fires on the default person |
| BioInteractions.ZeroDtZeroAmounts | v2/bio/interactions.go:157-163 | rules whose amounts vanish at dt = 0 yield only zero deltas at dt = 0 |
| BioInteractions.ZeroDtLeavesStateUnchanged | v2/internal/biology/interactions_test.go:136-164 | at dt = 0 every fired amount of the 22 rules is zero and the pass leaves the state as it was |
| BioInteractions.SnapshotPreventsFeedbackExample | v2/internal/biology/interactions_test.go:97-134 | with stress and tension at 0.65 the stress rule raises tension, but the tension-to-stress rule reads the snapshot and stays quiet, so stress is unchanged |
| BioInteractions.RunRules | v2/bio/interactions.go:154-166 | the loop returns the fired deltas of the snapshot and leaves the state with exactly those applied |
| BioInteractions.ApplyInteractions | v2/bio/interactions.go:154-166 | one pass over the 22 rules: the fired deltas of the pre-pass state, applied without clamping |
| BioDecay.CappedDt | v2/internal/biology/decay.go:44-47 | the elapsed time used never exceeds 60 s, and shorter times are kept as they are |
| BioDecay.Decayed | v2/internal/biology/decay.go:43-55 | stress, physical tension and body temperature are never touched by decay |
| BioDecay.ApplyDecay | v2/internal/biology/decay.go:43-55 | the state ends as the value-level decay says, so the lemmas below hold of the method |
| BioDecay.DecayCapped | v2/internal/biology/decay_test.go:72-97 | any elapsed time beyond a minute decays exactly as a minute does |
| BioDecay.DecayZeroDt | v2/internal/biology/decay.go:48-53 | with no elapsed time nothing changes |
| BioDecay.DecayZeroMultiplier | v2/internal/biology/decay.go:48-53 | a zero multiplier switches decay off |
| BioDecay.DecayDirection | v2/internal/biology/decay.go:48-53 | with a positive multiplier and elapsed time, energy, cognitive capacity and mood fall while hunger and social deficit rise |
| BioDecay.DecaySteps | v2/internal/biology/decay.go:48-53 | within the cap, two steps decay exactly as one step over their combined time: the decay is linear |
| BioDecay.DefaultMinuteOfDecay | v2/internal/biology/decay.go:6-29 | a capped minute at the default 5x speed takes 0.201 off energy and adds 0.249 to hunger |
| BioThresholds.SeverityString | v2/bio/thresholds.go:12-23 | 0, 1 and 2 are "mild", "warning" and "critical"; every other value, and only those, is "unknown" |
| BioThresholds.SeverityNamesDistinct | v2/bio/thresholds.go:12-23 | the three severities have three different names |
| BioThresholds.Hypothermia | v2/bio/thresholds.go:57-88 | an event exactly below 35 degrees, for body temperature: critical below 33, warning below 34, mild below 35 |
| BioThresholds.Hyperthermia | v2/bio/thresholds.go:90-122 | an event exactly above 38.5 degrees, for body temperature: critical above 40.5, warning above 39.5, mild above 38.5 |
| BioThresholds.StressTier | v2/bio/thresholds.go:124-155 | an event exactly above 0.7 stress: critical above 0.95, warning above 0.85, mild above 0.7 |
| BioThresholds.EnergyTier | v2/bio/thresholds.go:157-188 | an event exactly below 0.3 energy: critical below 0.05, warning below 0.15, mild below 0.3 |
| BioThresholds.HungerTier | v2/bio/thresholds.go:190-221 | an event exactly above 0.7 hunger: critical above 0.95, warning above 0.85, mild above 0.7 |
| BioThresholds.EvaluateThresholds | v2/bio/thresholds.go:54-224 | at most four events: the cold and hot ranges never both report |
| BioThresholds.CountForAppend | v2/bio/thresholds.go:54-224 | counting the events for a variable distributes over concatenation |
| BioThresholds.CountForAsList | v2/bio/thresholds.go:54-224 | an optional event counts once for its own variable and never for another |
| BioThresholds.AtMostOneEventPerVariable | v2/bio/thresholds.go:51-53 | every variable, body temperature included, gets at most one event, the most severe tier that matches |
| BioThresholds.HypothermiaMonotone | v2/bio/thresholds.go:57-88 | below 35 degrees a colder body is never classified less severely |
| BioThresholds.HyperthermiaMonotone | v2/bio/thresholds.go:90-122 | above 38.5 degrees a hotter body is never classified less severely |
| BioThresholds.DefaultStateNoEvents | v2/bio/thresholds.go:54-224 | the default person crosses no threshold |
| BioThresholds.AllCascadesAppend | v2/bio/thresholds.go:228-234 | the flattened cascades of two event lists are the flattened cascades of each, in order |
| BioThresholds.ApplyThresholdCascades | v2/bio/thresholds.go:228-234 | every cascade delta of every event is applied in order, with no clamping |
| V1PsychologyState.Clamp | internal/psychology/processor.go:206-214 | below the range gives the minimum, inside is the identity, and for a non-empty range the result lies in it (the v1 psychology package's own `clamp` is not part of this model; this cited clamp is the same function) |
| V1PsychologyState.IsolationDistressRate | v1/internal/psychology/personality.go:11-16 | average extraversion gives a rate of exactly 1, and extraversion in 0..1 keeps the rate in 0.25..1.75 |
| Isolation.Truncate | v1/internal/psychology/isolation.go:8 | the float-to-duration conversion truncates toward zero: within one unit of the value, never past it |
| Isolation.IsolationPhaseFor | v1/internal/psychology/isolation.go:43-58 | no phase exactly up to 2 hours and the severe phase exactly beyond 168 hours |
| Isolation.PhaseMonotone | v1/internal/psychology/isolation.go:43-58 | a longer isolation is never in an earlier phase |
| Isolation.PhaseTimelineExamples | v1/internal/psychology/isolation_test.go:8-32 | the sample hours 0 to 200 fall in the phases the timeline names, with boundaries at 2, 8, 24, 72 and 168 |
| Isolation.Loneliness | v1/internal/psychology/isolation.go:21-40 | loneliness always lies in 0..1, whatever the hours and the extraversion factor |
| Isolation.BaseRate | v1/internal/psychology/isolation.go:25-32 | before the extraversion factor the timeline coefficient is at least 0.05 |
| Isolation.LonelinessGrowsWithExtraversion | v1/internal/psychology/isolation_test.go:52-59 | after the same time a more extraverted person is at least as lonely |
| Isolation.LonelinessStrictlyGrowsWithExtraversion | v1/internal/psychology/isolation.go:21-39 | up to 72 hours, a strictly larger extraversion factor gives strictly more loneliness, as long as the larger value stays below the clamp at 1 |
| Isolation.HighExtraversionLonelierExample | v1/internal/psychology/isolation_test.go:52-59 | at 12 hours, extraversion 0.9 is strictly lonelier than extraversion 0.2 |
| Isolation.LonelinessMonotoneAtAverage | v1/internal/psychology/isolation_test.go:34-50 | at average extraversion loneliness never falls as isolation lengthens |
| Isolation.TwoWeeksNearMaximum | v1/internal/psychology/isolation_test.go:46-49 | after 336 hours at average extraversion loneliness is above 0.8 |
| Isolation.LonelinessDropsAfterThreeDaysForExtraverts | v1/internal/psychology/isolation.go:31-34 | with a factor of 1.6 loneliness is 1.0 at 72 hours and below 0.71 an hour later, because the factor stops applying after 72 hours |
| Isolation.UpdateIsolation | v1/internal/psychology/isolation.go:7-17 | the duration grows by dt seconds, truncated to nanoseconds; the phase is that of the new total and loneliness stays in 0..1 |
| Isolation.UpdateNeverRegresses | v1/internal/psychology/isolation_test.go:75-90 | time moving forward never moves the phase back |
| Isolation.TwoHoursExample | v1/internal/psychology/isolation_test.go:61-73 | two hours from a fresh state at average extraversion give exactly two hours, loneliness 0.05 and no phase |
| Coping.SelectCoping | v1/internal/psychology/coping.go:15-56 | one or two strategies, and two are always different |
| Coping.ExtremeStressDenial | v1/internal/psychology/coping.go:17-20 | denial alone is chosen exactly when stress is above 0.85 and cognitive resources are below 0.2 |
| Coping.ExtremeStressRumination | v1/internal/psychology/coping.go:21-25 | extreme stress in a highly neurotic person with some capacity left gives rumination alone, whatever the stressor |
| Coping.ProblemSolvingNeedsControlAndResources | v1/internal/psychology/coping.go:29-35 | problem solving leads exactly when the collapse branches do not apply, the stressor is controllable and cognition and energy suffice |
| Coping.ControllableButDepleted | v1/internal/psychology/coping.go:36-37 | a controllable stressor without the resources for it gives distraction alone |
| Coping.LowResourcesUncontrollable | v1/internal/psychology/coping.go:15-56 | whenever extreme stress has not settled on denial (cognitive below 0.2) or rumination (neuroticism above 0.7), low resources (cognitive at most 0.4) against an uncontrollable stressor give rumination with suppression for neuroticism above 0.6, otherwise distraction with acceptance |
| Coping.ReappraisalNeedsOpennessAndRegulation | v1/internal/psychology/coping.go:41-44 | reappraisal is only ever chosen for an uncontrollable stressor, with openness above 0.5 and regulation above 0.4 |
| ThoughtQueueModule.PriorityWeight | v1/internal/consciousness/queue.go:154-169 | every priority, known or not, weighs at least 1 |
| ThoughtQueueModule.PriorityWeightStrictlyDecreasing | v1/internal/consciousness/queue_test.go:117-135 | a more pressing category always weighs strictly more: 8, 5, 3, 2, 1 |
| ThoughtQueueModule.DriftPromptPrecedence | v1/internal/consciousness/queue.go:173-184 | the drift prompt is the drained one iff energy is below 0.3, whatever the valence; otherwise the dark one iff valence is below -0.3; otherwise the quiet one iff arousal is below 0.2 and energy above 0.5; otherwise the free-wandering one |
| ThoughtQueueModule.Tagged | v1/internal/consciousness/queue.go:104-137 | one candidate per queued item, in the items' order, all under the category's priority and label |
| ThoughtQueueModule.PickFrom | v1/internal/consciousness/queue.go:86-97 | the scan stops at a candidate at or after its start, or falls back to the last one |
| ThoughtQueueModule.PickFromIsFirstReach | v1/internal/consciousness/queue.go:89-97 | the scan stops at the first candidate whose running total reaches the value, and that one does reach it whenever the total does |
| ThoughtQueueModule.CumWeightAtLeastCount | v1/internal/consciousness/queue.go:154-169 | the first n candidates weigh at least n together |
| ThoughtQueueModule.PickIsFirstReach | v1/internal/consciousness/queue.go:75-98 | for a random value in 0..1 the pick is the first candidate whose running total reaches the scaled value; the fallback is never needed |
| ThoughtQueueModule.ZeroPicksFirst | v1/internal/consciousness/queue.go:89-97 | a random value of 0 always picks the first candidate |
| ThoughtQueueModule.PickWeighted | v1/internal/consciousness/queue.go:80-97 | the weighing loop and the scan return the pick the cumulative-weight specification gives |
| ThoughtQueueModule.ScanCumulative | v1/internal/consciousness/queue.go:88-97 | the scan over precomputed weights returns the first candidate whose running total reaches the value, or the last |
| ThoughtQueueModule.ThoughtQueue.constructor | v1/internal/consciousness/queue.go:32-35 | a new queue has every list empty and is not absorbed |
| ThoughtQueueModule.ThoughtQueue.BuildCandidates | v1/internal/consciousness/queue.go:101-150 | one candidate per queued item plus a drift candidate, which is last, so there is always something to pick; the list is ordered by priority |
| ThoughtQueueModule.ThoughtQueue.SelectSpontaneousDeterministic | v1/internal/consciousness/queue.go:75-98 | returns the weighted pick among the current candidates for the supplied random value |
| ThoughtQueueModule.ThoughtQueue.AddPredictionError | v1/internal/consciousness/queue.go:187-189 | the description is queued last and nothing else changes |
| ThoughtQueueModule.ThoughtQueue.ResolvePredictionError | v1/internal/consciousness/queue.go:192-199 | the first equal entry is removed and the rest keep their order |
| ThoughtQueueModule.ThoughtQueue.UpdateNeeds | v1/internal/consciousness/queue.go:202-216 | the needs list is rebuilt from the current state alone |
| ThoughtQueueModule.ThoughtQueue.EnterAbsorption | v1/internal/consciousness/queue.go:219-222 | the queue is absorbed at the given depth |
| ThoughtQueueModule.ThoughtQueue.ExitAbsorption | v1/internal/consciousness/queue.go:225-228 | the queue is no longer absorbed and its depth is 0 |
| ThoughtQueueModule.CategoriesInOrder | v1/internal/consciousness/queue.go:104-147 | errors, then needs, goals, social concerns and drift give a list ordered by priority |
| ThoughtQueueModule.NeedsFor | v1/internal/consciousness/queue.go:202-216 | at most three needs: exhaustion exactly when energy is below 0.2, distress exactly when valence is below -0.5 with arousal above 0.6, contact exactly from the loneliness phase on |
| ThoughtQueueModule.RemoveFirstRemovesOne | v1/internal/consciousness/queue.go:192-199 | resolving an absent entry changes nothing, and resolving a queued one removes exactly one occurrence of it |
| ThoughtQueueModule.RemoveFirstKeepsOrder | v1/internal/consciousness/queue.go:192-199 | resolving drops the first occurrence and keeps the entries before and after it in order |
| ThoughtQueueModule.ResolveExample | v1/internal/consciousness/queue_test.go:58-68 | queueing two errors and resolving the first leaves just the second |
| ThoughtQueueModule.DriftAtHighRandExample | v1/internal/consciousness/queue_test.go:41-56 | with one error queued a random value of 0.99 reaches the drift candidate |
| DriveDisplay.ChangesAmongMembers | v2/internal/output/display.go:22-38 | a change is reported for a scanned drive exactly when its urgency moved by at least the threshold, and it carries both urgencies |
| DriveDisplay.ChangesAmongBounds | v2/internal/output/display.go:22-38 | at most one change per scanned drive, and only for scanned drives |
| DriveDisplay.ReportedChanges | v2/internal/output/display.go:16-40 | with a negative threshold counted as zero, each of the five drives is reported, with its previous and current urgency, exactly when it moved by at least the threshold; nothing else is reported |
| DriveDisplay.SignificantDriveChanges | v2/internal/output/display.go:16-40 | the loop returns exactly the reported changes |
| DriveDisplay.CollectChanges | v2/internal/output/display.go:22-38 | the scan over a list of drives keeps, in order, each drive that moved enough |
| DriveDisplay.ChangesAmongStep | v2/internal/output/display.go:29-37 | one scan step keeps or skips the drive at hand and goes on with the rest |
| DriveDisplay.ChangesKeepOrder | v2/internal/output/display.go:22-38 | filtering keeps any strict order the drives were scanned in |
| DriveDisplay.ReportedInFixedOrder | v2/internal/output/display.go:22-28 | reported drives appear in the order energy, social connection, stimulation, safety, identity coherence |
| DriveDisplay.NonPositiveThresholdReportsAll | v2/internal/output/display.go:17-19 | with a threshold at or below zero all five drives are reported |
| InputAdapterModule.DefaultAllowedActions | v2/internal/infrastructure/input_adapter.go:72-85 | exactly the ten known actions have entries, and every one is allowed |
| InputAdapterModule.GateEffect | v2/internal/infrastructure/input_adapter.go:128-144 | a gate changes at most its own action's entry: a denial blocks it, otherwise an affirmation allows it, otherwise it is unchanged |
| InputAdapterModule.EnvironmentGatesEffect | v2/internal/infrastructure/input_adapter.go:128-144 | only the eat, hydrate and rest entries can change, and the eat entry is blocked by a denial of food, else allowed by an affirmation, else kept |
| InputAdapterModule.ActionAppliedEffect | v2/internal/infrastructure/input_adapter.go:87-110 | an action line appends its violence, comfort and feeding pulses in that order, touches no rate or text, and only a mention of food changes the allowed actions, by allowing eating |
| InputAdapterModule.EnvironmentAppliedEffect | v2/internal/infrastructure/input_adapter.go:112-145 | an environment line appends its cold, heat, noise and calm rates in that order, touches no pulse or text, and applies the eat, hydrate and rest gates |
| InputAdapterModule.InitialInput | v2/internal/infrastructure/input_adapter.go:46-49 | a drain starts from the default allowed actions, the clock reading, no effects and no text |
| InputAdapterModule.FoldLinesSnoc | v2/internal/infrastructure/input_adapter.go:52-66 | one more queued line is one more loop iteration |
| InputAdapterModule.InputAdapter.constructor | v2/internal/infrastructure/input_adapter.go:21-32 | a new adapter has an empty queue |
| InputAdapterModule.InputAdapter.Enqueue | v2/internal/infrastructure/input_adapter.go:34-38 | the line is queued last |
| InputAdapterModule.InputAdapter.Drain | v2/internal/infrastructure/input_adapter.go:40-70 | the queue is left empty and the result is the fold of every queued line, in queue order, from the initial input |
| InputAdapterModule.DrainTwice | v2/internal/infrastructure/input_adapter.go:40-70 | a second drain without new input sees nothing: default actions, no effects and no text |
| InputAdapterModule.FoldEchoesAccepted | v2/internal/infrastructure/input_adapter.go:52-58 | the echoed lines are exactly the trimmed lines the parser accepts, in order |
| InputAdapterModule.ExternalTextIsAcceptedLines | v2/internal/infrastructure/input_adapter.go:58-68 | the external text is the accepted lines, trimmed and joined by newlines |
| InputAdapterModule.FoldKeepsGates | v2/internal/infrastructure/input_adapter.go:52-66 | the eat, hydrate and rest entries, once present, are never removed |
| InputAdapterModule.LastLineDeniesFood | v2/internal/infrastructure/input_adapter.go:128-129 | a final environment line denying food blocks eating, whatever came before it |
| InputAdapterModule.LastLineAffirmsFood | v2/internal/infrastructure/input_adapter.go:130-131 | a final environment line affirming food, and denying none, allows eating whatever came before it |
| InputAdapterModule.DenialBeatsAffirmation | v2/internal/infrastructure/input_adapter.go:128-132 | a line saying both "no food" and "food available" blocks eating |
| InputAdapterModule.SilentLineKeepsEatGate | v2/internal/infrastructure/input_adapter.go:128-132 | an environment line saying nothing about food leaves eating as the earlier lines set it |
| InputAdapterModule.InitialGatesPresent | v2/internal/infrastructure/input_adapter.go:72-85 | the eat, hydrate and rest entries are present from the start |
| InputAdapterModule.FeedingActionAllowsEat | v2/internal/infrastructure/input_adapter.go:106-109 | an action line mentioning food allows eating and ends the pulses with the hunger pulse of -0.20 |
| InputAdapterModule.SpeechOnlyEchoes | v2/internal/infrastructure/input_adapter.go:58-65 | a speech line is echoed but has no other effect |

## Left out

- Integer width: Go `int` and `int64` values (tick counters, nanosecond times, cooldown deadlines) are unbounded integers here, so overflow is not modelled.
- Case mapping is ASCII only. Go's `strings.ToLower` and the dashboard's `toLowerCase` also fold non-ASCII input: the Kelvin sign U+212A lowers to `k`, so a line that matches a keyword in the source may not match in the model. Non-ASCII folding of input is not captured.
- Strings are sequences of code points. The Go length test `len(s) > 2` counts bytes, but for a string that starts and ends with `*` it agrees with a count of characters.
- Nil receivers are not modelled: every method works on an allocated object, so the `b == nil` guards of v2/internal/consciousness/continuity_buffer.go:14 and :24 are not captured. A nil slice result is the empty sequence, so nil and empty slices are not told apart (`Items`, `ActionPulse`, `SignificantChanges`, `ApplyHypothermiaOverrides`).
- PsychologistReviewer.Reviewer.constructor: requires a non-negative MaxThoughts. `NewReviewer` panics on a negative one in its `make` call (v1/internal/reviewer/psychologist.go:46), and that panic is not modelled.
- Time stamps read from `time.Now` are parameters where the modelled code returns or compares them: the input adapter's clock and the reviewer's `now`. Observation time stamps are the `now` passed in. The `LastUpdate` and `UpdatedAt` time-stamp fields of the biology states are not modelled.
- The reviewer's language-model call is a parameter: `Review` receives the answer the model would give. Prompt building and response parsing are not part of this model.
- Prompt builders, i18n loading, the display.go writers and `FormatDriveChangeLines`, which uses `%.2f` formatting, are not part of this model.
- `Tick` in internal/biology/processor.go: only the dt guard and the 300-second cap are modelled. Its `exp` decay, circadian (`cos`) and noise terms, and its interaction pass, are not.
- The v1 interaction rule table (v1/internal/biology/interactions.go) is modelled only through the two capped rules for hunger and thirst. The other rules are weighted sums with no promised property.
- v2/internal/consciousness/parsing.go and v1 `ParseEmotionalTag` rest on regular-expression and strconv semantics and are not part of this model.
- CriticalThresholds.ImmuneSuppressionFactor: excludes a load of exactly -10, where Go's float division gives +Inf and reals have none; its range is stated for non-negative loads, the only ones the source produces.
- InputAdapterModule.ActionAppliedEffect: `applyActionInput` and `applyEnvironmentInput` write through a pointer into a map and two slices; the model computes the new value instead, so aliasing of the `AllowedActions` map is not captured.
- InputAdapterModule.InputAdapter.Drain: the parser is fixed to the convention parser, and the mutex is left out. NewInputAdapter's panic on a nil parser cannot arise, because there is no nil parser.
- The `Event` fields `RawInput`, `Parsed` and `Timestamp` of the simulation loop are not modelled; only `classifyInput` is.
- The random `SelectSpontaneous` (v1/internal/consciousness/queue.go:46-72) draws from `math/rand`. Its deterministic variant, which takes the random value as a parameter, is modelled.
- ThoughtQueueModule.ThoughtQueue.SelectSpontaneousDeterministic: the nil result for an empty candidate list is not modelled, because associative drift is always a candidate.
- ThoughtQueueModule.ThoughtQueue.ResolvePredictionError: Go's `append(s[:i], s[i+1:]...)` reuses the backing array; the model assigns a new sequence, so slice aliasing is not captured.
- The reviewer's `lastReview`, Go's zero `time.Time` before the first review, is modelled as `None`. Under Go's subtraction, the zero time is always at least the interval ago.
- DriveOverrides.HigherReportWinsExample: stated for any state with the given urgencies, rather than for the one fixture of the test.
- Protocol.ToInputLine has no contract of its own; the round trip with the input classifier states what it means.
- The dashboard's DOM and Chart.js calls are left out. The charts are taken as built, and the time label (`toLocaleTimeString`) is passed in.
- The rest of internal/simulation/loop.go (goroutines, channels, tickers) is not part of this model.
- `ThresholdConfig.TerminalStatesEnabled` is reserved in the source and read nowhere, and the `HomeostasisEnabled` flag is unused by the modelled code.
- LLM clients, persistence, networking, the terminal UI, the keyword parsers of internal/sense and internal/consciousness, v1 protocol payload mapping and internal/psychology weighted sums are not part of this model.

## Findings

| source | as written | input that shows it | evidently intended | confidence | as-written member | corrected member |
|---|---|---|---|---|---|---|
| v1/internal/biology/state.go:115-120 | `Variable.String` only checks `int(v) < len(names)` before indexing | `Variable(-1).String()` indexes at -1 and panics (V1Biology.NegativeVariableNamePanics) | "unknown" for every value outside 0..19 | not executed | V1Biology.VariableNameAsWritten | V1Biology.VariableName |
| internal/biology/thresholds.go:23-28 | `CriticalState.String` only checks the upper bound before indexing | `CriticalState(-1).String()` indexes at -1 and panics (CriticalThresholds.NegativeCriticalStateNamePanics) | "unknown" for every value outside 0..4 | not executed | CriticalThresholds.CriticalStateNameAsWritten | CriticalThresholds.CriticalStateName |
| internal/biology/thresholds.go:252-256 | in hypothermia reversal, adrenaline drops by `adrenaline * 0.1 * dt` with no cap, unlike the tension and heart-rate drops beside it | adrenaline 0.5 over dt 20, a step the 300-second tick cap allows, becomes -0.5 (CriticalThresholds.OverriddenAsWrittenGoesNegative, CriticalThresholds.AdrenalineGoesNegativeAsWritten, BiologyProcessor.TickCapAllowsNegativeAdrenaline) | adrenaline never below 0 | not executed | CriticalThresholds.OverriddenAsWritten | CriticalThresholds.ApplyHypothermiaOverrides |
