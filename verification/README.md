# FitMyself daily-plan core, modelled in Dafny

FitMyself is a fitness web app. From a user's profile (age, weight, goal, …) it
generates four daily plans: a workout, a diet, a water target and a sleep
target. Completing each of them earns FitCoins. Coins raise a level every 500,
with a +100 bonus. Completing all four categories in a day grows the streak and
pays a +50 bonus. Each plan card decides when a completion is raised:

- workout: tick every exercise, verify with a photo, confirm;
- diet: verify each meal with a photo, or tick it by hand;
- water: add or remove glasses;
- sleep: move an hours slider.

The model covers these pieces:

- **the plan generator**, over integer units. Water is in millilitres and
  rounded to the nearest quarter litre; sleep is in half-hours.
- **the reward handler**. It takes the stats and the four done-flags through one
  completion event, and its behaviour is proved over whole sequences of events.
- **the onboarding stats and the hydration** of freshly generated plans from the
  day's saved progress.
- **each card's state machine**: water and sleep clamping with once-only
  completion, the workout checklist with verify/confirm, and per-meal
  verification on the diet card.
- **the dashboard's reads**: the completed count, the progress fraction, the
  potential coins, the per-category reward wiring and the goal label.
- **the onboarding form's completeness check**.
- **the normalisation of the image-verification reply** into a verdict
  `{verified, confidence ∈ [0,100], feedback}`.

Files, one module each:

| file | module |
|---|---|
| `types.dfy` | records and enums |
| `strings.dfy` | the JavaScript string functions used: `parseInt`, `toLowerCase`/`toUpperCase` on ASCII, `includes`, `substring(0, n)`, `replace` with a one-character pattern |
| `plan_generator.dfy` | the plan generator |
| `app.dfy` | the reward handler and event runs |
| `water_tracker.dfy` | the water card |
| `sleep_tracker.dfy` | the sleep card |
| `checklist.dfy` | the ticked-index set both plan cards keep |
| `workout_card.dfy` | the workout card |
| `diet_card.dfy` | the diet card |
| `user_setup.dfy` | the onboarding form |
| `gemini.dfy` | verdict normalisation |
| `dashboard.dfy` | dashboard reads and whole-day lemmas |
| `session.dfy` | the app-level wiring of the trackers into the reward handler |

Units and conventions:

- Water amounts are millilitres, so the 0.25/0.5/0.75/1 L glasses are 250/500/750/1000.
- Sleep hours are half-hours, so the slider's 0..12 h is 0..24.
- Numbers typed into the form are what `parseInt` returns.
- `Date.now()` is a parameter `now`.
- Each card's clickable controls are events. An event whose control is not
  on screen (hidden, in a collapsed details list, or covered by an open
  overlay) leaves the state unchanged.

## Model

| member | source | states |
|---|---|---|
| Types.GoalFromId | src/types.ts:6 | the four goal ids and the goal enum convert both ways; any other string is no goal |
| Types.CountDone | src/App.tsx:177-182 | the number of done categories is at most 4, is 4 exactly when all four are done, and is 0 exactly when none is |
| Strings.NatToString | src/utils/planGenerator.ts:53 | the decimal rendering of a timestamp is a non-empty string of digits |
| Strings.DigitsValueOfNatToString | src/utils/planGenerator.ts:53 | reading the digits back gives the number: the rendering is injective, so plan ids from different timestamps differ |
| Strings.ParseInt | src/components/UserSetup.tsx:61 | `parseInt` of an empty string is NaN, and a number comes out only when the text holds a digit |
| Strings.ParseIntOfNatToString | src/components/UserSetup.tsx:93 | `parseInt` of a rendered natural number, with or without a leading minus, returns that number |
| Strings.ToLower | src/lib/gemini.ts:50 | lower-casing keeps the length and maps every character through the ASCII case map |
| Strings.ToUpper | src/components/Dashboard.tsx:45 | upper-casing keeps the length and maps every character through the ASCII case map |
| Strings.Take | src/lib/gemini.ts:54 | `substring(0, n)` is the prefix of exactly min(length, n) characters |
| Strings.ReplaceFirst | src/components/Dashboard.tsx:45 | `replace` with a one-character pattern keeps the length, leaves a text without the pattern unchanged, and changes characters only from the pattern to the replacement |
| Strings.FirstIndex | src/components/Dashboard.tsx:45 | the index returned holds the pattern, and no earlier index does |
| Strings.ReplaceFirstSplit | src/components/Dashboard.tsx:45 | `replace` changes exactly the first occurrence and keeps every other character |
| PlanGenerator.RoundHalfUp | src/utils/planGenerator.ts:190 | `Math.round(num/den)` on exact values: the result is within half a unit of the quotient, ties rounding up |
| PlanGenerator.GenerateWorkoutPlan | src/utils/planGenerator.ts:3-59 | the plan has id "workout-" plus the timestamp, 5 exercises, is not completed, and pays 150/200/120/180 by goal |
| PlanGenerator.WorkoutDependsOnlyOnGoal | src/utils/planGenerator.ts:51-58 | two profiles with the same goal get the same plan up to the id, and ids agree exactly when the timestamps do |
| PlanGenerator.GenerateDietPlan | src/utils/planGenerator.ts:61-176 | the plan has id "diet-" plus the timestamp, 4 meals, is not completed, and pays 100 for every goal |
| PlanGenerator.DietDependsOnlyOnGoal | src/utils/planGenerator.ts:61-176 | apart from the id, two profiles get the same diet plan exactly when their goals agree; ids agree exactly when the timestamps do |
| PlanGenerator.GenerateWaterGoal | src/utils/planGenerator.ts:178-198 | the target is a whole number of quarter litres within 125 ml of weight×35 ml plus the goal's offset (ties up); nothing drunk yet, not completed, pays 50 |
| PlanGenerator.WaterTargetUnique | src/utils/planGenerator.ts:190 | the quarter-litre multiple nearest to the need (ties up) is the target: the rounding is characterised, not just bounded |
| PlanGenerator.WaterQuartersIntegerForm | src/utils/planGenerator.ts:180-190 | the number of quarter litres is (weight·140 + 4·offset + 500) div 1000 |
| PlanGenerator.WaterTargetMonotone | src/utils/planGenerator.ts:180-190 | for a fixed goal the water target never decreases as the weight grows |
| PlanGenerator.WaterTargetRange | src/components/UserSetup.tsx:90-91 | for weights in the form's 30..200 kg the target lies in 1.25..7.75 L |
| PlanGenerator.GenerateSleepGoal | src/utils/planGenerator.ts:200-230 | the target is the age band (9, 8.5, 8, 7.5 h) plus 0.5 h for muscle or strength, exactly, so it lies in 7.5..9.5 h; no sleep yet, not completed, pays 75 |
| PlanGenerator.SleepTargetNonIncreasingInAge | src/utils/planGenerator.ts:204-212 | for a fixed goal an older profile never gets a larger sleep target |
| PlanGenerator.TargetsReadOnlyTheirInputs | src/utils/planGenerator.ts:178-230 | water reads only weight and goal; sleep reads only age and goal |
| PlanGenerator.GeneratorExamples | src/utils/planGenerator.ts:178-230 | 70 kg fat loss gives 2.75 L; age 30 muscle gain gives 8.5 h |
| App.Hydrate | src/App.tsx:76-83 | saved progress overwrites exactly the four flags, the water drunk and the hours slept; plans, targets and rewards stay the generator's |
| App.HydratedTargetsAreGenerated | src/App.tsx:68-92 | after hydration the rewards are the goal's workout reward, 100, 50 and 75, and the targets are the generated ones |
| App.StoredNewStats | src/services/fitnessService.ts:52-61 | a new stats row stores 0 coins and tasks as given, and a zero streak or level as 1 |
| App.OnboardingStatsStored | src/App.tsx:112-119 | onboarding writes 0 coins, streak 1, level 1, 0 tasks, and the storage defaults keep that row unchanged |
| App.LoadStats | src/App.tsx:55-65 | login uses the stored row, or else a fresh default row equal to the onboarding stats |
| App.KindOf | src/App.tsx:161-174 | a category name maps to that category, and every other string is an unrecognised kind |
| App.MarkDone | src/App.tsx:161-174 | a category is done afterwards exactly when it was done before or is the completed kind; an unrecognised kind sets no flag |
| App.HandleTaskComplete | src/App.tsx:141-190 | one task more; the reward is what is recorded as the day's earnings; level = max(old, (total+reward) div 500 + 1); +100 on a level-up, +50 and streak+1 exactly when all four are done counting this event; nothing else is paid |
| App.LevelUpLaw | src/App.tsx:150-155 | a level-up happens exactly when (total+reward) div 500 + 1 (`App.LevelFor`) exceeds the old level; level and streak never decrease |
| App.BonusDoesNotLevelUp | src/App.tsx:150-188 | the bonuses are not seen by the level check: from 460 coins a 30-coin fourth completion ends at 540 coins still at level 1 |
| App.RepeatedCompletionReawards | src/App.tsx:141-188 | with no guard, a completion on a day already fully done pays its reward and the streak bonus again |
| App.RunMonotone | src/App.tsx:141-188 | across any sequence of completions level and streak never decrease, flags once set stay set, and every event counts one task |
| App.StreakOnce | src/App.tsx:177-188 | completing not-yet-done categories once each raises the done count by one per event, so the streak grows by one, on the event that completes the fourth, and at most once |
| App.RunWithoutLevelUp | src/App.tsx:144-188 | below the next 500 boundary such a run pays exactly its rewards plus at most one streak bonus and keeps the level |
| WaterTracker.Millilitres | src/components/WaterTracker.tsx:79-82 | every glass is a positive whole number of quarter litres |
| WaterTracker.AddWater | src/components/WaterTracker.tsx:14-21 | the new amount is current plus the glass when that is below the target, and the target otherwise; completion fires exactly when the target is reached and the goal was not completed, and then the amount is the target |
| WaterTracker.RemoveWater | src/components/WaterTracker.tsx:23-26 | the new amount is current minus the glass when that is positive, and 0 otherwise; strictly less when something was recorded; removal never completes |
| WaterTracker.RemoveEnabledIffEffective | src/components/WaterTracker.tsx:23-26 | on a non-negative amount the minus button is disabled (`WaterTracker.RemoveEnabled` false) exactly when a removal would change nothing |
| WaterTracker.QuarterLitreGrid | src/components/WaterTracker.tsx:14-26 | adding and removing keep amounts on the quarter-litre grid when current and target are on it |
| WaterTracker.StaysInRange | src/components/WaterTracker.tsx:14-26 | from an amount in [0, target] both buttons keep it in [0, target] |
| WaterTracker.CompletesOnce | src/components/WaterTracker.tsx:18-20 | after a completing glass no further glass completes, and the add buttons are disabled (`WaterTracker.AddEnabled` false) if the parent stores the new amount, which the app as written does not (see Findings) |
| SleepTracker.Clamp | src/components/SleepTracker.tsx:15 | hours are clamped into [0, 12 h], unchanged when already inside |
| SleepTracker.UpdateSleep | src/components/SleepTracker.tsx:14-22 | the reported hours are the clamped ones; completion fires exactly when they reach the target and the goal was not completed |
| SleepTracker.CompletesOnce | src/components/SleepTracker.tsx:19-21 | after a completing update no further update completes |
| SleepTracker.TargetReachable | src/components/SleepTracker.tsx:80-84 | every generated target can be met on the slider |
| SleepTracker.QualityOf | src/components/SleepTracker.tsx:25-27 | Excellent iff actual ≥ target, Good iff below target but ≥ 0.8·target, Fair iff below 0.8 but ≥ 0.6·target, Poor otherwise |
| SleepTracker.QualityMonotone | src/components/SleepTracker.tsx:25-27 | more sleep never gives a worse quality |
| SleepTracker.MoreNeeded | src/components/SleepTracker.tsx:102-104 | the hint appears exactly when the hours are below the target, and then the hours plus a positive amount make the target |
| SleepTracker.ProgressWidth | src/components/SleepTracker.tsx:24 | below the target the bar width is actual/target·100 %, at the target or above it is 100 %, and it is never negative |
| SleepTracker.WidthAgreesWithQuality | src/components/SleepTracker.tsx:24-27 | the bar reaches 80 % exactly when the label is Good or better and 60 % exactly when it is Fair or better; more sleep never shortens the bar |
| Checklist.Toggle | src/components/WorkoutCard.tsx:30-38 | a click flips that row's tick and no other |
| Checklist.ToggleTwice | src/components/DietCard.tsx:31-39 | clicking the same row twice restores the ticks |
| Checklist.RowsSize | src/components/WorkoutCard.tsx:41 | there are exactly n row indices |
| Checklist.FullIffAllTicked | src/components/WorkoutCard.tsx:41 | for ticks within the rows, "as many ticks as rows" is the same as "every row ticked" |
| WorkoutCard.HandleExerciseComplete | src/components/WorkoutCard.tsx:30-38 | only the clicked exercise's tick flips; nothing else in the card changes |
| WorkoutCard.HandleVerifyWorkout | src/components/WorkoutCard.tsx:40-44 | photo verification opens exactly when as many exercises are ticked as the plan has |
| WorkoutCard.HandleVerificationComplete | src/components/WorkoutCard.tsx:46-50 | the photo overlay closes, the verification is kept and the verdict overlay opens, whatever was verified; nothing else changes |
| WorkoutCard.VerdictFlagIgnored | src/components/WorkoutCard.tsx:46-50 | the card's handling does not depend on the verified flag it is given |
| WorkoutCard.HandleConfirmCompletion | src/components/WorkoutCard.tsx:52-55 | confirm closes the verdict and hands on the stored verification |
| WorkoutCard.InitialInv | src/components/WorkoutCard.tsx:25-28 | the card starts in a state satisfying its invariant |
| WorkoutCard.StepSafe | src/components/WorkoutCard.tsx:159-177 | every click handled by `WorkoutCard.Step` keeps the invariant; completion is raised only by Confirm of a verified photo, with every exercise ticked and all overlays closed |
| WorkoutCard.DetailsGateTicks | src/components/WorkoutCard.tsx:99-150 | the exercise ticks are rendered only while the details are shown: with the list collapsed a tick changes nothing, expanded it flips that exercise, and toggling twice restores the card |
| WorkoutCard.CompletedPlanStaysQuiet | src/components/WorkoutCard.tsx:108 | on a completed plan with no overlay open no click raises completion or opens an overlay |
| DietCard.SumCalories | src/components/DietCard.tsx:70 | the header's calorie count is the meals' calories summed |
| DietCard.GeneratedCalories | src/utils/planGenerator.ts:61-169 | the generated menus total 1730, 1680, 1460 and 1030 kcal by goal |
| DietCard.HandleMealComplete | src/components/DietCard.tsx:31-39 | only the clicked meal's tick flips; nothing else changes |
| DietCard.HandleVerifyMeal | src/components/DietCard.tsx:41-44 | records the meal under verification and opens the photo overlay, nothing else |
| DietCard.HandleVerificationComplete | src/components/DietCard.tsx:46-50 | the photo overlay closes, the verification is kept and the verdict opens; nothing else changes |
| DietCard.HandleConfirmCompletion | src/components/DietCard.tsx:52-68 | closes the verdict and clears the meal under verification; that meal's tick flips (ticked if it was unticked, unticked if it was ticked) and no other tick changes; the photo overlay, verification and details are kept; completion is raised exactly when the ticks plus that meal number the meals and the plan is unfinished |
| DietCard.InitialInv | src/components/DietCard.tsx:25-29 | the card starts in a state satisfying its invariant |
| DietCard.ConfirmFiresIffMenuCovered | src/components/DietCard.tsx:59-67 | on a reachable state, confirm raises completion exactly when afterwards every meal is ticked and the plan was not completed |
| DietCard.StepSafe | src/components/DietCard.tsx:178-200 | every click handled by `DietCard.Step` keeps the invariant; only Confirm of a verified photo raises completion, with every meal ticked; hand ticks never do; confirm and both cancels clear the meal under verification |
| DietCard.DetailsGateMeals | src/components/DietCard.tsx:114-170 | the meal ticks and Verify buttons are rendered only while the meal plan is shown: collapsed, neither changes anything; expanded, a tick flips that meal; toggling twice restores the card |
| UserSetup.GoalChoicesAreTheGoals | src/components/UserSetup.tsx:19-24 | the four radio choices are exactly the four goal ids |
| UserSetup.Submit | src/components/UserSetup.tsx:12-17 | the profile is submitted exactly when every field is truthy (non-empty name, numbers neither NaN nor 0), and it holds exactly the entered values |
| UserSetup.Apply | src/components/UserSetup.tsx:48-147 | each input writes its own field (numbers through `parseInt`) and leaves the rest |
| UserSetup.EmptyOrZeroNumberRejected | src/components/UserSetup.tsx:61 | clearing a number input or typing 0 blocks the submit |
| UserSetup.FilledFormSubmits | src/components/UserSetup.tsx:14-16 | filling the six inputs with truthy values submits exactly the parsed profile |
| UserSetup.OutOfRangeAccepted | src/components/UserSetup.tsx:12-17 | `handleSubmit` itself checks no range: age 5 and 500 kg pass it (the browser's min/max validation, not modelled, runs before it) |
| Gemini.Clamp100 | src/lib/gemini.ts:45 | confidence is forced into [0, 100], unchanged when already inside |
| Gemini.Normalize | src/lib/gemini.ts:41-56 | parsed reply: verified only when `true`, confidence clamped (missing is 0), feedback or the default. Unparsable reply: verified exactly when the lower-cased text contains the kind's two words, confidence 75/25 (meals 70/30), feedback the first min(length, 200) characters of the text |
| Gemini.NegatedVerdictCountsAsVerified | src/lib/gemini.ts:50 | an unparsable reply saying "not verified" is taken as verified, at 75% confidence |
| Gemini.ConfidenceClamped | src/lib/gemini.ts:96 | an out-of-range confidence is clamped, not rejected; a missing verdict is false |
| Dashboard.TasksCompleted | src/components/Dashboard.tsx:132 | the count is 0..4, 4 exactly when every category is done and 0 exactly when none is |
| Dashboard.ProgressFraction | src/components/Dashboard.tsx:139 | the bar is count/4 of its length: full exactly when all are done, empty exactly when none is |
| Dashboard.PotentialIgnoresFlags | src/components/Dashboard.tsx:144 | the potential coins (`Dashboard.PotentialFitcoins`) do not depend on the flags and are the sum of what each category pays (`Dashboard.RewardFor`) |
| Dashboard.GeneratedPotential | src/components/Dashboard.tsx:144 | for generated plans the potential is the workout reward plus 225, between 345 and 425 |
| Dashboard.OneUnderscoreReplaced | src/components/Dashboard.tsx:45 | a text with exactly one underscore has none left after the label's replace and upper-casing |
| Dashboard.GoalLabelHasNoUnderscore | src/components/Dashboard.tsx:45 | every goal label (`Dashboard.GoalLabel`, the header text) is free of underscores and as long as its id |
| Dashboard.CompletionEvent | src/components/Dashboard.tsx:94-119 | each card's completion names its own category, which the handler reads back as that category, and carries the reward the dashboard reads for that category (`Dashboard.RewardFor`) |
| Dashboard.PaidPlusUnpaid | src/components/Dashboard.tsx:144 | completing distinct categories pays the potential minus the rewards of the categories left out |
| Dashboard.FullDay | src/App.tsx:177-188 | four distinct completions in any order from none done: all done, streak +1, level kept, and the total grows by the potential plus one streak bonus (below the next level boundary) |
| Dashboard.CompletedDayCoversAll | src/App.tsx:177-182 | four distinct completions cover every category, so none is left unpaid |
| Dashboard.FirstFullDay | src/App.tsx:112-188 | after onboarding with generated plans, any order of the four completions ends at level 1, streak 2, with the workout reward plus 275 coins: 425 for muscle gain |
| Session.MarkPlan | src/App.tsx:161-174 | the completed category's plan gets its flag, and nothing but flags changes |
| Session.CompleteTask | src/App.tsx:141-174 | the held stats and flags become the handler's result; amounts and everything else are kept |
| Session.RewardIsMarkedPlansReward | src/components/Dashboard.tsx:94-119 | the reward a category's completion carries is the `fitcoins` of the one plan that completion marks done: each card is paid its own plan's reward |
| Session.SetWater | src/App.tsx:214-219 | the held water amount becomes the reported one; the water target, flag and reward, the other three plans and the stats stay |
| Session.SetSleep | src/App.tsx:229-234 | the held hours become the reported ones; the sleep target, flag and reward, the other three plans and the stats stay |
| Session.AddGlassAsWritten | src/App.tsx:168-170 | as the app does it: on the completing glass the held amount stays the old one while the goal is marked done |
| Session.SetSleepAsWritten | src/App.tsx:171-173 | as the app does it: on the completing slider move the held hours stay the old ones while sleep is marked done |
| Session.StaleWaterAmount | src/components/WaterTracker.tsx:14-21 | from 2.5 of 2.75 L, one 250 ml glass completes water yet leaves 2.5 L held, with the add buttons still live |
| Session.StaleSleepHours | src/components/SleepTracker.tsx:14-27 | moving to the 8 h target completes sleep yet leaves 0 h held, and the night is labelled Poor |
| Session.AddGlass | src/App.tsx:214-219 | corrected wiring: the held amount is the tracker's; water is done exactly when it was or this glass completes it; stats change exactly as the handler says, only on that glass |
| Session.RemoveGlass | src/components/WaterTracker.tsx:23-26 | removing a glass changes only the held amount, to the tracker's: stats, flags, the water target and reward and the other three plans stay |
| Session.SetSleepHours | src/App.tsx:229-234 | corrected wiring: the held hours are the clamped ones; sleep is done exactly when it was or this move completes it; stats change exactly as the handler says |
| Session.StaleWriteOnlyLosesAmount | src/App.tsx:157-174 | the stale write affects only the held amount: stats and flags agree with the corrected wiring |
| Session.WaterClicksAsWrittenPayOnce | src/App.tsx:168-170 | with the app's own wiring too, any run of glass clicks keeps the amount within [0, target] and pays water at most once: the stale write loses only the amount |
| Session.WaterClicksPayOnce | src/components/WaterTracker.tsx:14-26 | any run of glass clicks keeps the amount within [0, target], and once water is done leaves the stats alone: the water reward is paid at most once a day |

## Left out

- Storage, authentication and network I/O are not modelled: the Supabase services, the Gemini requests and prompts, `fileToGenerativePart` and `chatWithAI`. Saved progress, stored stats and the verification reply are inputs.
- The photo verification overlay (camera, geolocation, reverse geocoding, FileReader) is not modelled. Its outcome is an input event carrying the verification data.
- React timing beyond the finding below is not modelled: the order of asynchronous writes, and the local state that is never rolled back when a write fails.
- Floating point is not modelled: the rupee value, `toFixed` and `toLocaleString`. Water, sleep and coin arithmetic is exact in integer units.
- PlanGenerator.GenerateWaterGoal: at exact half-way ties (for example 45 kg with strength gain) IEEE doubles may round differently from the exact rounding modelled.
- SleepTracker.QualityOf: the 0.8 and 0.6 thresholds are compared exactly; floating-point products at the boundary are not modelled.
- SleepTracker.ProgressWidth: requires a positive target. The source would divide by zero, but every generated target is at least 7.5 h.
- Gemini.Normalize: a `verified` or `confidence` field that is not a boolean or integer, and a JSON reply that is not an object, are not modelled. A truthy non-boolean `verified` would pass through unchanged.
- Strings.ToLower and Strings.ToUpper map ASCII letters only. `parseInt` leading whitespace and radix prefixes are not modelled.
- Opaque strings (exercise reps and rest times, meal foods and times) are carried but never interpreted.
- The browser's constraint validation of the onboarding form (`required`, and min/max on age 13..100, height 120..250 and weight 30..200 at src/components/UserSetup.tsx:49-148) is not modelled: it blocks the submit before `handleSubmit` runs, which is the function UserSetup.Submit models.

- Gemini.Normalize and Strings.Take: lengths count Unicode scalar values, where JavaScript's `substring` and `length` count UTF-16 code units. A fallback reply of 150 emoji keeps 150 characters in the model but 100 in the app, which may also split a surrogate pair. The `includes` tests are unaffected because the searched words are ASCII.
- Keyboard activation of a card's buttons behind an open overlay is not modelled. The overlays are plain full-screen layers with no focus trap, so Tab and Space can still reach the card. There an exercise could be unticked, or a meal ticked, while verification is open. Confirm would then complete the workout without every exercise ticked, or untick the verified meal while still firing. WorkoutCard.StepSafe and DietCard.StepSafe assume pointer input only.

## Findings

| source | as written | input that shows it | evidently intended | confidence | as-written member | corrected member |
|---|---|---|---|---|---|---|
| src/App.tsx:168-170 | the completing glass calls `onUpdate` and then `onComplete` in one render; both rebuild the water goal from that render's copy, and the completion's write, made last, restores the old amount | water target 2.75 L, 2.5 L drunk, add a 250 ml glass: water is marked done, 2.5 L is held while 2.75 L is saved, and the add buttons stay live | the held amount is the new amount and the goal is done | medium; not executed | Session.AddGlassAsWritten | Session.AddGlass |
| src/App.tsx:171-173 | the same for sleep: the completion's write restores the old hours | sleep target 8 h, 0 h held, move the slider to 8 h: sleep is done but 0 h is held, so the quality reads Poor | the held hours are the new hours and the goal is done | medium; not executed | Session.SetSleepAsWritten | Session.SetSleepHours |
