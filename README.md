# Nexus-AI client logic in Dafny

Nexus-AI is a career-navigation web application. Its Next.js frontend keeps
a little state logic of its own. This project models that logic and proves
properties of it:

- **Particle-field engine** (`particle_field.dfy`, `particle_engine.dfy`).
  The animated canvas behind the pages exists in two near-identical
  components, the ambient and the hero background. Both are one engine here,
  parameterised by an `EngineConfig`, with the constants `Ambient` and `Hero`.
  - `ParticleField` holds the pure parts: the density tier, particle creation
    from `Math.random()` draws, the move-and-wrap step, the i < j proximity
    links and the opacity falloff.
  - `ParticleEngine.Engine` is the mounted component as a class. It holds the
    canvas size, the particle array, the animation-frame handle, the resize
    debounce timer and the listener.
  - The host's frames and timers are the sets of handles that are scheduled
    and have neither run nor been cancelled. A callback runs when the host
    calls `OnFrame` or `OnTimer` with its handle.
- **Onboarding wizard** (`onboarding.dfy`): the `TagInput` add/remove of the
  Skills step, `canNext`, and the gating of Back, Next and Launch over the
  three steps.
- **Readiness assessment** (`readiness.dfy`): a cursor over the answers with
  a draft buffer, the progress bar, the button gating, and the page as a
  class with its phase.
- **Session store** (`session_store.dfy`): the zustand store as a record with
  its actions (`Apply`), and as a class whose methods overwrite fields.
- **Thinking overlay** (`thinking_overlay.dfy`): the cyclic message index,
  the progress dots, and the interval and timer the effect arms and clears.
- **Dashboard** (`dashboard.dfy`): the skill tier and its colours, the
  low-confidence alert, the `?? 0` fallbacks and the redirect without a user.
- `js_text.dfy` models ECMAScript `String.prototype.trim`, which every
  "non-empty after trim" check uses. `wrappers.dfy` defines `Option`.

Positions, scores and percentages are `real`. Each `Math.random()` result is
a parameter in [0, 1). A `Draws` record holds one particle's six draws, in
the order the source takes them.

Three behaviours of the engine are worth spelling out:

- **Wrap interval.** After the move-and-wrap step a coordinate lies in the
  closed interval [0, width]. A coordinate that goes below 0 becomes exactly
  `canvas.width` (`WrapCoord`, `OnCanvas`).
- **Velocity range.** Velocities are drawn from the half-open interval
  [-v/2, v/2), where v is the velocity scale.
- **Missing canvas.** Without a canvas or 2D context, the mount effect
  returns before registering the resize listener or a cleanup. The engine
  stays `Uninitialized`, and a later resize does nothing (`Mount`,
  `OnResize`).

## Model

| member | source | states |
|---|---|---|
| ParticleField.IsMobile | frontend/components/ParticleBackground.tsx:16 | a viewport counts as mobile exactly when it is at most 767 wide, i.e. below the 768 breakpoint |
| ParticleField.ParticleCount | frontend/components/ParticleBackground.tsx:16-17 | the count is 30 exactly when the viewport is narrower than 768, and 50 exactly when it is 768 or wider |
| ParticleField.Spawn | frontend/components/ParticleBackground.tsx:25-32 | a fresh particle lies in [0,width) x [0,height) (0 on a zero-sized axis), and its velocity, radius and alpha lie in the configured half-open ranges |
| ParticleField.SpawnAll | frontend/components/ParticleBackground.tsx:24-33 | one particle per set of draws, in order, each as `Spawn` makes it, all well formed |
| ParticleField.AmbientSpawnRanges | frontend/components/ParticleBackground.tsx:28-31 | with the ambient constants: vx, vy in [-0.1, 0.1), radius in [2.2, 4.0), alpha in [0.2, 0.45) |
| ParticleField.HeroSpawnRanges | frontend/components/HeroParticleBackground.tsx:28-31 | with the hero constants: vx, vy in [-0.175, 0.175), radius in [3.5, 5.5), alpha in [0.35, 0.7) |
| ParticleField.ConfigsValid | frontend/components/HeroParticleBackground.tsx:28-31 | both constant sets have positive spans and scales and non-negative minima |
| ParticleField.WrapCoord | frontend/components/ParticleBackground.tsx:60-63 | the wrapped coordinate lies in the closed [0, limit]; an in-range value is kept, below 0 gives limit, beyond limit gives 0 |
| ParticleField.Moved | frontend/components/ParticleBackground.tsx:57-63 | one particle's frame step writes only x and y, each wrapped, and leaves it on the canvas whatever its velocity |
| ParticleField.Advanced | frontend/components/ParticleBackground.tsx:56-63 | a frame keeps the particle count and moves each particle once |
| ParticleField.AdvancePreservesWellFormed | frontend/components/ParticleBackground.tsx:56-69 | after a frame every particle is on the canvas and keeps velocity, radius and alpha in their configured ranges |
| ParticleField.DistSq | frontend/components/ParticleBackground.tsx:73-75 | the squared distance is never negative |
| ParticleField.RowLinksMembers | frontend/components/ParticleBackground.tsx:72-77 | the inner loop up to j records exactly the close pairs (i, k) with i < k < j |
| ParticleField.RowLinksOrdered | frontend/components/ParticleBackground.tsx:72 | the inner loop records its pairs in increasing order of k |
| ParticleField.LinksBeforeMembers | frontend/components/ParticleBackground.tsx:71-77 | the outer loop up to i records exactly the close pairs whose first index is below i |
| ParticleField.LinksBeforeOrdered | frontend/components/ParticleBackground.tsx:71-72 | the outer loop records its pairs in lexicographic order, so no pair twice |
| ParticleField.FrameLinksExact | frontend/components/ParticleBackground.tsx:71-77 | a frame links exactly the index pairs i < j with squared distance below 120², each unordered pair at most once |
| ParticleField.ComputeLinks | frontend/components/ParticleBackground.tsx:71-77 | the nested loop returns the frame's links, and a link is in the result exactly when its pair is accepted |
| ParticleField.LinkOpacity | frontend/components/ParticleBackground.tsx:79 | the opacity is the full scale at distance 0 and 0 at the 120 cut-off |
| ParticleField.OpacityInRange | frontend/components/ParticleBackground.tsx:78-79 | for an accepted pair (d >= 0, d² = distSq < 120²) the opacity lies in (0, scale] and is the full scale at d = 0 |
| ParticleField.OpacityFalloff | frontend/components/HeroParticleBackground.tsx:79 | the opacity is 0 at the cut-off distance and strictly decreasing in the distance |
| ParticleField.DrawnLinkOpacity | frontend/components/ParticleBackground.tsx:71-79 | every link a frame draws, at its distance d (d >= 0, d² = distSq), has an opacity in (0, scale] |
| ParticleField.TwoParticleScenario | frontend/components/ParticleBackground.tsx:71-79 | particles at (0,0) and (100,0) form the single link (0,1) with opacity one sixth of the scale |
| ParticleEngine.Engine.AtMostOnePending | frontend/components/ParticleBackground.tsx:41-47 | in every reachable state at most one debounce timer and at most one animation frame are pending |
| ParticleEngine.Engine.constructor | frontend/components/ParticleBackground.tsx:13-14 | an engine starts uninitialised, with no particles and nothing scheduled |
| ParticleEngine.Engine.Resize | frontend/components/ParticleBackground.tsx:36-39 | the canvas takes the viewport's size |
| ParticleEngine.Engine.InitParticles | frontend/components/ParticleBackground.tsx:21-34 | the array is exactly the tier's count of fresh particles from the draws; no earlier particle survives |
| ParticleEngine.Engine.Advance | frontend/components/ParticleBackground.tsx:56-64 | the in-place move-and-wrap loop leaves the array equal to `Advanced` of the old array |
| ParticleEngine.Engine.Draw | frontend/components/ParticleBackground.tsx:53-92 | a frame moves the particles, returns the links of the moved positions and requests the next frame under a fresh handle |
| ParticleEngine.Engine.Mount | frontend/components/ParticleBackground.tsx:7-94 | without a surface nothing changes; otherwise the canvas is sized, the tier's particles are created and drawn once, the listener is on, one frame is pending under the next fresh handle and the debounce timer is untouched |
| ParticleEngine.Engine.OnResize | frontend/components/ParticleBackground.tsx:41-47 | a resize cancels the pending timer and arms one new timer, changing nothing else; without a listener nothing happens |
| ParticleEngine.Engine.OnTimer | frontend/components/ParticleBackground.tsx:43-46 | only a pending timer fires; it resizes to the viewport of that moment and re-creates the particles, leaving the frame, the handle counter and the stored timer handle as they were |
| ParticleEngine.Engine.OnFrame | frontend/components/ParticleBackground.tsx:91 | only the pending frame runs; it draws, keeps the listener and the timer handle, and leaves the new frame, under the next fresh handle, as the only one pending |
| ParticleEngine.Engine.Unmount | frontend/components/ParticleBackground.tsx:96-100 | the cleanup leaves no frame, no timer and no listener |
| ParticleEngine.DebounceScenario | frontend/components/ParticleBackground.tsx:41-47 | after three resizes in a row the two superseded timers never fire; the last fires once, for a 500-wide viewport with 30 particles, and cannot fire again |
| ParticleEngine.UnmountScenario | frontend/components/ParticleBackground.tsx:96-100 | after an unmount neither the pending timer nor the pending frame runs, a later resize arms nothing, and no handle is pending |
| Onboarding.Add | frontend/app/onboarding/page.tsx:14-17 | a non-empty trimmed input not yet listed is appended and the box cleared; otherwise list and box are unchanged |
| Onboarding.AddKeepsDistinct | frontend/app/onboarding/page.tsx:16 | adding keeps a duplicate-free list duplicate-free |
| Onboarding.AddPreservesClean | frontend/app/onboarding/page.tsx:14-17 | adding keeps every tag distinct, non-empty and trimmed |
| Onboarding.Remove | frontend/app/onboarding/page.tsx:35 | an element survives removal of v exactly when it was listed and differs from v |
| Onboarding.RemoveDistributes | frontend/app/onboarding/page.tsx:35 | removal keeps order: it distributes over concatenation |
| Onboarding.RemoveAbsent | frontend/app/onboarding/page.tsx:35 | removing an absent value leaves the list as it is |
| Onboarding.RemovePreservesClean | frontend/app/onboarding/page.tsx:35 | removal keeps every tag distinct, non-empty and trimmed |
| Onboarding.RemoveUndoesAdd | frontend/app/onboarding/page.tsx:14-35 | removing the tag an add just accepted restores the list before the add |
| Onboarding.CanNext | frontend/app/onboarding/page.tsx:88-92 | step 0 needs a name that is not all whitespace, step 1 three non-empty lists, step 2 a role that is not all whitespace |
| Onboarding.PressBack | frontend/app/onboarding/page.tsx:171 | Back moves one step down or stays, and keeps the step in [0, 2] |
| Onboarding.PressNext | frontend/app/onboarding/page.tsx:175 | Next moves one step up or stays; it moves only below the last step with the step valid, and keeps the step in [0, 2] |
| Onboarding.NextShown | frontend/app/onboarding/page.tsx:174 | Next is shown exactly on steps 0 and 1, Launch otherwise |
| Onboarding.NextEnabled | frontend/app/onboarding/page.tsx:174-175 | Next is enabled only where it is shown and the step is valid, and always then |
| Onboarding.SubmitEnabled | frontend/app/onboarding/page.tsx:174-179 | Launch is enabled only at the last step, with the step valid and no request running |
| Onboarding.RunStaysInRange | frontend/app/onboarding/page.tsx:171-175 | whatever is clicked, the step stays in [0, 2] |
| Onboarding.StepMoves | frontend/app/onboarding/page.tsx:171-175 | Next advances exactly when the step is below 2 and valid; Back stays put exactly at step 0 |
| Onboarding.SubmitOnlyAtLast | frontend/app/onboarding/page.tsx:174-179 | Launch is enabled exactly at step 2 with a role filled in and no request running |
| Readiness.BlankAnswers | frontend/app/readiness/page.tsx:30 | the loaded answers have one "" per question |
| Readiness.DraftAt | frontend/app/readiness/page.tsx:40-48 | the answer loaded into the draft is the stored one at k, or "" off the end |
| Readiness.Stored | frontend/app/readiness/page.tsx:37-38 | the draft is written into the current slot and no other; the length is kept |
| Readiness.Next | frontend/app/readiness/page.tsx:36-42 | Next stores the draft, moves to current + 1 and loads that slot's answer |
| Readiness.Back | frontend/app/readiness/page.tsx:44-50 | Back stores the draft, moves to current - 1 and loads that slot's answer |
| Readiness.NextThenBack | frontend/app/readiness/page.tsx:36-50 | Next then Back returns to the same question and draft, with the draft stored |
| Readiness.BackThenNext | frontend/app/readiness/page.tsx:36-50 | Back then Next returns to the same question and draft, with the draft stored |
| Readiness.SubmitPayload | frontend/app/readiness/page.tsx:53-54 | the submitted answers differ from the stored ones only at the current slot, which holds the draft |
| Readiness.Progress | frontend/app/readiness/page.tsx:68 | with questions, progress times the count is (current + 1)·100; without questions it is 0 |
| Readiness.IsLast | frontend/app/readiness/page.tsx:69 | on the last question the progress bar shows 100 |
| Readiness.ProgressBounds | frontend/app/readiness/page.tsx:68-69 | progress lies in (0, 100] and is 100 exactly on the last question |
| Readiness.ProgressWithoutQuestions | frontend/app/readiness/page.tsx:68 | without questions progress is 0 |
| Readiness.Enabled | frontend/app/readiness/page.tsx:137-145 | an enabled Next on a valid cursor has a question after it, an enabled Back one before it, and an enabled Submit is on the last question |
| Readiness.GateIsTrim | frontend/app/readiness/page.tsx:137-145 | Back is enabled exactly off the first question; Next exactly before the last and Submit exactly on it, each only with a non-empty trimmed draft |
| Readiness.Step | frontend/app/readiness/page.tsx:128-148 | any input keeps the cursor on a question and the length unchanged; a disabled button does nothing |
| Readiness.WalkStaysInRange | frontend/app/readiness/page.tsx:137-148 | over any sequence of inputs the cursor stays in [0, length - 1] |
| Readiness.Page.constructor | frontend/app/readiness/page.tsx:18-23 | the page starts loading, with no questions, answers, draft or error |
| Readiness.Page.QuestionsLoaded | frontend/app/readiness/page.tsx:28-32 | loading goes to questions, with one blank answer per question |
| Readiness.Page.LoadFailed | frontend/app/readiness/page.tsx:33 | a failed load records the message |
| Readiness.Page.TypeAnswer | frontend/app/readiness/page.tsx:126-128 | typing changes the draft only while the panel is shown |
| Readiness.Page.HandleNext | frontend/app/readiness/page.tsx:36-42 | the page's cursor moves as `Next` says |
| Readiness.Page.HandleBack | frontend/app/readiness/page.tsx:44-50 | the page's cursor moves as `Back` says |
| Readiness.Page.HandleSubmit | frontend/app/readiness/page.tsx:52-55 | the payload is `SubmitPayload` and the phase becomes submitting |
| Readiness.Page.Click | frontend/app/readiness/page.tsx:136-148 | only an enabled button on a shown panel acts, as `Step` says; only Submit sends, and it sends the payload |
| Readiness.Page.EvaluationFailed | frontend/app/readiness/page.tsx:62-71 | a failed evaluation records the error and returns to questions; a non-empty error hides the panel |
| SessionStore.Apply | frontend/src/store/useStore.ts:39-56 | every action leaves the fields it does not write unchanged and writes its arguments; reset yields the initial state |
| SessionStore.Idempotent | frontend/src/store/useStore.ts:44-56 | the two marks and reset are idempotent |
| SessionStore.FlagsOnlyClearedByReset | frontend/src/store/useStore.ts:39-56 | a set flag stays set through any actions other than reset |
| SessionStore.ResetForgets | frontend/src/store/useStore.ts:46-56 | after a reset the prior state has no influence |
| SessionStore.Store.constructor | frontend/src/store/useStore.ts:30-37 | the store starts in the initial state |
| SessionStore.Store.SetUser | frontend/src/store/useStore.ts:39 | the store's new state is `Apply` of setUser |
| SessionStore.Store.SetRole | frontend/src/store/useStore.ts:40 | the store's new state is `Apply` of setRole |
| SessionStore.Store.SetConfidence | frontend/src/store/useStore.ts:41 | the store's new state is `Apply` of setConfidence |
| SessionStore.Store.SetReadiness | frontend/src/store/useStore.ts:42-43 | the store's new state is `Apply` of setReadiness |
| SessionStore.Store.MarkOnboarded | frontend/src/store/useStore.ts:44 | the store's new state is `Apply` of markOnboarded |
| SessionStore.Store.MarkReadinessDone | frontend/src/store/useStore.ts:45 | the store's new state is `Apply` of markReadinessDone |
| SessionStore.Store.Reset | frontend/src/store/useStore.ts:46-56 | the store is back in the initial state |
| ThinkingOverlay.DefaultMessagesNonEmpty | frontend/components/AIThinkingOverlay.tsx:4-10 | the default message list has five entries |
| ThinkingOverlay.Tick | frontend/components/AIThinkingOverlay.tsx:27 | a tick stays below the message count, moves one on, and wraps to 0 after the last |
| ThinkingOverlay.Ticks | frontend/components/AIThinkingOverlay.tsx:26-28 | zero ticks leave the index as it is; one tick or more, or zero from a valid index, gives an index below the message count |
| ThinkingOverlay.TicksFromZero | frontend/components/AIThinkingOverlay.tsx:26-28 | k ticks from the first message show message k mod the count |
| ThinkingOverlay.DotLit | frontend/components/AIThinkingOverlay.tsx:104 | the first dot is always lit, and no dot beyond the shown message is |
| ThinkingOverlay.AllLit | frontend/components/AIThinkingOverlay.tsx:99-104 | every dot up to the shown message is lit |
| ThinkingOverlay.LitDots | frontend/components/AIThinkingOverlay.tsx:99-104 | with message m shown, exactly m + 1 dots are lit |
| ThinkingOverlay.Overlay.constructor | frontend/components/AIThinkingOverlay.tsx:21-33 | the overlay starts at message 0, with interval and timer armed exactly when visible |
| ThinkingOverlay.Overlay.PropsChanged | frontend/components/AIThinkingOverlay.tsx:23-35 | a re-run clears the old handles; hidden resets the index to 0, visible arms both afresh |
| ThinkingOverlay.Overlay.IntervalFires | frontend/components/AIThinkingOverlay.tsx:26-28 | the armed interval moves the index by one `Tick` |
| ThinkingOverlay.Overlay.TimerFires | frontend/components/AIThinkingOverlay.tsx:30-32 | the armed timer calls the completion callback once |
| ThinkingOverlay.Overlay.Unmount | frontend/components/AIThinkingOverlay.tsx:34 | the cleanup clears the interval and the timer |
| Dashboard.Level | frontend/app/dashboard/page.tsx:135 | a null or absent score is LOW |
| Dashboard.LevelThresholds | frontend/app/dashboard/page.tsx:135 | HIGH exactly from 80, MEDIUM exactly in [30, 80), LOW exactly below 30 |
| Dashboard.Color | frontend/app/dashboard/page.tsx:135-136 | the colour is always the colour of the level's tier |
| Dashboard.Glow | frontend/app/dashboard/page.tsx:135-137 | the glow is always the glow of the level's tier |
| Dashboard.ShowAlert | frontend/app/dashboard/page.tsx:116 | a numeric score alerts exactly below 40; null (read as 0) always alerts; an absent score never does |
| Dashboard.AlertAgreesWithLevel | frontend/app/dashboard/page.tsx:116-135 | LOW with a defined score always alerts, HIGH never does, MEDIUM does below 40; an absent score is LOW without an alert |
| Dashboard.CompletionShown | frontend/app/dashboard/page.tsx:142 | the completion percentage, or 0 when the summary or the field is missing |
| Dashboard.WeeksShown | frontend/app/dashboard/page.tsx:145 | the weeks completed, or 0 when progress or the field is missing |
| Dashboard.ResolveUserId | frontend/app/dashboard/page.tsx:41 | the first non-empty of the query id and the stored id; "" exactly when neither is non-empty |
| Dashboard.OnLoad | frontend/app/dashboard/page.tsx:47-50 | an empty user id redirects to /auth and fetches nothing; otherwise that id is fetched |
| JsText.TrimStart | frontend/app/onboarding/page.tsx:15 | the result is a suffix of the input that starts with no whitespace, and what was cut is all whitespace |
| JsText.TrimEnd | frontend/app/onboarding/page.tsx:15 | the result is a prefix of the input that ends with no whitespace, and what was cut is all whitespace |
| JsText.Trim | frontend/app/onboarding/page.tsx:15 | the trimmed string has no whitespace at either end and is empty exactly when the input is all whitespace |
| JsText.TrimIdempotent | frontend/app/onboarding/page.tsx:15 | trimming twice equals trimming once |

## Left out

- Canvas drawing (`clearRect`, `arc`, `moveTo`/`lineTo`, `stroke`) and the rgba colour strings are foreign rendering calls. A frame's drawing is its list of `Link`s, and the opacity is `LinkOpacity` of the link's distance.
- `Math.sqrt` is not computed. A link carries its squared distance. `OpacityInRange` relates the opacity to any d with d >= 0 and d·d = distSq.
- IEEE-754 rounding is not modelled; all coordinates and scores are exact reals.
- Wall-clock durations are not modelled: the 100 ms debounce, the 2000 ms message interval, the overlay's `duration` and the frame rate. Callbacks run when the host calls the matching event method.
- The overlay's message list is assumed non-empty (`Overlay.constructor` requires a positive count). The default list and every caller pass five messages. An empty list would make JavaScript's `% 0` produce NaN.
- The overlay's `subtitle` and the message text are not modelled. Only the index, the dots and the callback count are.
- Readiness: `QuestionsLoaded` requires the loading phase. A reload on a change of the user id, the `if (!userId) return` guard before the request, and the question request itself are network I/O.
- Readiness: success after evaluation navigates to the result page and writes the store. That is routing and I/O, so the `Done` phase is never entered.
- Onboarding: `handleSubmit` is left out. It calls the backend and then writes the store (`SetUser`, `SetRole`, `MarkOnboarded`) and navigates. Only its `loading` gate is modelled, in `SubmitEnabled`.
- The zustand `persist` middleware, framer-motion animations and React's render scheduling are left out.
- Dashboard: the score, the chart data and the remaining text fields are rendered from the fetched payload; only the tiering, the alert, the two fallbacks and the redirect are modelled. `confidence_score` is a number, null or absent; other JSON types are not modelled.
- JsText.Trim: does not state that the result is a contiguous slice of the input. `TrimStart` and `TrimEnd` state it for their halves.
