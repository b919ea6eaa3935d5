# CodeXp website: the interactive core, in Dafny

This project is a Dafny model of the logic behind the CodeXp company website's interactive parts, with proofs about it:

- **The animated background** (`AnimatedBackground.jsx`). It is a canvas of drifting "glow" particles and rising code-symbol particles, all pushed aside by a smoothed mouse. Nearby glow particles are linked by lines, and particles near the mouse get spark lines to it.
- **The chat assistant** (`AIChat.jsx`). It has:
  - a keyword classifier that picks a reply for a query;
  - the `**bold**` formatter that turns a reply into lines and fragments;
  - the guard that decides whether a send attempt produces a message;
  - the badge on the floating chat button.
- **The chat context** (`AIChatContext.jsx`). Whether the chat window is open, the query it was opened with, and the error raised outside a provider.
- **The FAQ accordion** (`FAQSection.jsx`). At most one answer is open at a time.
- **The custom cursor** (`MouseFollower.jsx`). An inner dot and an outer orb ease toward the mouse at two speeds.

The modules follow the program's structure:

| file | module | models |
|---|---|---|
| `wrappers.dfy` | `Wrappers` | `Option` and `Result`, standing in for `null` and thrown errors |
| `plane.dfy` | `Plane` | points, the `Math` functions as a `Geometry` parameter, and powers used to state convergence |
| `mouse_tracking.dfy` | `MouseTracking` | the background's mouse: target, `isActive`, the smoothing of `smoothMouse` |
| `glow_particles.dfy` | `GlowParticles` | `Particle.reset` and `Particle.update` |
| `symbol_particles.dfy` | `SymbolParticles` | `CodeParticle.reset` and `CodeParticle.update` |
| `connections.dfy` | `Connections` | the lines and sparks `drawConnections` strokes |
| `background.dfy` | `Background` | the population counts, start-up, one animation frame, the connection loops |
| `text.dfy` | `Text` | `toLowerCase`, `includes`, `split`/`join`, `replace`, `trim` over `seq<char>` |
| `ai_chat.dfy` | `AIChat` | `generateAIResponse`, the send guard, the badge |
| `chat_format.dfy` | `ChatFormat` | `formatMessageText` and the `\*\*(.*?)\*\*` scanner |
| `chat_context.dfy` | `ChatContext` | `AIChatProvider`, `openChat`, `closeChat`, `useAIChat` |
| `faq.dfy` | `FAQAccordion` | `FAQList`'s `openId` and `toggleFAQ` |
| `mouse_follower.dfy` | `MouseFollowerEffect` | the two lerps in `animate` and the move, hover and window handlers |

**How stateful code is modelled.** Everything the source updates in place is a class whose methods change its fields:
- `Particle` and `CodeParticle`;
- the effect's pools and canvas size;
- the mouse refs;
- the cursor refs;
- the chat provider's state;
- the FAQ list's `openId`.

Four classes have a `State()` snapshot: `GlowParticle`, `CodeParticle`, `Follower` and `AIChatProvider`.
- Their stepping methods tie the new snapshot to a pure step function of the old one. These are `Reset`, `React`, `Drift`, `Update`, `Step`, `OpenChat` and `CloseChat`.
- Their simple event handlers give the new snapshot as the old one with the changed fields replaced.
- The properties are then proved as lemmas about the step functions.

The other three classes have no snapshot. Their `ensures` give the new field values directly, and the untouched fields are held by the `modifies` frame. These classes are `MouseInput`, `AnimatedBackground` and `FAQList`.
- `MouseInput.Smooth` ties `smooth` to the step function `SmoothStep`.
- `FAQList.ToggleFAQ` ties `openId` to `Toggle`.
- `AnimatedBackground`'s passes tie the particles to `GlowFrame` and `SymbolFrame`.
- `Resize` and the mouse and touch handlers simply assign their fields.

**How loops are modelled.** The loops stay loops, with invariants:
- the pair and spark loops of `drawConnections`;
- the two `forEach` passes of a frame;
- the start-up population;
- the loop over bold matches in `formatMessageText`.

**Numbers.** Reals are exact, so floating-point rounding is not modelled. `Math.sqrt`, `Math.atan2`, `Math.cos` and `Math.sin` enter as a `Geometry` value. The only thing assumed of it is that a distance is never negative. `Math.random()` draws are records of values in [0, 1).

## Model

| member | source | states |
|---|---|---|
| Background.Population | src/components/effects/AnimatedBackground.jsx:274-275 | The count never exceeds the cap and never exceeds the number of whole cells of `per` pixels in the area; it is below the cap only when one more particle would not fit |
| Background.GlowCount | src/components/effects/AnimatedBackground.jsx:274 | At most 80 glow particles, one per full 15000 square pixels, until the cap |
| Background.SymbolCount | src/components/effects/AnimatedBackground.jsx:275 | At most 30 symbols, one per full 40000 square pixels, until the cap |
| Background.SmallCanvasIsEmpty | src/components/effects/AnimatedBackground.jsx:274-275 | A canvas smaller than one cell gets no particles of that kind |
| Background.PopulationMonotone | src/components/effects/AnimatedBackground.jsx:274-275 | A larger canvas never gets fewer particles |
| Background.CountsMonotone | src/components/effects/AnimatedBackground.jsx:274-275 | Both counts are monotone in the canvas area |
| Background.GlowFrameOnCanvas | src/components/effects/AnimatedBackground.jsx:424-427 | After a frame every glow particle's base position lies on the canvas |
| Background.GlowFrameInv | src/components/effects/AnimatedBackground.jsx:424-427 | A frame keeps every glow particle's radius invariant |
| Background.SymbolFrameSpec | src/components/effects/AnimatedBackground.jsx:433-436 | After a frame no symbol is above the respawn line, and every symbol keeps its lifecycle invariant |
| Background.AnimatedBackground.constructor | src/components/effects/AnimatedBackground.jsx:273-286 | Start-up builds exactly `GlowCount(w*h)` reset glow particles and `SymbolCount(w*h)` reset symbols, each moved to a random height, with an idle mouse and every invariant established |
| Background.AnimatedBackground.Resize | src/components/effects/AnimatedBackground.jsx:39-42 | The canvas takes the window size; the pools are untouched |
| Background.AnimatedBackground.UpdateGlows | src/components/effects/AnimatedBackground.jsx:424-427 | Glow particle `k` reacts to the mouse after the `(k+1)`-th smoothing step of the frame; the mouse has then been smoothed once per glow particle |
| Background.AnimatedBackground.UpdateSymbols | src/components/effects/AnimatedBackground.jsx:433-436 | Every symbol is updated once, in order, against the mouse the glow pass left |
| Background.AnimatedBackground.Frame | src/components/effects/AnimatedBackground.jsx:414-439 | One frame consists of the glow pass, the connections among the moved particles, and the symbol pass; every particle keeps its invariant |
| Background.DrawConnections | src/components/effects/AnimatedBackground.jsx:289-343 | The nested loop produces exactly `Lines`, and the spark loop exactly `Sparks` |
| Background.ConnectRow | src/components/effects/AnimatedBackground.jsx:293-322 | The inner loop for particle `i` produces the lines to every later particle closer than 120 pixels, in order |
| Background.NoGlowNoInfluence | src/components/effects/AnimatedBackground.jsx:99-112 | With no glow particle a frame never smooths the mouse, so an unsmoothed mouse stays unsmoothed and the frame's symbol pass is exactly the pass with no mouse, whatever the target and `isActive`. Start-up never builds symbols without glow particles (`Background.SymbolsNeedGlows`), so at start-up such a frame has no symbols at all |
| Background.SymbolsNeedGlows | src/components/effects/AnimatedBackground.jsx:274-275 | A canvas never gets more symbols than glow particles, so one with no glow particle has no symbols either |
| Background.OneGlowSmooths | src/components/effects/AnimatedBackground.jsx:101-108 | With at least one glow particle and a target, the smoothed mouse exists after the first frame |
| Connections.BaseOpacity | src/components/effects/AnimatedBackground.jsx:299 | A linked pair's base opacity lies in (0, 0.06] |
| Connections.Brighten | src/components/effects/AnimatedBackground.jsx:302-313 | Without the mouse, or with the midpoint 200 or more pixels away, the opacity is unchanged; otherwise it never drops and never exceeds 0.15 |
| Connections.LineFor | src/components/effects/AnimatedBackground.jsx:294-298 | A pair gets a line exactly when its distance is below 120, and the line names that pair |
| Connections.LinesExact | src/components/effects/AnimatedBackground.jsx:292-323 | Exactly the pairs `i < j` closer than 120 pixels are linked, each once, in loop order, with the opacity the pair rule gives |
| Connections.LineOpacityBounds | src/components/effects/AnimatedBackground.jsx:298-313 | A line's opacity lies between its base opacity, itself in (0, 0.06], and 0.15; without the mouse it is the base |
| Connections.SparkFor | src/components/effects/AnimatedBackground.jsx:328-333 | A particle gets a spark exactly when the mouse acts within 160 pixels of it; the spark's opacity lies in (0, 0.3] |
| Connections.SparksExact | src/components/effects/AnimatedBackground.jsx:326-342 | There are no sparks unless the mouse acts. Then every particle within 160 pixels has a spark and only those do, each with opacity in (0, 0.3]. The sparks come in strictly increasing particle order, so no particle has two |
| MouseTracking.SmoothStep | src/components/effects/AnimatedBackground.jsx:101-109 | With no target nothing changes; the first step copies the target; each later step shrinks the gap to the target to 0.9 of itself |
| MouseTracking.SmoothStepMovesTenth | src/components/effects/AnimatedBackground.jsx:106-107 | A later step moves exactly a tenth of the gap on each axis and never overshoots |
| MouseTracking.SmoothIterNoTarget | src/components/effects/AnimatedBackground.jsx:101 | Without a target the smoothed position never changes |
| MouseTracking.SmoothIterFromUnset | src/components/effects/AnimatedBackground.jsx:102-104 | From unset, the first step lands on the target and later ones stay there |
| MouseTracking.SmoothIterGap | src/components/effects/AnimatedBackground.jsx:105-108 | After `n` steps the gap is exactly `0.9^n` times the initial gap |
| MouseTracking.SmoothStepConverges | src/components/effects/AnimatedBackground.jsx:106-107 | Each step strictly shrinks a nonzero gap and stays on the same side of the target |
| MouseTracking.Influence | src/components/effects/AnimatedBackground.jsx:112 | The mouse acts exactly when it is active and has been smoothed, and then at the smoothed position |
| MouseTracking.Contact | src/components/effects/AnimatedBackground.jsx:112-119 | A force exists exactly when the mouse acts closer than the radius; it lies in (0, 1] |
| MouseTracking.MouseInput.constructor | src/components/effects/AnimatedBackground.jsx:11-12 | No target, inactive, not smoothed |
| MouseTracking.MouseInput.MouseMove | src/components/effects/AnimatedBackground.jsx:47-51 | The target becomes the client position and the mouse is active |
| MouseTracking.MouseInput.MouseLeave | src/components/effects/AnimatedBackground.jsx:53-55 | The mouse becomes inactive and keeps its target |
| MouseTracking.MouseInput.TouchMove | src/components/effects/AnimatedBackground.jsx:57-63 | The first touch becomes the target; an event without touches changes nothing |
| MouseTracking.MouseInput.TouchEnd | src/components/effects/AnimatedBackground.jsx:65-67 | The mouse becomes inactive and keeps its target |
| MouseTracking.MouseInput.Smooth | src/components/effects/AnimatedBackground.jsx:100-109 | The smoothed position advances by one `SmoothStep` |
| GlowParticles.Scale | src/components/effects/AnimatedBackground.jsx:81-82 | A draw scaled to a dimension lies in [0, w], and below `w` when `w > 0` |
| GlowParticles.GlowResetSpec | src/components/effects/AnimatedBackground.jsx:80-97 | A reset particle rests where it is drawn, with velocity in [-0.15, 0.15), rest radius in [0.5, 1.5), opacity in [0.05, 0.25), no offset, and its invariant |
| GlowParticles.GlowResetOnCanvas | src/components/effects/AnimatedBackground.jsx:81-84 | A reset particle starts on the canvas, strictly inside the far edges of a non-empty canvas |
| GlowParticles.Wrap | src/components/effects/AnimatedBackground.jsx:148-151 | The wrapped coordinate lies in [0, limit], and one already there is kept |
| GlowParticles.GlowStepWraps | src/components/effects/AnimatedBackground.jsx:140-151 | After an update the base lies on the canvas, while the rendered position uses the drifted base before wrapping plus the new offset |
| GlowParticles.GlowStepKeeps | src/components/effects/AnimatedBackground.jsx:99-155 | An update never changes the velocity, rest radius or opacity |
| GlowParticles.GlowStepIdle | src/components/effects/AnimatedBackground.jsx:128-137 | Out of reach the radius is the rest radius and the offset only decays by 0.95 |
| GlowParticles.GlowStepPushed | src/components/effects/AnimatedBackground.jsx:117-127 | Within 200 pixels the offset is pushed by `force * 0.08 * 15` along the away direction before the decay, and the radius grows into (base, 1.5 * base] |
| GlowParticles.GlowStepInv | src/components/effects/AnimatedBackground.jsx:112-133 | Every update keeps `baseRadius <= radius <= 1.5 * baseRadius` |
| GlowParticles.Damped | src/components/effects/AnimatedBackground.jsx:136-137 | `n` decays multiply the offset by `0.95^n` |
| GlowParticles.GlowIdleDamps | src/components/effects/AnimatedBackground.jsx:131-137 | `n` push-free updates decay the offset `n` times and leave the rest radius |
| GlowParticles.GlowIdleDecay | src/components/effects/AnimatedBackground.jsx:135-137 | Without a push the offset after `n` updates is `0.95^n` times the initial one, and the radius is back at rest |
| GlowParticles.GlowOffsetShrinks | src/components/effects/AnimatedBackground.jsx:136-137 | A push-free update strictly shrinks a nonzero offset and keeps its sign |
| GlowParticles.GlowParticle.constructor | src/components/effects/AnimatedBackground.jsx:76-78 | A new particle is a reset particle |
| GlowParticles.GlowParticle.Reset | src/components/effects/AnimatedBackground.jsx:80-97 | The fields become `GlowReset` of the draws |
| GlowParticles.GlowParticle.Update | src/components/effects/AnimatedBackground.jsx:99-155 | The shared mouse is smoothed once, then the particle takes one `GlowStep` against it |
| GlowParticles.GlowParticle.React | src/components/effects/AnimatedBackground.jsx:111-137 | The fields become `GlowReact` of the old ones |
| GlowParticles.GlowParticle.Drift | src/components/effects/AnimatedBackground.jsx:139-151 | The fields become `GlowDrift` of the old ones |
| SymbolParticles.SymbolIndex | src/components/effects/AnimatedBackground.jsx:190 | The glyph index is always inside the 30-symbol alphabet |
| SymbolParticles.SymbolResetSpec | src/components/effects/AnimatedBackground.jsx:183-201 | A reset symbol is 50 pixels below the bottom edge, rises at 0.3 to 1.1 pixels per frame, has a glyph of the alphabet and a size in [6, 14), is invisible and fading in toward a `maxOpacity` in [0.02, 0.1), and satisfies the lifecycle invariant |
| SymbolParticles.SymbolResetOnCanvas | src/components/effects/AnimatedBackground.jsx:184 | A respawned symbol starts horizontally on the canvas |
| SymbolParticles.SymbolSeedSpec | src/components/effects/AnimatedBackground.jsx:281-286 | A start-up symbol is a reset symbol moved to a height on the canvas, still invisible and fading in |
| SymbolParticles.SymbolReactIdle | src/components/effects/AnimatedBackground.jsx:225-234 | Out of reach the symbol returns to its rest size and its offset decays by 0.92 |
| SymbolParticles.SymbolReactPushed | src/components/effects/AnimatedBackground.jsx:210-234 | Within 240 pixels the offset is pushed by `force * 0.08 * 10` along the swirl direction before the 0.92 decay, the size grows into (base, 1.3 * base], `maxOpacity` rises but never past 0.3, and the angle advances by `force * 0.05` |
| SymbolParticles.SymbolReactKeeps | src/components/effects/AnimatedBackground.jsx:204-234 | The mouse response never moves the symbol, never changes its glyph or fade state, and never lowers a capped `maxOpacity` |
| SymbolParticles.SymbolStepRespawns | src/components/effects/AnimatedBackground.jsx:236-253 | No symbol stays above the respawn line; one that crosses it is replaced by a reset symbol below the bottom edge |
| SymbolParticles.SymbolStepFade | src/components/effects/AnimatedBackground.jsx:245-253 | Only a respawn restarts the fade-in, and between respawns a capped `maxOpacity` never decreases |
| SymbolParticles.SymbolReactInv | src/components/effects/AnimatedBackground.jsx:204-234 | The mouse response keeps the lifecycle invariant |
| SymbolParticles.SymbolDriftInv | src/components/effects/AnimatedBackground.jsx:236-258 | The drift with its fade-in step, and the fade-out, keep the lifecycle invariant |
| SymbolParticles.SymbolStepInv | src/components/effects/AnimatedBackground.jsx:203-259 | Every update keeps the invariant: opacity is never negative, is below `maxOpacity` while fading in and at most one fade-in step above it; `maxOpacity` lies in (0, 0.3]; the size stays in its band |
| SymbolParticles.CodeParticle.constructor | src/components/effects/AnimatedBackground.jsx:179-181 | A new symbol is a reset symbol |
| SymbolParticles.CodeParticle.Reset | src/components/effects/AnimatedBackground.jsx:183-201 | The fields become `SymbolReset` of the draws |
| SymbolParticles.CodeParticle.Seed | src/components/effects/AnimatedBackground.jsx:282-284 | Only the height changes, to a scaled draw |
| SymbolParticles.CodeParticle.Update | src/components/effects/AnimatedBackground.jsx:203-259 | The fields become `SymbolStep` of the old ones: react, drift, respawn, fade out |
| SymbolParticles.CodeParticle.React | src/components/effects/AnimatedBackground.jsx:204-234 | The fields become `SymbolReact` of the old ones |
| SymbolParticles.CodeParticle.Drift | src/components/effects/AnimatedBackground.jsx:236-249 | The fields become `SymbolDrift` of the old ones |
| Plane.ScaleBand | src/components/effects/AnimatedBackground.jsx:127 | Growing a positive size by a fraction in (0, 1] of `k` lands in (b, b * (1 + k)] |
| MouseFollowerEffect.LerpAxis | src/components/effects/MouseFollower.jsx:44-49 | One axis step by `k` in [0, 1] moves the fraction `k` of the gap, leaves `1 - k` of it, and lands between start and target |
| MouseFollowerEffect.LerpMoves | src/components/effects/MouseFollower.jsx:44-49 | The same on both axes of a point: exact fraction moved, no overshoot |
| MouseFollowerEffect.AnimateFramesKeeps | src/components/effects/MouseFollower.jsx:42-55 | Frames never move the mouse target or change the flags |
| MouseFollowerEffect.InnerGap | src/components/effects/MouseFollower.jsx:44-45 | After `n` still frames the inner dot's gap is `0.85^n` times the initial gap on each axis |
| MouseFollowerEffect.OuterGap | src/components/effects/MouseFollower.jsx:48-49 | After `n` still frames the outer orb's gap is `0.92^n` times the initial gap on each axis |
| MouseFollowerEffect.InnerLeadsOuter | src/components/effects/MouseFollower.jsx:43-49 | Starting together, the inner dot is never farther from a resting mouse than the outer orb |
| MouseFollowerEffect.AnimateFramesConverge | src/components/effects/MouseFollower.jsx:43-49 | Every frame strictly shrinks each nonzero gap, for both cursors and both axes |
| MouseFollowerEffect.Follower.constructor | src/components/effects/MouseFollower.jsx:11-15 | Mouse and both cursors start at the origin, hidden and not hovering |
| MouseFollowerEffect.Follower.MouseMove | src/components/effects/MouseFollower.jsx:24-27 | The target becomes the client position and the cursor is visible; the drawn positions stay |
| MouseFollowerEffect.Follower.Step | src/components/effects/MouseFollower.jsx:42-49 | One frame is one `Animate` step |
| MouseFollowerEffect.Follower.LeaveWindow | src/components/effects/MouseFollower.jsx:58 | Leaving the window hides the cursor and changes nothing else |
| MouseFollowerEffect.Follower.EnterWindow | src/components/effects/MouseFollower.jsx:59 | Entering the window shows the cursor and changes nothing else |
| MouseFollowerEffect.Follower.SetHovering | src/components/effects/MouseFollower.jsx:30-31 | Entering or leaving an interactive element sets the hover flag and nothing else |
| Text.ToLowerShape | src/components/ai/AIChat.jsx:50 | Lowercasing keeps the length and every non-letter, and leaves no capital |
| Text.ToLowerIdempotent | src/components/ai/AIChat.jsx:50 | Lowercasing twice is lowercasing once |
| Text.ContainsIff | src/components/ai/AIChat.jsx:57 | `includes` holds exactly when the needle occurs at some index |
| Text.ContainsEmpty | src/components/ai/AIChat.jsx:57 | Every string includes the empty string |
| Text.SplitPieces | src/components/ai/AIChat.jsx:391 | No piece contains the separator, and there is one more piece than there are separators |
| Text.JoinSplit | src/components/ai/AIChat.jsx:391 | Joining the pieces with the separator gives back the string |
| Text.SplitJoin | src/components/ai/AIChat.jsx:391 | Separator-free pieces come back from splitting their join |
| Text.ReplaceFirstAbsent | src/components/ai/AIChat.jsx:58 | Without the pattern character `replace` changes nothing |
| Text.ReplaceFirstAt | src/components/ai/AIChat.jsx:58 | Only the first occurrence is replaced |
| Text.TrimStart | src/components/ai/AIChat.jsx:162 | The result is a suffix starting with a non-space, and only white space was dropped |
| Text.TrimEnd | src/components/ai/AIChat.jsx:162 | The result is a prefix ending with a non-space, and only white space was dropped |
| Text.TrimBlank | src/components/ai/AIChat.jsx:162-163 | `trim` yields the empty string exactly when the input is all white space |
| Text.TrimIdempotent | src/components/ai/AIChat.jsx:162 | A trimmed string begins and ends with a non-space, and trimming again changes nothing |
| AIChat.FindFrom | src/components/ai/AIChat.jsx:53-65 | The result is the first index from `i` whose element satisfies the test, or none exists |
| AIChat.FindFirst | src/components/ai/AIChat.jsx:101 | The result is the first index whose element satisfies the test (`find`), or none exists |
| AIChat.ReplyFirstService | src/components/ai/AIChat.jsx:53-65 | The first service whose title word or dashed id occurs in the lowercased query answers, whatever else matches |
| AIChat.ReplyFirstIndustry | src/components/ai/AIChat.jsx:68-77 | With no service matching, the first industry whose title or id occurs answers |
| AIChat.ReplyFirstFaq | src/components/ai/AIChat.jsx:80-87 | With no service or industry matching, the first topic with a keyword in the query answers with its response |
| AIChat.ReplyServicesList | src/components/ai/AIChat.jsx:90-96 | The services overview comes exactly when no table answers and the query says "service", "offer" or "do you" |
| AIChat.ReplyAi | src/components/ai/AIChat.jsx:99-107 | An AI question that reaches this branch gets the first `ai-ml` service, and fails exactly when there is none |
| AIChat.ReplyDefault | src/components/ai/AIChat.jsx:109-113 | The default reply comes exactly when nothing at all matches |
| AIChat.ReplyFromTables | src/components/ai/AIChat.jsx:49-114 | Every service, industry or topic reply carries a record or response taken from the tables |
| AIChat.ReplyIgnoresCase | src/components/ai/AIChat.jsx:50 | Only the lowercased query matters |
| AIChat.EmptyTitleWordMatchesAll | src/components/ai/AIChat.jsx:54-57 | A title with an empty word makes its service match every query |
| AIChat.AnswersWithAiService | src/components/ai/AIChat.jsx:101-106 | A table that has an `ai-ml` service never fails |
| AIChat.CodeXpAlwaysAnswers | src/components/ai/AIChat.jsx:10-44 | With the site's own tables every query gets a reply |
| AIChat.MessageToSend | src/components/ai/AIChat.jsx:161-163 | A message is never empty; a non-empty explicit text is sent as given; nothing is sent exactly when there is no text and the input is all white space |
| AIChat.MessageFromInputIsTrimmed | src/components/ai/AIChat.jsx:162 | A message taken from the input is the trimmed input and neither starts nor ends with white space |
| AIChat.Badge | src/components/ai/AIChat.jsx:451-455 | With `n > 0` messages the badge shows `ceil(n/2)`, with none but unread ones `!`, otherwise nothing |
| AIChat.FloatingChatButton | src/components/ai/AIChat.jsx:434-460 | The button is absent exactly while the chat is open; it carries the badge, and the "continue" tooltip exactly when messages exist |
| ChatFormat.CloseFrom | src/components/ai/AIChat.jsx:393 | The lazy group ends at the first `**` at or after `k`, with no line terminator before it; when there is none, every later `**` is past a terminator |
| ChatFormat.MatchAt | src/components/ai/AIChat.jsx:393 | A match at `i` is a genuine `**…**` pair, and one exists exactly when `**` is at `i` and a closing pair follows |
| ChatFormat.NextMatch | src/components/ai/AIChat.jsx:395 | The next match is the leftmost one at or after `p` |
| ChatFormat.MatchesFrom | src/components/ai/AIChat.jsx:395 | `matchAll` yields a chain of genuine matches, each starting after the previous one ends, the first being the leftmost |
| ChatFormat.MatchesResume | src/components/ai/AIChat.jsx:393-395 | Each match after the first is the leftmost match from where the previous one ends, and no match follows the last; with the first being the leftmost, `matchAll` misses no `**…**` pair |
| ChatFormat.FragmentsRender | src/components/ai/AIChat.jsx:398-411 | Rendering the fragments built from `last` on, with bold wrapped back in `**`, gives back the line from `last` on |
| ChatFormat.LineSpanUnchanged | src/components/ai/AIChat.jsx:421-426 | A line is unformatted exactly when no match exists, and is then shown unchanged |
| ChatFormat.LineSpanRoundTrip | src/components/ai/AIChat.jsx:397-419 | Rendering a line's span reproduces the line exactly |
| ChatFormat.FragmentsWellFormed | src/components/ai/AIChat.jsx:401-411 | Plain fragments are never empty, and bold ones contain neither `**` nor a line terminator |
| ChatFormat.FragmentsBold | src/components/ai/AIChat.jsx:405 | There is one bold fragment per match, holding that match's group, in order |
| ChatFormat.LineSpanFragments | src/components/ai/AIChat.jsx:397-419 | A formatted line's fragments are well formed and its bold texts are the successive captured groups |
| ChatFormat.PushPlain | src/components/ai/AIChat.jsx:402-404 | The plain text between `lastIndex` and the match is pushed exactly when it is non-empty |
| ChatFormat.PushMatches | src/components/ai/AIChat.jsx:398-407 | The loop over the matches leaves the fragments and a `lastIndex` after which only the plain tail remains |
| ChatFormat.FormatLine | src/components/ai/AIChat.jsx:392-426 | One line's span is `LineSpan` of the line |
| ChatFormat.FormatMessageText | src/components/ai/AIChat.jsx:389-428 | There is exactly one span per `\n`-separated line, each is that line's span, and joining their renderings with newlines gives back the message. Every span is followed by a `<br />`, the last one included, so the displayed text (with each break as a newline) is the message plus one trailing newline |
| ChatFormat.RenderLinesJoin | src/components/ai/AIChat.jsx:412-425 | Showing each span followed by its `<br />` is the same as joining the span texts with newlines and adding one newline for the last break |
| ChatContext.OpenShows | src/context/AIChatContext.jsx:16-19 | Opening shows the chat with the given query; an omitted query is the empty string |
| ChatContext.OpenForgets | src/context/AIChatContext.jsx:16-19 | What opening leaves does not depend on the state before |
| ChatContext.ReopenReplacesQuery | src/context/AIChatContext.jsx:16-19 | Opening an open chat only replaces the query |
| ChatContext.CloseResets | src/context/AIChatContext.jsx:13-24 | Closing returns exactly to the initial state, so it is idempotent and erases an opening's query |
| ChatContext.UseAIChat | src/context/AIChatContext.jsx:47-53 | Fails with the missing-provider message exactly when there is no provider; otherwise returns its value |
| ChatContext.AIChatProvider.constructor | src/context/AIChatContext.jsx:13-14 | The provider starts closed with an empty query |
| ChatContext.AIChatProvider.OpenChat | src/context/AIChatContext.jsx:16-19 | The state becomes `Open` of the old state and the query |
| ChatContext.AIChatProvider.CloseChat | src/context/AIChatContext.jsx:21-24 | The state becomes `Close` of the old state |
| FAQAccordion.ToggleOpens | src/components/sections/FAQSection.jsx:37-39 | After a toggle the clicked item is open exactly when it was closed, every other item is closed, and toggling the open one closes all |
| FAQAccordion.AtMostOneOpen | src/components/sections/FAQSection.jsx:47 | One `openId` opens at most one id |
| FAQAccordion.ToggleTwice | src/components/sections/FAQSection.jsx:38 | Toggling twice restores the state exactly when nothing or that item was open; otherwise it ends all-closed |
| FAQAccordion.OpenFlags | src/components/sections/FAQSection.jsx:43-50 | One flag per item, in order, each true exactly when that item's id is open |
| FAQAccordion.AtMostOneFlag | src/components/sections/FAQSection.jsx:43-50 | With distinct ids at most one rendered item is open, and none when `openId` is null |
| FAQAccordion.FAQList.constructor | src/components/sections/FAQSection.jsx:35 | No item is open at first |
| FAQAccordion.FAQList.ToggleFAQ | src/components/sections/FAQSection.jsx:37-39 | `openId` becomes `Toggle` of the old one |
| FAQAccordion.FAQList.Rendered | src/components/sections/FAQSection.jsx:47 | Item `i` shows its answer exactly when its id is the open one |

## Edge behaviour of the code

The model keeps these behaviours as the code has them:
- **Glow wrap.** A glow particle's base that falls below 0 is set to exactly `width`. Only a base above `width` goes back to 0. So `width` itself is a reachable position, and the base stays in `[0, width]` (`AnimatedBackground.jsx:148-151`, `GlowParticles.GlowStepWraps`).
- **Fade-in overshoot.** A symbol fading in adds 0.005 to its opacity before comparing with `maxOpacity`. So the opacity can exceed `maxOpacity` by up to one step (`AnimatedBackground.jsx:246-249`, `SymbolParticles.SymbolInv` allows `opacity <= maxOpacity + 0.005`).
- **Smoothing per particle.** The mouse is smoothed inside every `Particle.update`. A frame with `n` glow particles takes `n` smoothing steps, and a canvas with no glow particles never smooths the mouse (`Background.AnimatedBackground.UpdateGlows`, `Background.NoGlowNoInfluence`).

## Left out

- **Drawing.** Canvas calls (`draw`, `drawMouseGlow`, `drawGradientOrbs`, `clearRect`), CSS transforms and class names, and the JSX trees are output only.
- **The glow pulse.** `currentOpacity`, `pulseSpeed` and `pulseOffset` depend on `Date.now()` and `Math.sin`. The pulse-speed and phase draws are therefore not part of `GlowDraw`.
- **`Math` functions.** `Math.sqrt`, `Math.atan2`, `Math.cos` and `Math.sin` are the `Geometry` parameter. `Math.random` draws are parameters. A symbol's initial angle `Math.random() * Math.PI * 2` is given as a value.
- **Floating point.** Reals are exact; IEEE rounding is not modelled.
- **Event plumbing.** Listener registration and removal, `requestAnimationFrame`, `cancelAnimationFrame`, `useEffect` cleanups and the `MutationObserver` that re-attaches hover listeners are scheduling only. The handlers themselves are methods.
- **The particle pools.** They are sequences of particle states inside `Background.AnimatedBackground`, not sequences of `GlowParticle`/`CodeParticle` objects. Updating shared objects in place, and aliasing between them, is therefore not captured.
- Text.ToLower: folds only the ASCII letters, while the query is user input and JavaScript's `toLowerCase` applies full Unicode case mapping. For example, U+212A KELVIN SIGN becomes `k`, and U+0130 (capital I with dot above) becomes `i` followed by U+0307, which also lengthens the string. So for the query "A\u0130" the site lowercases to a string containing "ai" and answers with the `ai-ml` service, while the model keeps the U+0130 and gives the default reply. The site's own tables and keywords are ASCII, so only such non-ASCII queries are affected.
- AIChat.GenerateAIResponse: returns the reply kind and its record, not the reply text. The text templates are prose over the same records and the company constants.
- **Service and industry descriptions.** The classifier never reads them. `descKeywords` is computed from the description but never used, so dropping it changes no result.
- AIChat.CodeXpKnowledgeBase: each FAQ topic's response is the topic's name instead of its reply text. Only which topic answers is stated.
- **The message store.** `AIChat` and `FloatingChatButton` read `messages`, `addMessage`, `clearMessages` and `hasUnreadMessages` from the chat context, but `AIChatProvider` supplies none of them. No store is modelled: `AIChat.Badge` and `AIChat.FloatingChatButton` take the message count and the unread flag as parameters.
- **The rest of `handleSendMessage`.** The typing delay, typing indicator, message ids, timestamps, scrolling and focusing are timers and DOM effects.
- **The FAQ list's input.** `FAQSection` imports a `FAQS` constant that the constants file does not export. `FAQAccordion.FAQList` takes its list as a parameter.
- FAQAccordion.AtMostOneFlag: assumes distinct ids, as React's `key={faq.id}` requires. With duplicate ids, every item with the open id shows open (`FAQAccordion.OpenFlags`).
- **Touch devices.** `MouseFollower` renders nothing on touch devices (`'ontouchstart' in window`). This environment check is not modelled.
