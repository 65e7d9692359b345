# Architect's Nexus portfolio — behavioural model in Dafny

The portfolio site is mostly presentation. It also holds seven small pieces of
sequential logic, and this project models each of them as immutable state plus
pure per-event or per-tick transition functions:

- the three-step contact wizard (`UplinkTerminal`);
- the chat panel and its transcript (`AIChatTerminal`);
- the headline text-scramble effect (`DecryptionText`);
- the footer's latency readout and hover-to-decrypt seal (`Footer`);
- the boot screen's log window and progress bar (`BootSequence`);
- the project-card rules of the mission log (`MissionLog`);
- the prompt serialiser and response wrapper around the generative-language SDK (`gemini.ts`).

Two kinds of inputs become explicit parameters:

- Every `Math.random()` draw is a `real` in [0, 1) (`Scramble.IsDraw`).
  A frame receives one draw per character position.
- Every external result is an input value: the SDK's reply or exception
  (`Gemini.SdkOutcome`), the awaited chat reply (`Chat.Reply`), the clock
  reading that stamps a chat message, and the email-syntax rule of the form
  schema (`Uplink.EmailCheck`, left uninterpreted).

Timers and intervals are explicit too. The wizard's 2-second delay, the chat's
greeting timer and pending reply, and each interval firing are separate events.
Each event may only occur while the component has scheduled it.

Modules, one per source unit:

| file | module | models |
|---|---|---|
| text.dfy | `Text` | the JavaScript string operations the core relies on (`trim`, `join`, decimal printing), with splitting at a character and digit parsing as their reference inverses |
| catalog.dfy | `Catalog` | `types.ts` records and the `PROJECTS` / `SKILLS` lists of `constants.tsx` |
| scramble.dfy | `Scramble` | the shared `CHARS` alphabet and `CHARS[floor(random * 46)]` |
| uplink.dfy | `Uplink` | `components/Sections/UplinkTerminal.tsx` |
| chat.dfy | `Chat` | `components/UI/AIChatTerminal.tsx` |
| decryption.dfy | `Decryption` | `components/UI/DecryptionText.tsx` |
| footer.dfy | `Footer` | `components/Layout/Footer.tsx` (`SystemStatus`, `ArchitectSeal`) |
| boot.dfy | `Boot` | `components/UI/BootSequence.tsx` |
| missionlog.dfy | `MissionLog` | `components/Sections/MissionLog.tsx` |
| gemini.dfy | `Gemini` | `utils/gemini.ts` |

## Where the code and its design notes disagree (the model follows the code)

- **Double greeting.** The chat greeting is meant to appear once. The effect,
  however, checks `messages.length === 0` when the panel opens, not when its
  500 ms timer fires. So open, close and reopen within 500 ms arms two timers,
  and two greetings are appended (`Chat.QuickReopenGreetsTwice`).
- **Restart keeps the form.** "Initiate New Uplink" only resets `step` and
  `isSuccess`; the form values typed before stay in place (`Uplink.Restart`).
- **The wizard's step-3 branch.** `nextStep` has a step-3 branch that validates
  `parameters` and would advance to step 4. No control calls it on step 3, so
  through the UI the step stays within 1..3 (`Uplink.PressKeepsInvariant`,
  `Uplink.Reachable`). `Uplink.NextStep` still models the branch as written.
- **Log window size.** The boot log's comment says "last 5 logs", but the code
  keeps six (`slice(-6)`); the model keeps six (`Boot.Last6`).
- **Seal spaces.** The headline effect keeps spaces while scrambling. The footer
  seal does not: an unsolved space becomes a random glyph
  (`Footer.SealScramblesSpaces`).
- **Link caption.** A card with both a live and a video link points at the live
  URL but is captioned VIDEO (`MissionLog.LiveAndVideoMislabel`). No shipped
  project has both links.

## Model

| member | source | states |
|---|---|---|
| Text.Trim | components/UI/AIChatTerminal.tsx:47 | the result has no leading or trailing JavaScript whitespace and is a contiguous slice of the input |
| Text.TrimEmptyIffBlank | components/UI/AIChatTerminal.tsx:47 | `trim()` yields the empty string exactly when every character is whitespace |
| Text.Join | utils/gemini.ts:20-23 | joining nothing gives the empty string, joining one part gives that part, and a join starts with its first part |
| Text.Split | utils/gemini.ts:20-23 | the reference inverse of joining: splitting at a character yields at least one piece, and no piece contains that character |
| Text.SplitJoin | utils/gemini.ts:20-23 | joining newline-free lines with a newline and splitting at newlines gives back exactly the lines |
| Text.JoinSplit | utils/gemini.ts:20-23 | splitting a text at a character and joining the pieces with it gives back the text |
| Text.Decimal | utils/gemini.ts:20 | a number prints as a non-empty run of digits that starts with 0 only when it is exactly "0" (the numbers printed here are far below 10^21, where JavaScript switches to exponent notation) |
| Text.ParseDecimalOfDecimal | utils/gemini.ts:20 | reading back the printed digits yields the number |
| Scramble.GlyphIndex | components/UI/DecryptionText.tsx:9 | `floor(r * CHARS.length)` is a valid index into `CHARS` for every draw in [0, 1) |
| Scramble.Pick | components/UI/DecryptionText.tsx:48 | a random pick is a character of `CHARS`, never a space |
| Scramble.PickReachesEveryGlyph | components/UI/DecryptionText.tsx:48 | every character of `CHARS` is picked by some draw |
| Uplink.NextStep | components/Sections/UplinkTerminal.tsx:65-73 | the step advances by exactly one iff the current step's fields pass, and nothing but the step ever changes; otherwise the wizard is unchanged |
| Uplink.AdvanceFromIdentity | components/Sections/UplinkTerminal.tsx:65-73 | from step 1, PROCEED succeeds iff identity has at least 2 characters and the email is valid; otherwise the wizard is unchanged |
| Uplink.AdvanceFromObjective | components/Sections/UplinkTerminal.tsx:65-73 | from step 2, PROCEED succeeds iff an objective is chosen; otherwise the wizard is unchanged |
| Uplink.ObjectiveStepIgnoresOtherFields | components/Sections/UplinkTerminal.tsx:69-72 | two step-2 wizards with the same objective advance alike, whatever their other fields and email rule |
| Uplink.Back | components/Sections/UplinkTerminal.tsx:196-250 | BACK goes from step 2 to 1 and from 3 to 2 and validates nothing |
| Uplink.Submit | components/Sections/UplinkTerminal.tsx:75-82 | a form satisfying the whole schema starts transmitting exactly that data; any other form changes nothing |
| Uplink.TransmissionDone | components/Sections/UplinkTerminal.tsx:78-81 | the delay always ends in success, never in failure, and leaves the step and data alone |
| Uplink.Restart | components/Sections/UplinkTerminal.tsx:276 | restart returns to step 1 and clears success; the form values are kept |
| Uplink.SliderValue | components/Sections/UplinkTerminal.tsx:232-239 | the slider always yields a budget in 1000..50000 on the 500 grid, at most half a step from the requested position |
| Uplink.SliderValueIdempotent | components/Sections/UplinkTerminal.tsx:232-239 | a grid value passes through the slider unchanged |
| Uplink.Press | components/Sections/UplinkTerminal.tsx:115-276 | a control the current render does not offer changes nothing |
| Uplink.StartInvariant | components/Sections/UplinkTerminal.tsx:18-26 | the mounted wizard (step 1, budget 5000) satisfies the invariant |
| Uplink.PressKeepsInvariant | components/Sections/UplinkTerminal.tsx:115-276 | every offered control keeps the step in 1..3, the budget on the grid, and success tied to a transmitted valid form |
| Uplink.RunKeepsInvariant | components/Sections/UplinkTerminal.tsx:65-82 | any sequence of controls keeps the invariant |
| Uplink.Reachable | components/Sections/UplinkTerminal.tsx:9-15 | through the UI the step stays in 1..3, the budget rule always holds, and success implies a schema-valid form was transmitted |
| Uplink.SubmitGate | components/Sections/UplinkTerminal.tsx:9-15 | on a reachable wizard INITIALIZE starts transmitting iff identity, email, objective and parameters pass (the budget never blocks) |
| Chat.AddMessage | components/UI/AIChatTerminal.tsx:35-43 | one message is appended at the end, earlier messages and all other state untouched |
| Chat.Toggle | components/UI/AIChatTerminal.tsx:21-28 | the panel flips, and exactly one greeting timer is armed when it opens on an empty transcript, none otherwise |
| Chat.GreetingFires | components/UI/AIChatTerminal.tsx:24-26 | a fired timer appends the greeting as an AI message, uses up one armed timer and changes nothing else |
| Chat.CanSendIffNotBlankAndIdle | components/UI/AIChatTerminal.tsx:184 | the send control is enabled iff the input is not blank and no reply is pending |
| Chat.HandleSend | components/UI/AIChatTerminal.tsx:45-56 | blank input changes nothing and sends nothing; otherwise the input is cleared, the untrimmed text is appended as a user message, typing starts and that same text is sent |
| Chat.Settle | components/UI/AIChatTerminal.tsx:57-61 | a reply or a failure stops typing and appends exactly one AI message: the reply text, or the fixed CONNECTION ERROR text |
| Chat.Step | components/UI/AIChatTerminal.tsx:35-43 | every event keeps the existing transcript as a prefix |
| Chat.RunAppendOnly | components/UI/AIChatTerminal.tsx:35-43 | over any event trace, messages are never altered, reordered or removed |
| Chat.StepKeepsOneAtATime | components/UI/AIChatTerminal.tsx:52-62 | every event keeps at most one reply pending, with the typing flag saying whether one is |
| Chat.RunKeepsOneAtATime | components/UI/AIChatTerminal.tsx:52-62 | over any event trace, at most one reply is pending |
| Chat.QuickReopenGreetsTwice | components/UI/AIChatTerminal.tsx:21-28 | open, close, reopen within the delay yields two greetings |
| Decryption.RevealIndex | components/UI/DecryptionText.tsx:34-37 | the solved prefix never passes the text's end before the last tick and covers it at tick 40 |
| Decryption.RevealIndexProgress | components/UI/DecryptionText.tsx:29-37 | the solved prefix length never decreases, stays within the text for k ≤ 40, and covers it at k = 40 |
| Decryption.InitialFrame | components/UI/DecryptionText.tsx:22-24 | the first frame has the text's length, keeps every space, and draws every other position from `CHARS` |
| Decryption.Frame | components/UI/DecryptionText.tsx:33-49 | a tick's frame shows the target on the solved prefix, keeps spaces, and shows `CHARS` glyphs elsewhere |
| Decryption.SolvedStaysSolved | components/UI/DecryptionText.tsx:37-43 | a position solved at one tick shows the target at every later tick |
| Decryption.LastFrameIsText | components/UI/DecryptionText.tsx:37-43 | the frame of tick 40 is the text whatever the draws |
| Decryption.Start | components/UI/DecryptionText.tsx:19-24 | (re)starting shows the scrambled initial frame and starts the interval |
| Decryption.Tick | components/UI/DecryptionText.tsx:32-57 | each tick counts one step; before step 40 it shows that step's frame and keeps running; at step 40 the display snaps to the text and the interval stops; a stopped effect stays put |
| Decryption.FrameKeepsShape | components/UI/DecryptionText.tsx:39-49 | every frame keeps the text's length and spaces and shows the prefix solved at its tick |
| Decryption.FrameIsConsistent | components/UI/DecryptionText.tsx:39-51 | a running effect before tick 40 that shows its tick's frame satisfies the invariant |
| Decryption.SettledIsConsistent | components/UI/DecryptionText.tsx:53-56 | a stopped effect at tick 40 or later that shows the text satisfies the invariant |
| Decryption.TickKeepsConsistent | components/UI/DecryptionText.tsx:32-57 | every tick keeps length, spaces, the solved prefix, and the running flag in step with the tick count |
| Decryption.AnimationSettles | components/UI/DecryptionText.tsx:53-57 | after 40 ticks the display equals the text and scrambling has stopped |
| Decryption.StartIsConsistent | components/UI/DecryptionText.tsx:19-24 | the initial state satisfies the consistency invariant |
| Footer.Jitter | components/Layout/Footer.tsx:93 | the random change lies in -2..2 |
| Footer.LatencyTick | components/Layout/Footer.tsx:92-94 | a tick yields prev + change clamped to 12..45: exactly the sum when in range, 12 below, 45 above; an in-range value moves by at most 2 |
| Footer.Readings | components/Layout/Footer.tsx:88-96 | a run of ticks produces the start value and then one reading per tick, each the tick applied to the one before |
| Footer.ReadoutFromMount | components/Layout/Footer.tsx:88-94 | the readout starts at 24 and every later reading lies in 12..45 |
| Footer.ReadingsStayInRange | components/Layout/Footer.tsx:88-94 | from an in-range start, every reading is in 12..45 and consecutive readings differ by at most 2 |
| Footer.SealFrame | components/Layout/Footer.tsx:17-26 | a hovered frame keeps the length, shows the original below the iteration and a `CHARS` glyph elsewhere |
| Footer.SealScramblesSpaces | components/Layout/Footer.tsx:20-24 | an unsolved space of the seal is replaced by a glyph |
| Footer.HoverStart | components/Layout/Footer.tsx:14-16 | hovering starts a new decrypt run from iteration 0 |
| Footer.HoverEnd | components/Layout/Footer.tsx:35-39 | leaving stops the interval and restores the original text |
| Footer.SealTick | components/Layout/Footer.tsx:16-34 | each tick adds half a character to the iteration and shows that iteration's frame, leaving the hover flag alone; the interval is cleared at the tick where the iteration reaches the text's length, which shows the original |
| Footer.UnhoveredShowsOriginal | components/Layout/Footer.tsx:35-36 | over any trace of hover changes and ticks, an unhovered seal shows the original text |
| Footer.HoverDecrypts | components/Layout/Footer.tsx:16-34 | a seal held hovered long enough shows the original text and its interval has stopped |
| Boot.Last6 | components/UI/BootSequence.tsx:31-32 | the window is the last six elements, or all of them when there are fewer |
| Boot.Last6Append | components/UI/BootSequence.tsx:29-33 | trimming before appending a line gives the same window as trimming after |
| Boot.WindowGrows | components/UI/BootSequence.tsx:27-35 | the window over the first i + 1 lines is the window over the first i lines with line i appended and trimmed to six |
| Boot.LogTick | components/UI/BootSequence.tsx:27-36 | a log tick appends the next boot line and keeps the latest six; once all eight are out it changes nothing |
| Boot.ProgressTick | components/UI/BootSequence.tsx:39-50 | below 100 progress becomes progress + r·15, or exactly 100 when that sum reaches it, nothing else changing; at 100 it stays 100, both intervals stop, completion is scheduled and the log window is left alone |
| Boot.PercentInRange | components/UI/BootSequence.tsx:94 | the printed percentage lies in 0..100 |
| Boot.LogTickKeepsBootOk | components/UI/BootSequence.tsx:27-36 | a log tick keeps the invariant and leaves progress alone |
| Boot.ProgressTickKeepsBootOk | components/UI/BootSequence.tsx:39-50 | a progress tick keeps the invariant and never lowers progress |
| Boot.RunKeepsBootOk | components/UI/BootSequence.tsx:27-50 | over any interleaving of ticks: the window holds the latest at most six emitted lines in order, progress never decreases or passes 100, completion is scheduled at most once and only once both intervals stop |
| Boot.StartIsBootOk | components/UI/BootSequence.tsx:9-24 | the mounted boot screen satisfies the invariant |
| Boot.AllLinesEmitted | components/UI/BootSequence.tsx:13-28 | after all eight lines the window shows lines 3..8 and log ticks change nothing |
| MissionLog.Chips | components/Sections/MissionLog.tsx:77 | the overlay shows the first min(4, len) tech entries, in order |
| MissionLog.Overflow | components/Sections/MissionLog.tsx:82-86 | a "+N" badge appears iff there are more than four entries, with chips plus N equal to the count |
| MissionLog.BadgeText | components/Sections/MissionLog.tsx:84 | the badge is "+" followed by the hidden count's canonical digits (no leading zero), which read back as the count |
| MissionLog.ChipsAndBadgeCoverTech | components/Sections/MissionLog.tsx:77-86 | chips followed by the hidden entries are exactly the tech list |
| MissionLog.SourceLink | components/Sections/MissionLog.tsx:43-55 | the SOURCE link appears iff a github link is present, pointing at it |
| MissionLog.ExternalLink | components/Sections/MissionLog.tsx:57-71 | the second link appears iff live or video is present; it targets live if present, else video; its caption is VIDEO iff video is present, else DEMO |
| MissionLog.LiveAndVideoMislabel | components/Sections/MissionLog.tsx:57-66 | with both links present the target is the live URL while the caption is VIDEO |
| MissionLog.RowLayout | components/Sections/MissionLog.tsx:28 | odd rows use the reversed layout, even rows the normal one |
| MissionLog.RowsAlternate | components/Sections/MissionLog.tsx:28 | consecutive rows have different layouts |
| MissionLog.RowLabel | components/Sections/MissionLog.tsx:95 | the row marker is a literal zero, the one-based position in canonical digits (no leading zero of its own), and " //"; the digits read back as the position |
| MissionLog.RenderCard | components/Sections/MissionLog.tsx:26-86 | a card's chips are a prefix of its tags, which are the project's tech; the badge appears iff there are more than four tags and counts the rest; odd positions are reversed; the second link appears iff live or video is present |
| MissionLog.RenderLog | components/Sections/MissionLog.tsx:21-28 | one card per project, in list order, each card's tags its project's tech, and neighbouring cards in alternate layouts |
| MissionLog.LayoutsAlternate | components/Sections/MissionLog.tsx:28 | along any run of rows, every two neighbours have different layouts |
| MissionLog.ShippedCard0 | components/Sections/MissionLog.tsx:21-86 | the first shipped card links DEMO to the live site, in the normal layout |
| MissionLog.ShippedCard1 | components/Sections/MissionLog.tsx:21-86 | the second shipped card links VIDEO to the recording, in the reversed layout |
| MissionLog.ShippedCard2 | components/Sections/MissionLog.tsx:21-86 | the third shipped card has no second link |
| MissionLog.ShippedCards | components/Sections/MissionLog.tsx:21-86 | the shipped catalogue: card 1 DEMO to the live site, card 2 VIDEO, card 3 no second link, all with SOURCE and four chips |
| Gemini.SkillLines | utils/gemini.ts:20 | one line per skill, in list order |
| Gemini.ProjectLines | utils/gemini.ts:23 | one line per project, in list order |
| Gemini.SkillLineIsOneLine | utils/gemini.ts:20 | a skill line holds no newline when its fields hold none |
| Gemini.ProjectLineIsOneLine | utils/gemini.ts:23 | a project line, tech joined by ", ", holds no newline when its fields hold none |
| Gemini.SkillsSectionLines | utils/gemini.ts:20 | the SKILLS section splits at newlines back into exactly the skill lines |
| Gemini.ProjectsSectionLines | utils/gemini.ts:23 | the PROJECTS section splits at newlines back into exactly the project lines |
| Gemini.PromptCutsApart | utils/gemini.ts:10-33 | any fixed text around the two sections can be cut off again, each section splitting back into its lines |
| Gemini.SystemPromptSections | utils/gemini.ts:10-33 | the system prompt is the fixed head, the SKILLS section one line per skill, the fixed middle, the PROJECTS section one line per project, and the fixed tail |
| Gemini.SeedHistory | utils/gemini.ts:43-54 | the chat is seeded with exactly two turns: the system prompt built from the catalogue as the user, then the fixed acknowledgement as the model |
| Gemini.GenerateResponse | utils/gemini.ts:35-62 | without a key the fixed alert is returned and nothing is sent; otherwise only the prompt is sent on the seeded chat and the reply, or on failure the fixed error text, is returned |
| Gemini.MissingKeySkipsSdk | utils/gemini.ts:36-38 | without a key the SDK's behaviour makes no difference |
| Gemini.AnswerProvenance | utils/gemini.ts:35-62 | every path returns a string: the alert, the error text, or exactly the SDK's reply to the sent prompt |

## Left out

- Markup, Tailwind classes and framer-motion animation: presentation with no statable behaviour.
- Audio (`playTypingSound`, the AudioContext): best-effort output whose errors are swallowed.
- The generative-language SDK: its reply or exception is an input (`Gemini.SdkOutcome`, `Chat.Reply`); `getGenerativeModel`, `startChat` and `sendMessage` are not modelled beyond the request they receive.
- Email syntax and the rest of zod and react-hook-form: the email rule is a parameter; the `min` rules are length checks on `seq<char>`, which counts code points where JavaScript counts UTF-16 units.
- Error messages under the wizard's fields and the `console` output: display only.
- Message ids and timestamps: the clock reading is a parameter. Two messages may share a millisecond, so nothing claims ids are unique.
- Scheduling: `setTimeout`, `setInterval` and React batching are discrete events. The source's state updaters read the closure variables `logIndex` (boot log) and `iteration` (footer seal) whenever React runs them, which can be after the `++` or the `+= 1/2` that follows; the model instead fixes the value read at the event that schedules the update.
- The chat's scroll-into-view effect (`AIChatTerminal`): DOM only. The wizard declares a terminal ref but never scrolls.
- Uplink.SliderValue: models the range input on integer positions; the browser's handling of fractional or out-of-range values is not modelled beyond clamping and rounding to the step.
- Decryption.InitialFrame, Decryption.Frame, Decryption.RevealIndex and Footer.SealFrame: index code points, while `split('')` and `.length` count UTF-16 code units; the two agree on the shipped texts, which are ASCII, and differ on text outside the Basic Multilingual Plane.
- Decryption.RevealIndex: uses the integer quotient `(k * len) / 40` where the code uses the double `floor((k / 40) * len)`; rounding of the double is not modelled.
- Boot.ProgressTick: progress is a `real`, not a double; rounding of the sum is not modelled.
- The `onComplete` callback and the 500 ms delay before it: only its scheduling is counted (`Boot.completions`).
- The static data in `constants.tsx` has no properties of its own; it feeds the prompt and the card rules. The module-level `SKILLS` and `PROJECTS` that `gemini.ts` reads are parameters of `Gemini.SeedHistory` and `Gemini.GenerateResponse`; the site's values are `Catalog.Skills` and `Catalog.Projects`.
- Other components (`TechMatrix`, `NeuralHUD`, `BioData`, `SupplyDepot`, `Hero`, `Navbar`, `App`, `HoloCard`, `CustomCursor`, `GlitchText`, `MailButton`) are not part of this model.
