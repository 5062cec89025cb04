# interact-visual: a verified model of the drawing pipeline

interact-visual is a tutoring web app. A student types a question. A language model answers it as a list of
steps, and each step has an explanation and a list of drawing instructions: text, lines, arrows,
rectangles and ellipses placed on a canvas. The drawing area plays the steps back one at a time. This
project models the deterministic core of that pipeline in Dafny and proves what it guarantees:

- `wrappers.dfy` (`Wrappers`) holds the `Option` type. Every optional property of an instruction is an `Option`.
- `strings.dfy` (`Strings`) models the JavaScript string operations the core relies on:
  - `trim()`, which strips the ECMAScript white-space and line-terminator characters;
  - `split('\n')` and its inverse `join('\n')`;
  - the decimal rendering of an integer inside a template literal.
- `openai.dfy` (`OpenAi`) covers `src/lib/openai.ts`:
  - the `DrawingInstruction` / `StepByStepResponse` data model;
  - the validation map that `generateStepByStepDrawing` applies to the parsed model reply: it clamps
    positions into the viewport and defaults the font size and colour;
  - the fixed fallback answer;
  - the two deterministic builders `textToDrawingInstructions` and `generateMathVisualization`, as methods with loops.
- `excalidraw-utils.dfy` (`ExcalidrawUtils`) covers `src/lib/excalidraw-utils.ts`:
  - the geometry and defaults of `createExcalidrawElement`, and `convertToExcalidrawElements`;
  - `groupElementsByDelay`, as a method that builds a table in a loop and then sorts its entries;
  - the literal rewrites of `formatMathText` and its `sqrt(...)` rewrite;
  - `getNextPosition` and `createSeparator`.
- `drawing-area.dfy` (`DrawingArea`) covers `src/components/drawing-area.tsx`:
  - the component becomes the class `DrawingArea`. Its fields are the state hooks, plus the cursor the
    `playSteps` closure keeps and a flag for the one pending timer;
  - its methods are the two halves of `handleSend`, `playSteps` and `playNextStep`, a timer firing
    (`Tick`), `pauseSteps` and `resetSteps`;
  - the style defaults of `renderInstruction`.
- `concept-sidebar.dfy` (`ConceptSidebar`) covers `toggleSubject` in `src/components/concept-sidebar.tsx`,
  together with the initial list of expanded subjects.

JavaScript's `a || b` treats `undefined`, `0` and `""` all as absent. It is modelled by `OpenAi.OrNumber`
and `OpenAi.OrString`. A default parameter value applies only to `undefined`; it is modelled as an
`Option` whose `None` picks the default.

The class invariant `DrawingArea.DrawingArea.Valid` ties the state together:
- the closure's accumulated instructions are exactly the instructions of the steps it has played;
- the canvas is empty or shows all of them;
- the play button shows "pause" exactly while a tick is pending;
- no steps are held while a question is loading.

Every method preserves the invariant and states its whole new state through `Snapshot()`.

Four facts about the code shape the playback model:
- `groupElementsByDelay` only sorts the groups by delay, and nothing in playback uses them.
- Playback advances one step every 2000 ms and ignores per-instruction delays; it never calls
  `groupElementsByDelay`.
- Every `playSteps` restarts from the first step.
- `handleSend` does not cancel a pending playback tick. `BeginSend` leaves `tickPending` as it was, so a
  tick may fire while a question is loading.

## Model

| member | source | states |
|---|---|---|
| OpenAi.OrNumber | src/lib/openai.ts:126 | `n \|\| fallback` on a number: the fallback for absent or 0, the value otherwise |
| OpenAi.OrString | src/lib/openai.ts:127 | `s \|\| fallback` on a string: the fallback for absent or "", the value otherwise |
| OpenAi.Clamp | src/lib/openai.ts:124-125 | `Math.max(lo, Math.min(hi, v))` lies in [lo, hi], keeps an in-range value and snaps an out-of-range one to the nearer bound |
| OpenAi.ValidateInstruction | src/lib/openai.ts:122-128 | the validated instruction has x in [100, 700] and y in [200, 500]; an in-range coordinate is kept and an out-of-range one becomes the nearer bound; an absent or 0 font size becomes 16, any other is kept; an absent or empty colour becomes #1f2937, any other is kept; every other property is unchanged |
| OpenAi.ValidateStep | src/lib/openai.ts:120-129 | a validated step keeps its explanation, step number and total, and the same number of instructions, each validated in its place |
| OpenAi.ValidateSteps | src/lib/openai.ts:120-129 | validation keeps the number and order of steps, validates each step in place, and leaves every instruction normalised |
| OpenAi.NormalisedIffFixpoint | src/lib/openai.ts:122-128 | an instruction is left unchanged by validation exactly when it is already in the viewport with a non-zero font size and a non-empty colour |
| OpenAi.ValidateStepsFixpoint | src/lib/openai.ts:120-129 | a step list is left unchanged by validation exactly when all its instructions are already normalised |
| OpenAi.ValidateStepsIdempotent | src/lib/openai.ts:120-129 | validating a validated step list changes nothing |
| OpenAi.Fallback | src/lib/openai.ts:137-161 | the fallback is one step numbered 1 of 1 with the fixed explanation and two text instructions: "Problem: " + question at (100, 200) with delay 0, and the follow-up line at (100, 250) with delay 1000; all of it is normalised |
| OpenAi.FallbackIsValidated | src/lib/openai.ts:137-161 | validating the fallback would change nothing |
| OpenAi.GenerateStepByStepDrawing | src/lib/openai.ts:110-161 | a parsed reply gives its validated steps and any failure gives the fallback; either way every instruction returned is normalised |
| OpenAi.NonBlankIndices | src/lib/openai.ts:177-178 | the indices of the lines whose trim is non-empty are all in range |
| OpenAi.NonBlankIndicesSpec | src/lib/openai.ts:177-178 | those indices are strictly increasing and are exactly the lines that are not all whitespace |
| OpenAi.TextToDrawingInstructions | src/lib/openai.ts:166-193 | one text instruction per non-blank line of `split('\n')`, in order; the k-th holds the trimmed line at (startX, startY + 40k), with size 16, colour #374151 and delay 500 times the line's index in the split |
| OpenAi.MathLayoutDelays | src/lib/openai.ts:204-243 | in the header/step/arrow layout, instruction p >= 1 is delayed 500(p + 1) ms and the header 0, so the delays never decrease |
| OpenAi.GenerateMathVisualization | src/lib/openai.ts:196-246 | for n steps: 1 + n + max(n - 1, 0) instructions. The header comes first. Step i is at index 2i + 1 at (120, 260 + 70i) with delay 1000(i + 1). Each arrow but the last is at 2i + 2, from (100, 285 + 70i) to (100, 305 + 70i), with delay 1000(i + 1) + 500. The delays never decrease |
| Strings.Trim | src/lib/openai.ts:178-181 | the trimmed string is no longer than the input and neither starts nor ends with whitespace |
| Strings.TrimIsInfix | src/lib/openai.ts:178-181 | trim removes exactly a whitespace prefix and a whitespace suffix and keeps the contiguous middle |
| Strings.TrimEmptyIff | src/components/drawing-area.tsx:117 | a string trims to "" exactly when every character is whitespace |
| Strings.SplitLines | src/lib/openai.ts:174 | `split('\n')` gives at least one piece and no piece contains a newline |
| Strings.JoinSplitLines | src/lib/openai.ts:174 | joining the pieces of `split('\n')` with newlines gives back the text |
| Strings.SplitJoinLines | src/lib/openai.ts:174 | splitting newline-free pieces joined by newlines gives back the pieces |
| Strings.NatToString | src/lib/openai.ts:220 | decimal digits, at least one, without a leading zero |
| Strings.NatToStringValue | src/lib/openai.ts:220 | reading the digits back gives the number |
| Strings.IntToString | src/lib/openai.ts:220 | the rendering starts with '-' exactly for a negative number |
| ExcalidrawUtils.LinearEnd | src/lib/excalidraw-utils.ts:71-72 | a line ends at (endX \|\| x + 100, endY \|\| y) and an arrow at (endX \|\| x + 100, endY \|\| y + 50); 0 counts as absent |
| ExcalidrawUtils.CreateExcalidrawElement | src/lib/excalidraw-utils.ts:16-157 | the element keeps x and y, with stroke colour `color \|\| #1e1e1e` and stroke width `strokeWidth \|\| 2`. Text gets content `\|\| ""`, size `\|\| 16` and width length × size × 0.6. A line or arrow is two points from (0, 0) to the defaulted end, with width and height at least 1; only an arrow has an end arrowhead. Rectangles and ellipses default to 100 × 50. Any other type becomes a 16-point text element reading `content \|\| "Unknown element"`, 10 per character wide |
| ExcalidrawUtils.LinearEndKept | src/lib/excalidraw-utils.ts:70-113 | an explicit non-zero end point survives conversion exactly, relative to (x, y) |
| ExcalidrawUtils.ConvertToExcalidrawElements | src/lib/excalidraw-utils.ts:160-164 | exactly one element per instruction, in the same order |
| ExcalidrawUtils.ConvertAppend | src/lib/excalidraw-utils.ts:160-164 | converting a concatenation converts each part |
| OpenAi.DelayOf | src/lib/excalidraw-utils.ts:173 | an instruction's delay and grouping key is its delay, or 0 when the delay is absent or 0 |
| ExcalidrawUtils.GroupElementsByDelay | src/lib/excalidraw-utils.ts:167-186 | the groups have strictly increasing delays, one group per key that occurs and no other, and each group holds the converted instructions with its key, in input order |
| ExcalidrawUtils.SortedKeys | src/lib/excalidraw-utils.ts:180-185 | the table's keys in strictly ascending order, each exactly once |
| ExcalidrawUtils.SortedEntries | src/lib/excalidraw-utils.ts:180-185 | one group per table entry with the entry's elements, by strictly ascending delay |
| ExcalidrawUtils.Least | src/lib/excalidraw-utils.ts:185 | the member of a non-empty key set that sorts first |
| ExcalidrawUtils.GroupingIsPartition | src/lib/excalidraw-utils.ts:172-178 | the groups' sizes add up to the number of instructions, so nothing is lost or duplicated |
| ExcalidrawUtils.WithDelaySelects | src/lib/excalidraw-utils.ts:172-177 | a group takes every instruction with its key and only those |
| ExcalidrawUtils.InstructionInItsGroup | src/lib/excalidraw-utils.ts:172-178 | every instruction's key has a group |
| ExcalidrawUtils.ReplaceAll | src/lib/excalidraw-utils.ts:197-207 | a global literal `replace` keeps a non-empty string non-empty, and it starts with the old first character or the replacement |
| ExcalidrawUtils.ReplaceAllAbsent | src/lib/excalidraw-utils.ts:197-207 | replacing a pattern that does not occur changes nothing |
| ExcalidrawUtils.ReplaceAllRemovesPair | src/lib/excalidraw-utils.ts:197 | after `** -> ^` (and likewise `pi -> π`) no two adjacent characters spell the pattern |
| ExcalidrawUtils.ReplaceAllKeepsNoPair | src/lib/excalidraw-utils.ts:198-207 | a later literal rewrite never creates such a pair |
| ExcalidrawUtils.CloseParen | src/lib/excalidraw-utils.ts:198 | the lazy `(.*?)\)` ends at the first ')' after `from`, and no line terminator comes before it; when there is no match, every ')' has a line terminator before it, so `sqrt(a\n)` is left as it is |
| ExcalidrawUtils.RewriteSqrt | src/lib/excalidraw-utils.ts:198 | a non-empty string stays non-empty and starts with its old first character or '√' |
| ExcalidrawUtils.CloseParenFirst | src/lib/excalidraw-utils.ts:198 | the lazy group ends at the first ')' when no line terminator comes before it |
| ExcalidrawUtils.RewriteSqrtMatch | src/lib/excalidraw-utils.ts:198 | `sqrt(x)` with x on one line and without ')' becomes `√(x)`, and the rewrite carries on after the ')' |
| ExcalidrawUtils.RewriteSqrtAbsent | src/lib/excalidraw-utils.ts:198 | with no `sqrt(` the rewrite changes nothing |
| ExcalidrawUtils.RewriteSqrtKeepsNoPair | src/lib/excalidraw-utils.ts:198 | the sqrt rewrite never creates a `**` or `pi` pair |
| ExcalidrawUtils.FormatMathText | src/lib/excalidraw-utils.ts:194-208 | the eleven rewrites in the source's order: `**` to `^`, `sqrt(…)` to `√(…)`, then pi, alpha, beta, gamma, theta, delta, sum, integral and infinity to their symbols; a non-empty text stays non-empty (what the rewrites achieve is stated by FormatMathTextUnchanged and FormatMathTextRewrites) |
| ExcalidrawUtils.FormatMathTextUnchanged | src/lib/excalidraw-utils.ts:194-208 | a text containing none of the eleven notations comes back unchanged |
| ExcalidrawUtils.FormatMathTextRewrites | src/lib/excalidraw-utils.ts:194-208 | the formatted text contains no `**` and no `pi` |
| ExcalidrawUtils.GetNextPosition | src/lib/excalidraw-utils.ts:302-306 | the next position is at x = 100, spacing (default 40) below currentY |
| ExcalidrawUtils.CreateSeparator | src/lib/excalidraw-utils.ts:279-294 | a horizontal line element at (x, y) with stroke width 1 and colour #d1d5db by default, reaching width to the right; an explicit "" colour falls to #1e1e1e, and an end at x-coordinate 0 falls to the 100 default |
| DrawingArea.ConcatAppend | src/components/drawing-area.tsx:162 | the instructions of two step lists played one after the other are the two accumulations concatenated |
| DrawingArea.DrawingArea.constructor | src/components/drawing-area.tsx:105-113 | the initial hook values: empty message, not loading, step 0, not playing, no steps, empty explanation and canvas, no timer |
| DrawingArea.DrawingArea.TypeMessage | src/components/drawing-area.tsx:384-386 | typing replaces the message and nothing else; the input is disabled while loading |
| DrawingArea.DrawingArea.BeginSend | src/components/drawing-area.tsx:115-123 | a blank message or a send while loading changes nothing; otherwise loading starts and the step, steps, explanation and canvas are cleared, and nothing else changes |
| DrawingArea.DrawingArea.CompleteSend | src/components/drawing-area.tsx:125-142 | the generated steps are stored; a non-empty list shows its first explanation on an empty canvas; a throw shows the error text; loading ends and the message is cleared; nothing else changes |
| DrawingArea.DrawingArea.PlayNextStep | src/components/drawing-area.tsx:152-167 | past the end only isPlaying becomes false and nothing is scheduled; otherwise the next step's explanation is shown with everything played so far plus its instructions, the cursor and currentStep advance, and a tick is scheduled |
| DrawingArea.DrawingArea.PlaySteps | src/components/drawing-area.tsx:145-170 | with no steps nothing changes; otherwise the steps are captured and playback restarts from the first step, which is shown at once with a tick scheduled |
| DrawingArea.DrawingArea.Tick | src/components/drawing-area.tsx:166 | a firing timer runs playNextStep on the captured steps |
| DrawingArea.DrawingArea.PauseSteps | src/components/drawing-area.tsx:172-177 | playing stops and the pending tick is cancelled; nothing else changes |
| DrawingArea.DrawingArea.ResetSteps | src/components/drawing-area.tsx:179-184 | pauses, then step 0, an empty canvas and the first step's explanation, or "" with no steps |
| DrawingArea.DrawingArea.PlayToEnd | src/components/drawing-area.tsx:145-170 | playing n steps to the end runs playNextStep n + 1 times and stops on step n with its explanation and every step's instructions on the canvas, the cursor at the end and no tick pending; the message, loading flag and steps are unchanged |
| DrawingArea.FontWeight | src/components/drawing-area.tsx:193 | the weight is "600" exactly for a font size above 16, otherwise "normal" |
| DrawingArea.RenderInstruction | src/components/drawing-area.tsx:186-290 | text and equation draw a text block at (x, y) with size `\|\| 16` and colour `\|\| #374151`. Rectangles and ellipses draw a box defaulting to 100 × 50 with border `strokeWidth \|\| 2` in `color \|\| #3b82f6`, rounded 4px or 50%. Arrows and lines draw a segment to `endX \|\| x` and `endX \|\| x + 50` respectively, and to `endY \|\| y`. Any other type draws nothing. Each "exactly when" holds both ways |
| DrawingArea.RenderValidatedText | src/components/drawing-area.tsx:187-193 | a validated text instruction renders with its own size and colour or the validation defaults (16, #1f2937), inside the viewport, so the renderer's own grey never applies |
| ConceptSidebar.RemoveAll | src/components/concept-sidebar.tsx:56 | the filtered list lacks the name, keeps exactly the other members and is no longer |
| ConceptSidebar.ToggleSubject | src/components/concept-sidebar.tsx:53-59 | the toggled name's membership flips and every other name's membership is unchanged |
| ConceptSidebar.RemoveAllCounts | src/components/concept-sidebar.tsx:56 | removal keeps every other entry with its multiplicity |
| ConceptSidebar.RemoveAllIsSubsequence | src/components/concept-sidebar.tsx:56 | removal keeps the relative order of the remaining entries |
| ConceptSidebar.RemoveAllDistinct | src/components/concept-sidebar.tsx:56 | removal keeps a duplicate-free list duplicate-free |
| ConceptSidebar.ToggleSubjectShape | src/components/concept-sidebar.tsx:54-58 | a present name is removed, keeping the others in order and with their multiplicities; an absent name is appended after the unchanged list |
| ConceptSidebar.ToggleSubjectDistinct | src/components/concept-sidebar.tsx:55-57 | a duplicate-free list stays duplicate-free after a toggle |
| ConceptSidebar.ToggleSubjectTwice | src/components/concept-sidebar.tsx:54-58 | expanding a collapsed subject and collapsing it again restores the list |
| ConceptSidebar.ApplyTogglesDistinct | src/components/concept-sidebar.tsx:53-59 | any series of toggles keeps a duplicate-free list duplicate-free |
| ConceptSidebar.ExpandedSubjectsDistinct | src/components/concept-sidebar.tsx:51-59 | starting from ["Algebra"], no subject is ever listed twice |

## Left out

- The model call is left out: the OpenAI client, the prompt, the API-key check at module load, the
  empty-content check and `JSON.parse` (src/lib/openai.ts:4-11, 94-117). They are external I/O. Their
  outcome is the parameter `OpenAi.ModelReply`: parsed steps, or any throw.
- A reply of the wrong shape is not modelled. A missing or non-numeric `x` would give `NaN`, and the code does
  no checking of its own. The model takes a parsed reply to be well typed.
- Numbers are integers. Float coordinates, font sizes and `NaN` are not modelled, and neither is the
  JavaScript spelling of large numbers in `Object.entries` keys (1e21 and above).
- The text width is kept as an exact real, length × size × 0.6, without floating-point rounding. The
  length counts characters, whereas JavaScript's `.length` counts UTF-16 code units, so text with a
  character outside the Basic Multilingual Plane (an emoji, say) gets a different width.
- ExcalidrawUtils.CreateExcalidrawElement leaves out the properties that are constants or random:
  - `id`, `seed`, `versionNonce`, `updated` and the fractional `index` come from `Math.random` and `Date.now`;
  - `baseline`, which always equals the element's height;
  - `fontFamily`, `lineHeight`, alignment, `roughness`, `opacity` and the other constant base properties.
- The renderer's segment length and angle (`Math.sqrt`, `Math.atan2`) are floating point. The model keeps
  the segment's end offset instead. The JSX elements and the CSS strings they are written into are left out; `DrawingArea.RenderInstruction` keeps the style values.
- Timers are not modelled as time. The 2000 ms step timer (src/components/drawing-area.tsx:166) becomes
  the `tickPending` flag and explicit `Tick` calls. The artificial 1000 ms wait (line 126) is the gap
  between `BeginSend` and `CompleteSend`.
- Logging is not modelled: the `console.log` and `console.error` calls at src/lib/openai.ts:117 and 134 and
  src/components/drawing-area.tsx:136. Nothing in the core depends on them.
- React's batching of state updates is not modelled; updates happen in program order. A timer firing
  between the two halves of `handleSend` is modelled by calling `Tick` between `BeginSend` and `CompleteSend`.
- DrawingArea.DrawingArea.PlaySteps requires that nothing is playing. The play button calls `playSteps`
  only then (src/components/drawing-area.tsx:355). A second call during playback would start a second
  closure beside the first, and one cursor cannot model that.
- DrawingArea.DrawingArea.CompleteSend keeps the `Threw` branch of `handleSend`'s catch. `generateStepByStepDrawing`
  catches every error itself, so in practice that branch is never taken.
- `textToDrawingInstructions`' default `startX = 100` and `startY = 200` are not modelled; the model takes both as arguments.
- `createTitle`, `createStepIndicator`, `createContentBox` and `createMathExpression` are wrappers over
  `createExcalidrawElement` with fixed arguments. `clearCanvas` returns the empty list and `getCanvasCenter`
  returns the constant (400, 300) (src/lib/excalidraw-utils.ts:189-191, 297-299). None of these six is part of this model.
- Not part of this model, because they are external services or layout only:
  - src/components/VoiceAgent.tsx and src/lib/vapi/vapiServer.ts (voice SDK and JWT signing);
  - src/actions/auth.ts (authentication and database access);
  - src/app/api/generate-drawing/route.ts (an HTTP wrapper);
  - src/lib/seed.ts (entirely commented out);
  - src/app/layout.tsx and src/components/top-bar.tsx (layout only).
