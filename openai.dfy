/**
 * The drawing-instruction data model and the instruction producers of lib/openai.ts:
 * the validation map applied to the language model's parsed reply, the fixed fallback
 * answer, and the two deterministic builders textToDrawingInstructions and
 * generateMathVisualization.
 */
module OpenAi {
  import opened Wrappers
  import opened Strings

  /**
   * The `type` tag of an instruction; Other covers tags such as 'freedraw' or 'equation'.
   * A tag read from JavaScript is never Other of 'text', 'line', 'arrow', 'rectangle' or
   * 'ellipse': those five have constructors of their own.
   */
  datatype Kind = Text | Line | Arrow | Rectangle | Ellipse | Other(name: string)

  /** One DrawingInstruction; every optional property is an Option. */
  datatype DrawingInstruction = DrawingInstruction(
    kind: Kind,
    content: Option<string>,
    x: int,
    y: int,
    width: Option<int>,
    height: Option<int>,
    endX: Option<int>,
    endY: Option<int>,
    fontSize: Option<int>,
    color: Option<string>,
    strokeWidth: Option<int>,
    delay: Option<int>)

  /** One StepByStepResponse: an explanation and the instructions that draw it. */
  datatype StepByStepResponse = StepByStepResponse(
    explanation: string,
    drawingInstructions: seq<DrawingInstruction>,
    stepNumber: int,
    totalSteps: int)

  /** JavaScript `n || fallback` on an optional number: absent and 0 are both falsy. */
  function OrNumber(n: Option<int>, fallback: int): (r: int)
    ensures (n == None || n == Some(0)) ==> r == fallback
    ensures n.Some? && n.value != 0 ==> r == n.value
  {
    if n.Some? && n.value != 0 then n.value else fallback
  }

  /** JavaScript `s || fallback` on an optional string: absent and "" are both falsy. */
  function OrString(s: Option<string>, fallback: string): (r: string)
    ensures (s == None || s == Some("")) ==> r == fallback
    ensures s.Some? && s.value != "" ==> r == s.value
  {
    if s.Some? && s.value != "" then s.value else fallback
  }

  // The visible viewport the validator clamps into, and its defaults.
  const MinX := 100
  const MaxX := 700
  const MinY := 200
  const MaxY := 500
  const DefaultFontSize := 16
  const DefaultColor := "#1f2937"

  /** Math.max(lo, Math.min(hi, v)). */
  function Clamp(v: int, lo: int, hi: int): (r: int)
    requires lo <= hi
    ensures lo <= r <= hi
    ensures lo <= v <= hi ==> r == v
    ensures v < lo ==> r == lo
    ensures v > hi ==> r == hi
  {
    if hi < v then hi else if v < lo then lo else v
  }

  predicate InViewport(i: DrawingInstruction) {
    MinX <= i.x <= MaxX && MinY <= i.y <= MaxY
  }

  /** What the validator guarantees of an instruction: in the viewport, with a font size and a colour. */
  predicate Normalised(i: DrawingInstruction) {
    InViewport(i)
    && i.fontSize.Some? && i.fontSize.value != 0
    && i.color.Some? && i.color.value != ""
  }

  /** The per-instruction body of the validation map. */
  function ValidateInstruction(i: DrawingInstruction): (r: DrawingInstruction)
    ensures Normalised(r)
    ensures MinX <= i.x <= MaxX ==> r.x == i.x
    ensures i.x < MinX ==> r.x == MinX
    ensures i.x > MaxX ==> r.x == MaxX
    ensures MinY <= i.y <= MaxY ==> r.y == i.y
    ensures i.y < MinY ==> r.y == MinY
    ensures i.y > MaxY ==> r.y == MaxY
    ensures (i.fontSize == None || i.fontSize == Some(0)) ==> r.fontSize == Some(DefaultFontSize)
    ensures i.fontSize.Some? && i.fontSize.value != 0 ==> r.fontSize == i.fontSize
    ensures (i.color == None || i.color == Some("")) ==> r.color == Some(DefaultColor)
    ensures i.color.Some? && i.color.value != "" ==> r.color == i.color
    // only x, y, fontSize and color are touched
    ensures r == i.(x := r.x, y := r.y, fontSize := r.fontSize, color := r.color)
  {
    i.(x := Clamp(i.x, MinX, MaxX),
       y := Clamp(i.y, MinY, MaxY),
       fontSize := Some(OrNumber(i.fontSize, DefaultFontSize)),
       color := Some(OrString(i.color, DefaultColor)))
  }

  /** The per-step body of the validation map: same step, each instruction validated in place. */
  function ValidateStep(s: StepByStepResponse): (r: StepByStepResponse)
    ensures r.explanation == s.explanation && r.stepNumber == s.stepNumber && r.totalSteps == s.totalSteps
    ensures |r.drawingInstructions| == |s.drawingInstructions|
    ensures forall j :: 0 <= j < |s.drawingInstructions| ==>
              r.drawingInstructions[j] == ValidateInstruction(s.drawingInstructions[j])
  {
    var ins := s.drawingInstructions;
    s.(drawingInstructions := seq(|ins|, j requires 0 <= j < |ins| => ValidateInstruction(ins[j])))
  }

  /** Every instruction of every step is normalised. */
  predicate AllNormalised(steps: seq<StepByStepResponse>) {
    forall k, j :: 0 <= k < |steps| && 0 <= j < |steps[k].drawingInstructions| ==>
      Normalised(steps[k].drawingInstructions[j])
  }

  /** The validation map of generateStepByStepDrawing over the parsed steps. */
  function ValidateSteps(steps: seq<StepByStepResponse>): (r: seq<StepByStepResponse>)
    ensures |r| == |steps|
    ensures forall k :: 0 <= k < |steps| ==> r[k] == ValidateStep(steps[k])
    ensures AllNormalised(r)
  {
    seq(|steps|, k requires 0 <= k < |steps| => ValidateStep(steps[k]))
  }

  /** An instruction is left alone by the validator exactly when it is already normalised. */
  lemma NormalisedIffFixpoint(i: DrawingInstruction)
    ensures Normalised(i) <==> ValidateInstruction(i) == i
  {
  }

  /** A step list is left alone by the validator exactly when all of its instructions are normalised. */
  lemma ValidateStepsFixpoint(steps: seq<StepByStepResponse>)
    ensures AllNormalised(steps) <==> ValidateSteps(steps) == steps
  {
    if AllNormalised(steps) {
      forall k | 0 <= k < |steps| ensures ValidateStep(steps[k]) == steps[k] {
        var ins := steps[k].drawingInstructions;
        var v := ValidateStep(steps[k]).drawingInstructions;
        forall j | 0 <= j < |ins| ensures v[j] == ins[j] {
          NormalisedIffFixpoint(ins[j]);
        }
        assert v == ins;
      }
    }
  }

  /** Validating twice is validating once. */
  lemma ValidateStepsIdempotent(steps: seq<StepByStepResponse>)
    ensures ValidateSteps(ValidateSteps(steps)) == ValidateSteps(steps)
  {
    ValidateStepsFixpoint(ValidateSteps(steps));
  }

  /** The outcome of the chat-completion call and JSON.parse: parsed steps, or any throw. */
  datatype ModelReply = Parsed(steps: seq<StepByStepResponse>) | Failed

  const FallbackExplanation := "Let me help you solve this step by step"
  const FallbackFollowUp := "I'll work through this systematically..."

  function TextAt(content: string, x: int, y: int, fontSize: int, color: string, delay: int): DrawingInstruction {
    DrawingInstruction(Text, Some(content), x, y, None, None, None, None, Some(fontSize), Some(color), None, Some(delay))
  }

  /** The fixed answer returned when anything in the generation call throws. */
  function Fallback(question: string): (r: seq<StepByStepResponse>)
    ensures |r| == 1 && r[0].stepNumber == 1 && r[0].totalSteps == 1
    ensures r[0].explanation == FallbackExplanation
    ensures var ins := r[0].drawingInstructions;
      && |ins| == 2
      && ins[0].kind == Text && ins[1].kind == Text
      && ins[0].content == Some("Problem: " + question) && ins[1].content == Some(FallbackFollowUp)
      && ins[0].x == 100 && ins[0].y == 200 && ins[1].x == 100 && ins[1].y == 250
      && ins[0].delay == Some(0) && ins[1].delay == Some(1000)
    ensures AllNormalised(r)
  {
    [StepByStepResponse(
      FallbackExplanation,
      [ TextAt("Problem: " + question, 100, 200, 18, "#1f2937", 0),
        TextAt(FallbackFollowUp, 100, 250, 16, "#4b5563", 1000) ],
      1, 1)]
  }

  /** The fallback is already what the validator would produce: validating it changes nothing. */
  lemma FallbackIsValidated(question: string)
    ensures ValidateSteps(Fallback(question)) == Fallback(question)
  {
    ValidateStepsFixpoint(Fallback(question));
  }

  /**
   * generateStepByStepDrawing once the model has answered: the validated steps on success,
   * the fallback on failure; either way every instruction it returns is normalised.
   */
  function GenerateStepByStepDrawing(question: string, reply: ModelReply): (r: seq<StepByStepResponse>)
    ensures AllNormalised(r)
    ensures reply.Parsed? ==> r == ValidateSteps(reply.steps)
    ensures reply.Failed? ==> r == Fallback(question)
  {
    match reply
    case Parsed(steps) => ValidateSteps(steps)
    case Failed => Fallback(question)
  }

  // ----- textToDrawingInstructions -----

  /** A line whose trim() is the empty string (TrimEmptyIff). */
  predicate IsBlank(line: string) {
    WhitespaceBetween(line, 0, |line|)
  }

  /** The indices below n of the lines that are not blank, in increasing order. */
  function NonBlankIndices(lines: seq<string>, n: nat): (kept: seq<nat>)
    requires n <= |lines|
    ensures forall k :: 0 <= k < |kept| ==> kept[k] < n
  {
    if n == 0 then []
    else NonBlankIndices(lines, n - 1) + (if IsBlank(lines[n - 1]) then [] else [n - 1])
  }

  /** NonBlankIndices lists, in strictly increasing order, exactly the non-blank line indices below n. */
  lemma {:induction false} NonBlankIndicesSpec(lines: seq<string>, n: nat)
    requires n <= |lines|
    ensures forall a, b :: 0 <= a < b < |NonBlankIndices(lines, n)| ==>
              NonBlankIndices(lines, n)[a] < NonBlankIndices(lines, n)[b]
    ensures forall k :: 0 <= k < |NonBlankIndices(lines, n)| ==> !IsBlank(lines[NonBlankIndices(lines, n)[k]])
    ensures forall i :: 0 <= i < n && !IsBlank(lines[i]) ==> i in NonBlankIndices(lines, n)
  {
    if n > 0 {
      NonBlankIndicesSpec(lines, n - 1);
      var prev := NonBlankIndices(lines, n - 1);
      var kept := NonBlankIndices(lines, n);
      if IsBlank(lines[n - 1]) {
        assert kept == prev;
      } else {
        assert kept == prev + [n - 1];
        assert forall k :: 0 <= k < |prev| ==> kept[k] == prev[k];
        assert kept[|prev|] == n - 1;
      }
    }
  }

  function TextLine(content: string, x: int, y: int, delay: int): DrawingInstruction {
    TextAt(content, x, y, 16, "#374151", delay)
  }

  /**
   * textToDrawingInstructions: one text instruction per non-blank line of text, holding the
   * trimmed line; the k-th one sits at startY + 40k and is delayed by 500 ms per line index
   * in the split (blank lines included).
   */
  method TextToDrawingInstructions(text: string, startX: int, startY: int) returns (instructions: seq<DrawingInstruction>)
    ensures var lines := SplitLines(text); var kept := NonBlankIndices(lines, |lines|);
      && |instructions| == |kept|
      && forall k :: 0 <= k < |kept| ==>
           instructions[k] == TextLine(Trim(lines[kept[k]]), startX, startY + 40 * k, 500 * kept[k])
  {
    instructions := [];
    var lines := SplitLines(text);
    var currentY := startY;
    var index := 0;
    while index < |lines|
      invariant 0 <= index <= |lines|
      invariant |instructions| == |NonBlankIndices(lines, index)|
      invariant currentY == startY + 40 * |instructions|
      invariant forall k :: 0 <= k < |instructions| ==>
                  instructions[k] == TextLine(Trim(lines[NonBlankIndices(lines, index)[k]]), startX, startY + 40 * k,
                                              500 * NonBlankIndices(lines, index)[k])
    {
      var line := lines[index];
      ghost var kept := NonBlankIndices(lines, index);
      TrimEmptyIff(line);
      if Trim(line) != [] {
        assert NonBlankIndices(lines, index + 1) == kept + [index];
        instructions := instructions + [TextLine(Trim(line), startX, currentY, index * 500)];
        currentY := currentY + 40;
      } else {
        assert NonBlankIndices(lines, index + 1) == kept;
      }
      index := index + 1;
    }
  }

  // ----- generateMathVisualization -----

  function MathHeader(equation: string): DrawingInstruction {
    TextAt("Original equation: " + equation, 100, 200, 18, "#1f2937", 0)
  }

  /** The text of step i (0-based): at (120, 260 + 70i), delayed (i + 1) seconds. */
  function MathStep(i: nat, step: string): DrawingInstruction {
    TextAt("Step " + IntToString(i + 1) + ": " + step, 120, 260 + 70 * i, 16, "#4b5563", (i + 1) * 1000)
  }

  /** The arrow under step i: from (100, 285 + 70i) down to (100, 305 + 70i), half a second after it. */
  function MathArrow(i: nat): DrawingInstruction {
    DrawingInstruction(Arrow, None, 100, 285 + 70 * i, None, None, Some(100), Some(305 + 70 * i),
                       None, Some("#3b82f6"), Some(2), Some((i + 1) * 1000 + 500))
  }

  /** An instruction's delay, `delay || 0`; groupElementsByDelay groups by it. */
  function DelayOf(i: DrawingInstruction): (d: int)
    ensures i.delay == None || i.delay == Some(0) ==> d == 0
    ensures i.delay.Some? ==> d == i.delay.value
  {
    OrNumber(i.delay, 0)
  }

  /**
   * In the layout of a header followed by steps interleaved with arrows, instruction p >= 1
   * is delayed 500 (p + 1) ms, so the delays never decrease along the list.
   */
  lemma MathLayoutDelays(equation: string, steps: seq<string>, instructions: seq<DrawingInstruction>)
    requires |instructions| == 1 + |steps| + (if |steps| > 0 then |steps| - 1 else 0)
    requires instructions[0] == MathHeader(equation)
    requires forall i :: 0 <= i < |steps| ==> instructions[2 * i + 1] == MathStep(i, steps[i])
    requires forall i :: 0 <= i < |steps| - 1 ==> instructions[2 * i + 2] == MathArrow(i)
    ensures DelayOf(instructions[0]) == 0
    ensures forall p :: 1 <= p < |instructions| ==> DelayOf(instructions[p]) == 500 * (p + 1)
    ensures forall p, q :: 0 <= p <= q < |instructions| ==> DelayOf(instructions[p]) <= DelayOf(instructions[q])
  {
    forall p | 1 <= p < |instructions| ensures DelayOf(instructions[p]) == 500 * (p + 1) {
      var i := (p - 1) / 2;
      if p % 2 == 1 {
        assert p == 2 * i + 1 && i < |steps|;
        assert instructions[p] == MathStep(i, steps[i]);
        assert DelayOf(instructions[p]) == (i + 1) * 1000;
      } else {
        assert p == 2 * i + 2 && i < |steps| - 1;
        assert instructions[p] == MathArrow(i);
        assert DelayOf(instructions[p]) == (i + 1) * 1000 + 500;
      }
    }
  }

  /**
   * generateMathVisualization: a header, then each step, with an arrow after every step but
   * the last; instruction p >= 1 is delayed 500 (p + 1) ms, so the delays never decrease.
   */
  method GenerateMathVisualization(equation: string, steps: seq<string>) returns (instructions: seq<DrawingInstruction>)
    ensures |instructions| == 1 + |steps| + (if |steps| > 0 then |steps| - 1 else 0)
    ensures instructions[0] == MathHeader(equation)
    ensures forall i :: 0 <= i < |steps| ==> instructions[2 * i + 1] == MathStep(i, steps[i])
    ensures forall i :: 0 <= i < |steps| - 1 ==> instructions[2 * i + 2] == MathArrow(i)
    ensures DelayOf(instructions[0]) == 0
    ensures forall p :: 1 <= p < |instructions| ==> DelayOf(instructions[p]) == 500 * (p + 1)
    ensures forall p, q :: 0 <= p <= q < |instructions| ==> DelayOf(instructions[p]) <= DelayOf(instructions[q])
  {
    instructions := [];
    var currentY := 200;
    instructions := instructions + [TextAt("Original equation: " + equation, 100, currentY, 18, "#1f2937", 0)];
    currentY := currentY + 60;
    var index := 0;
    while index < |steps|
      invariant 0 <= index <= |steps|
      invariant currentY == 260 + 70 * index
      invariant |instructions| == (if index == |steps| && index > 0 then 2 * index else 1 + 2 * index)
      invariant instructions[0] == MathHeader(equation)
      invariant forall i :: 0 <= i < index ==> instructions[2 * i + 1] == MathStep(i, steps[i])
      invariant forall i :: 0 <= i < index && i < |steps| - 1 ==> instructions[2 * i + 2] == MathArrow(i)
    {
      instructions := instructions + [TextAt("Step " + IntToString(index + 1) + ": " + steps[index], 120, currentY, 16,
                                             "#4b5563", (index + 1) * 1000)];
      if index < |steps| - 1 {
        instructions := instructions + [DrawingInstruction(Arrow, None, 100, currentY + 25, None, None, Some(100),
                                                           Some(currentY + 45), None, Some("#3b82f6"), Some(2),
                                                           Some((index + 1) * 1000 + 500))];
      }
      currentY := currentY + 70;
      index := index + 1;
    }
    MathLayoutDelays(equation, steps, instructions);
  }

}
