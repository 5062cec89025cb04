/**
 * components/drawing-area.tsx: the playback state of the drawing area and the style
 * defaults of renderInstruction.
 *
 * The component's state hooks become the fields of a class. The playSteps closure's
 * captured steps and its local cursor (stepIndex, allInstructions) are fields of their own,
 * because they outlive the call, and the one pending setTimeout behind animationRef is the
 * flag tickPending. A timer firing is an explicit call of Tick.
 */
module DrawingArea {
  import opened Wrappers
  import opened Strings
  import opened OpenAi

  /** The instructions of a list of steps, one step after the other. */
  function Concat(steps: seq<StepByStepResponse>): seq<DrawingInstruction> {
    if steps == [] then []
    else Concat(steps[..|steps| - 1]) + steps[|steps| - 1].drawingInstructions
  }

  lemma ConcatStep(steps: seq<StepByStepResponse>, k: nat)
    requires k < |steps|
    ensures Concat(steps[..k + 1]) == Concat(steps[..k]) + steps[k].drawingInstructions
  {
    assert steps[..k + 1][..k] == steps[..k];
  }

  /** Concatenating two lists of steps concatenates their instructions. */
  lemma {:induction false} ConcatAppend(a: seq<StepByStepResponse>, b: seq<StepByStepResponse>)
    ensures Concat(a + b) == Concat(a) + Concat(b)
    decreases |b|
  {
    if b == [] {
      assert a + b == a;
    } else {
      var front := b[..|b| - 1];
      var last := b[|b| - 1].drawingInstructions;
      assert (a + b)[..|a + b| - 1] == a + front;
      assert (a + b)[|a + b| - 1] == b[|b| - 1];
      assert Concat(a + b) == Concat(a + front) + last;
      ConcatAppend(a, front);
      assert Concat(b) == Concat(front) + last;
    }
  }

  /** What a submitted question produced once the model call has settled. */
  datatype SendOutcome = Replied(reply: ModelReply) | Threw

  const ErrorExplanation: string := "Error processing your question. Please try again."

  /** All the fields of the component at one moment, so that a contract can say a whole new state at once. */
  datatype State = State(
    message: string,
    isLoading: bool,
    currentStep: int,
    isPlaying: bool,
    steps: seq<StepByStepResponse>,
    currentExplanation: string,
    visibleInstructions: seq<DrawingInstruction>,
    playedSteps: seq<StepByStepResponse>,
    stepIndex: int,
    allInstructions: seq<DrawingInstruction>,
    tickPending: bool)

  class DrawingArea {
    var message: string
    var isLoading: bool
    var currentStep: int
    var isPlaying: bool
    var steps: seq<StepByStepResponse>
    var currentExplanation: string
    var visibleInstructions: seq<DrawingInstruction>
    /** The steps the last playSteps closure captured. */
    var playedSteps: seq<StepByStepResponse>
    /** The closure's cursor. */
    var stepIndex: int
    /** The closure's accumulated instructions. */
    var allInstructions: seq<DrawingInstruction>
    /** animationRef holds a timer that has not fired and was not cleared. */
    var tickPending: bool

    function Snapshot(): State
      reads this
    {
      State(message, isLoading, currentStep, isPlaying, steps, currentExplanation, visibleInstructions,
            playedSteps, stepIndex, allInstructions, tickPending)
    }

    /** The closure's accumulation is always the instructions of the steps it has played. */
    ghost predicate CursorValid()
      reads this
    {
      0 <= stepIndex <= |playedSteps| && allInstructions == Concat(playedSteps[..stepIndex])
    }

    /** What is shown is either nothing or everything the closure has played so far. */
    ghost predicate DisplayValid()
      reads this
    {
      && 0 <= currentStep <= stepIndex
      && (visibleInstructions == [] || (currentStep == stepIndex && visibleInstructions == allInstructions))
    }

    /**
     * The component's invariant: the play button shows "pause" exactly while a tick is
     * pending, and no steps are held while a question is being answered.
     */
    ghost predicate Valid()
      reads this
    {
      && CursorValid()
      && DisplayValid()
      && isPlaying == tickPending
      && (isLoading ==> steps == [])
    }

    /** The initial values of the state hooks. */
    constructor()
      ensures Snapshot() == State("", false, 0, false, [], "", [], [], 0, [], false)
      ensures Valid()
    {
      message := "";
      isLoading := false;
      currentStep := 0;
      isPlaying := false;
      steps := [];
      currentExplanation := "";
      visibleInstructions := [];
      playedSteps := [];
      stepIndex := 0;
      allInstructions := [];
      tickPending := false;
    }

    /** The input's onChange; the input is disabled while a question is loading. */
    method TypeMessage(text: string)
      requires Valid() && !isLoading
      modifies this
      ensures Snapshot() == old(Snapshot()).(message := text)
      ensures Valid()
    {
      message := text;
    }

    /**
     * handleSend up to its first await: nothing happens for a blank message or while
     * loading; otherwise the displayed answer is cleared and loading starts. A pending
     * playback tick is not cancelled.
     */
    method BeginSend() returns (started: bool)
      requires Valid()
      modifies this
      ensures started == (Trim(old(message)) != [] && !old(isLoading))
      ensures !started ==> Snapshot() == old(Snapshot())
      ensures started ==> Snapshot() == old(Snapshot()).(isLoading := true, currentStep := 0, steps := [],
                                                        currentExplanation := "", visibleInstructions := [])
      ensures Valid()
    {
      if Trim(message) == [] || isLoading {
        return false;
      }
      isLoading := true;
      currentStep := 0;
      steps := [];
      currentExplanation := "";
      visibleInstructions := [];
      started := true;
    }

    /**
     * handleSend after the await: the steps generated for the message are stored, and a
     * non-empty list shows its first explanation on an empty canvas; a throw shows the error
     * text. Either way loading ends and the input is cleared.
     */
    method CompleteSend(outcome: SendOutcome)
      requires Valid() && isLoading
      modifies this
      ensures outcome.Replied? && GenerateStepByStepDrawing(old(message), outcome.reply) != [] ==>
        var generated := GenerateStepByStepDrawing(old(message), outcome.reply);
        Snapshot() == old(Snapshot()).(steps := generated, currentExplanation := generated[0].explanation,
                                       visibleInstructions := [], isLoading := false, message := "")
      ensures outcome.Replied? && GenerateStepByStepDrawing(old(message), outcome.reply) == [] ==>
        Snapshot() == old(Snapshot()).(steps := [], isLoading := false, message := "")
      ensures outcome.Threw? ==>
        Snapshot() == old(Snapshot()).(currentExplanation := ErrorExplanation, isLoading := false, message := "")
      ensures Valid()
    {
      match outcome {
        case Replied(reply) =>
          var aiSteps := GenerateStepByStepDrawing(message, reply);
          steps := aiSteps;
          if |aiSteps| > 0 {
            currentExplanation := aiSteps[0].explanation;
            visibleInstructions := [];
          }
        case Threw =>
          currentExplanation := ErrorExplanation;
      }
      isLoading := false;
      message := "";
    }

    /**
     * playNextStep: past the end it stops playing; otherwise it shows the next step's
     * explanation and everything played so far plus that step's instructions, advances the
     * cursor and schedules the next tick.
     */
    method PlayNextStep()
      requires CursorValid() && isPlaying && !tickPending && (isLoading ==> steps == [])
      requires stepIndex < |playedSteps| || DisplayValid()
      modifies this
      ensures old(stepIndex) >= |playedSteps| ==> Snapshot() == old(Snapshot()).(isPlaying := false)
      ensures old(stepIndex) < |playedSteps| ==>
        var step := playedSteps[old(stepIndex)];
        Snapshot() == old(Snapshot()).(currentStep := old(stepIndex) + 1, currentExplanation := step.explanation,
                                       allInstructions := old(allInstructions) + step.drawingInstructions,
                                       visibleInstructions := old(allInstructions) + step.drawingInstructions,
                                       stepIndex := old(stepIndex) + 1, tickPending := true)
      ensures Valid()
    {
      if stepIndex >= |playedSteps| {
        isPlaying := false;
        return;
      }
      var currentStepData := playedSteps[stepIndex];
      currentStep := stepIndex + 1;
      currentExplanation := currentStepData.explanation;
      ConcatStep(playedSteps, stepIndex);
      allInstructions := allInstructions + currentStepData.drawingInstructions;
      visibleInstructions := allInstructions;
      stepIndex := stepIndex + 1;
      tickPending := true;
    }

    /**
     * playSteps, reached through the play button, which shows "play" only while nothing is
     * playing: with no steps nothing changes and nothing is scheduled; otherwise the closure
     * captures the steps and starts again from the first one, whose step is shown at once.
     */
    method PlaySteps()
      requires Valid() && !isPlaying
      modifies this
      ensures old(steps) == [] ==> Snapshot() == old(Snapshot())
      ensures old(steps) != [] ==>
        var first := old(steps)[0];
        Snapshot() == old(Snapshot()).(isPlaying := true, playedSteps := old(steps), stepIndex := 1,
                                       allInstructions := first.drawingInstructions, currentStep := 1,
                                       currentExplanation := first.explanation,
                                       visibleInstructions := first.drawingInstructions, tickPending := true)
      ensures Valid()
    {
      if |steps| == 0 {
        return;
      }
      isPlaying := true;
      playedSteps := steps;
      stepIndex := 0;
      allInstructions := [];
      PlayNextStep();
    }

    /** The pending timer fires and runs playNextStep. */
    method Tick()
      requires Valid() && tickPending
      modifies this
      ensures old(stepIndex) >= |playedSteps| ==>
        Snapshot() == old(Snapshot()).(isPlaying := false, tickPending := false)
      ensures old(stepIndex) < |playedSteps| ==>
        var step := playedSteps[old(stepIndex)];
        Snapshot() == old(Snapshot()).(currentStep := old(stepIndex) + 1, currentExplanation := step.explanation,
                                       allInstructions := old(allInstructions) + step.drawingInstructions,
                                       visibleInstructions := old(allInstructions) + step.drawingInstructions,
                                       stepIndex := old(stepIndex) + 1)
      ensures Valid()
    {
      tickPending := false;
      PlayNextStep();
    }

    /** pauseSteps: playing stops and the pending tick is cancelled; nothing else changes. */
    method PauseSteps()
      requires Valid()
      modifies this
      ensures Snapshot() == old(Snapshot()).(isPlaying := false, tickPending := false)
      ensures Valid()
    {
      isPlaying := false;
      tickPending := false;
    }

    /** resetSteps: pauses, then shows an empty canvas under the first step's explanation. */
    method ResetSteps()
      requires Valid()
      modifies this
      ensures Snapshot() == old(Snapshot()).(isPlaying := false, tickPending := false, currentStep := 0,
                                             currentExplanation := if old(steps) != [] then old(steps)[0].explanation else "",
                                             visibleInstructions := [])
      ensures Valid()
    {
      PauseSteps();
      currentStep := 0;
      currentExplanation := if |steps| > 0 then steps[0].explanation else "";
      visibleInstructions := [];
    }

    /**
     * Pressing play and letting every timer fire: playNextStep runs n + 1 times for n steps,
     * and playback ends on the last step with every step's instructions on the canvas.
     */
    method PlayToEnd() returns (runs: nat)
      requires Valid() && !isPlaying && steps != []
      modifies this
      ensures runs == |old(steps)| + 1
      ensures currentStep == |old(steps)| && currentExplanation == old(steps)[|old(steps)| - 1].explanation
      ensures visibleInstructions == Concat(old(steps))
      ensures Snapshot() == old(Snapshot()).(isPlaying := false, playedSteps := old(steps), stepIndex := |old(steps)|,
                                             allInstructions := Concat(old(steps)), currentStep := |old(steps)|,
                                             currentExplanation := old(steps)[|old(steps)| - 1].explanation,
                                             visibleInstructions := Concat(old(steps)), tickPending := false)
      ensures !isPlaying && !tickPending && Valid()
    {
      PlaySteps();
      runs := 1;
      ghost var n := |playedSteps|;
      while tickPending
        invariant Valid() && playedSteps == old(steps) && n == |playedSteps|
        invariant message == old(message) && isLoading == old(isLoading) && steps == old(steps)
        invariant 1 <= runs <= n + 1
        invariant stepIndex == (if runs <= n then runs else n)
        invariant tickPending == (runs <= n)
        invariant currentStep == stepIndex && visibleInstructions == allInstructions
        invariant currentExplanation == playedSteps[stepIndex - 1].explanation
        decreases n + 1 - runs
      {
        Tick();
        runs := runs + 1;
      }
      assert playedSteps[..n] == playedSteps;
    }
  }

  // ----- renderInstruction's style defaults -----

  /** What renderInstruction draws for one instruction, without the JSX around it. */
  datatype Rendered =
    | TextBlock(left: int, top: int, fontSize: int, color: string, fontWeight: string, content: Option<string>)
    | Box(left: int, top: int, width: int, height: int, borderWidth: int, borderColor: string, borderRadius: string)
    | Segment(left: int, top: int, deltaX: int, deltaY: int, thickness: int, color: string, arrowHead: bool)
    | NothingDrawn

  /** Bold ("600") exactly for a font size above 16. */
  function FontWeight(fontSize: Option<int>): (w: string)
    ensures w == "600" <==> (fontSize.Some? && fontSize.value > 16)
    ensures w != "600" ==> w == "normal"
  {
    if fontSize.Some? && fontSize.value != 0 && fontSize.value > 16 then "600" else "normal"
  }

  function RenderInstruction(i: DrawingInstruction): (r: Rendered)
    ensures i.kind == Text || i.kind == Other("equation") <==> r.TextBlock?
    ensures r.TextBlock? ==>
      && r.left == i.x && r.top == i.y && r.content == i.content
      && r.fontSize == OrNumber(i.fontSize, 16) && r.color == OrString(i.color, "#374151")
      && r.fontWeight == FontWeight(i.fontSize)
    ensures i.kind == Rectangle || i.kind == Ellipse <==> r.Box?
    ensures r.Box? ==>
      && r.left == i.x && r.top == i.y
      && r.width == OrNumber(i.width, 100) && r.height == OrNumber(i.height, 50)
      && r.borderWidth == OrNumber(i.strokeWidth, 2) && r.borderColor == OrString(i.color, "#3b82f6")
      && r.borderRadius == (if i.kind == Rectangle then "4px" else "50%")
    ensures i.kind == Arrow || i.kind == Line <==> r.Segment?
    ensures r.Segment? ==>
      && r.left == i.x && r.top == i.y && r.arrowHead == (i.kind == Arrow)
      && r.thickness == OrNumber(i.strokeWidth, 2) && r.color == OrString(i.color, "#3b82f6")
      && i.x + r.deltaX == OrNumber(i.endX, if i.kind == Arrow then i.x else i.x + 50)
      && i.y + r.deltaY == OrNumber(i.endY, i.y)
  {
    match i.kind
    case Text =>
      TextBlock(i.x, i.y, OrNumber(i.fontSize, 16), OrString(i.color, "#374151"), FontWeight(i.fontSize), i.content)
    case Rectangle =>
      Box(i.x, i.y, OrNumber(i.width, 100), OrNumber(i.height, 50), OrNumber(i.strokeWidth, 2),
          OrString(i.color, "#3b82f6"), "4px")
    case Ellipse =>
      Box(i.x, i.y, OrNumber(i.width, 100), OrNumber(i.height, 50), OrNumber(i.strokeWidth, 2),
          OrString(i.color, "#3b82f6"), "50%")
    case Arrow =>
      Segment(i.x, i.y, OrNumber(i.endX, i.x) - i.x, OrNumber(i.endY, i.y) - i.y,
              OrNumber(i.strokeWidth, 2), OrString(i.color, "#3b82f6"), true)
    case Line =>
      Segment(i.x, i.y, OrNumber(i.endX, i.x + 50) - i.x, OrNumber(i.endY, i.y) - i.y,
              OrNumber(i.strokeWidth, 2), OrString(i.color, "#3b82f6"), false)
    case Other(name) =>
      if name == "equation" then
        TextBlock(i.x, i.y, OrNumber(i.fontSize, 16), OrString(i.color, "#374151"), FontWeight(i.fontSize), i.content)
      else NothingDrawn
  }

  /**
   * Text that went through validation is drawn with its own font size and colour, or the
   * validation defaults (16, #1f2937); the renderer's own grey default never applies.
   */
  lemma RenderValidatedText(i: DrawingInstruction)
    requires i.kind == Text
    ensures var r := RenderInstruction(ValidateInstruction(i));
      && r.fontSize == OrNumber(i.fontSize, 16)
      && r.color == OrString(i.color, DefaultColor)
      && r.left == Clamp(i.x, MinX, MaxX) && r.top == Clamp(i.y, MinY, MaxY)
      && (r.fontWeight == "600" <==> i.fontSize.Some? && i.fontSize.value > 16)
  {
  }
}
