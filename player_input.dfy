/** The view-side input collector: it accumulates device input once per
    render frame, hands the accumulated record to the simulation at each
    poll, and remembers the last twenty polled records in a ring indexed by
    frame number.

    Only this bookkeeping is modelled. The device callbacks, touch tracking
    and the float look-rotation accumulator are outside it: what they
    deliver in a render frame is a `Devices` value, and the look delta a
    poll consumes is a parameter. */
module Input {
  import opened Engine

  /** The input record sent to the simulation each tick. */
  datatype BasePlayerInput = BasePlayerInput(moveDirection: Vec2, lookRotationDelta: Vec2, jump: bool, sprint: bool)

  const DefaultInput: BasePlayerInput := BasePlayerInput(Vec2(0.0, 0.0), Vec2(0.0, 0.0), false, false)

  /** One slot of the history ring: the frame it was polled for and what
      was sent. */
  datatype PolledInput = PolledInput(frame: int, input: BasePlayerInput)

  const EmptySlot: PolledInput := PolledInput(0, DefaultInput)

  /** Length of the history ring. */
  const PolledInputCount: int := 20

  /** What the devices report during one render frame: the normalised stick
      and the jump and sprint buttons on standalone, the scaled touch move
      and the double-tap jump on mobile. */
  datatype Devices = Devices(isMobile: bool, move: Vec2, jump: bool, sprint: bool, touchMove: Vec2, jumpTouch: bool)

  /** The accumulation fields: the record being built, whether the next
      accumulation must start afresh, and the render frame last handled. */
  datatype Accumulation = Accumulation(input: BasePlayerInput, reset: bool, lastFrame: int)

  /** `ProcessStandaloneInput`: nothing while the cursor is free; otherwise
      the stick replaces the move direction and the buttons are OR-ed in. */
  function ProcessStandalone(input: BasePlayerInput, devices: Devices, cursorLocked: bool): BasePlayerInput {
    if !cursorLocked then input
    else input.(moveDirection := devices.move, jump := input.jump || devices.jump, sprint := input.sprint || devices.sprint)
  }

  /** `ProcessMobileInput`: the double-tap jump is OR-ed in and the touch
      move replaces the move direction; there is no sprint on mobile. */
  function ProcessMobile(input: BasePlayerInput, devices: Devices): BasePlayerInput {
    input.(jump := input.jump || devices.jumpTouch, moveDirection := devices.touchMove)
  }

  /** `AccumulateInput` in render frame `frameCount`. */
  function Accumulate(s: Accumulation, frameCount: int, devices: Devices, cursorLocked: bool): Accumulation {
    if s.lastFrame == frameCount then s
    else
      var start := if s.reset then DefaultInput else s.input;
      var input := if devices.isMobile then ProcessMobile(start, devices)
                   else ProcessStandalone(start, devices, cursorLocked);
      Accumulation(input, false, frameCount)
  }

  /** A second accumulation in the same render frame changes nothing,
      whatever the devices say by then. */
  lemma AccumulateOncePerFrame(s: Accumulation, frameCount: int, first: Devices, second: Devices,
                               firstLocked: bool, secondLocked: bool)
    ensures var once := Accumulate(s, frameCount, first, firstLocked);
            Accumulate(once, frameCount, second, secondLocked) == once
  {
  }

  /** After a poll has asked for a reset, the next accumulation builds on
      the default record and clears the request. */
  lemma AccumulateAfterPollStartsFresh(s: Accumulation, frameCount: int, devices: Devices, cursorLocked: bool)
    requires s.reset && s.lastFrame != frameCount
    ensures var r := Accumulate(s, frameCount, devices, cursorLocked);
            && !r.reset && r.lastFrame == frameCount
            && r.input.jump == (if devices.isMobile then devices.jumpTouch else cursorLocked && devices.jump)
            && r.input.sprint == (!devices.isMobile && cursorLocked && devices.sprint)
  {
  }

  /** With the cursor free, a standalone accumulation adds nothing. */
  lemma UnlockedStandaloneAccumulatesNothing(s: Accumulation, frameCount: int, devices: Devices)
    requires !devices.isMobile && !s.reset
    ensures Accumulate(s, frameCount, devices, false).input == s.input
  {
  }

  /** One render frame as the collector sees it. */
  datatype RenderFrame = RenderFrame(frameCount: int, devices: Devices, cursorLocked: bool)

  /** Accumulation over a run of render frames with no poll in between. */
  function AccumulateFrames(s: Accumulation, frames: seq<RenderFrame>): Accumulation
    decreases |frames|
  {
    if |frames| == 0 then s
    else AccumulateFrames(Accumulate(s, frames[0].frameCount, frames[0].devices, frames[0].cursorLocked), frames[1..])
  }

  /** Within one accumulation window a jump or sprint, once recorded, stays
      recorded until the next poll. */
  lemma {:induction false} ButtonsStayPressed(s: Accumulation, frames: seq<RenderFrame>)
    requires !s.reset
    ensures var r := AccumulateFrames(s, frames);
            && !r.reset
            && (s.input.jump ==> r.input.jump)
            && (s.input.sprint ==> r.input.sprint)
    decreases |frames|
  {
    if |frames| > 0 {
      var next := Accumulate(s, frames[0].frameCount, frames[0].devices, frames[0].cursorLocked);
      ButtonsStayPressed(next, frames[1..]);
    }
  }

  /** `GetInputForFrame` as a function of the ring's slots. */
  function InputForFrame(slots: seq<PolledInput>, frame: int): BasePlayerInput
    requires |slots| == PolledInputCount
  {
    if frame <= 0 then DefaultInput
    else if slots[frame % PolledInputCount].frame == frame then slots[frame % PolledInputCount].input
    else DefaultInput
  }

  /** The write `PollInput` makes into the ring. */
  function Record(slots: seq<PolledInput>, polled: PolledInput): (r: seq<PolledInput>)
    requires |slots| == PolledInputCount && polled.frame >= 0
    ensures |r| == PolledInputCount
  {
    slots[polled.frame % PolledInputCount := polled]
  }

  /** No input is ever found for frame zero or earlier. */
  lemma NoInputBeforeFirstFrame(slots: seq<PolledInput>, frame: int)
    requires |slots| == PolledInputCount && frame <= 0
    ensures InputForFrame(slots, frame) == DefaultInput
  {
  }

  /** Reading a frame straight after polling it gives what was polled. */
  lemma PollThenRead(slots: seq<PolledInput>, frame: int, input: BasePlayerInput)
    requires |slots| == PolledInputCount && frame > 0
    ensures InputForFrame(Record(slots, PolledInput(frame, input)), frame) == input
  {
  }

  /** A poll leaves the other nineteen slots, and so the reading of every
      frame that maps to them, as it was. */
  lemma PollKeepsOtherSlots(slots: seq<PolledInput>, polled: PolledInput, frame: int)
    requires |slots| == PolledInputCount && polled.frame >= 0
    requires frame % PolledInputCount != polled.frame % PolledInputCount
    ensures InputForFrame(Record(slots, polled), frame) == InputForFrame(slots, frame)
    ensures forall i :: 0 <= i < PolledInputCount && i != polled.frame % PolledInputCount ==>
              Record(slots, polled)[i] == slots[i]
  {
  }

  /** A slot reused by a later frame no longer answers for the earlier one. */
  lemma OverwrittenFrameReadsDefault(slots: seq<PolledInput>, frame: int, later: PolledInput)
    requires |slots| == PolledInputCount && frame > 0 && later.frame > frame
    requires later.frame % PolledInputCount == frame % PolledInputCount
    ensures InputForFrame(Record(slots, later), frame) == DefaultInput
  {
  }

  /** The ring after a run of polls. */
  function RecordAll(slots: seq<PolledInput>, polls: seq<PolledInput>): (r: seq<PolledInput>)
    requires |slots| == PolledInputCount
    requires forall i :: 0 <= i < |polls| ==> polls[i].frame >= 0
    ensures |r| == PolledInputCount
    decreases |polls|
  {
    if |polls| == 0 then slots else RecordAll(Record(slots, polls[0]), polls[1..])
  }

  /** A polled frame stays readable through any run of later polls that
      avoid its slot. */
  lemma {:induction false} PolledFrameSurvives(slots: seq<PolledInput>, frame: int, polls: seq<PolledInput>)
    requires |slots| == PolledInputCount && frame > 0
    requires slots[frame % PolledInputCount].frame == frame
    requires forall i :: 0 <= i < |polls| ==> polls[i].frame >= 0
    requires forall i :: 0 <= i < |polls| ==> polls[i].frame % PolledInputCount != frame % PolledInputCount
    ensures InputForFrame(RecordAll(slots, polls), frame) == slots[frame % PolledInputCount].input
    decreases |polls|
  {
    if |polls| > 0 {
      var next := Record(slots, polls[0]);
      assert next[frame % PolledInputCount] == slots[frame % PolledInputCount];
      PolledFrameSurvives(next, frame, polls[1..]);
    }
  }

  class PlayerInput {
    var accumulatedInput: BasePlayerInput
    var resetAccumulatedInput: bool
    var lastAccumulateFrame: int
    const polledInputs: array<PolledInput>
    var isCursorLocked: bool

    ghost predicate Valid()
      reads this
    {
      polledInputs.Length == PolledInputCount
    }

    function State(): Accumulation
      reads this
    {
      Accumulation(accumulatedInput, resetAccumulatedInput, lastAccumulateFrame)
    }

    constructor ()
      ensures Valid() && fresh(polledInputs)
      ensures forall i :: 0 <= i < PolledInputCount ==> polledInputs[i] == EmptySlot
      ensures State() == Accumulation(DefaultInput, false, 0)
      ensures isCursorLocked
    {
      accumulatedInput := DefaultInput;
      resetAccumulatedInput := false;
      lastAccumulateFrame := 0;
      polledInputs := new PolledInput[PolledInputCount](_ => EmptySlot);
      isCursorLocked := true;
    }

    /** `ToggleCursorLock`: the Unity cursor state it also sets is not
        modelled. */
    method ToggleCursorLock()
      modifies this`isCursorLocked
      ensures isCursorLocked == !old(isCursorLocked)
    {
      isCursorLocked := !isCursorLocked;
    }

    /** `AccumulateInput` in render frame `frameCount`. */
    method AccumulateInput(frameCount: int, devices: Devices)
      modifies this`accumulatedInput, this`resetAccumulatedInput, this`lastAccumulateFrame
      ensures State() == Accumulate(old(State()), frameCount, devices, isCursorLocked)
    {
      if lastAccumulateFrame == frameCount {
        return;
      }

      lastAccumulateFrame := frameCount;

      if resetAccumulatedInput {
        resetAccumulatedInput := false;
        accumulatedInput := DefaultInput;
      }

      if devices.isMobile {
        ProcessMobileInput(devices);
      } else {
        ProcessStandaloneInput(devices);
      }
    }

    method ProcessStandaloneInput(devices: Devices)
      modifies this`accumulatedInput
      ensures accumulatedInput == ProcessStandalone(old(accumulatedInput), devices, isCursorLocked)
    {
      if !isCursorLocked {
        return;
      }
      accumulatedInput := accumulatedInput.(moveDirection := devices.move);
      accumulatedInput := accumulatedInput.(jump := accumulatedInput.jump || devices.jump);
      accumulatedInput := accumulatedInput.(sprint := accumulatedInput.sprint || devices.sprint);
    }

    method ProcessMobileInput(devices: Devices)
      modifies this`accumulatedInput
      ensures accumulatedInput == ProcessMobile(old(accumulatedInput), devices)
    {
      accumulatedInput := accumulatedInput.(jump := accumulatedInput.jump || devices.jumpTouch);
      accumulatedInput := accumulatedInput.(moveDirection := devices.touchMove);
    }

    /** `PollInput` for simulation frame `frame`, in render frame
        `frameCount`: accumulates, asks for a reset, stamps the consumed
        look delta, records the result in slot `frame % 20` and returns it
        as the frame's input. */
    method PollInput(frame: int, frameCount: int, devices: Devices, pollLookRotation: Vec2)
      returns (input: BasePlayerInput)
      requires Valid() && frame >= 0
      modifies this`accumulatedInput, this`resetAccumulatedInput, this`lastAccumulateFrame, polledInputs
      ensures Valid()
      ensures var acc := Accumulate(old(State()), frameCount, devices, isCursorLocked);
              && input == acc.input.(lookRotationDelta := pollLookRotation)
              && State() == Accumulation(input, true, acc.lastFrame)
      ensures polledInputs[..] == Record(old(polledInputs[..]), PolledInput(frame, input))
    {
      AccumulateInput(frameCount, devices);

      resetAccumulatedInput := true;

      accumulatedInput := accumulatedInput.(lookRotationDelta := pollLookRotation);

      polledInputs[frame % polledInputs.Length] := PolledInput(frame, accumulatedInput);
      input := accumulatedInput;
    }

    /** `GetInputForFrame`: the record polled for `frame`, if its slot still
        holds it, and the default record otherwise. */
    method GetInputForFrame(frame: int) returns (input: BasePlayerInput)
      requires Valid()
      ensures input == InputForFrame(polledInputs[..], frame)
    {
      if frame <= 0 {
        return DefaultInput;
      }

      var polledInput := polledInputs[frame % polledInputs.Length];
      if polledInput.frame == frame {
        return polledInput.input;
      }

      return DefaultInput;
    }
  }
}
