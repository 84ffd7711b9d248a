/**
 * The engine's process states and the step kinds of the controller
 * (`state_type_to_str` and `StepType` in lldb_controller.py).
 */
module States {
  import opened Wrappers

  /** LLDB's `StateType`, as the integer code the engine reports. */
  type StateType = int

  const Invalid: StateType := 0
  const Unloaded: StateType := 1
  const Connected: StateType := 2
  const Attaching: StateType := 3
  const Launching: StateType := 4
  const Stopped: StateType := 5
  const Running: StateType := 6
  const Stepping: StateType := 7
  const Crashed: StateType := 8
  const Detached: StateType := 9
  const Exited: StateType := 10
  const Suspended: StateType := 11

  /** One of the twelve states the engine defines. */
  predicate IsKnownState(state: StateType)
  {
    Invalid <= state <= Suspended
  }

  predicate IsLowercaseWord(s: string)
  {
    |s| > 0 && forall i :: 0 <= i < |s| ==> 'a' <= s[i] <= 'z'
  }

  /** The state's name; any code outside the twelve raises "Unknown StateType enum". */
  function StateTypeToStr(state: StateType): (r: Result<string, string>)
    ensures r.Success? <==> IsKnownState(state)
    ensures r.Failure? ==> r.error == "Unknown StateType enum"
    ensures r.Success? ==> StateTypeFromStr(r.value) == Some(state)
  {
    if state == Invalid then Success("invalid")
    else if state == Unloaded then Success("unloaded")
    else if state == Connected then Success("connected")
    else if state == Attaching then Success("attaching")
    else if state == Launching then Success("launching")
    else if state == Stopped then Success("stopped")
    else if state == Running then Success("running")
    else if state == Stepping then Success("stepping")
    else if state == Crashed then Success("crashed")
    else if state == Detached then Success("detached")
    else if state == Exited then Success("exited")
    else if state == Suspended then Success("suspended")
    else Failure("Unknown StateType enum")
  }

  /** Reading a state name back: the inverse of StateTypeToStr. */
  function StateTypeFromStr(name: string): (r: Option<StateType>)
    ensures r.Some? ==> IsKnownState(r.value)
  {
    match name
    case "invalid" => Some(Invalid)
    case "unloaded" => Some(Unloaded)
    case "connected" => Some(Connected)
    case "attaching" => Some(Attaching)
    case "launching" => Some(Launching)
    case "stopped" => Some(Stopped)
    case "running" => Some(Running)
    case "stepping" => Some(Stepping)
    case "crashed" => Some(Crashed)
    case "detached" => Some(Detached)
    case "exited" => Some(Exited)
    case "suspended" => Some(Suspended)
    case _ => None
  }

  /** Every name that reads back as a state is the name of that state. */
  lemma StateNameIsCanonical(name: string)
    requires StateTypeFromStr(name).Some?
    ensures StateTypeToStr(StateTypeFromStr(name).value) == Success(name)
  {
  }

  /** Every state name is a non-empty lower-case word. */
  lemma StateNamesLowercase(state: StateType)
    requires IsKnownState(state)
    ensures IsLowercaseWord(StateTypeToStr(state).value)
  {
    var name := StateTypeToStr(state).value;
    assert name in ["invalid", "unloaded", "connected", "attaching", "launching", "stopped",
                    "running", "stepping", "crashed", "detached", "exited", "suspended"];
  }

  /** Distinct states have distinct names. */
  lemma {:induction false} StateNamesDistinct(a: StateType, b: StateType)
    requires IsKnownState(a) && IsKnownState(b) && a != b
    ensures StateTypeToStr(a).value != StateTypeToStr(b).value
  {
    var ra, rb := StateTypeToStr(a), StateTypeToStr(b);
    assert StateTypeFromStr(ra.value) == Some(a) && StateTypeFromStr(rb.value) == Some(b);
  }

  /** `StepType` of the controller: the five ways of stepping. */
  datatype StepType = Instruction | InstructionOver | Into | Over | Out
  {
    /** The integer the source gives each kind (`StepType.INSTRUCTION = 1`, ...). */
    function Code(): int
    {
      match this
      case Instruction => 1
      case InstructionOver => 2
      case Into => 3
      case Over => 4
      case Out => 5
    }

    /** The stepping primitive of the engine's thread that this kind stands for. */
    function Primitive(): ThreadCall
    {
      match this
      case Instruction => StepInstruction(false)
      case InstructionOver => StepInstruction(true)
      case Into => StepInto
      case Over => StepOver
      case Out => StepOut
    }
  }

  /** The stepping primitives of a thread, `StepInstruction(step_over)` and the rest. */
  datatype ThreadCall = StepInstruction(stepOver: bool) | StepInto | StepOver | StepOut

  /** The primitives doStep invokes for a step type code: an `if` for INSTRUCTION
      followed by a separate `if`/`elif` chain for the other four. */
  function StepCalls(stepType: int): (r: seq<ThreadCall>)
    ensures |r| <= 1
    ensures |r| == 1 <==> 1 <= stepType <= 5
    ensures forall k: StepType :: k.Code() == stepType ==> r == [k.Primitive()]
  {
    (if stepType == 1 then [StepInstruction(false)] else [])
    + (if stepType == 2 then [StepInstruction(true)]
       else if stepType == 3 then [StepInto]
       else if stepType == 4 then [StepOver]
       else if stepType == 5 then [StepOut]
       else [])
  }

  /** The five kinds select five different primitives. */
  lemma PrimitivesDistinct(j: StepType, k: StepType)
    requires j != k
    ensures j.Primitive() != k.Primitive() && j.Code() != k.Code()
  {
  }
}
