/**
 * The depth-buffer chapter's nine depth-stencil states and the radio-button
 * selector that puts one of them on the pipeline.
 */
module DepthBufferChapter {
  import opened Wrappers
  import opened Ints
  import opened D3D11
  import opened Pipelines

  /** A state of the chapter: every one writes all depth bits and leaves stenciling off. */
  function DepthState(depthEnable: bool, depthFunc: ComparisonFunc): DepthStencilDesc
  {
    DepthStencilDesc(depthEnable, WriteMaskAll, depthFunc, false)
  }

  /** The descriptors in the order the states are created: disabled, then LESS, LESS_EQUAL, ALWAYS, NEVER, GREATER, GREATER_EQUAL, EQUAL, NOT_EQUAL. */
  const CREATION_ORDER: seq<DepthStencilDesc> := [
    DepthState(false, Less), DepthState(true, Less), DepthState(true, LessEqual),
    DepthState(true, Always), DepthState(true, Never), DepthState(true, Greater),
    DepthState(true, GreaterEqual), DepthState(true, Equal), DepthState(true, NotEqual)]

  /** The depth functions of the radio buttons "Less" to "Never", selections 1 to 8. */
  const SELECTOR_FUNCTIONS: seq<ComparisonFunc> := [Less, LessEqual, Greater, GreaterEqual, Equal, NotEqual, Always, Never]

  /** What a radio button promises: selection 0 is "Disabled", selections 1 to 8 depth testing with the button's function. */
  function SelectorDesc(selection: int): (desc: Option<DepthStencilDesc>)
    ensures desc.Some? <==> 0 <= selection <= 8
    ensures selection == 0 ==> desc == Some(DepthState(false, Less)) && !desc.value.depthEnable
    ensures 1 <= selection <= 8 ==> desc.Some? && desc.value.depthEnable && desc.value.depthFunc == SELECTOR_FUNCTIONS[selection - 1]
  {
    if selection == 0 then Some(DepthState(false, Less))
    else if 1 <= selection <= 8 then Some(DepthState(true, SELECTOR_FUNCTIONS[selection - 1]))
    else None
  }

  /** The switch in RenderUi: which created state each selection case sets, by creation position. */
  function CreationIndex(selection: int): (index: nat)
    requires 0 <= selection <= 8
    ensures index < |CREATION_ORDER|
  {
    [0, 1, 2, 5, 6, 7, 8, 3, 4][selection]
  }

  /**
   * Each case of the switch sets the state whose descriptor is the one its
   * radio button names, and the nine cases set nine different states.
   */
  lemma {:induction false} SwitchMatchesButtons(selection: int, other: int)
    requires 0 <= selection <= 8 && 0 <= other <= 8
    ensures Some(CREATION_ORDER[CreationIndex(selection)]) == SelectorDesc(selection)
    ensures selection != other ==> CreationIndex(selection) != CreationIndex(other)
  {
    if selection == 0 {
    } else if selection == 1 {
    } else if selection == 2 {
    } else if selection == 3 {
    } else if selection == 4 {
    } else if selection == 5 {
    } else if selection == 6 {
    } else if selection == 7 {
    } else {
    }
  }

  /** The nine states share write mask and stencil setting and differ in depth enable or function. */
  lemma {:induction false} StatesDifferOnlyInDepthTest(i: nat, j: nat)
    requires i < |CREATION_ORDER| && j < |CREATION_ORDER|
    ensures CREATION_ORDER[i].depthWriteMask == WriteMaskAll && !CREATION_ORDER[i].stencilEnable
    ensures i != j ==>
      CREATION_ORDER[i].depthEnable != CREATION_ORDER[j].depthEnable || CREATION_ORDER[i].depthFunc != CREATION_ORDER[j].depthFunc
  {
    assert CREATION_ORDER[i] == DepthState(CREATION_ORDER[i].depthEnable, CREATION_ORDER[i].depthFunc);
    assert CREATION_ORDER[j] == DepthState(CREATION_ORDER[j].depthEnable, CREATION_ORDER[j].depthFunc);
  }

  /** Whether creating the state at a creation position succeeds. */
  predicate Created(device: Device, index: nat)
    requires index < |CREATION_ORDER|
  {
    device.createDepthStencilState(CREATION_ORDER[index]).Some?
  }

  /** The position of the first creation that fails, or 9 when all succeed. */
  function FirstFailure(device: Device): (n: nat)
    ensures n <= |CREATION_ORDER|
    ensures forall k :: 0 <= k < n ==> Created(device, k)
    ensures n < |CREATION_ORDER| ==> !Created(device, n)
  {
    if !Created(device, 0) then 0
    else if !Created(device, 1) then 1
    else if !Created(device, 2) then 2
    else if !Created(device, 3) then 3
    else if !Created(device, 4) then 4
    else if !Created(device, 5) then 5
    else if !Created(device, 6) then 6
    else if !Created(device, 7) then 7
    else if !Created(device, 8) then 8
    else 9
  }

  /**
   * The state at a creation position once CreateDepthStencilStates returns: the
   * device's result if creation got that far, else the value it had before.
   */
  function StateAfter(device: Device, index: nat, before: Ptr): (state: Ptr)
    requires index < |CREATION_ORDER|
  {
    if index <= FirstFailure(device) then device.createDepthStencilState(CREATION_ORDER[index]) else before
  }

  class DepthBufferApplication {
    const device: Device
    var pipeline: Pipeline?
    var depthDisabled: Ptr
    var depthEnabledLess: Ptr
    var depthEnabledLessEqual: Ptr
    var depthEnabledAlways: Ptr
    var depthEnabledNever: Ptr
    var depthEnabledGreater: Ptr
    var depthEnabledGreaterEqual: Ptr
    var depthEnabledEqual: Ptr
    var depthEnabledNotEqual: Ptr
    var selectedDepthFunction: I32

    /** The member initialisers: no pipeline, null states, and "Less" selected. */
    constructor (device: Device)
      ensures this.device == device && pipeline == null
      ensures States() == seq(9, _ => None)
      ensures selectedDepthFunction == 1
    {
      this.device := device;
      pipeline := null;
      depthDisabled, depthEnabledLess, depthEnabledLessEqual := None, None, None;
      depthEnabledAlways, depthEnabledNever, depthEnabledGreater := None, None, None;
      depthEnabledGreaterEqual, depthEnabledEqual, depthEnabledNotEqual := None, None, None;
      selectedDepthFunction := 1;
    }

    /** The nine state fields in creation order. */
    function States(): (states: seq<Ptr>)
      reads this
      ensures |states| == |CREATION_ORDER|
    {
      [depthDisabled, depthEnabledLess, depthEnabledLessEqual, depthEnabledAlways, depthEnabledNever,
       depthEnabledGreater, depthEnabledGreaterEqual, depthEnabledEqual, depthEnabledNotEqual]
    }

    /**
     * One descriptor is edited between nine creations; the first failure
     * returns false with that state null and the later ones untouched.
     */
    method CreateDepthStencilStates() returns (ok: bool)
      modifies this`depthDisabled, this`depthEnabledLess, this`depthEnabledLessEqual, this`depthEnabledAlways,
        this`depthEnabledNever, this`depthEnabledGreater, this`depthEnabledGreaterEqual, this`depthEnabledEqual,
        this`depthEnabledNotEqual
      ensures ok <==> FirstFailure(device) == |CREATION_ORDER|
      ensures depthDisabled == StateAfter(device, 0, old(depthDisabled))
      ensures depthEnabledLess == StateAfter(device, 1, old(depthEnabledLess))
      ensures depthEnabledLessEqual == StateAfter(device, 2, old(depthEnabledLessEqual))
      ensures depthEnabledAlways == StateAfter(device, 3, old(depthEnabledAlways))
      ensures depthEnabledNever == StateAfter(device, 4, old(depthEnabledNever))
      ensures depthEnabledGreater == StateAfter(device, 5, old(depthEnabledGreater))
      ensures depthEnabledGreaterEqual == StateAfter(device, 6, old(depthEnabledGreaterEqual))
      ensures depthEnabledEqual == StateAfter(device, 7, old(depthEnabledEqual))
      ensures depthEnabledNotEqual == StateAfter(device, 8, old(depthEnabledNotEqual))
    {
      var desc := DepthStencilDesc(false, WriteMaskAll, Less, false);
      depthDisabled := device.createDepthStencilState(desc);
      if depthDisabled.None? { return false; }
      desc := desc.(depthEnable := true);
      depthEnabledLess := device.createDepthStencilState(desc);
      if depthEnabledLess.None? { return false; }
      desc := desc.(depthFunc := LessEqual);
      depthEnabledLessEqual := device.createDepthStencilState(desc);
      if depthEnabledLessEqual.None? { return false; }
      desc := desc.(depthFunc := Always);
      depthEnabledAlways := device.createDepthStencilState(desc);
      if depthEnabledAlways.None? { return false; }
      desc := desc.(depthFunc := Never);
      depthEnabledNever := device.createDepthStencilState(desc);
      if depthEnabledNever.None? { return false; }
      desc := desc.(depthFunc := Greater);
      depthEnabledGreater := device.createDepthStencilState(desc);
      if depthEnabledGreater.None? { return false; }
      desc := desc.(depthFunc := GreaterEqual);
      depthEnabledGreaterEqual := device.createDepthStencilState(desc);
      if depthEnabledGreaterEqual.None? { return false; }
      desc := desc.(depthFunc := Equal);
      depthEnabledEqual := device.createDepthStencilState(desc);
      if depthEnabledEqual.None? { return false; }
      desc := desc.(depthFunc := NotEqual);
      depthEnabledNotEqual := device.createDepthStencilState(desc);
      if depthEnabledNotEqual.None? { return false; }
      return true;
    }

    /**
     * RenderUi's depth selector: the radio buttons store the selection, and
     * the switch puts the matching state on the pipeline; a selection outside
     * 0..8 leaves the pipeline's state as it was.
     */
    method SelectDepthFunction(selection: I32)
      requires pipeline != null
      modifies this`selectedDepthFunction, pipeline`depthStencilState
      ensures selectedDepthFunction == selection
      ensures 0 <= selection <= 8 ==> pipeline.depthStencilState == States()[CreationIndex(selection)]
      ensures !(0 <= selection <= 8) ==> pipeline.depthStencilState == old(pipeline.depthStencilState)
    {
      selectedDepthFunction := selection;
      var p := pipeline;
      match selectedDepthFunction
      case 0 => p.SetDepthStencilState(depthDisabled);
      case 1 => p.SetDepthStencilState(depthEnabledLess);
      case 2 => p.SetDepthStencilState(depthEnabledLessEqual);
      case 3 => p.SetDepthStencilState(depthEnabledGreater);
      case 4 => p.SetDepthStencilState(depthEnabledGreaterEqual);
      case 5 => p.SetDepthStencilState(depthEnabledEqual);
      case 6 => p.SetDepthStencilState(depthEnabledNotEqual);
      case 7 => p.SetDepthStencilState(depthEnabledAlways);
      case 8 => p.SetDepthStencilState(depthEnabledNever);
      case _ =>
    }
  }

  /**
   * After every creation succeeded, selection s puts on the pipeline the state
   * the device made from the descriptor radio button s names.
   */
  lemma SelectedStateIsNamedState(device: Device, states: seq<Ptr>, selection: int)
    requires 0 <= selection <= 8 && |states| == |CREATION_ORDER|
    requires FirstFailure(device) == |CREATION_ORDER|
    requires forall k :: 0 <= k < |CREATION_ORDER| ==> states[k] == device.createDepthStencilState(CREATION_ORDER[k])
    ensures states[CreationIndex(selection)] == device.createDepthStencilState(SelectorDesc(selection).value)
    ensures states[CreationIndex(selection)].Some?
  {
    SwitchMatchesButtons(selection, selection);
  }
}
