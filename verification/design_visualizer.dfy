/** The detailed design screen: wireframe and user-flow cards that toggle
    their selection, the details panel of the selected one, the three-step
    flow preview and the step connectors, and the small classifiers of the
    accessibility and responsive tabs. */
module DetailedDesignVisualizer {
  import opened Wrappers
  import opened Seqs

  /** A wireframe card, reduced to what selection and the device icon use. */
  datatype Wireframe = Wireframe(id: string, name: string, description: string, deviceType: string)

  datatype FlowStep = FlowStep(id: string, name: string, userAction: string, systemResponse: string)

  datatype UserFlow = UserFlow(id: string, name: string, description: string, steps: seq<FlowStep>)

  /** A card click: clicking the selected card clears the selection, any
      other card becomes the selection. */
  function Toggle(selected: Option<string>, id: string): (r: Option<string>)
    ensures selected == Some(id) ==> r.None?
    ensures selected != Some(id) ==> r == Some(id)
  {
    if selected == Some(id) then None else Some(id)
  }

  /** Two clicks on the same card restore the selection exactly when nothing,
      or that very card, was selected before; a different selection is lost. */
  lemma ToggleTwice(selected: Option<string>, id: string)
    ensures Toggle(Toggle(selected, id), id) == selected <==> selected.None? || selected == Some(id)
    ensures selected.Some? && selected != Some(id) ==> Toggle(Toggle(selected, id), id).None?
  {
  }

  /** The cards that carry the selection ring. */
  function Highlighted(wireframes: seq<Wireframe>, selected: Option<string>): (r: seq<bool>)
    ensures |r| == |wireframes|
    ensures forall i :: 0 <= i < |r| ==> (r[i] <==> selected == Some(wireframes[i].id))
  {
    seq(|wireframes|, (i: int) requires 0 <= i < |wireframes| => selected == Some(wireframes[i].id))
  }

  /** After a click on a card, that card is ringed exactly when it was not
      ringed before, and so is every card sharing its id. */
  lemma ClickFlipsRing(wireframes: seq<Wireframe>, selected: Option<string>, i: nat)
    requires i < |wireframes|
    ensures Highlighted(wireframes, Toggle(selected, wireframes[i].id))[i]
        <==> !Highlighted(wireframes, selected)[i]
  {
  }

  /** The details panel of the wireframe tab: nothing while the selection is
      missing or the (falsy) empty id, else the first wireframe with that id,
      and nothing when no wireframe has it. */
  function WireframeDetails(wireframes: seq<Wireframe>, selected: Option<string>): (r: Option<Wireframe>)
    ensures selected.None? || selected.value == "" ==> r.None?
    ensures selected.Some? && selected.value != "" ==>
      (r.Some? <==> exists i :: 0 <= i < |wireframes| && wireframes[i].id == selected.value)
    ensures r.Some? ==> r.value in wireframes && Some(r.value.id) == selected
  {
    if selected.None? || selected.value == "" then None
    else Find(wireframes, (w: Wireframe) => w.id == selected.value)
  }

  /** The details panel of the user-flow tab, the same lookup over flows. */
  function FlowDetails(flows: seq<UserFlow>, selected: Option<string>): (r: Option<UserFlow>)
    ensures selected.None? || selected.value == "" ==> r.None?
    ensures selected.Some? && selected.value != "" ==>
      (r.Some? <==> exists i :: 0 <= i < |flows| && flows[i].id == selected.value)
    ensures r.Some? ==> r.value in flows && Some(r.value.id) == selected
  {
    if selected.None? || selected.value == "" then None
    else Find(flows, (f: UserFlow) => f.id == selected.value)
  }

  /** Clicking an unselected card with a non-empty id opens its details:
      the first card with that id. */
  lemma ClickOpensDetails(wireframes: seq<Wireframe>, selected: Option<string>, i: nat)
    requires i < |wireframes| && wireframes[i].id != "" && selected != Some(wireframes[i].id)
    requires forall k :: 0 <= k < i ==> wireframes[k].id != wireframes[i].id
    ensures WireframeDetails(wireframes, Toggle(selected, wireframes[i].id)) == Some(wireframes[i])
  {
    FindIsFirst(wireframes, (w: Wireframe) => w.id == wireframes[i].id, i);
  }

  /** The card preview of a flow: the first steps (at most three) with their
      numbers, and the count of the rest when some are hidden. */
  function StepPreview(steps: seq<FlowStep>): (r: (seq<(nat, FlowStep)>, Option<nat>))
    ensures |r.0| == if |steps| < 3 then |steps| else 3
    ensures forall i :: 0 <= i < |r.0| ==> r.0[i] == (i + 1, steps[i])
    ensures r.1.Some? <==> |steps| > 3
    ensures r.1.Some? ==> r.1.value > 0
  {
    var k := if |steps| < 3 then |steps| else 3;
    (seq(k, (i: int) requires 0 <= i < k => (i + 1, steps[i])), if |steps| > 3 then Some(|steps| - 3) else None)
  }

  /** Shown and hidden steps add up to all steps. */
  lemma PreviewAccountsForAll(steps: seq<FlowStep>)
    ensures |StepPreview(steps).0| + StepPreview(steps).1.GetOr(0) == |steps|
  {
  }

  /** The detailed flow: whether a connector follows each step. */
  function Connectors(n: nat): (r: seq<bool>)
    ensures |r| == n
    ensures forall i :: 0 <= i < n ==> (r[i] <==> i < n - 1)
  {
    seq(n, (i: int) requires 0 <= i < n => i < n - 1)
  }

  predicate IsSet(b: bool) { b }

  /** Every step but the last is followed by a connector: `n - 1` of them,
      and none for an empty flow. */
  lemma {:induction false} ConnectorCount(n: nat)
    ensures Count(Connectors(n), IsSet) == if n == 0 then 0 else n - 1
  {
    if n > 0 {
      assert Connectors(n)[1..] == Connectors(n - 1);
      ConnectorCount(n - 1);
    }
  }

  /** The device icon of a wireframe. */
  datatype DeviceIcon = Monitor | Smartphone | TabletIcon

  function GetDeviceIcon(deviceType: string): (icon: DeviceIcon)
    ensures icon == Smartphone <==> deviceType == "mobile"
    ensures icon == TabletIcon <==> deviceType == "tablet"
    ensures icon == Monitor <==> deviceType != "mobile" && deviceType != "tablet"
  {
    match deviceType
    case "desktop" => Monitor
    case "mobile" => Smartphone
    case "tablet" => TabletIcon
    case _ => Monitor
  }

  /** The classes of an accessibility guideline's priority. */
  const HighStyle := "text-red-400 bg-red-400/10 border-red-400/20"
  const MediumStyle := "text-yellow-400 bg-yellow-400/10 border-yellow-400/20"
  const LowStyle := "text-green-400 bg-green-400/10 border-green-400/20"
  const OtherStyle := "text-gray-400 bg-gray-400/10 border-gray-400/20"

  function PriorityColor(priority: string): (c: string)
    ensures c == HighStyle <==> priority == "high"
    ensures c == MediumStyle <==> priority == "medium"
    ensures c == LowStyle <==> priority == "low"
    ensures c == OtherStyle <==> priority !in {"high", "medium", "low"}
  {
    assert |HighStyle| == 44 && |OtherStyle| == 47 && |LowStyle| == 50 && |MediumStyle| == 53;
    match priority
    case "high" => HighStyle
    case "medium" => MediumStyle
    case "low" => LowStyle
    case _ => OtherStyle
  }

  /** A responsive breakpoint; `maxWidth` is optional. */
  datatype Breakpoint = Breakpoint(name: string, minWidth: real, maxWidth: Option<real>, description: string)

  /** The upper end of a breakpoint's range as displayed. */
  datatype Bound = Infinite | Px(width: real)

  /** `maxWidth ? maxWidth + "px" : "∞"`: a width of 0 is falsy and shows
      as unbounded too. */
  function UpperBound(b: Breakpoint): (r: Bound)
    ensures r == Infinite <==> b.maxWidth.None? || b.maxWidth.value == 0.0
    ensures r.Px? ==> b.maxWidth == Some(r.width) && r.width != 0.0
  {
    if b.maxWidth.Some? && b.maxWidth.value != 0.0 then Px(b.maxWidth.value) else Infinite
  }
}
