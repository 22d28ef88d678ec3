/**
 * The order-status stepper: it finds the current step by id with `findIndex` and, for
 * each step, decides whether it is completed, current or still to come, which icon it
 * shows, whether its icon spins and whether the connector after it is highlighted.
 */
module Stepper {
  import opened Wrappers

  /** The icon components the stepper and the tracking page hand around. */
  datatype Icon = CheckCircle | Circle | Loader2 | Truck | ShoppingBag | ListOrdered

  datatype Step = Step(id: string, name: string, icon: Option<Icon>)

  /** The three icon props; each defaults when the caller leaves it out. */
  datatype Palette = Palette(completedIcon: Icon, currentIcon: Icon, futureIcon: Icon)

  const DefaultPalette: Palette := Palette(CheckCircle, Loader2, Circle)

  /** Used when the caller passes no `steps`. */
  const DefaultSteps: seq<Step> := [
    Step("confirmed", "Order Confirmed", Some(CheckCircle)),
    Step("preparing", "Preparing Food", Some(Loader2)),
    Step("delivery", "Out for Delivery", Some(Truck)),
    Step("delivered", "Delivered", Some(CheckCircle))
  ]

  /** The default applies only when the prop is left out: an empty list passed in stays
      empty. */
  function StepsOrDefault(steps: Option<seq<Step>>): (r: seq<Step>)
    ensures steps.None? ==> |r| == 4 && r[0].id == "confirmed" && r[3].id == "delivered"
    ensures steps.Some? ==> r == steps.value
  {
    match steps
    case Some(s) => s
    case None => DefaultSteps
  }

  /** The icon props, each replaced by its default when left out. */
  function PaletteOf(completed: Option<Icon>, current: Option<Icon>, future: Option<Icon>): (p: Palette)
    ensures completed.None? && current.None? && future.None? ==> p == DefaultPalette
    ensures completed.Some? ==> p.completedIcon == completed.value
    ensures current.Some? ==> p.currentIcon == current.value
    ensures future.Some? ==> p.futureIcon == future.value
  {
    Palette(
      match completed { case Some(c) => c case None => DefaultPalette.completedIcon },
      match current { case Some(c) => c case None => DefaultPalette.currentIcon },
      match future { case Some(c) => c case None => DefaultPalette.futureIcon })
  }

  /** What one step renders as. `connector` is None when no connector follows the step,
      otherwise whether the connector is highlighted. */
  datatype StepView = StepView(isCompleted: bool, isCurrent: bool, icon: Icon, spinning: bool, connector: Option<bool>)

  /** `steps.findIndex(step => step.id === currentStepId)`: the first position holding the
      id, or -1 when no step has it. */
  function FindIndex(steps: seq<Step>, id: string): (r: int)
    ensures -1 <= r < |steps|
    ensures r >= 0 ==> steps[r].id == id && forall j :: 0 <= j < r ==> steps[j].id != id
    ensures r == -1 <==> forall j :: 0 <= j < |steps| ==> steps[j].id != id
  {
    if steps == [] then -1
    else if steps[0].id == id then 0
    else
      var t := FindIndex(steps[1..], id);
      assert forall j :: 1 <= j < |steps| ==> steps[j] == steps[1..][j - 1];
      if t == -1 then -1 else t + 1
  }

  /** The flags, icon and connector of step `index`. */
  function ViewOf(steps: seq<Step>, currentStepId: string, palette: Palette, index: nat): (v: StepView)
    requires index < |steps|
    ensures !(v.isCompleted && v.isCurrent)
    ensures v.isCurrent ==> steps[index].id == currentStepId
    ensures v.spinning ==> v.isCurrent
    ensures v.connector.Some? <==> index < |steps| - 1
    ensures v.icon in {palette.completedIcon, palette.currentIcon, palette.futureIcon}
         || Some(v.icon) == steps[index].icon
  {
    var currentStepIndex := FindIndex(steps, currentStepId);
    var isCompleted := index < currentStepIndex;
    var isCurrent := index == currentStepIndex;
    var icon :=
      if isCompleted then palette.completedIcon
      else if isCurrent then palette.currentIcon
      else match steps[index].icon { case Some(own) => own case None => palette.futureIcon };
    StepView(
      isCompleted,
      isCurrent,
      icon,
      isCurrent && steps[index].id == "preparing",
      if index < |steps| - 1 then Some(isCompleted || isCurrent) else None)
  }

  /** `steps.map((step, index) => ...)`: one view per step, in order. */
  function Render(steps: seq<Step>, currentStepId: string, palette: Palette): (views: seq<StepView>)
    ensures |views| == |steps|
    ensures forall i :: 0 <= i < |steps| ==> views[i] == ViewOf(steps, currentStepId, palette, i)
  {
    seq(|steps|, i requires 0 <= i < |steps| => ViewOf(steps, currentStepId, palette, i))
  }

  /** The component with its props: absent props take their defaults before rendering. */
  function RenderProps(steps: Option<seq<Step>>, currentStepId: string,
                       completed: Option<Icon>, current: Option<Icon>, future: Option<Icon>): (r: seq<StepView>)
    ensures steps.None? ==> |r| == 4
    ensures steps.Some? ==> |r| == |steps.value|
    ensures forall i :: 0 <= i < |r| ==> !(r[i].isCompleted && r[i].isCurrent)
    ensures forall i :: 0 <= i < |r| ==> (r[i].connector.None? <==> i == |r| - 1)
  {
    Render(StepsOrDefault(steps), currentStepId, PaletteOf(completed, current, future))
  }

  // ---------------------------------------------------------------------------
  // What the flags mean

  /** A step is current iff it is the first step carrying the id; it is completed iff
      the first step carrying the id comes later. No step is both. */
  lemma ViewMeaning(steps: seq<Step>, currentStepId: string, palette: Palette, index: nat)
    requires index < |steps|
    ensures var v := ViewOf(steps, currentStepId, palette, index);
      && (v.isCurrent <==>
            steps[index].id == currentStepId && forall j :: 0 <= j < index ==> steps[j].id != currentStepId)
      && (v.isCompleted <==>
            (exists j :: index < j < |steps| && steps[j].id == currentStepId) &&
            forall j :: 0 <= j <= index ==> steps[j].id != currentStepId)
      && !(v.isCompleted && v.isCurrent)
  {
    var c := FindIndex(steps, currentStepId);
    var v := ViewOf(steps, currentStepId, palette, index);
    if (exists j :: index < j < |steps| && steps[j].id == currentStepId) &&
       (forall j :: 0 <= j <= index ==> steps[j].id != currentStepId) {
      assert c != -1;
    }
  }

  /** The icon: the completed icon, the current icon, else the step's own icon, else the
      future icon. */
  lemma IconChoice(steps: seq<Step>, currentStepId: string, palette: Palette, index: nat)
    requires index < |steps|
    ensures var v := ViewOf(steps, currentStepId, palette, index);
      && (v.isCompleted ==> v.icon == palette.completedIcon)
      && (v.isCurrent ==> v.icon == palette.currentIcon)
      && (!v.isCompleted && !v.isCurrent && steps[index].icon.Some? ==> v.icon == steps[index].icon.value)
      && (!v.isCompleted && !v.isCurrent && steps[index].icon.None? ==> v.icon == palette.futureIcon)
  {
  }

  /** Every step but the last is followed by a connector, highlighted iff the step is
      completed or current; only the current `preparing` step spins. */
  lemma ConnectorAndSpin(steps: seq<Step>, currentStepId: string, palette: Palette, index: nat)
    requires index < |steps|
    ensures var v := ViewOf(steps, currentStepId, palette, index);
      && (v.connector.Some? <==> index < |steps| - 1)
      && (v.connector.Some? ==> (v.connector.value <==> v.isCompleted || v.isCurrent))
      && (v.spinning <==> v.isCurrent && steps[index].id == "preparing")
  {
  }

  // ---------------------------------------------------------------------------
  // Counting over the whole stepper

  function CurrentCount(views: seq<StepView>): nat {
    if views == [] then 0 else (if views[0].isCurrent then 1 else 0) + CurrentCount(views[1..])
  }

  function CompletedCount(views: seq<StepView>): nat {
    if views == [] then 0 else (if views[0].isCompleted then 1 else 0) + CompletedCount(views[1..])
  }

  lemma {:induction false} CurrentCountAt(views: seq<StepView>, p: int)
    requires forall i :: 0 <= i < |views| ==> (views[i].isCurrent <==> i == p)
    ensures CurrentCount(views) == if 0 <= p < |views| then 1 else 0
  {
    if views != [] {
      assert forall i :: 0 <= i < |views[1..]| ==> views[1..][i] == views[i + 1];
      CurrentCountAt(views[1..], p - 1);
    }
  }

  lemma {:induction false} CompletedCountBelow(views: seq<StepView>, c: int)
    requires c <= |views|
    requires forall i :: 0 <= i < |views| ==> (views[i].isCompleted <==> i < c)
    ensures CompletedCount(views) == if c < 0 then 0 else c
  {
    if views != [] {
      assert forall i :: 0 <= i < |views[1..]| ==> views[1..][i] == views[i + 1];
      CompletedCountBelow(views[1..], c - 1);
    }
  }

  /** When the current id is present, exactly one step is current and exactly
      `currentStepIndex` steps are completed; when it is absent, none is either. */
  lemma StepperCounts(steps: seq<Step>, currentStepId: string, palette: Palette)
    ensures var views := Render(steps, currentStepId, palette);
      var c := FindIndex(steps, currentStepId);
      && (c >= 0 ==> CurrentCount(views) == 1 && CompletedCount(views) == c)
      && (c == -1 ==> CurrentCount(views) == 0 && CompletedCount(views) == 0)
  {
    var views := Render(steps, currentStepId, palette);
    var c := FindIndex(steps, currentStepId);
    CurrentCountAt(views, c);
    CompletedCountBelow(views, c);
  }

  /** An id that no step carries marks nothing: no step is completed or current. */
  lemma AbsentIdMarksNothing(steps: seq<Step>, currentStepId: string, palette: Palette)
    requires forall j :: 0 <= j < |steps| ==> steps[j].id != currentStepId
    ensures forall i :: 0 <= i < |steps| ==>
      !Render(steps, currentStepId, palette)[i].isCompleted && !Render(steps, currentStepId, palette)[i].isCurrent
  {
  }

  /** With every prop left out and `preparing` current: the first default step is done, the
      second is current with the spinning loader, the rest show their own icons. */
  lemma {:induction false} DefaultPropsPreparing()
    ensures RenderProps(None, "preparing", None, None, None) == [
      StepView(true, false, CheckCircle, false, Some(true)),
      StepView(false, true, Loader2, true, Some(true)),
      StepView(false, false, Truck, false, Some(false)),
      StepView(false, false, CheckCircle, false, None)]
  {
    assert DefaultSteps[0].id[0] != "preparing"[0];
    assert FindIndex(DefaultSteps, "preparing") == 1;
  }
}
