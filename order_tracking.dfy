/**
 * The simulated order progress of the tracking page. The page holds the current step
 * id; an effect that runs whenever the id changes arms a timer for the next step, and
 * its cleanup clears the timers it armed. Delays are data here: a fired timer moves a
 * virtual clock forward by its delay.
 */
module OrderTracking {
  import opened Wrappers
  import opened Stepper

  /** The five step ids. The page's state only ever holds one of them: it starts at the
      first and every update sets another entry's id. */
  datatype StepId = Confirmed | Preparing | Pickup | Delivery | Delivered

  /** The id as the page and the stepper see it. */
  function IdText(s: StepId): string {
    match s
    case Confirmed => "confirmed"
    case Preparing => "preparing"
    case Pickup => "pickup"
    case Delivery => "delivery"
    case Delivered => "delivered"
  }

  /** The ids of `orderSteps`, in display order. */
  const OrderStepIds: seq<StepId> := [Confirmed, Preparing, Pickup, Delivery, Delivered]

  /** The five steps handed to the stepper. */
  const OrderSteps: seq<Step> := [
    Step(IdText(Confirmed), "Order Confirmed", Some(ListOrdered)),
    Step(IdText(Preparing), "Preparing Food", Some(Loader2)),
    Step(IdText(Pickup), "Ready for Pickup", Some(ShoppingBag)),
    Step(IdText(Delivery), "Out for Delivery", Some(Truck)),
    Step(IdText(Delivered), "Delivered", Some(CheckCircle))
  ]

  const InitialStepId: StepId := OrderStepIds[0]

  /** A timer armed by the effect: when it fires, the step becomes `target`. */
  datatype Timer = Timer(target: StepId, delayMs: nat)

  /** The position of a step in `orderSteps`. */
  function Position(s: StepId): (i: nat)
    ensures i < |OrderStepIds| && OrderStepIds[i] == s
  {
    match s
    case Confirmed => 0
    case Preparing => 1
    case Pickup => 2
    case Delivery => 3
    case Delivered => 4
  }

  /** The timers the effect arms for the current step: three separate guards, each
      pushing one timer. */
  function ArmedTimers(currentStepId: StepId): (timers: seq<Timer>)
    ensures |timers| <= 1
    ensures timers == [] <==> currentStepId in {Pickup, Delivered}
    ensures forall t :: t in timers ==> Position(currentStepId) < Position(t.target)
  {
    (if currentStepId == OrderStepIds[0] then [Timer(OrderStepIds[1], 3000)] else [])
    + (if currentStepId == OrderStepIds[1] then [Timer(OrderStepIds[3], 5000)] else [])
    + (if currentStepId == OrderStepIds[3] then [Timer(OrderStepIds[4], 7000)] else [])
  }

  /** The transition the armed timer will make, if any. */
  function NextTransition(currentStepId: StepId): (r: Option<Timer>)
    ensures r.None? <==> currentStepId in {Pickup, Delivered}
    ensures r.Some? ==> Position(currentStepId) < Position(r.value.target)
    ensures r.Some? ==> r.value.target != Pickup && r.value.delayMs > 0
  {
    var timers := ArmedTimers(currentStepId);
    if timers == [] then None else Some(timers[0])
  }

  /** The step and the elapsed time after at most `n` timers have fired. */
  function Progress(currentStepId: StepId, n: nat): (r: (StepId, nat))
    ensures Position(currentStepId) <= Position(r.0)
    ensures r.0 == currentStepId <==> r.1 == 0
    decreases n
  {
    if n == 0 then (currentStepId, 0)
    else match NextTransition(currentStepId)
      case None => (currentStepId, 0)
      case Some(t) =>
        var (id, elapsed) := Progress(t.target, n - 1);
        (id, elapsed + t.delayMs)
  }

  /** The steps visited after at most `n` timers have fired, starting with the current one. */
  function Trace(currentStepId: StepId, n: nat): (tr: seq<StepId>)
    ensures 1 <= |tr| <= n + 1 && tr[0] == currentStepId
    ensures tr[|tr| - 1] == Progress(currentStepId, n).0
    decreases n
  {
    [currentStepId] +
    if n == 0 then []
    else match NextTransition(currentStepId)
      case None => []
      case Some(t) => Trace(t.target, n - 1)
  }

  // ---------------------------------------------------------------------------
  // The page's state

  class OrderTracker {
    var currentStepId: StepId
    /** Timers armed by the effect for the current step and neither fired nor cleared. */
    var pending: seq<Timer>
    /** Virtual time, in milliseconds, since the page mounted. */
    var elapsedMs: nat
    var mounted: bool

    /** While mounted, exactly the current step's timers are pending; after teardown, none. */
    ghost predicate Valid()
      reads this
    {
      pending == if mounted then ArmedTimers(currentStepId) else []
    }

    /** Mount: the state starts at the first step and the effect arms its timer. */
    constructor ()
      ensures Valid() && mounted
      ensures currentStepId == Confirmed && elapsedMs == 0
      ensures pending == [Timer(Preparing, 3000)]
    {
      currentStepId := OrderStepIds[0];
      elapsedMs := 0;
      mounted := true;
      pending := ArmedTimers(OrderStepIds[0]);
    }

    /** The pending timer fires: its callback sets the new step, the effect's cleanup
        clears the old step's timers and the effect arms the new step's timers. With no
        pending timer nothing happens. */
    method Fire() returns (fired: bool)
      requires Valid()
      modifies this
      ensures Valid() && mounted == old(mounted)
      ensures fired <==> old(pending) != []
      ensures fired ==> currentStepId == old(pending)[0].target
      ensures fired ==> elapsedMs == old(elapsedMs) + old(pending)[0].delayMs
      ensures fired ==> Position(old(currentStepId)) < Position(currentStepId)
      ensures !fired ==> currentStepId == old(currentStepId) && elapsedMs == old(elapsedMs) && pending == old(pending)
    {
      fired := pending != [];
      if fired {
        var t := pending[0];
        assert t in ArmedTimers(currentStepId);
        currentStepId := t.target;
        elapsedMs := elapsedMs + t.delayMs;
        pending := ArmedTimers(currentStepId);
      }
    }

    /** Unmount: the cleanup clears every pending timer, so no later firing can change
        the step. */
    method Teardown()
      requires Valid()
      modifies this
      ensures Valid() && !mounted && pending == []
      ensures currentStepId == old(currentStepId) && elapsedMs == old(elapsedMs)
    {
      pending := [];
      mounted := false;
    }
  }

  // ---------------------------------------------------------------------------
  // Properties of the step sequence and of the progression

  /** Five steps, in the order confirmed, preparing, pickup, delivery, delivered, with
      distinct ids. */
  lemma StepSequence()
    ensures |OrderSteps| == 5
    ensures forall i :: 0 <= i < 5 ==> OrderSteps[i].id == IdText(OrderStepIds[i])
    ensures forall i, j :: 0 <= i < j < 5 ==> OrderSteps[i].id != OrderSteps[j].id
    ensures InitialStepId == Confirmed
  {
    assert "confirmed"[0] == 'c' && "preparing"[0] == 'p' && "pickup"[0] == 'p';
    assert "delivery"[0] == 'd' && "delivered"[0] == 'd';
    assert "preparing"[1] == 'r' && "pickup"[1] == 'i' && |"delivery"| != |"delivered"|;
  }

  /** The stepper finds each step at its own position. */
  lemma StepperFindsEachStep(s: StepId)
    ensures FindIndex(OrderSteps, IdText(s)) == Position(s)
  {
    StepSequence();
    var p, r := Position(s), FindIndex(OrderSteps, IdText(s));
    assert OrderSteps[p].id == IdText(s);
    assert 0 <= r <= p && OrderSteps[r].id == OrderSteps[p].id;
  }

  /** The three transitions and their delays; `pickup` is skipped and the two steps
      without a guard arm nothing. */
  lemma TransitionTable()
    ensures NextTransition(Confirmed) == Some(Timer(Preparing, 3000))
    ensures NextTransition(Preparing) == Some(Timer(Delivery, 5000))
    ensures NextTransition(Delivery) == Some(Timer(Delivered, 7000))
    ensures NextTransition(Pickup) == None && NextTransition(Delivered) == None
  {
  }

  /** A step without a timer stays where it is, however many firings are allowed. */
  lemma {:induction false} ProgressStops(id: StepId, n: nat)
    requires NextTransition(id) == None
    ensures Progress(id, n) == (id, 0) && Trace(id, n) == [id]
  {
  }

  const FullTrace: seq<StepId> := [Confirmed, Preparing, Delivery, Delivered]

  /** From mount, the order reaches `delivered` after exactly three firings and 15000 ms,
      visiting confirmed, preparing, delivery and delivered in that order, and then stays. */
  lemma {:induction false} FullRun(n: nat)
    requires n >= 3
    ensures Progress(InitialStepId, n) == (Delivered, 15000)
    ensures Trace(InitialStepId, n) == FullTrace
  {
    TransitionTable();
    ProgressStops(Delivered, n - 3);
    assert Progress(Delivery, n - 2) == (Delivered, 7000);
    assert Trace(Delivery, n - 2) == [Delivery, Delivered];
    assert Progress(Preparing, n - 1) == (Delivered, 12000);
    assert Trace(Preparing, n - 1) == [Preparing, Delivery, Delivered];
  }

  /** The first steps of the run from mount, whatever the number of firings. */
  lemma {:induction false} TraceFromMount(n: nat)
    ensures Trace(InitialStepId, n) == FullTrace[..if n < 3 then n + 1 else 4]
  {
    TransitionTable();
    if n >= 3 {
      FullRun(n);
      assert FullTrace[..4] == FullTrace;
    }
  }

  /** Along every run from mount the step index strictly increases, so no step is
      revisited, and `pickup` never appears. */
  lemma {:induction false} TraceIncreases(n: nat)
    ensures var tr := Trace(InitialStepId, n);
      && (forall i, j :: 0 <= i < j < |tr| ==> Position(tr[i]) < Position(tr[j]))
      && Pickup !in tr
  {
    var tr := Trace(InitialStepId, n);
    TraceFromMount(n);
    assert forall i :: 0 <= i < |tr| ==> tr[i] == FullTrace[i];
    FullTraceIncreases();
  }

  /** The full run visits positions 0, 1, 3 and 4. */
  lemma FullTraceIncreases()
    ensures forall i, j :: 0 <= i < j < |FullTrace| ==> Position(FullTrace[i]) < Position(FullTrace[j])
    ensures Pickup !in FullTrace
  {
    assert Position(FullTrace[0]) == 0 && Position(FullTrace[1]) == 1;
    assert Position(FullTrace[2]) == 3 && Position(FullTrace[3]) == 4;
  }
}
