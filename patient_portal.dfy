/** The patient's SOS screen: a dispatch status, an ETA, and the three timers
    that SOS schedules. */
module PatientPortal {
  import opened Common

  datatype DispatchStatus = Idle | Dispatching | OnWay | Arrived

  /** The two state fields of the screen. */
  datatype PortalView = PortalView(status: DispatchStatus, eta: Option<nat>)

  /** The screen when it is first shown, and after "Close Request". */
  const INITIAL := PortalView(Idle, None)

  /** The three setTimeout callbacks of handleEmergencyDispatch. */
  datatype Timer = OnWayTimer | EtaTimer | ArrivedTimer

  /** Milliseconds after the SOS press at which each callback runs. */
  function Delay(t: Timer): nat {
    match t
    case OnWayTimer => 2000
    case EtaTimer => 5000
    case ArrivedTimer => 8000
  }

  /** The timers in the order handleEmergencyDispatch schedules them. */
  const SCHEDULED := [OnWayTimer, EtaTimer, ArrivedTimer]

  /** What a callback does to the screen when it runs. No callback moves an
      unfinished dispatch backwards, and each leaves the ETA shown exactly
      while on the way (the ETA update only runs once the screen is on the
      way). */
  function Fire(t: Timer, v: PortalView): (r: PortalView)
    ensures v.status != Arrived ==> StatusIndex(v.status) <= StatusIndex(r.status)
    ensures t != EtaTimer || v.status == OnWay ==> EtaShownOnlyOnWay(r)
    ensures r.eta.Some? ==> r.eta.value <= 8
  {
    match t
    case OnWayTimer => PortalView(OnWay, Some(8))
    case EtaTimer => v.(eta := Some(4))
    case ArrivedTimer => PortalView(Arrived, None)
  }

  /** The synchronous part of handleEmergencyDispatch: the first progress
      step is highlighted and the ETA is left as it was, so none is shown
      when dispatching from the idle screen. */
  function Dispatch(v: PortalView): (r: PortalView)
    ensures StatusIndex(r.status) == 0
    ensures r.eta == v.eta
    ensures v.eta.None? ==> EtaShownOnlyOnWay(r)
  {
    v.(status := Dispatching)
  }

  /** The screen after the callbacks `timers` run in order. */
  function FireAll(timers: seq<Timer>, v: PortalView): PortalView
    decreases |timers|
  {
    if timers == [] then v else FireAll(timers[1..], Fire(timers[0], v))
  }

  predicate SortedByDelay(timers: seq<Timer>) {
    forall i, j :: 0 <= i < j < |timers| ==> Delay(timers[i]) <= Delay(timers[j])
  }

  /** How many of `timers` have run `elapsed` milliseconds after they were
      scheduled: exactly those whose delay has passed, which form a prefix
      when the delays are sorted. */
  function DueCount(timers: seq<Timer>, elapsed: nat): (n: nat)
    requires SortedByDelay(timers)
    ensures n <= |timers|
    ensures forall i :: 0 <= i < n ==> Delay(timers[i]) <= elapsed
    ensures forall i :: n <= i < |timers| ==> elapsed < Delay(timers[i])
    decreases |timers|
  {
    if timers == [] || elapsed < Delay(timers[0]) then 0
    else 1 + DueCount(timers[1..], elapsed)
  }

  /** The screen `elapsed` milliseconds after SOS was pressed on the idle
      screen: dispatching, then on the way with ETA 8 at 2 s, ETA 4 at 5 s,
      and arrived with the ETA cleared at 8 s. */
  function AtElapsed(elapsed: nat): (r: PortalView)
    ensures elapsed < 2000 ==> r == PortalView(Dispatching, None)
    ensures 2000 <= elapsed < 5000 ==> r == PortalView(OnWay, Some(8))
    ensures 5000 <= elapsed < 8000 ==> r == PortalView(OnWay, Some(4))
    ensures 8000 <= elapsed ==> r == PortalView(Arrived, None)
  {
    var n := DueCount(SCHEDULED, elapsed);
    ScheduledPhases();
    FireAll(SCHEDULED[..n], Dispatch(INITIAL))
  }

  /** The screen after each prefix of the scheduled callbacks has run. */
  lemma ScheduledPhases()
    ensures FireAll(SCHEDULED[..0], Dispatch(INITIAL)) == PortalView(Dispatching, None)
    ensures FireAll(SCHEDULED[..1], Dispatch(INITIAL)) == PortalView(OnWay, Some(8))
    ensures FireAll(SCHEDULED[..2], Dispatch(INITIAL)) == PortalView(OnWay, Some(4))
    ensures FireAll(SCHEDULED[..3], Dispatch(INITIAL)) == PortalView(Arrived, None)
  {
    assert SCHEDULED[..0] == [];
    assert SCHEDULED[..1] == [OnWayTimer];
    assert SCHEDULED[..2] == [OnWayTimer, EtaTimer];
    assert SCHEDULED[..3] == [OnWayTimer, EtaTimer, ArrivedTimer];
    var v1 := PortalView(OnWay, Some(8));
    var v2 := PortalView(OnWay, Some(4));
    assert FireAll([], v1) == v1;
    assert FireAll([EtaTimer], v1) == FireAll([], v2);
    assert FireAll([EtaTimer, ArrivedTimer], v1) == FireAll([ArrivedTimer], v2);
    assert FireAll([ArrivedTimer], v2) == FireAll([], PortalView(Arrived, None));
  }

  /** The index of the highlighted progress step (getStatusIndex): one of
      the three steps while a dispatch runs, and -1 (no step) when idle. */
  function StatusIndex(s: DispatchStatus): (r: int)
    ensures -1 <= r <= 2
    ensures r < 0 <==> s == Idle
  {
    match s
    case Dispatching => 0
    case OnWay => 1
    case Arrived => 2
    case Idle => -1
  }

  /** The ETA is shown exactly while the ambulance is on the way. */
  predicate EtaShownOnlyOnWay(v: PortalView) {
    v.eta.Some? <==> v.status == OnWay
  }

  /** Within one dispatch the progress never moves backwards. */
  lemma ProgressMonotone(t1: nat, t2: nat)
    requires t1 <= t2
    ensures StatusIndex(AtElapsed(t1).status) <= StatusIndex(AtElapsed(t2).status)
  {
  }

  /** The ETA appears only on the way, and while shown it never goes up. */
  lemma EtaNonIncreasing(t1: nat, t2: nat)
    requires t1 <= t2
    requires AtElapsed(t1).eta.Some? && AtElapsed(t2).eta.Some?
    ensures AtElapsed(t2).eta.value <= AtElapsed(t1).eta.value
    ensures EtaShownOnlyOnWay(AtElapsed(t1)) && EtaShownOnlyOnWay(AtElapsed(t2))
  {
  }

  /** How a progress step is drawn. */
  datatype StepDisplay = Completed | Current | Upcoming

  /** Step `step` (0 Dispatched, 1 On the Way, 2 Arrived) on a screen whose
      status is `s`: completed before the status index, current at it. */
  function StepAt(step: nat, s: DispatchStatus): (d: StepDisplay)
    ensures d == Completed <==> step < StatusIndex(s)
    ensures d == Current <==> step == StatusIndex(s)
  {
    var current := StatusIndex(s);
    if step < current then Completed
    else if step == current then Current
    else Upcoming
  }

  /** At most one step is current, and a step once completed stays completed
      for the rest of the dispatch. */
  lemma StepsAdvanceInOrder(t1: nat, t2: nat, i: nat, j: nat)
    requires t1 <= t2
    ensures StepAt(i, AtElapsed(t1).status) == Current && StepAt(j, AtElapsed(t1).status) == Current ==> i == j
    ensures StepAt(i, AtElapsed(t1).status) == Completed ==> StepAt(i, AtElapsed(t2).status) == Completed
  {
    ProgressMonotone(t1, t2);
  }

  /** Running all scheduled callbacks is the only way to reach Arrived. */
  lemma ArrivedOnlyAfterAllTimers(k: nat)
    requires k <= |SCHEDULED|
    ensures FireAll(SCHEDULED[..k], Dispatch(INITIAL)).status == Arrived <==> k == |SCHEDULED|
    ensures FireAll(SCHEDULED[..k], Dispatch(INITIAL)).status != Idle
  {
    ScheduledPhases();
  }

  /** The screen's state fields, with the callbacks that are scheduled and
      have not run yet. */
  class Portal {
    var status: DispatchStatus
    var eta: Option<nat>
    var pending: seq<Timer>

    function View(): PortalView
      reads this
    {
      PortalView(status, eta)
    }

    /** The pending callbacks are the not-yet-run tail of one dispatch, and
        the screen shows the effect of the callbacks that have run. */
    ghost predicate Valid()
      reads this
    {
      && |pending| <= |SCHEDULED|
      && pending == SCHEDULED[|SCHEDULED| - |pending|..]
      && if status == Idle then pending == [] && eta == None
         else View() == FireAll(SCHEDULED[..|SCHEDULED| - |pending|], Dispatch(INITIAL))
    }

    constructor ()
      ensures Valid() && View() == INITIAL && pending == []
    {
      status := Idle;
      eta := None;
      pending := [];
    }

    /** handleEmergencyDispatch: SOS is rendered only on the idle screen. It
        shows "dispatching" at once and schedules the three callbacks. */
    method HandleEmergencyDispatch()
      requires Valid() && status == Idle
      modifies this
      ensures Valid()
      ensures View() == PortalView(Dispatching, None) && pending == SCHEDULED
    {
      status := Dispatching;
      pending := SCHEDULED;
      assert SCHEDULED[..0] == [];
    }

    /** The earliest scheduled callback runs. */
    method RunNextTimer()
      requires Valid() && pending != []
      modifies this
      ensures Valid()
      ensures View() == Fire(old(pending[0]), old(View())) && pending == old(pending[1..])
    {
      ghost var k := |SCHEDULED| - |pending|;
      var t := pending[0];
      assert SCHEDULED[..k + 1] == SCHEDULED[..k] + [t];
      FireAllSnoc(SCHEDULED[..k], t, Dispatch(INITIAL));
      ArrivedOnlyAfterAllTimers(k);
      var v := Fire(t, View());
      status, eta := v.status, v.eta;
      pending := pending[1..];
    }

    /** resetDispatch: "Close Request" is rendered only on the arrived screen,
        and by then no callback is left to run. */
    method ResetDispatch()
      requires Valid() && status == Arrived
      modifies this
      ensures Valid() && View() == INITIAL && pending == []
    {
      ArrivedOnlyAfterAllTimers(|SCHEDULED| - |pending|);
      status := Idle;
      eta := None;
    }
  }

  /** Running one more callback after a run is running the longer list. */
  lemma {:induction false} FireAllSnoc(timers: seq<Timer>, t: Timer, v: PortalView)
    ensures FireAll(timers + [t], v) == Fire(t, FireAll(timers, v))
    decreases |timers|
  {
    if timers == [] {
      assert [] + [t] == [t];
    } else {
      assert (timers + [t])[1..] == timers[1..] + [t];
      FireAllSnoc(timers[1..], t, Fire(timers[0], v));
    }
  }
}
