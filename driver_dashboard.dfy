/** The driver's in-cab dashboard: a status, an optional open case, and the
    buttons that change them. */
module DriverDashboard {
  import opened Common

  datatype DriverStatus = Available | Dispatched | EnRoute | OnScene | Transporting

  datatype CurrentCase = CurrentCase(
    id: string,
    patientName: string,
    address: string,
    priority: Priority,
    eta: int,
    hospital: string)

  /** The two state fields of the screen. */
  datatype DashboardState = DashboardState(status: DriverStatus, currentCase: Option<CurrentCase>)

  /** The controls that change the state: "Simulate New Case", the four
      "Quick Status" buttons and "Complete Handoff". */
  datatype Control = NewCaseButton | StatusButton(target: DriverStatus) | HandoffButton

  /** The case that simulateNewCase opens; it is always this record. */
  const SIMULATED_CASE := CurrentCase(
    "EMR-2847", "John Doe", "123 Main Street, Downtown", Critical, 6, "City General Hospital")

  /** The screen when it is first shown. */
  const INITIAL := DashboardState(Available, None)

  /** The coupling the screen keeps: there is no open case exactly when the
      driver is available. */
  predicate Coupled(s: DashboardState) {
    s.currentCase.None? <==> s.status == Available
  }

  /** A control can be pressed when it is rendered and not disabled. "Simulate
      New Case" is rendered only without a case; "Available" is disabled with
      a case; "En Route", "On Scene" and "Transport" are disabled without
      one; "Complete Handoff" is rendered only with a case while transporting.
      No button selects Dispatched. */
  predicate Enabled(s: DashboardState, c: Control): (r: bool)
    ensures c == StatusButton(Dispatched) ==> !r
    ensures c == NewCaseButton || c == StatusButton(Available) ==> (r <==> s.currentCase.None?)
    ensures r && c != NewCaseButton && c != StatusButton(Available) ==> s.currentCase.Some?
    ensures r && c == HandoffButton ==> s.status == Transporting
  {
    match c
    case NewCaseButton => s.currentCase.None?
    case StatusButton(t) =>
      if t == Available then s.currentCase.None?
      else if t == EnRoute || t == OnScene || t == Transporting then s.currentCase.Some?
      else false
    case HandoffButton => s.currentCase.Some? && s.status == Transporting
  }

  /** The effect of a control's handler: simulateNewCase, handleStatusUpdate
      or completeCase. Every enabled control keeps the coupling. */
  function Press(s: DashboardState, c: Control): (r: DashboardState)
    ensures c.NewCaseButton? ==> r.currentCase.Some? && r.status == Dispatched
    ensures c.StatusButton? ==> r.status == c.target && r.currentCase == s.currentCase
    ensures c.HandoffButton? ==> r.currentCase.None? && r.status == Available
    ensures Enabled(s, c) && Coupled(s) ==> Coupled(r)
  {
    match c
    case NewCaseButton => DashboardState(Dispatched, Some(SIMULATED_CASE))
    case StatusButton(t) => s.(status := t)
    case HandoffButton => DashboardState(Available, None)
  }

  /** The state after pressing the controls `cs` in order. */
  function Run(s: DashboardState, cs: seq<Control>): DashboardState
    decreases |cs|
  {
    if cs == [] then s else Run(Press(s, cs[0]), cs[1..])
  }

  /** Every control in `cs` is enabled at the moment it is pressed. */
  predicate EnabledRun(s: DashboardState, cs: seq<Control>)
    decreases |cs|
  {
    cs == [] || (Enabled(s, cs[0]) && EnabledRun(Press(s, cs[0]), cs[1..]))
  }

  /** Any sequence of enabled presses keeps "no case iff available". */
  lemma {:induction false} RunKeepsCoupling(s: DashboardState, cs: seq<Control>)
    requires Coupled(s) && EnabledRun(s, cs)
    ensures Coupled(Run(s, cs))
    decreases |cs|
  {
    if cs != [] {
      RunKeepsCoupling(Press(s, cs[0]), cs[1..]);
    }
  }

  /** Every state the screen can reach from its initial state is coupled. */
  lemma ReachableIsCoupled(cs: seq<Control>)
    requires EnabledRun(INITIAL, cs)
    ensures Coupled(Run(INITIAL, cs))
  {
    RunKeepsCoupling(INITIAL, cs);
  }

  /** Under the coupling the guards read as conditions on the status alone. */
  lemma GuardsByStatus(s: DashboardState)
    requires Coupled(s)
    ensures Enabled(s, NewCaseButton) <==> s.status == Available
    ensures Enabled(s, StatusButton(Available)) <==> s.status == Available
    ensures Enabled(s, StatusButton(EnRoute)) <==> s.status != Available
    ensures Enabled(s, StatusButton(OnScene)) <==> s.status != Available
    ensures Enabled(s, StatusButton(Transporting)) <==> s.status != Available
    ensures Enabled(s, HandoffButton) <==> s.status == Transporting
    ensures !Enabled(s, StatusButton(Dispatched))
  {
  }

  /** "Available" can only be pressed when the driver already is available,
      so on a coupled screen it changes nothing. */
  lemma AvailableChangesNothing(s: DashboardState)
    requires Coupled(s) && Enabled(s, StatusButton(Available))
    ensures Press(s, StatusButton(Available)) == s
  {
  }

  /** There is no forward-only order: with a case open, each of En Route, On
      Scene and Transport can be pressed from any status and sets it. */
  lemma AnyCaseStatusReachable(s: DashboardState, t: DriverStatus)
    requires s.currentCase.Some?
    requires t == EnRoute || t == OnScene || t == Transporting
    ensures Enabled(s, StatusButton(t))
    ensures Press(s, StatusButton(t)) == DashboardState(t, s.currentCase)
  {
  }

  /** In particular, from On Scene the driver can go back to En Route, and
      cannot yet complete the handoff. */
  lemma OnSceneCanReturnToEnRoute(c: CurrentCase)
    ensures Enabled(DashboardState(OnScene, Some(c)), StatusButton(EnRoute))
    ensures !Enabled(DashboardState(OnScene, Some(c)), HandoffButton)
    ensures !Enabled(DashboardState(OnScene, Some(c)), StatusButton(Available))
  {
  }

  /** The colour of the status dot (getStatusColor). The default branch of the
      source's switch is unreachable, so the dot is never muted; it is green
      exactly when the driver is available. */
  function StatusColor(status: DriverStatus): (r: Tone)
    ensures r != MutedTone && r != InfoTone
    ensures r == SuccessTone <==> status == Available
  {
    match status
    case Available => SuccessTone
    case Dispatched => WarningTone
    case EnRoute => WarningTone
    case OnScene => CriticalTone
    case Transporting => CriticalTone
  }

  /** On a coupled screen the dot is green exactly when no case is open. */
  lemma StatusColorShowsOpenCase(s: DashboardState)
    requires Coupled(s)
    ensures StatusColor(s.status) == SuccessTone <==> s.currentCase.None?
  {
  }

  /** The colour of the priority badge (getPriorityColor); Standard falls to
      the source's default branch. */
  function PriorityColor(p: Priority): (r: Tone)
    ensures r != SuccessTone && r != MutedTone
  {
    match p
    case Critical => CriticalTone
    case Urgent => WarningTone
    case Standard => InfoTone
  }

  /** Distinct priorities get distinct badge colours. */
  lemma PriorityColorInjective(p: Priority, q: Priority)
    requires PriorityColor(p) == PriorityColor(q)
    ensures p == q
  {
  }

  /** The dashboard's state fields and its three handlers. Each handler may
      run only when its control is enabled. */
  class Dashboard {
    var status: DriverStatus
    var currentCase: Option<CurrentCase>

    function State(): DashboardState
      reads this
    {
      DashboardState(status, currentCase)
    }

    /** The invariant every handler keeps: no open case exactly when available. */
    ghost predicate Valid()
      reads this
    {
      Coupled(State())
    }

    constructor ()
      ensures status == Available && currentCase == None
      ensures State() == INITIAL
      ensures Valid()
    {
      status := Available;
      currentCase := None;
    }

    /** simulateNewCase: opens the fixed case and marks the driver dispatched. */
    method SimulateNewCase()
      requires Valid() && Enabled(State(), NewCaseButton)
      modifies this
      ensures currentCase == Some(SIMULATED_CASE) && status == Dispatched
      ensures State() == Press(old(State()), NewCaseButton)
      ensures Valid()
    {
      currentCase := Some(SIMULATED_CASE);
      status := Dispatched;
    }

    /** handleStatusUpdate: sets the status and leaves the case alone. */
    method HandleStatusUpdate(newStatus: DriverStatus)
      requires Valid() && Enabled(State(), StatusButton(newStatus))
      modifies this
      ensures status == newStatus && currentCase == old(currentCase)
      ensures State() == Press(old(State()), StatusButton(newStatus))
      ensures Valid()
    {
      status := newStatus;
    }

    /** completeCase: clears the case and makes the driver available. */
    method CompleteCase()
      requires Valid() && Enabled(State(), HandoffButton)
      modifies this
      ensures currentCase == None && status == Available
      ensures State() == Press(old(State()), HandoffButton)
      ensures Valid()
    {
      currentCase := None;
      status := Available;
    }
  }
}
