/** The six-step kiosk wizard (App.tsx): the step counter, the data the
    steps collect, which screen each step shows, and which handler each
    screen's callbacks reach. */
module Wizard {
  import opened Wrappers
  import opened Domain
  import opened Recognize
  import opened OrderSelection
  import opened ActionChoice

  const FirstStep := 1
  const LastStep := 6

  /** goToNext: Math.min(prev + 1, 6). */
  function NextStep(prev: int): (s: int)
    ensures prev < LastStep ==> s == prev + 1
    ensures prev >= LastStep ==> s == LastStep
  {
    if prev + 1 < LastStep then prev + 1 else LastStep
  }

  /** onBack: Math.max(prev - 1, 1). */
  function PrevStep(prev: int): (s: int)
    ensures prev > FirstStep ==> s == prev - 1
    ensures prev <= FirstStep ==> s == FirstStep
  {
    if prev - 1 > FirstStep then prev - 1 else FirstStep
  }

  /** Both moves keep a step in 1..6 there. */
  lemma StepMovesStayInRange(prev: int)
    requires FirstStep <= prev <= LastStep
    ensures FirstStep <= NextStep(prev) <= LastStep && FirstStep <= PrevStep(prev) <= LastStep
    ensures NextStep(prev) >= prev && PrevStep(prev) <= prev
  {
  }

  /** The React state of App, as one value. */
  datatype AppState = AppState(
    step: int,
    employeeId: string,
    orders: seq<Order>,
    activeOrder: Option<Order>,
    selectedAction: Option<Action>,
    sessionData: Option<SessionData>)

  const Initial := AppState(FirstStep, "", [], None, None, None)

  /** The screen rendered, with the props that carry data. */
  datatype Screen =
    | StartScreen
    | EmployeeNumberScreen
    | ActionChoiceScreen(orders: seq<Order>)
    | OrderSelectionScreen(orders: seq<Order>, action: Option<Action>)
    | PhotoStep(employeeId: string, order: Order)
    | RecognizeScreen(photoUrl: string, bboxes: seq<BBox>, originalSet: seq<string>)
    | NoScreen

  function ScreenOf(s: AppState): Screen {
    if s.step == 1 then StartScreen
    else if s.step == 2 then EmployeeNumberScreen
    else if s.step == 3 then ActionChoiceScreen(s.orders)
    else if s.step == 4 then OrderSelectionScreen(s.orders, s.selectedAction)
    else if s.step == 5 then PhotoStep(s.employeeId, if s.activeOrder.Some? then s.activeOrder.value else EmptyOrder)
    else if s.step == 6 && s.sessionData.Some? then
      RecognizeScreen(s.sessionData.value.photo, s.sessionData.value.bboxes,
        if s.activeOrder.Some? then s.activeOrder.value.actualTools else [])
    else NoScreen
  }

  /** The recognition screen is shown only at step 6 with session data, and
      checks the active order's tools, or none without an active order. */
  lemma RecognizeScreenShown(s: AppState)
    ensures ScreenOf(s).RecognizeScreen? <==> s.step == 6 && s.sessionData.Some?
    ensures ScreenOf(s).RecognizeScreen? ==>
      ScreenOf(s).originalSet == (if s.activeOrder.Some? then s.activeOrder.value.actualTools else []) &&
      ScreenOf(s).bboxes == s.sessionData.value.bboxes
  {
  }

  /** What a user can do on the screen shown. The employee screen fetches the
      orders and then calls onNext; the fetched list is the event's data. */
  datatype Event =
    | Begin
    | OrdersFetched(fetched: seq<Order>)
    | Back
    | ActionSelected(action: Action)
    | OrderSelected(order: Order)
    | PhotoDone(data: SessionData)
    | Finish

  /** The button of an action is on the action-choice screen. */
  predicate Offered(orders: seq<Order>, a: Action) {
    if a == Take then ChoicesFor(orders).takeShown else ChoicesFor(orders).returnShown
  }

  /** The handler the screen on show wires to the event; a screen that does not
      offer the event leaves the state as it is. */
  function Handle(s: AppState, e: Event): AppState {
    var screen := ScreenOf(s);
    match e
    case Begin =>
      if screen.StartScreen? then s.(step := NextStep(s.step)) else s
    case OrdersFetched(fetched) =>
      if screen.EmployeeNumberScreen? then s.(orders := fetched, step := NextStep(s.step)) else s
    case Back =>
      if screen.EmployeeNumberScreen? || screen.ActionChoiceScreen? || screen.OrderSelectionScreen? || screen.PhotoStep?
      then s.(step := PrevStep(s.step)) else s
    case ActionSelected(a) =>
      if screen.ActionChoiceScreen? && Offered(s.orders, a)
      then s.(selectedAction := Some(a), step := NextStep(s.step)) else s
    case OrderSelected(o) =>
      if screen.OrderSelectionScreen? && o in FilteredOrders(s.orders, s.selectedAction)
      then s.(activeOrder := Some(o), step := NextStep(s.step)) else s
    case PhotoDone(d) =>
      if screen.PhotoStep? then s.(sessionData := Some(d), step := NextStep(s.step)) else s
    case Finish =>
      if screen.RecognizeScreen? then s.(step := FirstStep) else s
  }

  function Run(s: AppState, events: seq<Event>): AppState
    decreases |events|
  {
    if events == [] then s else Run(Handle(s, events[0]), events[1..])
  }

  /** What holds in every state the wizard reaches: the step is in 1..6, the
      employee id is never set, and each step past the action choice has the
      data the steps before it collected. */
  predicate Reachable(s: AppState) {
    FirstStep <= s.step <= LastStep &&
    s.employeeId == "" &&
    (s.step >= 4 ==> s.selectedAction.Some?) &&
    (s.step >= 5 ==> s.activeOrder.Some?) &&
    (s.step == 6 ==> s.sessionData.Some?)
  }

  lemma HandleKeepsReachable(s: AppState, e: Event)
    requires Reachable(s)
    ensures Reachable(Handle(s, e))
  {
  }

  lemma {:induction false} RunKeepsReachable(s: AppState, events: seq<Event>)
    requires Reachable(s)
    ensures Reachable(Run(s, events))
    decreases |events|
  {
    if events != [] {
      HandleKeepsReachable(s, events[0]);
      RunKeepsReachable(Handle(s, events[0]), events[1..]);
    }
  }

  /** From the initial state, whatever the user does: the step stays in 1..6,
      some screen is always shown, the photo step always gets the chosen order
      (never the empty fallback) and an empty employee id, and the recognition
      screen checks exactly the chosen order's tools. */
  lemma WizardInvariants(events: seq<Event>)
    ensures var s := Run(Initial, events);
      FirstStep <= s.step <= LastStep &&
      s.employeeId == "" &&
      ScreenOf(s) != NoScreen &&
      (s.step == 5 ==> s.activeOrder.Some? && ScreenOf(s) == PhotoStep("", s.activeOrder.value)) &&
      (s.step == 6 ==> s.activeOrder.Some? && ScreenOf(s).RecognizeScreen? && ScreenOf(s).originalSet == s.activeOrder.value.actualTools)
  {
    RunKeepsReachable(Initial, events);
  }

  /** Finishing on the recognition screen goes back to the start screen. */
  lemma FinishRestarts(s: AppState)
    requires s.step == 6 && s.sessionData.Some?
    ensures Handle(s, Finish).step == FirstStep && ScreenOf(Handle(s, Finish)) == StartScreen
  {
  }

  /** Running a list of events is handling the first and running the rest. */
  lemma RunCons(s: AppState, e: Event, rest: seq<Event>)
    ensures Run(s, [e] + rest) == Run(Handle(s, e), rest)
  {
    assert ([e] + rest)[1..] == rest;
  }

  /** The moves each screen offers: its forward event advances one step and
      sets the field that screen collects, Back goes one step back, and
      finishing on the recognition screen returns to step 1. */
  lemma HandleMoves(s: AppState, fetched: seq<Order>, a: Action, o: Order, d: SessionData)
    ensures s.step == 1 ==> Handle(s, Begin) == s.(step := 2)
    ensures s.step == 2 ==> Handle(s, OrdersFetched(fetched)) == s.(orders := fetched, step := 3)
    ensures s.step == 3 && Offered(s.orders, a) ==>
      Handle(s, ActionSelected(a)) == s.(selectedAction := Some(a), step := 4)
    ensures s.step == 4 && o in FilteredOrders(s.orders, s.selectedAction) ==>
      Handle(s, OrderSelected(o)) == s.(activeOrder := Some(o), step := 5)
    ensures s.step == 5 ==> Handle(s, PhotoDone(d)) == s.(sessionData := Some(d), step := 6)
    ensures 2 <= s.step <= 5 ==> Handle(s, Back) == s.(step := s.step - 1)
    ensures s.step == 6 && s.sessionData.Some? ==> Handle(s, Finish) == s.(step := 1)
  {
  }

  /** A happy path through all six screens. */
  lemma FullSession(fetched: seq<Order>, o: Order, d: SessionData)
    requires o in fetched && o.status == Requested
    ensures var s := Run(Initial, [Begin, OrdersFetched(fetched), ActionSelected(Take), OrderSelected(o), PhotoDone(d)]);
      s == AppState(6, "", fetched, Some(o), Some(Take), Some(d)) &&
      ScreenOf(s) == RecognizeScreen(d.photo, d.bboxes, o.actualTools)
  {
    var s1 := Initial.(step := 2);
    var s2 := s1.(orders := fetched, step := 3);
    var s3 := s2.(selectedAction := Some(Take), step := 4);
    var s4 := s3.(activeOrder := Some(o), step := 5);
    var s5 := s4.(sessionData := Some(d), step := 6);
    assert Handle(Initial, Begin) == s1 by {
      HandleMoves(Initial, fetched, Take, o, d);
    }
    assert Handle(s1, OrdersFetched(fetched)) == s2 by {
      HandleMoves(s1, fetched, Take, o, d);
    }
    assert Handle(s2, ActionSelected(Take)) == s3 by {
      assert IsTakeActive(fetched) by {
        var i :| 0 <= i < |fetched| && fetched[i] == o;
      }
      HandleMoves(s2, fetched, Take, o, d);
    }
    assert Handle(s3, OrderSelected(o)) == s4 by {
      FilteredByStatus(fetched, Take);
      assert o in FilteredOrders(fetched, Some(Take));
      HandleMoves(s3, fetched, Take, o, d);
    }
    assert Handle(s4, PhotoDone(d)) == s5 by {
      HandleMoves(s4, fetched, Take, o, d);
    }
    var e4, e3, e2, e1 := [PhotoDone(d)], [OrderSelected(o), PhotoDone(d)],
      [ActionSelected(Take), OrderSelected(o), PhotoDone(d)],
      [OrdersFetched(fetched), ActionSelected(Take), OrderSelected(o), PhotoDone(d)];
    assert Run(s4, e4) == s5 by {
      RunCons(s4, PhotoDone(d), []);
      assert [PhotoDone(d)] + [] == e4;
    }
    assert Run(s3, e3) == s5 by {
      RunCons(s3, OrderSelected(o), e4);
      assert [OrderSelected(o)] + e4 == e3;
    }
    assert Run(s2, e2) == s5 by {
      RunCons(s2, ActionSelected(Take), e3);
      assert [ActionSelected(Take)] + e3 == e2;
    }
    assert Run(s1, e1) == s5 by {
      RunCons(s1, OrdersFetched(fetched), e2);
      assert [OrdersFetched(fetched)] + e2 == e1;
    }
    assert Run(Initial, [Begin] + e1) == s5 by {
      RunCons(Initial, Begin, e1);
    }
    assert [Begin] + e1 == [Begin, OrdersFetched(fetched), ActionSelected(Take), OrderSelected(o), PhotoDone(d)];
    RecognizeScreenShown(s5);
  }

  /** App's state as fields that its handlers update. */
  class App {
    var step: int
    var employeeId: string
    var orders: seq<Order>
    var activeOrder: Option<Order>
    var selectedAction: Option<Action>
    var sessionData: Option<SessionData>

    function State(): AppState
      reads this
    {
      AppState(step, employeeId, orders, activeOrder, selectedAction, sessionData)
    }

    constructor ()
      ensures State() == Initial
    {
      step := FirstStep;
      employeeId := "";
      orders := [];
      activeOrder := None;
      selectedAction := None;
      sessionData := None;
    }

    method GoToNext()
      modifies this
      ensures State() == old(State()).(step := NextStep(old(step)))
    {
      step := NextStep(step);
    }

    method OnBack()
      modifies this
      ensures State() == old(State()).(step := PrevStep(old(step)))
    {
      step := PrevStep(step);
    }

    /** Never reached: the employee screen is given goToNext instead. */
    method HandleEmployeeNext(id: string)
      modifies this
      ensures State() == old(State()).(employeeId := id, step := NextStep(old(step)))
    {
      employeeId := id;
      GoToNext();
    }

    method HandleActionSelect(a: Action)
      modifies this
      ensures State() == old(State()).(selectedAction := Some(a), step := NextStep(old(step)))
    {
      selectedAction := Some(a);
      GoToNext();
    }

    method HandleOrderSelect(o: Order)
      modifies this
      ensures State() == old(State()).(activeOrder := Some(o), step := NextStep(old(step)))
    {
      activeOrder := Some(o);
      GoToNext();
    }

    method HandlePhotoNext(d: SessionData)
      modifies this
      ensures State() == old(State()).(sessionData := Some(d), step := NextStep(old(step)))
    {
      sessionData := Some(d);
      GoToNext();
    }

    method HandleFinishSession()
      modifies this
      ensures State() == old(State()).(step := FirstStep)
    {
      step := FirstStep;
    }

    /** The setOrders callback of the employee screen. */
    method SetOrders(fetched: seq<Order>)
      modifies this
      ensures State() == old(State()).(orders := fetched)
    {
      orders := fetched;
    }

    /** An event on the screen shown, through the callbacks App passes it. */
    method Dispatch(e: Event)
      modifies this
      ensures State() == Handle(old(State()), e)
    {
      var screen := ScreenOf(State());
      match e
      case Begin =>
        if screen.StartScreen? { GoToNext(); }
      case OrdersFetched(fetched) =>
        if screen.EmployeeNumberScreen? {
          SetOrders(fetched);
          GoToNext();
        }
      case Back =>
        if screen.EmployeeNumberScreen? || screen.ActionChoiceScreen? || screen.OrderSelectionScreen? || screen.PhotoStep? {
          OnBack();
        }
      case ActionSelected(a) =>
        if screen.ActionChoiceScreen? && Offered(orders, a) { HandleActionSelect(a); }
      case OrderSelected(o) =>
        if screen.OrderSelectionScreen? && o in FilteredOrders(orders, selectedAction) { HandleOrderSelect(o); }
      case PhotoDone(d) =>
        if screen.PhotoStep? { HandlePhotoNext(d); }
      case Finish =>
        if screen.RecognizeScreen? { HandleFinishSession(); }
    }
  }
}
