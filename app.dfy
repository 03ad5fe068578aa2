/**
 * The top-level screen navigation: four screens, a session record that only
 * a completed pipeline replaces, and the four handlers the screens call.
 * The second half puts the navigation together with the wizard it mounts on
 * the pipeline screen.
 */
module App {

  import opened SessionData
  import P = PipelineScreen

  /** `ScreenState`: one of exactly four screens. */
  datatype Screen = Welcome | Pipeline | Success | Dashboard

  /** The state cells `currentScreen` and `sessionData`. */
  datatype AppState = AppState(screen: Screen, session: Session)

  const Initial: AppState := AppState(Welcome, Empty)

  datatype AppEvent =
    | Start                  // the welcome screen's `onStart`
    | Complete(data: Session) // the pipeline's `onComplete(data)`
    | Restart                // the success screen's `onRestart`, or the dashboard's `onBack`
    | GoToDashboard          // the success screen's `onGoToDashboard`

  /** Which screen renders the control that raises the event. */
  predicate Offered(st: AppState, e: AppEvent) {
    match e
    case Start => st.screen == Welcome
    case Complete(_) => st.screen == Pipeline
    case Restart => st.screen == Success || st.screen == Dashboard
    case GoToDashboard => st.screen == Success
  }

  /** The four handlers: only completion touches the record, and it stores the one it is given. */
  function Handle(st: AppState, e: AppEvent): AppState {
    match e
    case Start => st.(screen := Pipeline)
    case Complete(data) => AppState(Success, data)
    case Restart => st.(screen := Welcome)
    case GoToDashboard => st.(screen := Dashboard)
  }

  function Step(st: AppState, e: AppEvent): AppState {
    if Offered(st, e) then Handle(st, e) else st
  }

  /** The only moves between screens: welcome to pipeline by Start, pipeline to success by completion, success to dashboard, and back to welcome by Restart. */
  lemma Transitions(st: AppState, e: AppEvent)
    ensures var r := Step(st, e);
      r.screen != st.screen ==>
        || (st.screen == Welcome && e == Start && r.screen == Pipeline)
        || (st.screen == Pipeline && e.Complete? && r.screen == Success)
        || (st.screen == Success && e == GoToDashboard && r.screen == Dashboard)
        || ((st.screen == Success || st.screen == Dashboard) && e == Restart && r.screen == Welcome)
  {
  }

  /** Start works only on the welcome screen, and always leads to the pipeline without touching the record. */
  lemma StartOnlyFromWelcome(st: AppState)
    ensures Step(st, Start).screen == Pipeline <==> st.screen == Welcome || st.screen == Pipeline
    ensures st.screen == Welcome ==> Step(st, Start) == AppState(Pipeline, st.session)
    ensures st.screen != Welcome ==> Step(st, Start) == st
  {
  }

  /** The pipeline is left only by its completion, which stores the handed-over record exactly and shows success. */
  lemma CompletionOnlyExit(st: AppState, e: AppEvent)
    requires st.screen == Pipeline
    ensures Step(st, e).screen != Pipeline <==> e.Complete?
    ensures e.Complete? ==> Step(st, e) == AppState(Success, e.data)
  {
  }

  /** The dashboard is reached only from success; Restart leads back to welcome from success or the dashboard. */
  lemma DashboardAndRestart(st: AppState, e: AppEvent)
    ensures Step(st, e).screen == Dashboard && st.screen != Dashboard ==> st.screen == Success && e == GoToDashboard
    ensures e == Restart && (st.screen == Success || st.screen == Dashboard) ==> Step(st, e) == AppState(Welcome, st.session)
  {
  }

  /** Only a completion changes the record. */
  lemma RecordChangesOnlyOnCompletion(st: AppState, e: AppEvent)
    ensures Step(st, e).session != st.session ==> e.Complete? && st.screen == Pipeline && Step(st, e).session == e.data
  {
  }

  function Run(st: AppState, es: seq<AppEvent>): AppState
    decreases |es|
  {
    if es == [] then st else Run(Step(st, es[0]), es[1..])
  }

  /** A run without completion events keeps the record. */
  lemma {:induction false} RunRecord(st: AppState, es: seq<AppEvent>)
    ensures (forall k :: 0 <= k < |es| ==> !es[k].Complete?) ==> Run(st, es).session == st.session
    decreases |es|
  {
    if es != [] {
      RecordChangesOnlyOnCompletion(st, es[0]);
      RunRecord(Step(st, es[0]), es[1..]);
    }
  }

  /** Running two event sequences one after the other is running their concatenation. */
  lemma {:induction false} RunConcat(st: AppState, a: seq<AppEvent>, b: seq<AppEvent>)
    ensures Run(st, a + b) == Run(Run(st, a), b)
    decreases |a|
  {
    if a != [] {
      assert (a + b)[0] == a[0] && (a + b)[1..] == a[1..] + b;
      assert Run(st, a + b) == Run(Step(st, a[0]), a[1..] + b);
      RunConcat(Step(st, a[0]), a[1..], b);
    } else {
      assert a + b == b;
    }
  }

  /**
   * After any run, the record is the data of the last completion, provided
   * that completion arrived while the pipeline screen was shown.
   */
  lemma {:induction false} RunLastCompletion(st: AppState, es: seq<AppEvent>, k: nat)
    requires k < |es| && es[k].Complete? && Run(st, es[..k]).screen == Pipeline
    requires forall j :: k < j < |es| ==> !es[j].Complete?
    ensures Run(st, es).session == es[k].data
  {
    var before := Run(st, es[..k]);
    var rest := es[k + 1..];
    assert es == es[..k] + ([es[k]] + rest);
    RunConcat(st, es[..k], [es[k]] + rest);
    assert Run(before, [es[k]] + rest) == Run(Step(before, es[k]), rest);
    assert Step(before, es[k]) == AppState(Success, es[k].data);
    assert forall j :: 0 <= j < |rest| ==> !rest[j].Complete? by {
      forall j | 0 <= j < |rest| ensures !rest[j].Complete? {
        assert rest[j] == es[k + 1 + j];
      }
    }
    RunRecord(Step(before, es[k]), rest);
  }

  // ---------------------------------------------------------------------------
  // The component as mutable state
  // ---------------------------------------------------------------------------

  class AppComponent {
    var currentScreen: Screen
    var sessionData: Session

    function State(): AppState
      reads this
    {
      AppState(currentScreen, sessionData)
    }

    constructor ()
      ensures State() == Initial
    {
      currentScreen, sessionData := Welcome, Empty;
    }

    /** `handleStart`. */
    method HandleStart()
      modifies this
      ensures State() == Handle(old(State()), Start)
    {
      currentScreen := Pipeline;
    }

    /** `handleCompletion(data)`. */
    method HandleCompletion(data: Session)
      modifies this
      ensures State() == Handle(old(State()), Complete(data))
    {
      sessionData := data;
      currentScreen := Success;
    }

    /** `handleRestart`. */
    method HandleRestart()
      modifies this
      ensures State() == Handle(old(State()), Restart)
    {
      currentScreen := Welcome;
    }

    /** `handleGoToDashboard`. */
    method HandleGoToDashboard()
      modifies this
      ensures State() == Handle(old(State()), GoToDashboard)
    {
      currentScreen := Dashboard;
    }
  }

  // ---------------------------------------------------------------------------
  // The navigation together with the wizard it mounts
  // ---------------------------------------------------------------------------

  /** The navigation state and the state of the wizard (which matters only while the pipeline screen is shown). */
  datatype SystemState = SystemState(app: AppState, pipeline: P.PipelineState)

  const SystemInitial: SystemState := SystemState(Initial, P.Initial)

  datatype UiEvent =
    | StartClicked
    | InPipeline(e: P.PipelineEvent)
    | RestartClicked
    | DashboardClicked

  /**
   * Start mounts a fresh wizard; an event inside the wizard is handled there,
   * and a record it hands up runs `handleCompletion`.
   */
  function SystemStep(s: SystemState, e: UiEvent): SystemState {
    match e
    case StartClicked =>
      if Offered(s.app, Start) then SystemState(Handle(s.app, Start), P.Initial) else s
    case InPipeline(pe) =>
      if s.app.screen == Pipeline then
        var (p, out) := P.Step(s.pipeline, pe);
        SystemState(if out.Some? then Step(s.app, Complete(out.value)) else s.app, p)
      else s
    case RestartClicked => s.(app := Step(s.app, Restart))
    case DashboardClicked => s.(app := Step(s.app, GoToDashboard))
  }

  /**
   * The mounted wizard meets its invariant; the record is the empty one or a
   * completed one; and while success or the dashboard is shown the record
   * held is a completed one.
   */
  predicate SystemInv(s: SystemState) {
    && (s.app.screen == Pipeline ==> P.Inv(s.pipeline))
    && (s.app.session == Empty || P.Completed(s.app.session))
    && (s.app.screen == Success || s.app.screen == Dashboard ==> P.Completed(s.app.session))
  }

  lemma SystemInitialInv()
    ensures SystemInv(SystemInitial)
  {
  }

  /** Every event keeps the system invariant; the record changes only to one the wizard handed up. */
  lemma SystemStepKeepsInv(s: SystemState, e: UiEvent)
    requires SystemInv(s)
    ensures SystemInv(SystemStep(s, e))
    ensures SystemStep(s, e).app.session != s.app.session ==>
      e.InPipeline? && s.app.screen == Pipeline && SystemStep(s, e).app.screen == Success
      && SystemStep(s, e).app.session == P.Step(s.pipeline, e.e).1.value
  {
    match e
    case StartClicked =>
      P.InitialInv();
    case InPipeline(pe) =>
      if s.app.screen == Pipeline {
        P.StepKeepsInv(s.pipeline, pe);
      }
    case RestartClicked =>
    case DashboardClicked =>
  }

  function SystemRun(s: SystemState, es: seq<UiEvent>): SystemState
    decreases |es|
  {
    if es == [] then s else SystemRun(SystemStep(s, es[0]), es[1..])
  }

  /**
   * Whatever the user does, from the start: while success or the dashboard
   * is shown, the record held has an accepted plate, one of the two
   * selectable slots and the 12.50 fare.
   */
  lemma {:induction false} Reachable(es: seq<UiEvent>)
    ensures SystemInv(SystemRun(SystemInitial, es))
    ensures var s := SystemRun(SystemInitial, es);
      s.app.screen == Success || s.app.screen == Dashboard ==> P.Completed(s.app.session)
  {
    SystemInitialInv();
    RunKeepsSystemInv(SystemInitial, es);
  }

  lemma {:induction false} RunKeepsSystemInv(s: SystemState, es: seq<UiEvent>)
    requires SystemInv(s)
    ensures SystemInv(SystemRun(s, es))
    decreases |es|
  {
    if es != [] {
      SystemStepKeepsInv(s, es[0]);
      RunKeepsSystemInv(SystemStep(s, es[0]), es[1..]);
    }
  }
}
