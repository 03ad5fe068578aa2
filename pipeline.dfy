/**
 * The three-step wizard: a step counter kept within 1..3 by a back button
 * clamped at 1 and by the step components' completion callbacks, and the
 * session record each completion merges its data into. Completing step 3
 * hands the merged record up instead of advancing.
 *
 * The second half composes the wizard with the step component it renders,
 * replacing that component by a freshly mounted one whenever the step
 * changes, and proves what the record handed up always holds.
 */
module PipelineScreen {

  import opened Wrappers
  import opened SessionData
  import Plate = PlateDetectionStep
  import Slot = SlotDetectorStep
  import Bill = BillingStep

  const FirstStep: int := 1
  const LastStep: int := 3

  /** `Math.max(1, prev - 1)`: one step back, but never before the first. */
  function BackStep(step: int): (r: int)
    ensures r >= FirstStep
    ensures r == step <==> step == FirstStep
    ensures step > FirstStep ==> r == step - 1
  {
    if step - 1 > FirstStep then step - 1 else FirstStep
  }

  /** What `handleStepCompletion` leads to: the new step, the new record and what `onComplete` receives, if called. */
  datatype Completion = Completion(nextStep: int, session: Session, handedUp: Option<Session>)

  /**
   * `handleStepCompletion(step, data)` with the counter at `currentStep`: the
   * data (when there is any) is merged into the record; before the last step
   * the counter moves to the step after `step`; at the last step the counter
   * stays and the merged record is handed up.
   */
  function CompleteStep(currentStep: int, session: Session, step: int, data: Option<Patch>): (r: Completion)
    ensures r.session == Merge(session, data)
    ensures step < LastStep ==> r.nextStep == step + 1 && r.handedUp.None?
    ensures step >= LastStep ==> r.nextStep == currentStep && r.handedUp == Some(r.session)
    ensures FirstStep <= step <= LastStep && FirstStep <= currentStep <= LastStep ==>
      FirstStep <= r.nextStep <= LastStep
  {
    var merged := Merge(session, data);
    if step < LastStep then Completion(step + 1, merged, None)
    else Completion(currentStep, merged, Some(merged))
  }

  // ---------------------------------------------------------------------------
  // The component as mutable state
  // ---------------------------------------------------------------------------

  /** The wizard's own state cells, `currentStep` and `sessionData`. */
  class Pipeline {
    var currentStep: int
    var sessionData: Session

    ghost predicate Valid()
      reads this
    {
      FirstStep <= currentStep <= LastStep
    }

    constructor ()
      ensures Valid() && currentStep == FirstStep && sessionData == Empty
    {
      currentStep, sessionData := FirstStep, Empty;
    }

    /** The back arrow. */
    method Back()
      requires Valid()
      modifies this
      ensures Valid() && currentStep == BackStep(old(currentStep)) && sessionData == old(sessionData)
    {
      if currentStep - 1 > FirstStep {
        currentStep := currentStep - 1;
      } else {
        currentStep := FirstStep;
      }
    }

    /**
     * `handleStepCompletion`, called by the step components with their own
     * step number; `completed` is the record passed to `onComplete`, if it is
     * called.
     */
    method HandleStepCompletion(step: int, data: Option<Patch>) returns (completed: Option<Session>)
      requires Valid() && FirstStep <= step <= LastStep
      modifies this
      ensures Valid()
      ensures Completion(currentStep, sessionData, completed)
        == CompleteStep(old(currentStep), old(sessionData), step, data)
    {
      var before := sessionData;
      if data.Some? {
        sessionData := Apply(sessionData, data.value);
      }
      if step < LastStep {
        currentStep := step + 1;
        completed := None;
      } else {
        completed := Some(Merge(before, data));
      }
    }
  }

  // ---------------------------------------------------------------------------
  // The wizard together with the step component it renders
  // ---------------------------------------------------------------------------

  /** The mounted step component and its state; nothing is rendered for a step outside 1..3. */
  datatype Child =
    | PlateChild(plate: Plate.PlateState)
    | SlotChild(slot: Slot.SlotState)
    | BillingChild(billing: Bill.BillingState)
    | NoChild

  /** A freshly mounted component for the step: its state cells hold their initial values. */
  function Mount(step: int): (c: Child)
    ensures step == 1 <==> c == PlateChild(Plate.Initial)
    ensures step == 2 <==> c == SlotChild(Slot.Initial)
    ensures step == 3 <==> c == BillingChild(Bill.Initial)
    ensures c.NoChild? <==> !(FirstStep <= step <= LastStep)
  {
    if step == 1 then PlateChild(Plate.Initial)
    else if step == 2 then SlotChild(Slot.Initial)
    else if step == 3 then BillingChild(Bill.Initial)
    else NoChild
  }

  datatype PipelineState = PipelineState(currentStep: int, session: Session, child: Child)

  const Initial: PipelineState := PipelineState(FirstStep, Empty, Mount(FirstStep))

  datatype PipelineEvent =
    | BackClicked
    | InPlate(plateEvent: Plate.PlateEvent)
    | InSlot(slotEvent: Slot.SlotEvent)
    | InBilling(billingEvent: Bill.BillingEvent)

  /**
   * Set the counter: React keeps the mounted component when the value does
   * not change, and replaces it by a fresh one for the new step when it does.
   */
  function MoveTo(st: PipelineState, step: int): PipelineState {
    if step == st.currentStep then st else st.(currentStep := step, child := Mount(step))
  }

  /** A step component's `onNext(data)`, if its event called it, run through `handleStepCompletion(step, data)`. */
  function Deliver(st: PipelineState, step: int, out: Option<Patch>): (PipelineState, Option<Session>) {
    match out
    case None => (st, None)
    case Some(_) =>
      var c := CompleteStep(st.currentStep, st.session, step, out);
      (MoveTo(st.(session := c.session), c.nextStep), c.handedUp)
  }

  /**
   * One event: the back arrow, or an event of the mounted step component,
   * handled by that component and passed on through its `onNext` callback.
   * Events of a component that is not mounted do nothing.
   */
  function Step(st: PipelineState, e: PipelineEvent): (PipelineState, Option<Session>) {
    match e
    case BackClicked => (MoveTo(st, BackStep(st.currentStep)), None)
    case InPlate(pe) =>
      if st.child.PlateChild? then
        var (c, out) := Plate.Step(st.child.plate, pe);
        Deliver(st.(child := PlateChild(c)), 1, out)
      else (st, None)
    case InSlot(se) =>
      if st.child.SlotChild? then
        var (c, out) := Slot.Step(st.child.slot, se);
        Deliver(st.(child := SlotChild(c)), 2, out)
      else (st, None)
    case InBilling(be) =>
      if st.child.BillingChild? then
        var (c, out) := Bill.Step(st.child.billing, be);
        Deliver(st.(child := BillingChild(c)), 3, out)
      else (st, None)
  }

  /** The component mounted is always the one for the current step, and its own invariant holds. */
  predicate ChildFits(step: int, c: Child) {
    match c
    case PlateChild(p) => step == 1 && Plate.Inv(p)
    case SlotChild(s) => step == 2 && Slot.Inv(s)
    case BillingChild(b) => step == 3 && Bill.Inv(b)
    case NoChild => false
  }

  /**
   * The wizard's invariant: the counter is within 1..3 and the mounted
   * component belongs to it; the record's plate is empty or one the
   * classification accepted, and is set from step 2 on; its slot is empty or
   * one of the two selectable ids, and is set from step 3 on; the duration is
   * never set and the fare is 0 or 12.50.
   */
  predicate Inv(st: PipelineState) {
    && FirstStep <= st.currentStep <= LastStep
    && ChildFits(st.currentStep, st.child)
    && (st.session.plateNumber == "" || Plate.ValidPlate(st.session.plateNumber))
    && (st.currentStep >= 2 ==> Plate.ValidPlate(st.session.plateNumber))
    && (st.session.slotId == "" || Slot.SelectableSlot(st.session.slotId))
    && (st.currentStep >= 3 ==> Slot.SelectableSlot(st.session.slotId))
    && st.session.duration == ""
    && (st.session.fare == 0 || st.session.fare == Bill.FareCents)
  }

  /** A record as the wizard hands it up: an accepted plate, a selectable slot, the fare, and no duration. */
  predicate Completed(s: Session) {
    && Plate.ValidPlate(s.plateNumber)
    && Slot.SelectableSlot(s.slotId)
    && s.fare == Bill.FareCents
    && s.duration == ""
  }

  lemma InitialInv()
    ensures Inv(Initial) && Initial.child == PlateChild(Plate.Initial)
  {
    Plate.InitialInv();
    Slot.InitialInv();
    Bill.InitialInv();
  }

  /** A freshly mounted component satisfies its invariant. */
  lemma MountFits(step: int)
    requires FirstStep <= step <= LastStep
    ensures ChildFits(step, Mount(step))
  {
    Plate.InitialInv();
    Slot.InitialInv();
    Bill.InitialInv();
  }

  /** The back arrow moves one step back, clamped at 1, and never touches the record; at step 1 it changes nothing. */
  lemma BackKeepsSession(st: PipelineState)
    requires Inv(st)
    ensures var (r, out) := Step(st, BackClicked);
      && r.currentStep == BackStep(st.currentStep) && r.session == st.session && out.None?
      && (st.currentStep == FirstStep ==> r == st)
      && (st.currentStep > FirstStep ==> r.child == Mount(st.currentStep - 1))
  {
  }

  /**
   * Every event keeps the invariant; a record is handed up only from the
   * last step, which stays current, and it is the record with the fare set
   * and satisfies `Completed`.
   */
  lemma StepKeepsInv(st: PipelineState, e: PipelineEvent)
    requires Inv(st)
    ensures Inv(Step(st, e).0)
    ensures var (r, out) := Step(st, e);
      out.Some? ==>
        && st.currentStep == LastStep && r.currentStep == LastStep
        && out.value == Merge(st.session, Some(Bill.FarePatch()))
        && r.session == out.value
        && Completed(out.value)
  {
    match e
    case BackClicked =>
      MountFits(BackStep(st.currentStep));
    case InPlate(pe) =>
      if st.child.PlateChild? {
        Plate.StepKeepsInv(st.child.plate, pe);
        Plate.ProceedGate(st.child.plate, pe);
        MountFits(2);
      }
    case InSlot(se) =>
      if st.child.SlotChild? {
        Slot.StepKeepsInv(st.child.slot, se);
        Slot.ProceedGate(st.child.slot, se);
        MountFits(3);
      }
    case InBilling(be) =>
      if st.child.BillingChild? {
        Bill.StepKeepsInv(st.child.billing, be);
        Bill.PrimaryDispatch(st.child.billing, be);
      }
  }

  /**
   * When the mounted component of a step before the last calls `onNext`, its
   * data is merged into the record, the counter advances by one and the next
   * step's component is mounted fresh.
   */
  lemma AdvanceMergesAndRemounts(st: PipelineState, e: PipelineEvent)
    requires Inv(st) && st.currentStep < LastStep && !e.BackClicked?
    ensures var (r, out) := Step(st, e);
      && out.None?
      && (r.currentStep == st.currentStep || r.currentStep == st.currentStep + 1)
      && (r.currentStep == st.currentStep + 1 ==>
            r.child == Mount(r.currentStep)
            && (st.currentStep == 1 ==> r.session == Merge(st.session, Some(Plate.PlatePatch(st.child.plate.detectedPlate))))
            && (st.currentStep == 2 ==> exists t :: r.session == Merge(st.session, Some(Slot.SlotPatch(st.child.slot.selectedSlot.value, t)))))
      && (r.currentStep == st.currentStep ==> r.session == st.session)
  {
    match e
    case InPlate(pe) =>
      if st.child.PlateChild? {
        Plate.ProceedGate(st.child.plate, pe);
      }
    case InSlot(se) =>
      if st.child.SlotChild? {
        Slot.ProceedGate(st.child.slot, se);
        var (c, out) := Slot.Step(st.child.slot, se);
        if out.Some? {
          var t := se.entryTime;
          assert Step(st, e).0.session == Merge(st.session, Some(Slot.SlotPatch(st.child.slot.selectedSlot.value, t)));
        }
      }
    case InBilling(_) =>
  }

  // ---------------------------------------------------------------------------
  // Runs of events
  // ---------------------------------------------------------------------------

  /** The state after a run of events, and the records handed up along the way. */
  function Run(st: PipelineState, es: seq<PipelineEvent>): (PipelineState, seq<Session>)
    decreases |es|
  {
    if es == [] then (st, [])
    else
      var (next, out) := Step(st, es[0]);
      var (last, outs) := Run(next, es[1..]);
      (last, (if out.Some? then [out.value] else []) + outs)
  }

  /** From the initial state (or any state meeting the invariant), every record ever handed up is `Completed`. */
  lemma {:induction false} RunKeepsInv(st: PipelineState, es: seq<PipelineEvent>)
    requires Inv(st)
    ensures Inv(Run(st, es).0)
    ensures forall k :: 0 <= k < |Run(st, es).1| ==> Completed(Run(st, es).1[k])
    decreases |es|
  {
    if es != [] {
      StepKeepsInv(st, es[0]);
      RunKeepsInv(Step(st, es[0]).0, es[1..]);
    }
  }
}
