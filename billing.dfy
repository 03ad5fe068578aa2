/**
 * Step 3 of the pipeline: the simulated bill. A two-flag state machine
 * (not generated, generating, generated) driven by the primary button and a
 * completion timer, the fixed fare, and the receipt and share texts built
 * from the session record.
 */
module BillingStep {

  import opened Wrappers
  import opened Strings
  import opened Decimal
  import opened SessionData

  /** The fixed fare of 12.50, in cents. */
  const FareCents: nat := 1250

  /** `fare.toFixed(2)`. */
  function FareText(): string {
    FormatCents(FareCents)
  }

  /** The fare is always shown as "12.50". */
  lemma FareTextIs()
    ensures FareText() == "12.50"
  {
    assert NatToDecimal(12) == "12";
  }

  /** The shown amount, `$${fare.toFixed(2)}`. */
  function FareLabel(): (r: string)
    ensures r == "$12.50"
  {
    FareTextIs();
    "$" + FareText()
  }

  // ---------------------------------------------------------------------------
  // The generate / complete state machine
  // ---------------------------------------------------------------------------

  /**
   * The state cells `isGenerating` and `billGenerated`, and the number of
   * completion timers scheduled but not yet run.
   */
  datatype BillingState = BillingState(isGenerating: bool, billGenerated: bool, pendingTimers: nat)

  const Initial: BillingState := BillingState(false, false, 0)

  datatype BillingEvent =
    | PrimaryClicked  // "Generate & Send Bill", or "Complete Transaction" once generated
    | TimerFired      // a completion timer scheduled by handleGenerate runs

  /** The three phases the two flags encode. */
  datatype Phase = NotGenerated | Generating | Generated

  function PhaseOf(st: BillingState): Phase {
    if st.billGenerated then Generated else if st.isGenerating then Generating else NotGenerated
  }

  /** Order of the phases, for "never goes back". */
  function Rank(p: Phase): nat {
    match p
    case NotGenerated => 0
    case Generating => 1
    case Generated => 2
  }

  /** The `data` object "Complete Transaction" hands to the pipeline: `{ fare }`. */
  function FarePatch(): Patch {
    Patch(None, None, None, None, Some(FareCents))
  }

  /** The primary button is never disabled; a timer can only fire once scheduled. */
  predicate Offered(st: BillingState, e: BillingEvent) {
    match e
    case PrimaryClicked => true
    case TimerFired => st.pendingTimers > 0
  }

  /**
   * The primary button runs `handleGenerate` (which sets `isGenerating` and
   * schedules a completion) until the bill is generated, and emits `{ fare }`
   * after; the timer clears `isGenerating` and sets `billGenerated`.
   */
  function Handle(st: BillingState, e: BillingEvent): (BillingState, Option<Patch>) {
    match e
    case PrimaryClicked =>
      if st.billGenerated then (st, Some(FarePatch()))
      else (st.(isGenerating := true, pendingTimers := st.pendingTimers + 1), None)
    case TimerFired =>
      (BillingState(false, true, if st.pendingTimers > 0 then st.pendingTimers - 1 else 0), None)
  }

  function Step(st: BillingState, e: BillingEvent): (BillingState, Option<Patch>) {
    if Offered(st, e) then Handle(st, e) else (st, None)
  }

  /**
   * The flags never both hold, and the pending timers match the phase: none
   * before generation starts, at least one while generating.
   */
  predicate Inv(st: BillingState) {
    && !(st.isGenerating && st.billGenerated)
    && (st.isGenerating ==> st.pendingTimers > 0)
    && (!st.isGenerating && !st.billGenerated ==> st.pendingTimers == 0)
  }

  lemma InitialInv()
    ensures Inv(Initial) && PhaseOf(Initial) == NotGenerated
  {
  }

  /**
   * Every event keeps the invariant and never moves the phase back; once
   * generated the bill stays generated.
   */
  lemma StepKeepsInv(st: BillingState, e: BillingEvent)
    requires Inv(st)
    ensures Inv(Step(st, e).0)
    ensures Rank(PhaseOf(Step(st, e).0)) >= Rank(PhaseOf(st))
    ensures st.billGenerated ==> Step(st, e).0.billGenerated
  {
  }

  /** The transitions of the phase machine, one per event. */
  lemma PhaseTransitions(st: BillingState)
    requires Inv(st)
    ensures PhaseOf(st) == NotGenerated ==> PhaseOf(Step(st, PrimaryClicked).0) == Generating
    ensures PhaseOf(st) == Generating ==> PhaseOf(Step(st, PrimaryClicked).0) == Generating
    ensures PhaseOf(st) == Generating ==>
      Step(st, PrimaryClicked).0.pendingTimers == st.pendingTimers + 1
    ensures PhaseOf(st) == Generating ==> PhaseOf(Step(st, TimerFired).0) == Generated
    ensures PhaseOf(st) == NotGenerated ==> Step(st, TimerFired).0 == st
  {
  }

  /** The button hands data on only after generation, and then exactly `{ fare }`. */
  lemma PrimaryDispatch(st: BillingState, e: BillingEvent)
    ensures var (r, out) := Step(st, e);
      && (out.Some? <==> e == PrimaryClicked && st.billGenerated)
      && (out.Some? ==> out.value == FarePatch() && r == st)
  {
  }

  function Run(st: BillingState, es: seq<BillingEvent>): BillingState
    decreases |es|
  {
    if es == [] then st else Run(Step(st, es[0]).0, es[1..])
  }

  /** Over any run the invariant holds and the phase only moves forward. */
  lemma {:induction false} RunMonotone(st: BillingState, es: seq<BillingEvent>)
    requires Inv(st)
    ensures Inv(Run(st, es))
    ensures Rank(PhaseOf(Run(st, es))) >= Rank(PhaseOf(st))
    ensures st.billGenerated ==> Run(st, es).billGenerated
    decreases |es|
  {
    if es != [] {
      StepKeepsInv(st, es[0]);
      RunMonotone(Step(st, es[0]).0, es[1..]);
    }
  }

  // ---------------------------------------------------------------------------
  // Receipt and share texts
  // ---------------------------------------------------------------------------

  const ThankYou: string := "Thank you for parking with us."

  /**
   * The downloaded receipt, given the formatted date; the session's fields
   * appear as they are. (The template literal, written piece by piece.)
   */
  function ReceiptText(date: string, s: Session): string {
    "PARK AI RECEIPT" + "\n" + "" + "\n" + ("Date: " + date) + "\n" + ("Plate: " + s.plateNumber)
      + "\n" + ("Slot: " + s.slotId) + "\n" + ("Fare: $" + FareText()) + "\n" + "" + "\n" + ThankYou
  }

  /** The receipt line by line. */
  function ReceiptLines(date: string, s: Session): seq<string> {
    ["PARK AI RECEIPT", "", "Date: " + date, "Plate: " + s.plateNumber, "Slot: " + s.slotId,
     "Fare: $12.50", "", ThankYou]
  }

  /** The receipt is its lines joined by line breaks. */
  lemma ReceiptJoin(date: string, s: Session)
    ensures Join(ReceiptLines(date, s), '\n') == ReceiptText(date, s)
  {
    FareTextIs();
    JoinEight("PARK AI RECEIPT", "", "Date: " + date, "Plate: " + s.plateNumber, "Slot: " + s.slotId,
      "Fare: $12.50", "", ThankYou, '\n');
  }

  /** When no field holds a line break, the receipt is exactly those eight lines in that order. */
  lemma ReceiptTextLines(date: string, s: Session)
    requires '\n' !in date && '\n' !in s.plateNumber && '\n' !in s.slotId
    ensures Split(ReceiptText(date, s), '\n') == ReceiptLines(date, s)
  {
    var lines := ReceiptLines(date, s);
    ReceiptJoin(date, s);
    ReceiptLinesUnbroken(date, s);
    SplitJoin(lines, '\n');
  }

  /** No receipt line holds a line break when no field does. */
  lemma ReceiptLinesUnbroken(date: string, s: Session)
    requires '\n' !in date && '\n' !in s.plateNumber && '\n' !in s.slotId
    ensures forall k :: 0 <= k < |ReceiptLines(date, s)| ==> '\n' !in ReceiptLines(date, s)[k]
  {
    var lines := ReceiptLines(date, s);
    assert '\n' !in lines[0] && '\n' !in lines[1] && '\n' !in lines[5] && '\n' !in lines[6] && '\n' !in lines[7];
    assert '\n' !in lines[2] by { NotInAppend("Date: ", date, '\n'); }
    assert '\n' !in lines[3] by { NotInAppend("Plate: ", s.plateNumber, '\n'); }
    assert '\n' !in lines[4] by { NotInAppend("Slot: ", s.slotId, '\n'); }
  }

  /** The WhatsApp message used when the browser cannot share natively (before URL encoding). */
  function WhatsAppText(s: Session): string {
    "*PARK AI RECEIPT*" + "\n" + ("Plate: " + s.plateNumber) + "\n" + ("Amount: $" + FareText()) + "\n" + "Status: Paid"
  }

  /** The text handed to the native share sheet. */
  function NativeShareText(s: Session): string {
    "Parking Receipt for " + s.plateNumber + ": $" + FareText()
  }

  /** `handleShare`'s text: native share when available, the WhatsApp message otherwise. */
  function ShareText(s: Session, nativeShare: bool): string {
    if nativeShare then NativeShareText(s) else WhatsAppText(s)
  }

  /** When the plate holds no line break, the WhatsApp message is exactly those four lines. */
  lemma WhatsAppTextLines(s: Session)
    requires '\n' !in s.plateNumber
    ensures Split(ShareText(s, false), '\n') == ["*PARK AI RECEIPT*", "Plate: " + s.plateNumber, "Amount: $12.50", "Status: Paid"]
  {
    FareTextIs();
    var lines := ["*PARK AI RECEIPT*", "Plate: " + s.plateNumber, "Amount: $12.50", "Status: Paid"];
    JoinFour(lines[0], lines[1], lines[2], lines[3], '\n');
    assert Join(lines, '\n') == WhatsAppText(s);
    assert '\n' !in lines[0] && '\n' !in lines[2] && '\n' !in lines[3];
    assert '\n' !in lines[1] by { NotInAppend("Plate: ", s.plateNumber, '\n'); }
    SplitJoin(lines, '\n');
  }

  /** The plate can be read back from the native share text: it sits between the fixed prefix and the amount. */
  lemma NativeShareNamesPlate(s: Session)
    ensures var t := ShareText(s, true);
      && t == "Parking Receipt for " + s.plateNumber + ": $12.50"
      && t[20..|t| - 8] == s.plateNumber
  {
    FareTextIs();
  }

  /** `value || fallback`: an empty string is falsy and shows the fallback instead. */
  function OrFallback(value: string, fallback: string): (r: string)
    ensures value != "" ==> r == value
    ensures value == "" ==> r == fallback
  {
    if value != "" then value else fallback
  }

  datatype Row = Row(caption: string, value: string)

  /** The rows of the on-screen receipt, given the formatted exit time. */
  function ReceiptRows(s: Session, exitTime: string): seq<Row> {
    [ Row("Vehicle Plate", OrFallback(s.plateNumber, "ABC-1234")),
      Row("Slot ID", OrFallback(s.slotId, "A-102")),
      Row("Entry Time", OrFallback(s.entryTime, "10:30 AM")),
      Row("Exit Time", exitTime) ]
  }

  /**
   * The first three rows never show an empty value: each shows its field,
   * or a fixed placeholder when the field is empty.
   */
  lemma ReceiptRowsFallbacks(s: Session, exitTime: string)
    ensures var rows := ReceiptRows(s, exitTime);
      && |rows| == 4
      && (forall k :: 0 <= k < 3 ==> rows[k].value != "")
      && rows[0].value == (if s.plateNumber == "" then "ABC-1234" else s.plateNumber)
      && rows[1].value == (if s.slotId == "" then "A-102" else s.slotId)
      && rows[2].value == (if s.entryTime == "" then "10:30 AM" else s.entryTime)
      && rows[3].value == exitTime
  {
  }

  // ---------------------------------------------------------------------------
  // The component as mutable state
  // ---------------------------------------------------------------------------

  class Billing {
    var isGenerating: bool
    var billGenerated: bool
    var pendingTimers: nat

    function State(): BillingState
      reads this
    {
      BillingState(isGenerating, billGenerated, pendingTimers)
    }

    ghost predicate Valid()
      reads this
    {
      Inv(State())
    }

    constructor ()
      ensures State() == Initial && Valid()
    {
      isGenerating, billGenerated, pendingTimers := false, false, 0;
    }

    /** `handleGenerate`: start generating and schedule the completion. */
    method HandleGenerate()
      requires Valid() && !billGenerated
      modifies this
      ensures Valid() && isGenerating && pendingTimers == old(pendingTimers) + 1
      ensures billGenerated == old(billGenerated)
    {
      isGenerating := true;
      pendingTimers := pendingTimers + 1;
    }

    /** A completion timer of `handleGenerate`. */
    method OnTimer()
      requires Valid() && pendingTimers > 0
      modifies this
      ensures Valid() && State() == Handle(old(State()), TimerFired).0
      ensures !isGenerating && billGenerated
    {
      isGenerating := false;
      billGenerated := true;
      pendingTimers := pendingTimers - 1;
    }

    /** The primary button: generate before, complete the transaction with `{ fare }` after. */
    method OnPrimaryClick() returns (data: Option<Patch>)
      requires Valid()
      modifies this
      ensures Valid() && (State(), data) == Handle(old(State()), PrimaryClicked)
    {
      if billGenerated {
        data := Some(FarePatch());
      } else {
        HandleGenerate();
        data := None;
      }
    }
  }
}
