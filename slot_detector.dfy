/**
 * Step 2 of the pipeline: the simulated slot detector. An interval nudges
 * the occupancy figures unless the feed is paused; the user picks one of the
 * two free slots drawn on the map and proceeds with it.
 */
module SlotDetectorStep {

  import opened Wrappers
  import opened SessionData

  /** `{ available, occupied, reserved }`. */
  datatype Stats = Stats(available: int, occupied: int, reserved: int)

  const InitialStats: Stats := Stats(10, 38, 2)

  const SlotA102: string := "A-102"
  const SlotB045: string := "B-045"

  /** The ids a click on the map can select. */
  predicate SelectableSlot(id: string) {
    id == SlotA102 || id == SlotB045
  }

  /** The four boxes drawn on the map, in drawing order; only the two free ones have a click handler. */
  datatype SlotBox = OccupiedBox | FreeBoxA102 | ReservedBox | FreeBoxB045

  /** The id a click on the box selects, if the box is clickable. */
  function BoxSlotId(box: SlotBox): (r: Option<string>)
    ensures r.Some? <==> box == FreeBoxA102 || box == FreeBoxB045
    ensures r.Some? ==> SelectableSlot(r.value)
  {
    match box
    case FreeBoxA102 => Some(SlotA102)
    case FreeBoxB045 => Some(SlotB045)
    case _ => None
  }

  /**
   * One interval tick. `availableUp` and `occupiedDown` are the two coin
   * flips (`Math.random() > 0.5`): the free count moves up or down but not
   * below zero, the occupied count moves down or up without any bound, and
   * the reserved count is left alone.
   */
  function TickStats(s: Stats, availableUp: bool, occupiedDown: bool): (r: Stats)
    ensures r.available >= 0 && r.reserved == s.reserved
    ensures r.occupied == s.occupied + (if occupiedDown then -1 else 1)
    ensures var moved := s.available + (if availableUp then 1 else -1);
      r.available == (if moved >= 0 then moved else 0)
  {
    var moved := s.available + (if availableUp then 1 else -1);
    s.(available := if moved > 0 then moved else 0,
       occupied := s.occupied + (if occupiedDown then -1 else 1))
  }

  /** The state cells `isPaused`, `stats` and `selectedSlot`. */
  datatype SlotState = SlotState(isPaused: bool, stats: Stats, selectedSlot: Option<string>)

  const Initial: SlotState := SlotState(false, InitialStats, None)

  datatype SlotEvent =
    | Tick(availableUp: bool, occupiedDown: bool)  // the 4-second interval
    | PauseClicked                                 // the pause / play button
    | BoxClicked(box: SlotBox)                     // a click on a box of the map
    | ProceedClicked(entryTime: string)            // Proceed, with the formatted current time

  /** The `data` object Proceed hands to the pipeline. */
  function SlotPatch(slotId: string, entryTime: string): Patch {
    Patch(None, Some(slotId), Some(entryTime), None, None)
  }

  /** The interval only runs while not paused; Proceed is disabled while no slot (or an empty id) is selected. */
  predicate Offered(st: SlotState, e: SlotEvent) {
    match e
    case Tick(_, _) => !st.isPaused
    case PauseClicked => true
    case BoxClicked(_) => true
    case ProceedClicked(_) => st.selectedSlot.Some? && st.selectedSlot.value != ""
  }

  function Handle(st: SlotState, e: SlotEvent): (SlotState, Option<Patch>) {
    match e
    case Tick(up, down) => (st.(stats := TickStats(st.stats, up, down)), None)
    case PauseClicked => (st.(isPaused := !st.isPaused), None)
    case BoxClicked(box) =>
      (match BoxSlotId(box)
       case Some(id) => st.(selectedSlot := Some(id))
       case None => st, None)
    case ProceedClicked(time) =>
      (st, if st.selectedSlot.Some? then Some(SlotPatch(st.selectedSlot.value, time)) else None)
  }

  function Step(st: SlotState, e: SlotEvent): (SlotState, Option<Patch>) {
    if Offered(st, e) then Handle(st, e) else (st, None)
  }

  /** The free count is never negative, the reserved count stays 2, and only the two ids can be selected. */
  predicate Inv(st: SlotState) {
    && st.stats.available >= 0
    && st.stats.reserved == InitialStats.reserved
    && (st.selectedSlot.Some? ==> SelectableSlot(st.selectedSlot.value))
  }

  lemma InitialInv()
    ensures Inv(Initial) && Initial.selectedSlot.None?
  {
  }

  lemma StepKeepsInv(st: SlotState, e: SlotEvent)
    requires Inv(st)
    ensures Inv(Step(st, e).0)
  {
  }

  /** While paused, nothing ticks; the pause button flips the flag. */
  lemma PausedNoTick(st: SlotState, up: bool, down: bool)
    ensures st.isPaused ==> Step(st, Tick(up, down)).0 == st
    ensures Step(st, PauseClicked).0 == st.(isPaused := !st.isPaused)
  {
  }

  /** Proceed is disabled until a slot is selected, and then hands over that slot and the time. */
  lemma ProceedGate(st: SlotState, e: SlotEvent)
    requires Inv(st)
    ensures var (r, out) := Step(st, e);
      && (out.Some? <==> e.ProceedClicked? && st.selectedSlot.Some?)
      && (out.Some? ==> out.value == SlotPatch(st.selectedSlot.value, e.entryTime) && r == st)
      && (out.Some? ==> SelectableSlot(st.selectedSlot.value))
  {
  }

  // ---------------------------------------------------------------------------
  // Runs of events
  // ---------------------------------------------------------------------------

  function Run(st: SlotState, es: seq<SlotEvent>): SlotState
    decreases |es|
  {
    if es == [] then st else Run(Step(st, es[0]).0, es[1..])
  }

  /** The id selected by the last click on a free box of `es`, if there is one. */
  function LastSelection(es: seq<SlotEvent>): Option<string>
    decreases |es|
  {
    if es == [] then None
    else
      var last := es[|es| - 1];
      if last.BoxClicked? && BoxSlotId(last.box).Some? then BoxSlotId(last.box) else LastSelection(es[..|es| - 1])
  }

  lemma {:induction false} RunSnoc(st: SlotState, es: seq<SlotEvent>, e: SlotEvent)
    ensures Run(st, es + [e]) == Step(Run(st, es), e).0
    decreases |es|
  {
    if es != [] {
      assert (es + [e])[1..] == es[1..] + [e];
      RunSnoc(Step(st, es[0]).0, es[1..], e);
    }
  }

  /** The last click on a free box wins; without one the selection is what it was. */
  lemma {:induction false} RunSelection(st: SlotState, es: seq<SlotEvent>)
    ensures Run(st, es).selectedSlot == (if LastSelection(es).Some? then LastSelection(es) else st.selectedSlot)
    decreases |es|
  {
    if es != [] {
      var init := es[..|es| - 1];
      assert es == init + [es[|es| - 1]];
      RunSnoc(st, init, es[|es| - 1]);
      RunSelection(st, init);
    }
  }

  /**
   * Over any run from a state satisfying the invariant: it still holds, the
   * reserved count has not moved, and the occupied count has moved by at
   * most one per event.
   */
  lemma {:induction false} RunBounds(st: SlotState, es: seq<SlotEvent>)
    requires Inv(st)
    ensures Inv(Run(st, es))
    ensures Run(st, es).stats.reserved == st.stats.reserved
    ensures -|es| <= Run(st, es).stats.occupied - st.stats.occupied <= |es|
    decreases |es|
  {
    if es != [] {
      StepKeepsInv(st, es[0]);
      RunBounds(Step(st, es[0]).0, es[1..]);
    }
  }

  // ---------------------------------------------------------------------------
  // The component as mutable state
  // ---------------------------------------------------------------------------

  class SlotDetector {
    var isPaused: bool
    var stats: Stats
    var selectedSlot: Option<string>

    function State(): SlotState
      reads this
    {
      SlotState(isPaused, stats, selectedSlot)
    }

    ghost predicate Valid()
      reads this
    {
      Inv(State())
    }

    constructor ()
      ensures State() == Initial && Valid()
    {
      isPaused, stats, selectedSlot := false, InitialStats, None;
    }

    /** The interval callback, which exists only while not paused. */
    method OnInterval(availableUp: bool, occupiedDown: bool)
      requires Valid() && !isPaused
      modifies this
      ensures Valid() && State() == Handle(old(State()), Tick(availableUp, occupiedDown)).0
    {
      var moved := stats.available + (if availableUp then 1 else -1);
      stats := stats.(available := if moved > 0 then moved else 0,
                      occupied := stats.occupied + (if occupiedDown then -1 else 1));
    }

    /** The pause / play button: `setIsPaused(!isPaused)`. */
    method TogglePause()
      requires Valid()
      modifies this
      ensures Valid() && State() == Handle(old(State()), PauseClicked).0
    {
      isPaused := !isPaused;
    }

    /** A click on a map box: only the two free boxes select anything. */
    method ClickBox(box: SlotBox)
      requires Valid()
      modifies this
      ensures Valid() && State() == Handle(old(State()), BoxClicked(box)).0
    {
      match box {
        case FreeBoxA102 => selectedSlot := Some(SlotA102);
        case FreeBoxB045 => selectedSlot := Some(SlotB045);
        case _ =>
      }
    }

    /** The Proceed button, given the formatted current time: disabled until a slot is selected. */
    method Proceed(entryTime: string) returns (data: Option<Patch>)
      requires Valid()
      ensures data.Some? <==> selectedSlot.Some?
      ensures data.Some? ==> data.value == SlotPatch(selectedSlot.value, entryTime) && SelectableSlot(selectedSlot.value)
    {
      match selectedSlot {
        case Some(id) => data := if id != "" then Some(SlotPatch(id, entryTime)) else None;
        case None => data := None;
      }
    }
  }
}
