/**
 * The session record threaded from the pipeline to the success screen, and
 * the partial records (`data` objects) the pipeline steps hand back, merged
 * in with JavaScript's object spread `{ ...session, ...data }`.
 */
module SessionData {

  import opened Wrappers

  /**
   * `{ plateNumber, slotId, entryTime, duration, fare }`. The fare is a
   * JavaScript number in the source; every value it takes (0 and 12.50) is
   * a whole number of cents, so it is held here in cents.
   */
  datatype Session = Session(plateNumber: string, slotId: string, entryTime: string, duration: string, fare: int)

  /** The record both App and PipelineScreen start from: empty strings and a zero fare. */
  const Empty: Session := Session("", "", "", "", 0)

  /** A `data` object: the keys it has are the fields that are `Some`. */
  datatype Patch = Patch(
    plateNumber: Option<string>,
    slotId: Option<string>,
    entryTime: Option<string>,
    duration: Option<string>,
    fare: Option<int>)

  /** One key of a spread: the given value wins over the current one. */
  function Override<T>(current: T, given: Option<T>): T {
    match given
    case Some(v) => v
    case None => current
  }

  /** `{ ...s, ...p }`: the keys of `p` replace those of `s`. */
  function Apply(s: Session, p: Patch): Session {
    Session(
      Override(s.plateNumber, p.plateNumber),
      Override(s.slotId, p.slotId),
      Override(s.entryTime, p.entryTime),
      Override(s.duration, p.duration),
      Override(s.fare, p.fare))
  }

  /**
   * `{ ...s, ...data }` where `data` may be missing (`undefined`): spreading
   * nothing leaves the record as it is.
   */
  function Merge(s: Session, data: Option<Patch>): (r: Session)
    ensures data.None? ==> r == s
  {
    match data
    case None => s
    case Some(p) => Apply(s, p)
  }

  /** `{ ...a, ...b }` on two patches: the keys of either, `b` winning. */
  function Then(a: Patch, b: Patch): Patch {
    Patch(
      if b.plateNumber.Some? then b.plateNumber else a.plateNumber,
      if b.slotId.Some? then b.slotId else a.slotId,
      if b.entryTime.Some? then b.entryTime else a.entryTime,
      if b.duration.Some? then b.duration else a.duration,
      if b.fare.Some? then b.fare else a.fare)
  }

  /** Every field present in the patch is taken from it; every other field is kept. */
  lemma MergeOverridesPresentKeepsRest(s: Session, p: Patch)
    ensures var r := Merge(s, Some(p));
      && r.plateNumber == (if p.plateNumber.Some? then p.plateNumber.value else s.plateNumber)
      && r.slotId == (if p.slotId.Some? then p.slotId.value else s.slotId)
      && r.entryTime == (if p.entryTime.Some? then p.entryTime.value else s.entryTime)
      && r.duration == (if p.duration.Some? then p.duration.value else s.duration)
      && r.fare == (if p.fare.Some? then p.fare.value else s.fare)
  {
  }

  /** Merging the same data twice is merging it once. */
  lemma MergeIdempotent(s: Session, data: Option<Patch>)
    ensures Merge(Merge(s, data), data) == Merge(s, data)
  {
  }

  /** Two successive merges are one merge of the combined patch. */
  lemma MergeThen(s: Session, a: Patch, b: Patch)
    ensures Merge(Merge(s, Some(a)), Some(b)) == Merge(s, Some(Then(a, b)))
  {
  }
}
