/**
 * ProgressTracker of js/common.js: one persisted record of completed lesson days
 * and two counters, read back with per-field fallbacks and updated by marking a
 * day complete.
 */
module ProgressTracking {
  import opened Arith

  datatype Progress = Progress(completedDays: seq<int>, patternsLearned: int, problemsSolved: int)

  /** The record getProgress falls back to. */
  const Default: Progress := Progress([], 0, 0)

  /** A JavaScript value, as far as this code looks into it. */
  datatype Value =
    | Null
    | Number(n: int)
    | ArrayOf(items: seq<int>)
    | Record(completedDays: Value, patternsLearned: Value, problemsSolved: Value)
    | Other  // a string, a boolean, or a property that is not there

  /** The storage slot under the key 'maangProgress', and what JSON.parse makes of it. */
  datatype Slot =
    | Missing
    | EmptyText
    | Unparseable
    | Text(parsed: Value)

  function ArrayOr(v: Value): seq<int>
  {
    if v.ArrayOf? then v.items else []
  }

  function NumberOr(v: Value): int
  {
    if v.Number? then v.n else 0
  }

  /**
   * getProgress: never fails. A missing or empty slot, text that does not parse,
   * and a parsed null (whose field access throws) all give Default; a parsed
   * object keeps each well-typed field and replaces each ill-typed one on its own.
   * Any other parsed value (a number, a string, an array) has none of the three
   * properties, so each field falls back and the result is Default as well.
   */
  function GetProgress(slot: Slot): (p: Progress)
    ensures forall d :: d in p.completedDays ==>
      slot.Text? && slot.parsed.Record? && slot.parsed.completedDays.ArrayOf? && d in slot.parsed.completedDays.items
    ensures p.patternsLearned != 0 ==>
      slot.Text? && slot.parsed.Record? && slot.parsed.patternsLearned == Number(p.patternsLearned)
    ensures p.problemsSolved != 0 ==>
      slot.Text? && slot.parsed.Record? && slot.parsed.problemsSolved == Number(p.problemsSolved)
  {
    match slot
    case Text(Record(days, patterns, problems)) => Progress(ArrayOr(days), NumberOr(patterns), NumberOr(problems))
    case _ => Default
  }

  /**
   * What saveProgress leaves in the slot: the record as JSON.parse reads its
   * JSON.stringify text back. It is always a parsed object whose three fields are
   * well typed, so no fallback of getProgress applies to it.
   */
  function Stored(p: Progress): (r: Slot)
    ensures r.Text? && r.parsed.Record?
    ensures r.parsed.completedDays.ArrayOf? && r.parsed.patternsLearned.Number? && r.parsed.problemsSolved.Number?
  {
    Text(Record(ArrayOf(p.completedDays), Number(p.patternsLearned), Number(p.problemsSolved)))
  }

  /** isDayCompleted: membership in the completed days that getProgress reads. */
  function IsDayCompleted(slot: Slot, day: int): (r: bool)
    ensures r ==> slot.Text? && slot.parsed.Record? && slot.parsed.completedDays.ArrayOf?
    ensures slot.Text? && slot.parsed.Record? && slot.parsed.completedDays.ArrayOf? ==>
      (r <==> day in slot.parsed.completedDays.items)
  {
    day in GetProgress(slot).completedDays
  }

  /** Whether markDayComplete takes the day: a number, at least 1, not completed yet. */
  predicate Accepts(slot: Slot, dayNumber: Value)
  {
    dayNumber.Number? && 1 <= dayNumber.n && dayNumber.n !in GetProgress(slot).completedDays
  }

  /** The record markDayComplete writes when it takes a new day. */
  function WithDay(p: Progress, day: int, patternsCount: int, problemsCount: int): (r: Progress)
    ensures multiset(r.completedDays) == multiset(p.completedDays) + multiset{day}
    ensures p.patternsLearned <= r.patternsLearned && p.problemsSolved <= r.problemsSolved
  {
    Progress(p.completedDays + [day], Max(p.patternsLearned, patternsCount), Max(p.problemsSolved, problemsCount))
  }

  lemma UnreadableSlotGivesDefault(slot: Slot)
    requires !(slot.Text? && slot.parsed.Record?)
    ensures GetProgress(slot) == Default
  {
  }

  lemma FieldsFallBackSeparately(days: Value, patterns: Value, problems: Value)
    ensures var p := GetProgress(Text(Record(days, patterns, problems)));
      && (days.ArrayOf? ==> p.completedDays == days.items)
      && (!days.ArrayOf? ==> p.completedDays == [])
      && (patterns.Number? ==> p.patternsLearned == patterns.n)
      && (!patterns.Number? ==> p.patternsLearned == 0)
      && (problems.Number? ==> p.problemsSolved == problems.n)
      && (!problems.Number? ==> p.problemsSolved == 0)
  {
  }

  /** A saved record reads back unchanged, and isDayCompleted answers from its days. */
  lemma SaveThenGet(p: Progress, day: int)
    ensures GetProgress(Stored(p)) == p
    ensures IsDayCompleted(Stored(p), day) <==> day in p.completedDays
  {
  }

  /**
   * A new day goes to the end and the old days keep their order; the counters
   * become running maxima of the stored value and the count passed in, not sums.
   */
  lemma WithDayAppends(p: Progress, day: int, patternsCount: int, problemsCount: int)
    ensures var r := WithDay(p, day, patternsCount, problemsCount);
      && |r.completedDays| == |p.completedDays| + 1
      && r.completedDays[..|p.completedDays|] == p.completedDays
      && r.completedDays[|p.completedDays|] == day
      && p.patternsLearned <= r.patternsLearned && patternsCount <= r.patternsLearned
      && (r.patternsLearned == p.patternsLearned || r.patternsLearned == patternsCount)
      && p.problemsSolved <= r.problemsSolved && problemsCount <= r.problemsSolved
      && (r.problemsSolved == p.problemsSolved || r.problemsSolved == problemsCount)
  {
  }

  /**
   * Marking is idempotent: once the record with the new day is saved, the day is
   * completed, stored exactly once, and a second mark of it is refused.
   */
  lemma MarkTwiceRefused(slot: Slot, day: int, patternsCount: int, problemsCount: int)
    requires Accepts(slot, Number(day))
    ensures var after := Stored(WithDay(GetProgress(slot), day, patternsCount, problemsCount));
      && IsDayCompleted(after, day)
      && multiset(GetProgress(after).completedDays)[day] == 1
      && !Accepts(after, Number(day))
  {
    var p := GetProgress(slot);
    SaveThenGet(WithDay(p, day, patternsCount, problemsCount), day);
    assert multiset(p.completedDays)[day] == 0;
  }

  /** The persisted slot that the tracker reads and writes through localStorage. */
  class ProgressTracker {
    var slot: Slot

    constructor (initial: Slot)
      ensures slot == initial
    {
      slot := initial;
    }

    /** saveProgress: the write may fail (a full quota); then the slot keeps what it had. */
    method SaveProgress(progress: Progress) returns (saved: bool)
      modifies this
      ensures saved ==> slot == Stored(progress)
      ensures !saved ==> slot == old(slot)
    {
      saved := *;
      if saved {
        slot := Stored(progress);
      }
    }

    /**
     * markDayComplete, with its own defaults of 1 for patternsCount and 0 for
     * problemsCount: true exactly when the day is taken, even if saving it then
     * fails; a refused day leaves the slot as it was.
     */
    method MarkDayComplete(dayNumber: Value, patternsCount: int := 1, problemsCount: int := 0) returns (added: bool)
      modifies this
      ensures added == Accepts(old(slot), dayNumber)
      ensures !added ==> slot == old(slot)
      ensures added ==>
        slot == old(slot) || slot == Stored(WithDay(GetProgress(old(slot)), dayNumber.n, patternsCount, problemsCount))
    {
      if !dayNumber.Number? || dayNumber.n < 1 {
        return false;
      }
      var progress := GetProgress(slot);
      if dayNumber.n in progress.completedDays {
        return false;
      }
      progress := progress.(completedDays := progress.completedDays + [dayNumber.n]);
      progress := progress.(patternsLearned := Max(progress.patternsLearned, patternsCount));
      progress := progress.(problemsSolved := Max(progress.problemsSolved, problemsCount));
      var saved := SaveProgress(progress);
      return true;
    }

    /** resetProgress: removes the slot; a failure is swallowed and leaves it as it was. */
    method ResetProgress()
      modifies this
      ensures slot == Missing || slot == old(slot)
      ensures slot == Missing ==> GetProgress(slot) == Default
    {
      var removed: bool := *;
      if removed {
        slot := Missing;
      }
    }
  }
}
