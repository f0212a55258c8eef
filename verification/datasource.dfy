/** The popup's state stores and their undo (`src/js/datasource.js`): four stores
    (profiles, selected index, lock and pause flags), `commitData` that writes them together
    and records the change, and `undo` that restores the latest recorded change that differs
    from the current state. */
module Datasource {
  import opened Common

  /** A JavaScript number as the stores see it: an integer, or NaN (what `Math.min`
      returns when given `undefined`). */
  datatype Num = Int(i: int) | NaN

  /** `a !== b` on numbers: NaN is different from everything, itself included. */
  predicate NumDiffers(a: Num, b: Num) {
    a.NaN? || b.NaN? || a.i != b.i
  }

  /** The values of the four stores. `isLocked` may hold `undefined`. */
  datatype State = State(profiles: seq<Profile>, selectedProfileIndex: Num, isLocked: Option<bool>, isPaused: bool)

  /** A recorded change: a field that is `None` was not recorded. */
  datatype ChangeRecord = ChangeRecord(
    profiles: Option<seq<Profile>>,
    selectedProfileIndex: Option<Num>,
    isLocked: Option<bool>,
    isPaused: Option<bool>)

  /** The argument of `commitData`; an absent field is `undefined`. */
  datatype Request = Request(
    newProfiles: seq<Profile>,
    newIndex: Option<Num>,
    newIsLocked: Option<bool>,
    newIsPaused: Option<bool>)

  function Min(a: int, b: int): int { if a <= b then a else b }
  function Max(a: int, b: int): int { if a >= b then a else b }

  /** `Math.max(0, Math.min(length - 1, index))`. */
  function ClampIndex(length: nat, index: Option<Num>): Num {
    match index
    case None => NaN
    case Some(NaN) => NaN
    case Some(Int(i)) => Int(Max(0, Min(length - 1, i)))
  }

  /** A numeric index ends up in range (0 for an empty list), and an index already in
      range is kept; a missing or NaN index stays NaN. */
  lemma ClampIndexInRange(length: nat, index: Option<Num>)
    ensures ClampIndex(length, index).NaN? <==> index.None? || index.value.NaN?
    ensures index.Some? && index.value.Int? ==>
      var r := ClampIndex(length, index).i;
      && (length == 0 ==> r == 0)
      && (length > 0 ==> 0 <= r < length)
      && (r == index.value.i <==> 0 <= index.value.i < length || (length == 0 && index.value.i == 0))
  {
  }

  /** The stores after `commitData(request)` from state `s`. A defined `newIsLocked` is
      replaced by the current lock flag and an undefined one is stored as undefined; an
      undefined `newIsPaused` keeps the current pause flag. */
  function Committed(s: State, request: Request): State {
    State(
      request.newProfiles,
      ClampIndex(|request.newProfiles|, request.newIndex),
      if request.newIsLocked.Some? then s.isLocked else None,
      if request.newIsPaused.Some? then request.newIsPaused.value else s.isPaused)
  }

  /** The record `commitData` hands to the change stack: the four values it wrote. */
  function RecordOf(s: State): ChangeRecord {
    ChangeRecord(Some(s.profiles), Some(s.selectedProfileIndex), s.isLocked, Some(s.isPaused))
  }

  /** A commit can never set the lock flag to a value other than the current one: it keeps
      it or clears it. */
  lemma CommitKeepsOrClearsLock(s: State, request: Request)
    ensures var t := Committed(s, request);
      (t.isLocked == s.isLocked <==> request.newIsLocked.Some? || s.isLocked.None?)
      && (t.isLocked.None? <==> request.newIsLocked.None? || s.isLocked.None?)
  {
  }

  /** Committing the same request twice has the effect of committing it once. */
  lemma CommitIdempotent(s: State, request: Request)
    ensures Committed(Committed(s, request), request) == Committed(s, request)
  {
  }

  /** Some recorded field of the change differs from the current state: `undo` stops here. */
  predicate Differs(change: ChangeRecord, current: State) {
    || (change.profiles.Some? && change.profiles.value != current.profiles)
    || (change.selectedProfileIndex.Some? && NumDiffers(change.selectedProfileIndex.value, current.selectedProfileIndex))
    || (change.isLocked.Some? && Some(change.isLocked.value) != current.isLocked)
    || (change.isPaused.Some? && change.isPaused.value != current.isPaused)
  }

  /** The record of a state matches that state unless its index is NaN, which differs from itself. */
  lemma RecordOfMatches(s: State)
    ensures !Differs(RecordOf(s), s) <==> s.selectedProfileIndex.Int?
  {
  }

  /** The commit `undo` makes for the record it stops at; missing profiles fall back to the
      current ones. */
  function Restoring(change: ChangeRecord, currentProfiles: seq<Profile>): Request {
    Request(
      if change.profiles.Some? then change.profiles.value else currentProfiles,
      change.selectedProfileIndex,
      change.isLocked,
      change.isPaused)
  }

  /** Restoring the record of an earlier state `s` from the current state `t` brings back
      its profiles, its index (when it was in range) and its pause flag, but not its lock
      flag: that one stays `t`'s, or is cleared when `s` had none. */
  lemma RestoreRecordOf(s: State, t: State)
    requires s.selectedProfileIndex.Int? && 0 <= s.selectedProfileIndex.i < |s.profiles|
    ensures var r := Committed(t, Restoring(RecordOf(s), t.profiles));
      && r.profiles == s.profiles
      && r.selectedProfileIndex == s.selectedProfileIndex
      && r.isPaused == s.isPaused
      && r.isLocked == (if s.isLocked.Some? then t.isLocked else None)
  {
  }

  /** The position of the latest record of `stack` (its top is the end) that differs from
      `current`, if there is one. */
  function FindUndo(stack: seq<ChangeRecord>, current: State): Option<nat>
    decreases |stack|
  {
    if |stack| == 0 then None
    else if Differs(stack[|stack| - 1], current) then Some(|stack| - 1)
    else FindUndo(stack[..|stack| - 1], current)
  }

  /** `FindUndo` finds the latest differing record, and finds none exactly when every
      record matches the current state. */
  lemma {:induction false} FindUndoLatest(stack: seq<ChangeRecord>, current: State)
    ensures FindUndo(stack, current).None? <==> forall j :: 0 <= j < |stack| ==> !Differs(stack[j], current)
    ensures FindUndo(stack, current).Some? ==>
      var k := FindUndo(stack, current).value;
      && k < |stack| && Differs(stack[k], current)
      && forall j :: k < j < |stack| ==> !Differs(stack[j], current)
    decreases |stack|
  {
    if |stack| > 0 && !Differs(stack[|stack| - 1], current) {
      var rest := stack[..|stack| - 1];
      FindUndoLatest(rest, current);
      assert forall j :: 0 <= j < |rest| ==> rest[j] == stack[j];
    }
  }

  /** How `undo` ended. */
  datatype UndoOutcome =
    | NothingToUndo               // the stack was empty
    | Restored(record: ChangeRecord)
    | Crashed                     // every record matched: the stack ran out and `lastChange` was undefined

  /** The popup's stores and the change stack (its top is the end of `changes`). */
  class Store {
    var profiles: seq<Profile>
    var selectedProfileIndex: Num
    var isLocked: Option<bool>
    var isPaused: bool
    var changes: seq<ChangeRecord>

    /** The stores' initial values. */
    constructor ()
      ensures Current() == State([], Int(0), Some(false), false)
      ensures changes == []
    {
      profiles := [];
      selectedProfileIndex := Int(0);
      isLocked := Some(false);
      isPaused := false;
      changes := [];
    }

    function Current(): State
      reads this
    {
      State(profiles, selectedProfileIndex, isLocked, isPaused)
    }

    /** `commitData`: the stores take the committed values, and their record is pushed. */
    method CommitData(request: Request) returns (record: ChangeRecord)
      modifies this
      ensures Current() == Committed(old(Current()), request)
      ensures record == RecordOf(Current())
      ensures changes == old(changes) + [record]
    {
      var newIndex := ClampIndex(|request.newProfiles|, request.newIndex);
      var newIsLocked := request.newIsLocked;
      if newIsLocked.Some? {
        newIsLocked := isLocked;
      }
      var newIsPaused := isPaused;
      if request.newIsPaused.Some? {
        newIsPaused := request.newIsPaused.value;
      }
      profiles := request.newProfiles;
      selectedProfileIndex := newIndex;
      isLocked := newIsLocked;
      isPaused := newIsPaused;
      record := ChangeRecord(Some(profiles), Some(newIndex), newIsLocked, Some(newIsPaused));
      changes := changes + [record];
    }

    /** `undo`: pops records while they match the current state, then commits the first
        one that differs. */
    method Undo() returns (outcome: UndoOutcome)
      modifies this
      ensures outcome.NothingToUndo? <==> old(changes) == []
      ensures outcome.Crashed? <==> old(changes) != [] && FindUndo(old(changes), old(Current())).None?
      ensures !outcome.Restored? ==> Current() == old(Current()) && changes == []
      ensures outcome.Restored? ==>
        var k := FindUndo(old(changes), old(Current())).value;
        && k < |old(changes)|
        && Current() == Committed(old(Current()), Restoring(old(changes)[k], old(profiles)))
        && outcome.record == RecordOf(Current())
        && changes == old(changes)[..k] + [outcome.record]
    {
      if |changes| == 0 {
        return NothingToUndo;
      }
      var lastChange := changes[|changes| - 1];
      changes := changes[..|changes| - 1];
      var current := Current();
      while !Differs(lastChange, current)
        invariant |changes| < |old(changes)|
        invariant changes + [lastChange] == old(changes)[..|changes| + 1]
        invariant FindUndo(old(changes), current) == FindUndo(changes + [lastChange], current)
        invariant Current() == current == old(Current())
        decreases |changes|
      {
        if |changes| == 0 {
          return Crashed;
        }
        assert changes + [lastChange] == (changes + [lastChange])[..|changes|] + [lastChange];
        lastChange := changes[|changes| - 1];
        changes := changes[..|changes| - 1];
      }
      var record := CommitData(Restoring(lastChange, current.profiles));
      return Restored(record);
    }
  }
}
