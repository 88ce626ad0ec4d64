/**
 * The conditional-mount decision of the container, on values: what one
 * `update(old_data, data)` does to the slot that holds the child, and what a
 * host that drives `update` through a sequence of data snapshots observes.
 *
 * `show` is the presence predicate and `popup` the child factory; both are
 * pure, so evaluating `show` once per snapshot is the same as evaluating it
 * at each of its uses.
 */
module Mount {
  import opened Widget

  /** The slot after one update, and whether that update signalled
      `children_changed`, called the factory, or forwarded to the child. */
  datatype Outcome<W> = Outcome(slot: Option<W>, changed: bool, built: bool, forwarded: bool)

  /** One `update(oldData, data)`: a false-to-true edge of `show` builds the
      child from the new data, a true-to-false edge drops it, and with no edge
      the update goes to the child that is there, if any. */
  function Step<T, W>(show: T -> bool, popup: T -> W, slot: Option<W>, oldData: T, data: T): (r: Outcome<W>)
    ensures r.changed <==> show(oldData) != show(data)
    ensures r.built <==> !show(oldData) && show(data)
    ensures r.built ==> r.slot == Some(popup(data))
    ensures r.forwarded <==> !r.changed && slot.Some?
    ensures r.forwarded ==> r.slot == slot
    ensures r.slot.Some? <==> if r.changed then show(data) else slot.Some?
  {
    if !show(oldData) && show(data) then
      Outcome(Some(popup(data)), true, true, false)
    else if show(oldData) && !show(data) then
      Outcome(None, true, false, false)
    else
      Outcome(slot, false, false, slot.Some?)
  }

  function Count(b: bool): (n: nat) {
    if b then 1 else 0
  }

  /** Totals over a run of updates. */
  datatype Trace<W> = Trace(slot: Option<W>, changed: nat, built: nat, forwarded: nat)

  /** The host calls `update(states[i], states[i + 1])` for each consecutive
      pair of snapshots, starting from `slot`. */
  function Run<T, W>(show: T -> bool, popup: T -> W, slot: Option<W>, states: seq<T>): (t: Trace<W>)
    decreases |states|
  {
    if |states| < 2 then
      Trace(slot, 0, 0, 0)
    else
      var o := Step(show, popup, slot, states[0], states[1]);
      var t := Run(show, popup, o.slot, states[1..]);
      Trace(t.slot, t.changed + Count(o.changed), t.built + Count(o.built), t.forwarded + Count(o.forwarded))
  }

  /** Number of consecutive snapshot pairs where `show` goes from false to true. */
  function Rises<T>(show: T -> bool, states: seq<T>): (n: nat)
    decreases |states|
  {
    if |states| < 2 then 0
    else Count(!show(states[0]) && show(states[1])) + Rises(show, states[1..])
  }

  /** Number of consecutive snapshot pairs where `show` changes value. */
  function Flips<T>(show: T -> bool, states: seq<T>): (n: nat)
    decreases |states|
  {
    if |states| < 2 then 0
    else Count(show(states[0]) != show(states[1])) + Flips(show, states[1..])
  }

  // ---- one update ----

  /** `update(s, s)` never mounts, unmounts or signals. */
  lemma SameDataIsQuiet<T, W>(show: T -> bool, popup: T -> W, slot: Option<W>, s: T)
    ensures Step(show, popup, slot, s, s).slot == slot
    ensures !Step(show, popup, slot, s, s).changed
  {
  }

  /** If the slot agrees with `show` on the old data, it agrees with `show`
      on the new data after the update. */
  lemma StepKeepsAgreement<T, W>(show: T -> bool, popup: T -> W, slot: Option<W>, oldData: T, data: T)
    requires slot.Some? <==> show(oldData)
    ensures Step(show, popup, slot, oldData, data).slot.Some? <==> show(data)
  {
  }

  /** Without that agreement the invariant is not restored: a fresh, empty
      container given `update(s, s)` with `show(s)` true stays empty. */
  lemma EmptyStaysEmptyOnSameData<T, W>(show: T -> bool, popup: T -> W, s: T)
    requires show(s)
    ensures Step(show, popup, None, s, s).slot == None
  {
  }

  // ---- a run of updates ----

  /** Across any run the factory is called exactly once per false-to-true
      edge of `show`, whatever the container held at the start. */
  lemma {:induction false} RunBuildsOncePerRise<T, W>(show: T -> bool, popup: T -> W, slot: Option<W>, states: seq<T>)
    ensures Run(show, popup, slot, states).built == Rises(show, states)
    decreases |states|
  {
    if |states| >= 2 {
      var o := Step(show, popup, slot, states[0], states[1]);
      RunBuildsOncePerRise(show, popup, o.slot, states[1..]);
    }
  }

  /** Across any run `children_changed` is signalled exactly once per edge
      of `show`, in either direction, and never otherwise. */
  lemma {:induction false} RunSignalsOncePerFlip<T, W>(show: T -> bool, popup: T -> W, slot: Option<W>, states: seq<T>)
    ensures Run(show, popup, slot, states).changed == Flips(show, states)
    decreases |states|
  {
    if |states| >= 2 {
      var o := Step(show, popup, slot, states[0], states[1]);
      RunSignalsOncePerFlip(show, popup, o.slot, states[1..]);
    }
  }

  /** A container that agrees with `show` on the first snapshot has a child
      after the run exactly when `show` holds of the last snapshot. */
  lemma {:induction false} RunKeepsAgreement<T, W>(show: T -> bool, popup: T -> W, slot: Option<W>, states: seq<T>)
    requires |states| > 0
    requires slot.Some? <==> show(states[0])
    ensures Run(show, popup, slot, states).slot.Some? <==> show(states[|states| - 1])
    decreases |states|
  {
    if |states| >= 2 {
      var o := Step(show, popup, slot, states[0], states[1]);
      RunKeepsAgreement(show, popup, o.slot, states[1..]);
    }
  }

  /** Starting from a container that holds no child unless `show` holds of
      the first snapshot, a child is never present after a run unless `show`
      holds of the last snapshot; this half of the agreement needs no more. */
  lemma {:induction false} RunPresentImpliesShown<T, W>(show: T -> bool, popup: T -> W, slot: Option<W>, states: seq<T>)
    requires |states| > 0
    requires slot.Some? ==> show(states[0])
    ensures Run(show, popup, slot, states).slot.Some? ==> show(states[|states| - 1])
    decreases |states|
  {
    if |states| >= 2 {
      var o := Step(show, popup, slot, states[0], states[1]);
      RunPresentImpliesShown(show, popup, o.slot, states[1..]);
    }
  }

  /** While `show` holds of every snapshot the child is never rebuilt: the
      same child stays, each update is forwarded to it, nothing is signalled.
      An empty slot likewise stays empty. */
  lemma {:induction false} RunWhileShownKeepsChild<T, W>(show: T -> bool, popup: T -> W, slot: Option<W>, states: seq<T>)
    requires |states| > 0
    requires forall i :: 0 <= i < |states| ==> show(states[i])
    ensures Run(show, popup, slot, states) == Trace(slot, 0, 0, if slot.Some? then |states| - 1 else 0)
    decreases |states|
  {
    if |states| >= 2 {
      var o := Step(show, popup, slot, states[0], states[1]);
      assert o == Outcome(slot, false, false, slot.Some?);
      RunWhileShownKeepsChild(show, popup, o.slot, states[1..]);
    }
  }

  /** Whatever the container holds after a run is either what it held at the
      start or the factory's child for a snapshot where `show` rose; the
      factory is never replayed on a true-to-true update. */
  lemma {:induction false} RunChildComesFromARise<T, W>(show: T -> bool, popup: T -> W, slot: Option<W>, states: seq<T>)
    ensures var r := Run(show, popup, slot, states).slot;
      r.Some? ==> r == slot || exists j :: 0 < j < |states| && !show(states[j - 1]) && show(states[j]) && r == Some(popup(states[j]))
    decreases |states|
  {
    if |states| >= 2 {
      var o := Step(show, popup, slot, states[0], states[1]);
      var rest := states[1..];
      RunChildComesFromARise(show, popup, o.slot, rest);
      var r := Run(show, popup, o.slot, rest).slot;
      if r.Some? && r != o.slot {
        var j :| 0 < j < |rest| && !show(rest[j - 1]) && show(rest[j]) && r == Some(popup(rest[j]));
        assert rest[j - 1] == states[j] && rest[j] == states[j + 1];
      } else if r.Some? && r != slot {
        assert o.built;
        assert r == Some(popup(states[1]));
      }
    }
  }

  /** When `show` holds of no snapshot, an empty container stays empty, the
      factory is never called and nothing is signalled. */
  lemma {:induction false} RunNeverShownStaysEmpty<T, W>(show: T -> bool, popup: T -> W, states: seq<T>)
    requires forall i :: 0 <= i < |states| ==> !show(states[i])
    ensures Run(show, popup, None, states) == Trace(None, 0, 0, 0)
    decreases |states|
  {
    if |states| >= 2 {
      RunNeverShownStaysEmpty(show, popup, states[1..]);
    }
  }
}
