/**
 * The balancer object as the source keeps it: two provider references, a
 * stored preference that the setter clamps, and a frozen flag, updated in
 * place. The constructor, the preference setter, the weight adjustments and
 * loadBalance are tied to the value-level functions of BalancerModel; the
 * frozen setter states its new state directly. The log sink is a ghost
 * sequence of events.
 */
module Balancer {
  import opened BalancerModel

  /** The log lines the preference setter emits when it stores `Clamp(v)`
      over the stored value `stored`. */
  function PreferenceWriteLog(stored: real, v: real): (log: seq<Event>)
    ensures |log| <= 1
    ensures log == [] <==> Clamp(v) == stored
    ensures log != [] ==> log[0] == PreferenceSet(Clamp(v))
  {
    if Clamp(v) != stored then [PreferenceSet(Clamp(v))] else []
  }

  /** The log lines the frozen setter emits when it switches from `was` to `val`. */
  function FrozenWriteLog(preference: real, was: bool, val: bool): (log: seq<Event>)
    ensures log == [] <==> was == val
    ensures was != val ==> log == [if val then FrozenAt(preference) else Unfrozen]
  {
    if was != val then (if val then [FrozenAt(preference)] else [Unfrozen]) else []
  }

  /** The log lines of one weight adjustment towards `toward`: none while frozen;
      otherwise the setter's line (when the value changes) and the adjustment's. */
  function AdjustLog(preference: real, frozen: bool, toward: Side): (log: seq<Event>)
    ensures frozen ==> log == []
    ensures !frozen ==> |log| >= 1 && log[|log| - 1] == WeightTowards(toward)
    ensures !frozen ==> log[..|log| - 1] == PreferenceWriteLog(preference, preference + Delta(toward))
  {
    if frozen then [] else PreferenceWriteLog(preference, preference + Delta(toward)) + [WeightTowards(toward)]
  }

  /** Writing the value the setter just stored back into it logs nothing and
      stores the same value. */
  lemma RewriteLogsNothing(v: real)
    ensures PreferenceWriteLog(Clamp(v), Clamp(v)) == []
    ensures Clamp(Clamp(v)) == Clamp(v)
  {
  }

  /** One `loadBalance` call logs at most two lines: nothing while frozen;
      otherwise at most the setter's line, then one line naming the provider
      that was favoured, the primary on success and the secondary on failure. */
  lemma LoadBalanceLogsAtMostTwo<T, E>(preference: real, frozen: bool, r: real,
                                      first: Outcome<T, E>, second: Outcome<T, E>)
    ensures var t := Balance(preference, frozen, r, first, second);
      var log := AdjustLog(preference, frozen, t.favoured);
      |log| <= 2 &&
      (frozen <==> log == []) &&
      (!frozen ==> log[|log| - 1] == WeightTowards(
                     if first.Ok? then Select(preference, r) else Other(Select(preference, r))))
  {
  }

  class ApiBalancer<P> {
    var leftProvider: P
    var rightProvider: P
    /** The stored preference (the source's private `_preference`, read by the getter). */
    var preference: real
    /** The stored flag (the source's private `_frozen`, read by the getter). */
    var frozen: bool
    /** Everything logged so far. */
    ghost var events: seq<Event>

    /** The clamp invariant. */
    ghost predicate Valid()
      reads this
    {
      MinPreference <= preference <= MaxPreference
    }

    /** The provider handle standing at `side`. */
    function ProviderAt(side: Side): (p: P)
      reads this
      ensures side == Left ==> p == leftProvider
      ensures side == Right ==> p == rightProvider
    {
      if side == Left then leftProvider else rightProvider
    }

    /** The provider handles standing at `sides`, in order. */
    function ProvidersAt(sides: seq<Side>): (ps: seq<P>)
      reads this
      ensures |ps| == |sides|
      ensures forall i :: 0 <= i < |sides| ==> ps[i] == ProviderAt(sides[i])
    {
      if sides == [] then [] else [ProviderAt(sides[0])] + ProvidersAt(sides[1..])
    }

    /** Both initial values go through their setters, starting from the field
        initialisers (preference 0, not frozen). */
    constructor (left: P, right: P, initialPreference: real := 0.0, initialFrozen: bool := false)
      ensures Valid()
      ensures leftProvider == left && rightProvider == right
      ensures preference == Clamp(initialPreference)
      ensures frozen == initialFrozen
      ensures events == PreferenceWriteLog(0.0, initialPreference)
                        + FrozenWriteLog(Clamp(initialPreference), false, initialFrozen)
    {
      leftProvider := left;
      rightProvider := right;
      preference := 0.0;
      frozen := false;
      events := [];
      new;
      SetPreference(initialPreference);
      SetFrozen(initialFrozen);
    }

    /** The preference setter: stores the clamped value unconditionally, and
        logs only when it differs from the stored one. */
    method SetPreference(v: real)
      modifies this`preference, this`events
      ensures Valid()
      ensures preference == Clamp(v)
      ensures events == old(events) + PreferenceWriteLog(old(preference), v)
    {
      var newVal := Max(0.0, Min(1.0, v));
      if newVal != preference {
        events := events + [PreferenceSet(newVal)];
      }
      preference := newVal;
    }

    /** The frozen setter: never touches the preference. */
    method SetFrozen(val: bool)
      modifies this`frozen, this`events
      ensures old(Valid()) ==> Valid()
      ensures frozen == val
      ensures preference == old(preference)
      ensures events == old(events) + FrozenWriteLog(preference, old(frozen), val)
    {
      if frozen != val {
        events := events + [if val then FrozenAt(preference) else Unfrozen];
      }
      frozen := val;
    }

    /** `preference -= 0.2` through the setter, unless frozen. */
    method IncreaseLeftWeight()
      requires Valid()
      modifies this`preference, this`events
      ensures Valid()
      ensures preference == Adjust(old(preference), frozen, Left)
      ensures events == old(events) + AdjustLog(old(preference), frozen, Left)
    {
      if !frozen {
        SetPreference(preference - WeightStep);
        events := events + [WeightTowards(Left)];
      }
    }

    /** `preference += 0.2` through the setter, unless frozen. */
    method IncreaseRightWeight()
      requires Valid()
      modifies this`preference, this`events
      ensures Valid()
      ensures preference == Adjust(old(preference), frozen, Right)
      ensures events == old(events) + AdjustLog(old(preference), frozen, Right)
    {
      if !frozen {
        SetPreference(preference + WeightStep);
        events := events + [WeightTowards(Right)];
      }
    }

    /** One `loadBalance` call, with `r` the random draw and `first`/`second`
        the outcomes of the request function's first and second invocation.
        Returns what the call resolves or rejects with, and the providers the
        request function was called with, in order. */
    method LoadBalance<T, E>(r: real, first: Outcome<T, E>, second: Outcome<T, E>)
        returns (result: Outcome<T, E>, calls: seq<P>)
      requires Valid()
      requires 0.0 <= r < 1.0
      modifies this`preference, this`events
      ensures Valid()
      ensures var t := Balance(old(preference), old(frozen), r, first, second);
        result == t.result &&
        calls == ProvidersAt(t.called) &&
        preference == t.preference &&
        events == old(events) + AdjustLog(old(preference), old(frozen), t.favoured)
      ensures frozen == old(frozen)
      ensures leftProvider == old(leftProvider) && rightProvider == old(rightProvider)
    {
      var primary := Select(preference, r);
      calls := [ProviderAt(primary)];
      match first {
        case Ok(_) =>
          if primary == Left { IncreaseLeftWeight(); } else { IncreaseRightWeight(); }
          result := first;
        case Err(_) =>
          var secondary := Other(primary);
          if primary == Right { IncreaseLeftWeight(); } else { IncreaseRightWeight(); }
          calls := calls + [ProviderAt(secondary)];
          result := second;
      }
    }
  }
}
