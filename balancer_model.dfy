/**
 * The decision logic of the API balancer, stated on values: the clamp that
 * every preference write goes through, the weighted selection of the primary
 * provider, the fixed-step weight adjustment, and one whole `loadBalance`
 * transition from (preference, frozen, random draw, request outcomes) to
 * (result, providers called, new preference).
 *
 * The class in module Balancer performs the same steps on its fields and is
 * proved to agree with these functions.
 */
module BalancerModel {

  /** The two interchangeable providers, by position. */
  datatype Side = Left | Right

  /** The provider that was not chosen. */
  function Other(s: Side): (o: Side)
    ensures o != s
  {
    if s == Left then Right else Left
  }

  /** What one invocation of the caller's request function did: resolved with
      a value or rejected with an error. The balancer inspects only which. */
  datatype Outcome<T, E> = Ok(value: T) | Err(error: E)

  /** The informational log events the balancer emits. */
  datatype Event =
    | PreferenceSet(value: real)    // the clamped value differs from the stored one
    | FrozenAt(preference: real)    // frozen switched on
    | Unfrozen                      // frozen switched off
    | WeightTowards(side: Side)     // an unfrozen adjustment towards `side`

  const MinPreference: real := 0.0
  const MaxPreference: real := 1.0

  /** The fixed amount one adjustment moves the preference. */
  const WeightStep: real := 0.2

  function Min(a: real, b: real): real { if a <= b then a else b }
  function Max(a: real, b: real): real { if a >= b then a else b }

  /** The value the preference setter stores for an input `v`. */
  function Clamp(v: real): (c: real)
    ensures MinPreference <= c <= MaxPreference
    ensures v < MinPreference ==> c == MinPreference
    ensures v > MaxPreference ==> c == MaxPreference
    ensures c == v <==> MinPreference <= v <= MaxPreference
  {
    Max(0.0, Min(1.0, v))
  }

  /** Selection rule: the primary is the left provider exactly when the draw
      exceeds the preference. */
  function Select(preference: real, r: real): (s: Side)
    // at the maximum preference every draw below 1 goes to the right provider
    ensures preference >= MaxPreference && r < 1.0 ==> s == Right
    // at the minimum preference every positive draw goes to the left provider
    ensures preference <= MinPreference && r > 0.0 ==> s == Left
  {
    if r > preference then Left else Right
  }

  /** The signed step of one adjustment towards `toward`: a lower preference
      favours the left provider, a higher one the right provider. */
  function Delta(toward: Side): real
  {
    if toward == Left then -WeightStep else WeightStep
  }

  /** The preference after increaseLeftWeight (toward == Left) or
      increaseRightWeight (toward == Right): one step through the clamping
      setter, or nothing at all while frozen. */
  function Adjust(preference: real, frozen: bool, toward: Side): (p: real)
    ensures frozen ==> p == preference
    ensures !frozen ==> MinPreference <= p <= MaxPreference
    ensures !frozen && MinPreference <= preference <= MaxPreference && toward == Left ==>
              p == (if preference >= WeightStep then preference - WeightStep else 0.0)
    ensures !frozen && MinPreference <= preference <= MaxPreference && toward == Right ==>
              p == (if preference <= 1.0 - WeightStep then preference + WeightStep else 1.0)
  {
    if frozen then preference else Clamp(preference + Delta(toward))
  }

  /** The outcome of one `loadBalance` call. */
  datatype Transition<T, E> = Transition(
    result: Outcome<T, E>,  // what the call resolves or rejects with
    called: seq<Side>,      // the providers passed to the request function, in order
    favoured: Side,         // the provider the adjustment moved weight towards
    preference: real)       // the preference afterwards

  /** One `loadBalance` call with draw `r`, where the request function's first
      invocation has outcome `first` and a second invocation, if any, has
      outcome `second`. */
  function Balance<T, E>(preference: real, frozen: bool, r: real,
                         first: Outcome<T, E>, second: Outcome<T, E>): (t: Transition<T, E>)
    // at most one fallback, and only after a failure
    ensures |t.called| == (if first.Ok? then 1 else 2)
    // the primary is chosen by the selection rule
    ensures t.called[0] == Select(preference, r)
    // the fallback goes to the other provider, so each provider is called at most once
    ensures |t.called| == 2 ==> t.called[1] == Other(t.called[0]) && t.called[0] != t.called[1]
    // the primary's value on success; otherwise whatever the secondary produced
    ensures first.Ok? ==> t.result == first
    ensures first.Err? ==> t.result == second
    // rejects only if both invocations rejected
    ensures t.result.Err? <==> first.Err? && second.Err?
    // weight moves towards the last provider tried, whatever that call's outcome
    ensures t.favoured == t.called[|t.called| - 1]
    ensures t.preference == Adjust(preference, frozen, t.favoured)
    ensures frozen ==> t.preference == preference
    ensures MinPreference <= preference <= MaxPreference ==>
              MinPreference <= t.preference <= MaxPreference
  {
    var primary := Select(preference, r);
    match first
    case Ok(_) =>
      Transition(first, [primary], primary, Adjust(preference, frozen, primary))
    case Err(_) =>
      var secondary := Other(primary);
      Transition(second, [primary, secondary], secondary, Adjust(preference, frozen, secondary))
  }

  /** One `loadBalance` call's inputs: the random draw and the outcomes of the
      request function's first and (possible) second invocation. */
  datatype Round<T, E> = Round(draw: real, first: Outcome<T, E>, second: Outcome<T, E>)

  /** The preference after a sequence of `loadBalance` calls, one after another. */
  function Run<T, E>(preference: real, frozen: bool, rounds: seq<Round<T, E>>): (p: real)
    ensures frozen ==> p == preference
    ensures MinPreference <= preference <= MaxPreference ==> MinPreference <= p <= MaxPreference
    decreases |rounds|
  {
    if rounds == [] then preference
    else
      var t := Balance(preference, frozen, rounds[0].draw, rounds[0].first, rounds[0].second);
      Run(t.preference, frozen, rounds[1..])
  }

  /** The preference after `n` unfrozen adjustments towards the same provider. */
  function AdjustRepeated(preference: real, toward: Side, n: nat): real
    decreases n
  {
    if n == 0 then preference else AdjustRepeated(Adjust(preference, false, toward), toward, n - 1)
  }

  // ---------------------------------------------------------------------------
  // Properties
  // ---------------------------------------------------------------------------

  /** Writing the current (clamped) value again stores the same value. */
  lemma ClampIdempotent(v: real)
    ensures Clamp(Clamp(v)) == Clamp(v)
  {
  }

  /** A higher preference only moves draws from the left provider to the
      right one: whatever a preference sends left, every lower one sends left too. */
  lemma SelectMonotone(p1: real, p2: real, r: real)
    requires p1 <= p2
    ensures Select(p2, r) == Left ==> Select(p1, r) == Left
    ensures Select(p1, r) == Right ==> Select(p2, r) == Right
  {
  }

  /** With the preference at its maximum, every draw in [0, 1) selects the
      right provider. */
  lemma SelectAtMaximum(r: real)
    requires 0.0 <= r < 1.0
    ensures Select(MaxPreference, r) == Right
  {
  }

  /** With the preference at its minimum, every positive draw selects the
      left provider (only the draw 0 selects the right one). */
  lemma SelectAtMinimum(r: real)
    requires 0.0 <= r < 1.0
    ensures Select(MinPreference, r) == Left <==> r > 0.0
  {
  }

  /** On success the weight moves one clamped step towards the primary. */
  lemma SuccessFavoursPrimary<T, E>(preference: real, r: real, first: Outcome<T, E>, second: Outcome<T, E>)
    requires first.Ok?
    ensures var t := Balance(preference, false, r, first, second);
      t.called == [Select(preference, r)] &&
      t.preference == (if Select(preference, r) == Left then Clamp(preference - 0.2)
                       else Clamp(preference + 0.2))
  {
  }

  /** On failure of the primary the weight moves one clamped step towards the
      secondary, whether or not the secondary then succeeds. */
  lemma FailureFavoursSecondary<T, E>(preference: real, r: real, first: Outcome<T, E>, second: Outcome<T, E>)
    requires first.Err?
    ensures var t := Balance(preference, false, r, first, second);
      var primary := Select(preference, r);
      t.called == [primary, Other(primary)] &&
      t.result == second &&
      t.preference == (if Other(primary) == Right then Clamp(preference + 0.2)
                       else Clamp(preference - 0.2))
  {
  }

  /** An unfrozen successful call starting from 0.5 always changes the preference. */
  lemma SuccessFromHalfChangesPreference<T, E>(r: real, value: T, second: Outcome<T, E>)
    ensures Balance(0.5, false, r, Ok(value), second).preference != 0.5
  {
  }

  /** A frozen successful call starting from 0.5 leaves it at 0.5. */
  lemma FrozenSuccessKeepsPreference<T, E>(r: real, value: T, second: Outcome<T, E>)
    ensures Balance(0.5, true, r, Ok(value), second).preference == 0.5
  {
  }

  /** From preference 0, unfrozen, left rejecting and right resolving: the left
      provider is tried, then the right one, the result is the right one's,
      and the preference has moved above 0. */
  lemma FallbackScenario<T, E>(r: real, err: E, value: T)
    requires 0.0 < r < 1.0
    ensures var t := Balance(0.0, false, r, Err(err), Ok(value));
      t.called == [Left, Right] && t.result == Ok(value) && t.preference > 0.0
  {
  }

  /** From preference 1 with a resolving request: exactly one call, to the
      right provider, and the preference stays saturated at 1. */
  lemma SaturatedRightScenario<T, E>(frozen: bool, r: real, value: T, second: Outcome<T, E>)
    requires 0.0 <= r < 1.0
    ensures var t := Balance(1.0, frozen, r, Ok(value), second);
      t.called == [Right] && t.result == Ok(value) && t.preference == 1.0
  {
  }

  /** Both invocations reject: the secondary's error is returned, after one call
      to each provider. */
  lemma BothFailScenario<T, E>(preference: real, frozen: bool, r: real, e1: E, e2: E)
    ensures var t := Balance<T, E>(preference, frozen, r, Err(e1), Err(e2));
      t.result == Err(e2) && |t.called| == 2 && t.called[0] != t.called[1]
  {
  }

  /** `n` unfrozen adjustments towards one provider from an in-range preference
      add up to `n` steps, clamped once at the end. */
  lemma {:induction false} AdjustRepeatedIsClampedSum(preference: real, toward: Side, n: nat)
    requires MinPreference <= preference <= MaxPreference
    ensures AdjustRepeated(preference, toward, n) == Clamp(preference + (n as real) * Delta(toward))
    decreases n
  {
    if n > 0 {
      var next := Adjust(preference, false, toward);
      AdjustRepeatedIsClampedSum(next, toward, n - 1);
    }
  }

  /** Five consecutive adjustments towards one provider saturate the
      preference at that provider's boundary, from anywhere in [0, 1]. */
  lemma FiveAdjustmentsSaturate(preference: real, toward: Side)
    requires MinPreference <= preference <= MaxPreference
    ensures AdjustRepeated(preference, toward, 5) ==
              (if toward == Left then MinPreference else MaxPreference)
  {
    AdjustRepeatedIsClampedSum(preference, toward, 5);
  }
}
