# ApiBalancer: a verified model of neon-api's two-provider failover switch

`ApiBalancer` (packages/neon-api/src/provider/apiBalancer.ts) sends each API request to one of two
interchangeable providers. It keeps a preference in [0, 1]. It draws a random number and picks the
left provider when the draw exceeds the preference, otherwise the right one. If that call fails, it
tries the other provider once. After each call it moves the preference 0.2 toward the provider that
succeeded, or, on failure, toward the provider it is about to try. A frozen flag switches these
adjustments off.

The project has three modules:

- `BalancerModel` (balancer_model.dfy) states the decision logic on values. `Clamp` is the
  preference setter's rule. `Select` is the selection rule. `Adjust` is one weight increase.
  `Balance` is one whole `loadBalance` call: from preference, frozen flag, draw and request
  outcomes to result, providers called and new preference. `Run` chains several calls. The
  lemmas prove the source's promises and its test scenarios about these functions.
- `Balancer` (api_balancer.dfy) holds the class `ApiBalancer<P>`. It has the source's fields and
  methods and updates them in place. The postconditions of the constructor, `SetPreference`, the
  two weight methods and `LoadBalance` tie the new state to the `BalancerModel` functions;
  `SetFrozen` states its new state directly (the flag stored, the preference kept). The log sink
  is a ghost sequence `events`, described by `PreferenceWriteLog`, `FrozenWriteLog` and `AdjustLog`.
- `BalancerTests` (balancer_tests.dfy) replays the jest suite in
  packages/neon-api/__tests__/provider/apiBalancer.ts against the class contracts alone.

Modelling choices:

- `Math.random()` becomes a parameter `r` with `0 <= r < 1`.
- The request function becomes two outcomes: `first` is the result of its first invocation and
  `second` the result of a second invocation, used only on the fallback path. An outcome of
  `Outcome<T, E>` is `Ok(value)` or `Err(error)`. A rejected promise and a thrown error are both `Err`.
- `LoadBalance` returns the provider handles the request function received, in order.
- Numbers are exact `real`s. In the model the literal 0.2 is exactly one fifth, so five model
  steps span [0, 1] exactly. The program computes with IEEE-754 doubles, where this does not hold
  in the leftward direction (see `FiveAdjustmentsSaturate` under "Left out").
- The getters are reads of the fields `preference` and `frozen`. The class invariant `Valid()` is
  the clamp invariant `0 <= preference <= 1`.

The preference setter logs only when the clamped value differs from the stored one
(packages/neon-api/src/provider/apiBalancer.ts:19-21). So an adjustment that
cannot move the preference (for example toward the right at 1) emits only the adjustment's own
log line, not two lines.

## Model

| member | source | states |
|---|---|---|
| BalancerModel.Clamp | packages/neon-api/src/provider/apiBalancer.ts:17-23 | the stored value always lies in [0, 1]; a negative input stores 0, an input above 1 stores 1, and the input is stored unchanged exactly when it is already in [0, 1] |
| BalancerModel.ClampIdempotent | packages/neon-api/src/provider/apiBalancer.ts:17-23 | writing back the value that was just stored stores the same value again |
| BalancerModel.Adjust | packages/neon-api/src/provider/apiBalancer.ts:70-86 | while frozen the preference is unchanged; otherwise the result is in [0, 1] and, from an in-range preference, moves down 0.2 toward the left provider (to 0 when below 0.2) or up 0.2 toward the right provider (to 1 when above 0.8) |
| BalancerModel.Balance | packages/neon-api/src/provider/apiBalancer.ts:55-86 | one call on success, two on failure; the first call goes to the selected primary and the second to the other provider, so each provider is called at most once; the result is the primary's on success and the secondary's value or error otherwise, so it fails only if both calls fail; the preference is adjusted toward the last provider tried, stays fixed while frozen and stays in [0, 1] |
| BalancerModel.Run | packages/neon-api/src/provider/apiBalancer.ts:55-86 | over any number of successive calls, a frozen balancer's preference never changes and an in-range preference stays in [0, 1] |
| BalancerModel.Other | packages/neon-api/src/provider/apiBalancer.ts:64 | the secondary is never the provider that was tried first |
| BalancerModel.Select | packages/neon-api/src/provider/apiBalancer.ts:56-57 | at preference 1 or more every draw below 1 selects the right provider; at preference 0 or less every positive draw selects the left provider |
| BalancerModel.SelectMonotone | packages/neon-api/src/provider/apiBalancer.ts:56-57 | a higher preference biases selection toward the right provider: a draw that a preference sends left is sent left by every lower preference, and a draw sent right stays right at every higher one |
| BalancerModel.SelectAtMaximum | packages/neon-api/src/provider/apiBalancer.ts:56-57 | at preference 1 every draw in [0, 1) selects the right provider |
| BalancerModel.SelectAtMinimum | packages/neon-api/src/provider/apiBalancer.ts:56-57 | at preference 0 a draw in [0, 1) selects the left provider exactly when it is positive |
| BalancerModel.SuccessFavoursPrimary | packages/neon-api/src/provider/apiBalancer.ts:60-62 | when the primary succeeds and the balancer is unfrozen, only the primary is called and the preference becomes clamp(p - 0.2) for a left primary and clamp(p + 0.2) for a right one |
| BalancerModel.FailureFavoursSecondary | packages/neon-api/src/provider/apiBalancer.ts:63-67 | when the primary fails and the balancer is unfrozen, the calls are primary then the other provider, the secondary's outcome is returned, and the preference shifts one clamped step toward the secondary whatever the secondary's outcome |
| BalancerModel.SuccessFromHalfChangesPreference | packages/neon-api/__tests__/provider/apiBalancer.ts:30-36 | unfrozen, a successful call from preference 0.5 changes the preference, for every draw |
| BalancerModel.FrozenSuccessKeepsPreference | packages/neon-api/__tests__/provider/apiBalancer.ts:38-45 | frozen, a successful call from preference 0.5 leaves it at 0.5 |
| BalancerModel.FallbackScenario | packages/neon-api/__tests__/provider/apiBalancer.ts:63-71 | from preference 0, unfrozen, with a positive draw, the left provider failing and the right succeeding: the calls are left then right, the right's value is returned and the preference ends above 0 |
| BalancerModel.SaturatedRightScenario | packages/neon-api/__tests__/provider/apiBalancer.ts:56-61 | at preference 1 with a succeeding request, frozen or not (the suite runs this test while frozen): exactly one call, to the right provider, its value returned, and the preference stays at 1 |
| BalancerModel.BothFailScenario | packages/neon-api/src/provider/apiBalancer.ts:63-67 | when both calls fail, the secondary's error is returned after exactly one call to each provider |
| BalancerModel.AdjustRepeatedIsClampedSum | packages/neon-api/src/provider/apiBalancer.ts:70-86 | n unfrozen adjustments toward one provider from an in-range preference equal n steps of 0.2 added together and clamped once |
| BalancerModel.FiveAdjustmentsSaturate | packages/neon-api/src/provider/apiBalancer.ts:70-86 | five adjustments toward one provider reach that provider's boundary (0 for left, 1 for right) from anywhere in [0, 1] |
| Balancer.PreferenceWriteLog | packages/neon-api/src/provider/apiBalancer.ts:19-21 | the setter logs at most one line, and logs exactly when the clamped value differs from the stored one; the line carries the new value |
| Balancer.FrozenWriteLog | packages/neon-api/src/provider/apiBalancer.ts:31-35 | the frozen setter logs exactly when the flag changes: entering frozen logs the current preference, leaving it logs the resume |
| Balancer.AdjustLog | packages/neon-api/src/provider/apiBalancer.ts:70-86 | a frozen adjustment logs nothing; an unfrozen one logs the setter's line (if the value changed) followed by the line naming the favoured provider |
| Balancer.RewriteLogsNothing | packages/neon-api/src/provider/apiBalancer.ts:17-23 | writing the stored value back into the setter logs nothing and stores the same value |
| Balancer.LoadBalanceLogsAtMostTwo | packages/neon-api/src/provider/apiBalancer.ts:55-86 | one `loadBalance` call logs at most two lines: nothing while frozen, otherwise an optional setter line and then one line for the favoured provider, which is the primary on success and the secondary on failure |
| Balancer.ApiBalancer.ProviderAt | packages/neon-api/src/provider/apiBalancer.ts:57 | the handle for the left side is `leftProvider` and for the right side `rightProvider`, the lookup used for the primary (line 57) and the secondary (line 64) |
| Balancer.ApiBalancer.ProvidersAt | packages/neon-api/src/provider/apiBalancer.ts:55-67 | the handles passed to the request function are, position by position, the providers standing at the sides called, so the call record keeps the order and the length of the calls |
| Balancer.ApiBalancer.constructor | packages/neon-api/src/provider/apiBalancer.ts:39-49 | the providers are the two arguments, the preference is the clamped initial value (default 0) and the flag is the given one (default false), both set through their setters, so the clamp invariant holds from the start |
| Balancer.ApiBalancer.SetPreference | packages/neon-api/src/provider/apiBalancer.ts:17-23 | stores exactly clamp(v), so the clamp invariant holds after every write; touches nothing but the preference and the log |
| Balancer.ApiBalancer.SetFrozen | packages/neon-api/src/provider/apiBalancer.ts:30-37 | stores the flag, never modifies the preference, and so keeps the clamp invariant |
| Balancer.ApiBalancer.IncreaseLeftWeight | packages/neon-api/src/provider/apiBalancer.ts:70-77 | the preference becomes the one-step adjustment toward the left provider, or stays unchanged while frozen; the invariant is kept |
| Balancer.ApiBalancer.IncreaseRightWeight | packages/neon-api/src/provider/apiBalancer.ts:79-86 | the preference becomes the one-step adjustment toward the right provider, or stays unchanged while frozen; the invariant is kept |
| Balancer.ApiBalancer.LoadBalance | packages/neon-api/src/provider/apiBalancer.ts:55-68 | the result, the provider handles called in order and the new preference are those of `Balance` for the old preference, flag and draw; the invariant is kept, and the frozen flag and both providers are unchanged |

## Left out

- Log message text: the `log.info` calls become `Event` values in a ghost sequence. The provider `name` appears only in the text and is not modelled.
- Randomness: `Math.random` is a parameter `r` in [0, 1). The probability of each selection is not stated. Only the deterministic rule for a given draw is modelled.
- Concurrency: the model treats one `loadBalance` call as one sequential transition. Concurrent calls can interleave at the two `await` points and apply adjustments to a preference another call has changed. That is not modelled.
- Floating point: the model uses exact reals. IEEE-754 rounding of `±0.2` is left out, and so is NaN. With NaN, `Math.max`/`Math.min` would store NaN.
- FiveAdjustmentsSaturate: holds for exact reals only. In IEEE-754 doubles five clamped `-= 0.2` steps from 1 give 0.8, 0.6000000000000001, 0.4000000000000001, 0.20000000000000007 and 5.551115123125783e-17, which is not 0, so the program needs a sixth step to reach the left boundary. Rightward from 0 the doubles do reach 1 in five steps.
- AdjustRepeatedIsClampedSum: holds for exact reals only. With doubles, n rounded steps of 0.2 need not equal one clamp of the exact sum n * 0.2 (the leftward sequence above ends at 5.551115123125783e-17, not at clamp(1 - 1.0) = 0).
- Provider internals (`./common`, the neonDB and neoscan providers) are not part of this model. Providers are opaque handles of a type parameter `P`.
- packages/neon-api/src/settings.ts is not modelled. It is a configuration constant with no logic.
- The unused local `primaryShift` is omitted. No behaviour depends on it.
- The constants `minPreference`/`maxPreference` are declared in the source but the setter uses the literals 0 and 1. The model copies that split: `Clamp` and `SetPreference` use the literals 0.0 and 1.0, and only the contracts and `Valid()` use the constants `MinPreference`/`MaxPreference`, which have the same values.
- A logger that throws inside the `try` block would send control to the fallback path. The logger is taken to be infallible.
- Reassigning `leftProvider`/`rightProvider` after construction is possible through the model's public fields, as in the source, but no method does it.
