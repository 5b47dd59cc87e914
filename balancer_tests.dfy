/**
 * The balancer's test suite replayed against the class contracts, on a
 * balancer over "neoscan" (left) and "neonDB" (right), with the
 * random draw left as a parameter, the request function's outcomes given.
 * `Construction` checks the constructor's defaults; every other assertion is
 * one the suite makes.
 */
module BalancerTests {
  import opened BalancerModel
  import opened Balancer

  /** Setting the preference: out-of-range values are clamped. */
  method PreferenceIsClamped(b: ApiBalancer<string>)
    modifies b`preference, b`events
  {
    b.SetPreference(1.0);
    assert b.preference == 1.0;
    b.SetPreference(-1.0);
    assert b.preference == 0.0;
    b.SetPreference(1.3);
    assert b.preference == 1.0;
    b.SetPreference(0.0);
    assert b.preference == 0.0;
    b.SetPreference(1.0);
    assert b.preference == 1.0;
  }

  /** The fixtures every test shares: left is "neoscan", right is "neonDB". */
  ghost predicate Fixture(b: ApiBalancer<string>)
    reads b
  {
    b.Valid() && b.leftProvider == "neoscan" && b.rightProvider == "neonDB"
  }

  /** Constructed with the defaults, the balancer starts at preference 0, unfrozen. */
  method Construction()
  {
    var b := new ApiBalancer<string>("neoscan", "neonDB");
    assert Fixture(b) && b.preference == 0.0 && !b.frozen && b.events == [];
  }

  /** Unfrozen, a successful call from preference 0.5 changes the preference. */
  method ChangesWhenUnfrozen(b: ApiBalancer<string>, r: real)
    requires Fixture(b) && 0.0 <= r < 1.0
    modifies b
  {
    b.SetFrozen(false);
    b.SetPreference(0.5);
    var result, calls := b.LoadBalance<bool, bool>(r, Ok(true), Ok(true));
    assert b.preference != 0.5;
  }

  /** Frozen, a successful call from preference 0.5 leaves it at 0.5. */
  method KeptWhenFrozen(b: ApiBalancer<string>, r: real)
    requires Fixture(b) && 0.0 <= r < 1.0
    modifies b
  {
    b.SetFrozen(true);
    b.SetPreference(0.5);
    var result, calls := b.LoadBalance<bool, bool>(r, Ok(true), Ok(true));
    assert b.preference == 0.5;
  }

  /** At preference 0 the left provider is called (for every draw but 0). */
  method LeftAtZero(b: ApiBalancer<string>, r: real)
    requires Fixture(b) && 0.0 < r < 1.0
    modifies b
  {
    b.SetPreference(0.0);
    var result, calls := b.LoadBalance<bool, bool>(r, Ok(true), Ok(true));
    assert calls == ["neoscan"];
  }

  /** At preference 1 the right provider is called. */
  method RightAtOne(b: ApiBalancer<string>, r: real)
    requires Fixture(b) && 0.0 <= r < 1.0
    modifies b
  {
    b.SetPreference(1.0);
    var result, calls := b.LoadBalance<bool, bool>(r, Ok(true), Ok(true));
    assert calls == ["neonDB"];
  }

  /** When the first call fails, the other provider is called and its value returned. */
  method FallbackOnFailure(b: ApiBalancer<string>, r: real)
    requires Fixture(b) && 0.0 < r < 1.0
    modifies b
  {
    b.SetFrozen(false);
    b.SetPreference(0.0);
    var result, calls := b.LoadBalance<bool, bool>(r, Err(false), Ok(true));
    assert result == Ok(true);
    assert calls == ["neoscan", "neonDB"];
    assert b.preference > 0.0;
  }
}
