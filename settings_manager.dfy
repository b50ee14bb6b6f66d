/**
 * SettingsManager: the two alert thresholds kept in the user-defaults store.
 * The store maps a key to an integer; `integer(forKey:)` reads an unset key as 0.
 * Nothing here checks a range or that the low threshold is below the high one.
 */
module Settings {

  const LowThresholdKey: string := "lowThreshold"
  const HighThresholdKey: string := "highThreshold"
  const DefaultLowThreshold: int := 20
  const DefaultHighThreshold: int := 80

  /** `integer(forKey:)` on a store: the stored value, or 0 for a key never set. */
  function IntegerForKey(values: map<string, int>, key: string): (v: int)
    ensures key in values ==> v == values[key]
    ensures key !in values ==> v == 0
  {
    if key in values then values[key] else 0
  }

  /**
   * The store after the defaulting done by `init`: a threshold that reads as 0,
   * stored or unset, is replaced by its default; everything else is kept.
   */
  function WithDefaults(values: map<string, int>): (r: map<string, int>)
    ensures IntegerForKey(r, LowThresholdKey) != 0 && IntegerForKey(r, HighThresholdKey) != 0
    ensures IntegerForKey(values, LowThresholdKey) == 0 ==> IntegerForKey(r, LowThresholdKey) == DefaultLowThreshold
    ensures IntegerForKey(values, HighThresholdKey) == 0 ==> IntegerForKey(r, HighThresholdKey) == DefaultHighThreshold
    ensures IntegerForKey(values, LowThresholdKey) != 0 ==> IntegerForKey(r, LowThresholdKey) == IntegerForKey(values, LowThresholdKey)
    ensures IntegerForKey(values, HighThresholdKey) != 0 ==> IntegerForKey(r, HighThresholdKey) == IntegerForKey(values, HighThresholdKey)
    ensures r.Keys <= values.Keys + {LowThresholdKey, HighThresholdKey}
    ensures forall k | k in values && k != LowThresholdKey && k != HighThresholdKey :: k in r && r[k] == values[k]
  {
    var afterLow := if IntegerForKey(values, LowThresholdKey) == 0 then values[LowThresholdKey := DefaultLowThreshold] else values;
    if IntegerForKey(afterLow, HighThresholdKey) == 0 then afterLow[HighThresholdKey := DefaultHighThreshold] else afterLow
  }

  /** Defaulting a second time changes nothing. */
  lemma WithDefaultsIdempotent(values: map<string, int>)
    ensures WithDefaults(WithDefaults(values)) == WithDefaults(values)
  {
  }

  /** A low threshold stored as 0 reads exactly like one never set: both become the default. */
  lemma StoredZeroIsUnset(values: map<string, int>)
    requires LowThresholdKey !in values
    ensures WithDefaults(values[LowThresholdKey := 0]) == WithDefaults(values)
  {
  }

  /** A high threshold stored as 0 reads exactly like one never set: both become the default. */
  lemma StoredZeroIsUnsetHigh(values: map<string, int>)
    requires HighThresholdKey !in values
    ensures WithDefaults(values[HighThresholdKey := 0]) == WithDefaults(values)
  {
  }

  /** `UserDefaults.standard`: one store shared by everyone that holds it. */
  class UserDefaults {
    var values: map<string, int>

    constructor (values: map<string, int>)
      ensures this.values == values
    {
      this.values := values;
    }

    /** `integer(forKey:)`: the stored value, or 0 for a key never set. */
    function Integer(key: string): (v: int)
      reads this
      ensures key in values ==> v == values[key]
      ensures key !in values ==> v == 0
    {
      IntegerForKey(values, key)
    }

    method Set(value: int, key: string)
      modifies this
      ensures values == old(values)[key := value]
      ensures Integer(key) == value
      ensures forall k | k != key :: Integer(k) == old(Integer(k))
    {
      values := values[key := value];
    }
  }

  class SettingsManager {
    const defaults: UserDefaults

    /** `init`: fills in a default for each threshold that reads as 0. */
    constructor (defaults: UserDefaults)
      modifies defaults
      ensures this.defaults == defaults
      ensures defaults.values == WithDefaults(old(defaults.values))
    {
      this.defaults := defaults;
      new;
      if defaults.Integer(LowThresholdKey) == 0 {
        SetLowThreshold(DefaultLowThreshold);
      }
      if defaults.Integer(HighThresholdKey) == 0 {
        SetHighThreshold(DefaultHighThreshold);
      }
    }

    function LowThreshold(): (t: int)
      reads this, defaults
      ensures LowThresholdKey !in defaults.values ==> t == 0
      ensures LowThresholdKey in defaults.values ==> t == defaults.values[LowThresholdKey]
    {
      defaults.Integer(LowThresholdKey)
    }

    function HighThreshold(): (t: int)
      reads this, defaults
      ensures HighThresholdKey !in defaults.values ==> t == 0
      ensures HighThresholdKey in defaults.values ==> t == defaults.values[HighThresholdKey]
    {
      defaults.Integer(HighThresholdKey)
    }

    method SetLowThreshold(value: int)
      modifies defaults
      ensures defaults.values == old(defaults.values)[LowThresholdKey := value]
      ensures LowThreshold() == value
      ensures HighThreshold() == old(HighThreshold())
    {
      defaults.Set(value, LowThresholdKey);
    }

    method SetHighThreshold(value: int)
      modifies defaults
      ensures defaults.values == old(defaults.values)[HighThresholdKey := value]
      ensures HighThreshold() == value
      ensures LowThreshold() == old(LowThreshold())
    {
      defaults.Set(value, HighThresholdKey);
    }
  }
}
