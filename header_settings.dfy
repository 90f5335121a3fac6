/**
 * The settings menu in the header: nozzle counts stepped within [1, 10], fuel
 * types added under a typed name or removed, and the catalogue reset to the
 * station's four defaults.
 */
module HeaderSettings {
  import opened Decimal
  import FS = FuelSettings

  // ---------------------------------------------------------------- trimming

  /** The characters `String.prototype.trim` strips: ECMAScript white space and line terminators. */
  predicate IsSpace(c: char) {
    var k := c as int;
    || 0x09 <= k <= 0x0D || k == 0x20 || k == 0xA0 || k == 0x1680 || 0x2000 <= k <= 0x200A
    || k == 0x2028 || k == 0x2029 || k == 0x202F || k == 0x205F || k == 0x3000 || k == 0xFEFF
  }

  predicate Blank(s: string) {
    forall i :: 0 <= i < |s| ==> IsSpace(s[i])
  }

  lemma BlankJoin(a: string, b: string)
    requires Blank(a) && Blank(b)
    ensures Blank(a + b)
  {
    forall i | 0 <= i < |a + b|
      ensures IsSpace((a + b)[i])
    {
      if i >= |a| {
        assert (a + b)[i] == b[i - |a|];
      }
    }
  }

  /** `s` without its leading white space. */
  function TrimStart(s: string): (r: string)
    ensures |r| <= |s| && r == s[|s| - |r|..]
    ensures r != [] ==> !IsSpace(r[0])
    ensures Blank(s[..|s| - |r|])
  {
    if s != [] && IsSpace(s[0]) then
      var tail := s[1..];
      var rest := TrimStart(tail);
      var k := |tail| - |rest|;
      assert s[..k + 1] == [s[0]] + tail[..k];
      BlankJoin([s[0]], tail[..k]);
      assert tail[k..] == s[k + 1..];
      rest
    else
      assert s[..0] == [];
      s
  }

  /** `s` without its trailing white space. */
  function TrimEnd(s: string): (r: string)
    ensures |r| <= |s| && r == s[..|r|]
    ensures r != [] ==> !IsSpace(r[|r| - 1])
    ensures Blank(s[|r|..])
  {
    if s != [] && IsSpace(s[|s| - 1]) then
      var rest := TrimEnd(s[..|s| - 1]);
      assert s[|rest|..] == s[..|s| - 1][|rest|..] + [s[|s| - 1]];
      BlankJoin(s[..|s| - 1][|rest|..], [s[|s| - 1]]);
      assert s[..|s| - 1][..|rest|] == s[..|rest|];
      rest
    else
      assert s[|s|..] == [];
      s
  }

  /** `s.trim()`. */
  function Trim(s: string): string {
    TrimEnd(TrimStart(s))
  }

  /** A name trims to nothing exactly when it is all white space. */
  lemma TrimEmptyIffBlank(s: string)
    ensures Trim(s) == [] <==> Blank(s)
  {
    var t := TrimStart(s);
    if t != [] {
      assert !IsSpace(t[0]);
      assert t[0] == s[|s| - |t|];
    } else {
      assert s[..|s| - |t|] == s;
    }
  }

  // ---------------------------------------------------------------- transitions

  /**
   * `updateNozzleCount`: the fuel type's nozzle count moved by `delta` and
   * clamped to [1, 10]; its price and every other entry stay as they were.
   */
  function WithNozzleCount(s: FS.Settings, fuelType: string, delta: int): (r: FS.Settings)
    requires s.Valid() && fuelType in s.config
    ensures r.Valid() && r.order == s.order && r.config.Keys == s.config.Keys
    ensures 1 <= r.config[fuelType].nozzleCount <= 10
    ensures r.config[fuelType].nozzleCount == Clamp(1, 10, s.config[fuelType].nozzleCount + delta)
    ensures r.config[fuelType].price == s.config[fuelType].price
    ensures forall n :: n in s.config && n != fuelType ==> r.config[n] == s.config[n]
  {
    var config := s.config[fuelType];
    FS.Put(s, fuelType, config.(nozzleCount := Clamp(1, 10, config.nozzleCount + delta)))
  }

  /** Stepping a count up and back down restores the catalogue while the count stays below the cap. */
  lemma NozzleStepUndone(s: FS.Settings, fuelType: string)
    requires s.Valid() && fuelType in s.config && 1 <= s.config[fuelType].nozzleCount < 10
    ensures WithNozzleCount(WithNozzleCount(s, fuelType, 1), fuelType, -1) == s
  {
    var r := WithNozzleCount(WithNozzleCount(s, fuelType, 1), fuelType, -1);
    assert r.config[fuelType] == s.config[fuelType];
    assert r.config == s.config;
  }

  /** Steps cannot leave [1, 10]: at the cap another step up changes nothing. */
  lemma NozzleStepAtCap(s: FS.Settings, fuelType: string)
    requires s.Valid() && fuelType in s.config && s.config[fuelType].nozzleCount == 10
    ensures WithNozzleCount(s, fuelType, 1) == s
  {
    var r := WithNozzleCount(s, fuelType, 1);
    assert r.config == s.config;
  }

  /** The entry a new fuel type gets: price 100.00 and two nozzles. */
  const NewFuelConfig: FS.FuelConfig := FS.FuelConfig(100.00, 2)

  /** Each transition keeps every price positive and every count in [1, 10]. */
  lemma TransitionsKeepSane(s: FS.Settings, fuelType: string, delta: int, name: string)
    requires s.Valid() && s.Sane()
    ensures fuelType in s.config ==> WithNozzleCount(s, fuelType, delta).Sane()
    ensures FS.Put(s, name, NewFuelConfig).Sane()
    ensures FS.Delete(s, fuelType).Sane()
    ensures FS.Defaults.Sane()
  {
    FS.DefaultsValid();
  }

  datatype AddOutcome = InvalidInput | Duplicate | Added

  /** The menu's state: the catalogue it edits and the name typed into the new-fuel-type box. */
  class SettingsMenu {
    var fuelSettings: FS.Settings
    var newFuelType: string

    /** The catalogue stays well formed: distinct names, each listed once and each with an entry. */
    predicate Valid()
      reads this
    {
      fuelSettings.Valid()
    }

    constructor (fuelSettings: FS.Settings)
      requires fuelSettings.Valid()
      ensures this.fuelSettings == fuelSettings && newFuelType == ""
      ensures Valid()
    {
      this.fuelSettings := fuelSettings;
      newFuelType := "";
    }

    /** The minus and plus buttons of one fuel type, which the menu lists only for catalogue entries. */
    method UpdateNozzleCount(fuelType: string, delta: int)
      requires Valid() && fuelType in fuelSettings.config
      modifies this
      ensures fuelSettings == WithNozzleCount(old(fuelSettings), fuelType, delta)
      ensures newFuelType == old(newFuelType)
      ensures Valid() && (old(fuelSettings).Sane() ==> fuelSettings.Sane())
    {
      if fuelSettings.Sane() { TransitionsKeepSane(fuelSettings, fuelType, delta, ""); }
      fuelSettings := WithNozzleCount(fuelSettings, fuelType, delta);
    }

    /** The new-fuel-type box changed. */
    method SetNewFuelType(name: string)
      requires Valid()
      modifies this
      ensures Valid()
      ensures newFuelType == name && fuelSettings == old(fuelSettings)
    {
      newFuelType := name;
    }

    /**
     * `addFuelType`: a name that is blank once trimmed, or that already is a
     * key, is refused and nothing changes; otherwise the name as typed
     * (untrimmed) goes last with price 100.00 and two nozzles, and the box is
     * cleared.
     */
    method AddFuelType() returns (outcome: AddOutcome)
      requires Valid()
      modifies this
      ensures Blank(old(newFuelType)) ==>
                outcome == InvalidInput && fuelSettings == old(fuelSettings) && newFuelType == old(newFuelType)
      ensures !Blank(old(newFuelType)) && old(newFuelType) in old(fuelSettings).config ==>
                outcome == Duplicate && fuelSettings == old(fuelSettings) && newFuelType == old(newFuelType)
      ensures !Blank(old(newFuelType)) && old(newFuelType) !in old(fuelSettings).config ==>
                && outcome == Added && newFuelType == ""
                && fuelSettings == FS.Put(old(fuelSettings), old(newFuelType), NewFuelConfig)
                && fuelSettings.order == old(fuelSettings).order + [old(newFuelType)]
      ensures Valid() && (old(fuelSettings).Sane() ==> fuelSettings.Sane())
    {
      if fuelSettings.Sane() { TransitionsKeepSane(fuelSettings, "", 0, newFuelType); }
      TrimEmptyIffBlank(newFuelType);
      if Trim(newFuelType) == "" {
        return InvalidInput;
      }
      if newFuelType in fuelSettings.config {
        return Duplicate;
      }
      fuelSettings := FS.Put(fuelSettings, newFuelType, NewFuelConfig);
      newFuelType := "";
      outcome := Added;
    }

    /** `removeFuelType`: that key, and only that key, is dropped. */
    method RemoveFuelType(fuelType: string)
      requires Valid()
      modifies this
      ensures fuelSettings == FS.Delete(old(fuelSettings), fuelType)
      ensures newFuelType == old(newFuelType)
      ensures Valid() && (old(fuelSettings).Sane() ==> fuelSettings.Sane())
    {
      if fuelSettings.Sane() { TransitionsKeepSane(fuelSettings, fuelType, 0, ""); }
      fuelSettings := FS.Delete(fuelSettings, fuelType);
    }

    /** `resetToDefaults`: the four default fuel types, whatever was there before. */
    method ResetToDefaults()
      requires Valid()
      modifies this
      ensures fuelSettings == FS.Defaults && newFuelType == old(newFuelType)
      ensures Valid() && fuelSettings.Sane()
    {
      FS.DefaultsValid();
      fuelSettings := FS.Defaults;
    }
  }

  /**
   * Only the blank check trims: a name typed with surrounding spaces is not a
   * duplicate of the same name without them, and is stored with its spaces.
   */
  lemma PaddedNameIsNew()
    ensures !Blank(" Petrol") && " Petrol" !in FS.Defaults.config
  {
    assert !IsSpace(" Petrol"[1]);
  }

  /** A fuel type that was just added and is then removed leaves the catalogue as it was. */
  lemma RemoveUndoesAdd(s: FS.Settings, name: string)
    requires s.Valid() && name !in s.config
    ensures FS.Delete(FS.Put(s, name, NewFuelConfig), name) == s
  {
    FS.DeleteUndoesPut(s, name, NewFuelConfig);
  }
}
