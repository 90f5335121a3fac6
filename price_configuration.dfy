/**
 * The price screen: a draft price per fuel type (`tempPrices`), saved into the
 * catalogue all or nothing, reset from the catalogue, or filled by a
 * percentage change of the current prices. A draft is the number the text box
 * parses to, None when `parseFloat` gives NaN.
 */
module PriceConfiguration {
  import opened Wrappers
  import opened Decimal
  import FS = FuelSettings

  type Drafts = map<string, Option<real>>

  /** A draft the save refuses: not a number, or not above zero. */
  predicate Invalid(p: Option<real>) {
    p.None? || p.value <= 0.0
  }

  /** Some draft, for any name at all, is refused. */
  predicate HasErrors(drafts: Drafts) {
    exists n :: n in drafts && Invalid(drafts[n])
  }

  /** The draft for `n` is valid, `n` is in the catalogue, and the draft differs from its price. */
  predicate Changes(s: FS.Settings, drafts: Drafts, n: string) {
    n in drafts && !Invalid(drafts[n]) && n in s.config && s.config[n].price != drafts[n].value
  }

  predicate HasChanges(s: FS.Settings, drafts: Drafts) {
    exists n :: n in drafts && Changes(s, drafts, n)
  }

  /**
   * The catalogue with the valid drafts of the names in `keys` taken as prices.
   * Drafts for names the catalogue does not have are ignored.
   */
  function Repriced(s: FS.Settings, drafts: Drafts, keys: set<string>): (r: FS.Settings)
    ensures r.order == s.order && r.config.Keys == s.config.Keys
    ensures forall n :: n in s.config ==> r.config[n].nozzleCount == s.config[n].nozzleCount
    ensures s.Valid() ==> r.Valid()
  {
    FS.Settings(s.order, map n | n in s.config ::
      if n in keys && n in drafts && !Invalid(drafts[n]) then s.config[n].(price := drafts[n].value)
      else s.config[n])
  }

  /** After a save every entry with a draft carries that draft as its price; the others keep theirs. */
  lemma SavedPricesAreDrafts(s: FS.Settings, drafts: Drafts)
    requires !HasErrors(drafts)
    ensures forall n :: n in s.config && n in drafts ==> Repriced(s, drafts, drafts.Keys).config[n].price == drafts[n].value
    ensures forall n :: n in s.config && n !in drafts ==> Repriced(s, drafts, drafts.Keys).config[n] == s.config[n]
  {
    forall n | n in s.config && n in drafts
      ensures Repriced(s, drafts, drafts.Keys).config[n].price == drafts[n].value
    {
      assert !Invalid(drafts[n]);
    }
  }

  /** Valid drafts keep every price positive. */
  lemma SavePreservesSane(s: FS.Settings, drafts: Drafts)
    requires s.Sane() && !HasErrors(drafts)
    ensures Repriced(s, drafts, drafts.Keys).Sane()
  {
    var r := Repriced(s, drafts, drafts.Keys);
    forall n | n in r.config
      ensures r.config[n].price > 0.0 && 1 <= r.config[n].nozzleCount <= 10
    {
      if n in drafts {
        assert !Invalid(drafts[n]);
      }
    }
  }

  /** When no draft differs from its price, repricing gives back the same catalogue. */
  lemma NoChangesIsIdentity(s: FS.Settings, drafts: Drafts, keys: set<string>)
    requires !HasChanges(s, drafts)
    ensures Repriced(s, drafts, keys) == s
  {
    var r := Repriced(s, drafts, keys);
    forall n | n in s.config
      ensures r.config[n] == s.config[n]
    {
      assert !Changes(s, drafts, n);
    }
    assert r.config == s.config;
  }

  /** Conversely, a draft that differs from its price changes the catalogue. */
  lemma ChangesShow(s: FS.Settings, drafts: Drafts)
    requires HasChanges(s, drafts)
    ensures Repriced(s, drafts, drafts.Keys) != s
  {
    var n :| n in drafts && Changes(s, drafts, n);
    assert Repriced(s, drafts, drafts.Keys).config[n].price != s.config[n].price;
  }

  /** The draft showing every current price, one entry per fuel type (the prices' string forms read back). */
  function CurrentPrices(s: FS.Settings): (d: Drafts)
    ensures d.Keys == s.config.Keys
    ensures forall n :: n in d ==> d[n] == Some(s.config[n].price)
  {
    map n | n in s.config :: Some(s.config[n].price)
  }

  /** Saving the current prices unchanged finds nothing to save, and nothing wrong when the prices are positive. */
  lemma CurrentPricesNoChanges(s: FS.Settings)
    ensures !HasChanges(s, CurrentPrices(s))
    ensures s.Sane() ==> !HasErrors(CurrentPrices(s))
  {
  }

  /** `price * (1 + percentage / 100)`. */
  function Scaled(price: real, percentage: real): real {
    price * (1.0 + percentage / 100.0)
  }

  /** A positive price cut by 100% or more is zero or below. */
  lemma ScaledNonPositive(price: real, percentage: real)
    requires price > 0.0 && percentage <= -100.0
    ensures Scaled(price, percentage) <= 0.0
  {
    var factor := 1.0 + percentage / 100.0;
    assert factor <= 0.0;
    assert price * factor <= 0.0;
  }

  /** The draft a percentage change makes: every price scaled by (1 + p/100), to two decimals. */
  function QuickDraft(s: FS.Settings, percentage: real): (d: Drafts)
    ensures d.Keys == s.config.Keys
    ensures forall n :: n in d ==>
              d[n].Some? && IsCents(d[n].value) &&
              -0.005 <= d[n].value - Scaled(s.config[n].price, percentage) <= 0.005
  {
    map n | n in s.config :: Some(Round2(Scaled(s.config[n].price, percentage)))
  }

  /** A cut of 100% or more can never be saved: every price drops to zero or below. */
  lemma QuickCutOfAllIsRefused(s: FS.Settings, percentage: real)
    requires s.Sane() && s.config != map[] && percentage <= -100.0
    ensures HasErrors(QuickDraft(s, percentage))
  {
    var n :| n in s.config;
    ScaledNonPositive(s.config[n].price, percentage);
    assert Invalid(QuickDraft(s, percentage)[n]);
  }

  /** A change of 0% on whole-paise prices is the current draft again. */
  lemma QuickZeroIsCurrent(s: FS.Settings)
    requires forall n :: n in s.config ==> IsCents(s.config[n].price)
    ensures QuickDraft(s, 0.0) == CurrentPrices(s)
  {
    forall n | n in s.config
      ensures QuickDraft(s, 0.0)[n] == CurrentPrices(s)[n]
    {
      Round2OfCents(s.config[n].price);
    }
  }

  datatype SaveOutcome = InvalidPrices | NoChanges | Saved

  /** The price screen's state: the catalogue it edits and the drafts in its text boxes. */
  class PriceScreen {
    var fuelSettings: FS.Settings
    var tempPrices: Drafts

    /** The drafts start as the current prices. */
    constructor (fuelSettings: FS.Settings)
      requires fuelSettings.Valid()
      ensures this.fuelSettings == fuelSettings && tempPrices == CurrentPrices(fuelSettings)
    {
      var prices := DraftFromCatalogue(fuelSettings);
      this.fuelSettings := fuelSettings;
      tempPrices := prices;
    }

    /** A text box changed: that fuel type's draft is what it now parses to. */
    method UpdateTempPrice(fuelType: string, price: Option<real>)
      modifies this
      ensures tempPrices == old(tempPrices)[fuelType := price] && fuelSettings == old(fuelSettings)
    {
      tempPrices := tempPrices[fuelType := price];
    }

    /**
     * `savePrices`: all or nothing. Any invalid draft refuses the whole save;
     * otherwise, when some draft differs from its price, every catalogue entry
     * with a draft takes it as its price; when none differs nothing changes.
     */
    method SavePrices() returns (outcome: SaveOutcome)
      requires fuelSettings.Valid()
      modifies this
      ensures tempPrices == old(tempPrices)
      ensures HasErrors(old(tempPrices)) ==> outcome == InvalidPrices && fuelSettings == old(fuelSettings)
      ensures !HasErrors(old(tempPrices)) && !HasChanges(old(fuelSettings), old(tempPrices)) ==>
                outcome == NoChanges && fuelSettings == old(fuelSettings)
      ensures !HasErrors(old(tempPrices)) && HasChanges(old(fuelSettings), old(tempPrices)) ==>
                outcome == Saved && fuelSettings == Repriced(old(fuelSettings), old(tempPrices), old(tempPrices).Keys)
      ensures fuelSettings.Valid()
    {
      var hasChanges := false;
      var hasErrors := false;
      var settings, drafts := fuelSettings, tempPrices;
      var newSettings := settings;
      var pending := drafts.Keys;
      ghost var done: set<string> := {};
      while pending != {}
        invariant fuelSettings == settings && tempPrices == drafts
        invariant pending + done == drafts.Keys && pending !! done
        invariant hasErrors <==> exists n :: n in done && Invalid(drafts[n])
        invariant hasChanges <==> exists n :: n in done && Changes(settings, drafts, n)
        invariant newSettings == Repriced(settings, drafts, done)
        decreases pending
      {
        var fuelType :| fuelType in pending;
        var price := drafts[fuelType];
        RepricedStep(settings, drafts, done, fuelType);
        if Invalid(price) {
          hasErrors := true;
        } else if fuelType in newSettings.config && newSettings.config[fuelType].price != price.value {
          newSettings := Reprice(newSettings, fuelType, price.value);
          hasChanges := true;
        }
        pending := pending - {fuelType};
        done := done + {fuelType};
      }
      if hasErrors {
        return InvalidPrices;
      }
      if !hasChanges {
        return NoChanges;
      }
      fuelSettings := newSettings;
      outcome := Saved;
    }

    /** `resetPrices`: the drafts go back to the current prices. */
    method ResetPrices()
      requires fuelSettings.Valid()
      modifies this
      ensures tempPrices == CurrentPrices(fuelSettings) && fuelSettings == old(fuelSettings)
    {
      tempPrices := DraftFromCatalogue(fuelSettings);
    }

    /** `applyQuickPriceChange`: the drafts become the scaled prices; the catalogue is untouched. */
    method ApplyQuickPriceChange(percentage: real)
      requires fuelSettings.Valid()
      modifies this
      ensures tempPrices == QuickDraft(fuelSettings, percentage) && fuelSettings == old(fuelSettings)
    {
      var s := fuelSettings;
      var newPrices: Drafts := map[];
      var i := 0;
      while i < |s.order|
        invariant 0 <= i <= |s.order|
        invariant forall n :: n in newPrices <==> n in s.order[..i]
        invariant forall n :: n in newPrices ==> newPrices[n] == Some(Round2(Scaled(s.config[n].price, percentage)))
      {
        var fuelType := s.order[i];
        var newPrice := Scaled(s.config[fuelType].price, percentage);
        newPrices := newPrices[fuelType := Some(Round2(newPrice))];
        i := i + 1;
      }
      assert s.order[..i] == s.order;
      AllListed(s, newPrices);
      SameDrafts(newPrices, QuickDraft(s, percentage));
      tempPrices := newPrices;
    }
  }

  /** Visiting one more draft either reprices that one entry or leaves the catalogue as it was. */
  lemma RepricedStep(s: FS.Settings, drafts: Drafts, done: set<string>, n: string)
    requires n in drafts && n !in done
    ensures var before, after := Repriced(s, drafts, done), Repriced(s, drafts, done + {n});
            if !Invalid(drafts[n]) && n in s.config then
              n in before.config && after == Reprice(before, n, drafts[n].value)
            else after == before
  {
    var before, after := Repriced(s, drafts, done), Repriced(s, drafts, done + {n});
    if !Invalid(drafts[n]) && n in s.config {
      assert after.config == before.config[n := before.config[n].(price := drafts[n].value)];
    } else {
      assert after.config == before.config;
    }
  }

  /** One entry's price replaced, in place in the catalogue's order. */
  function Reprice(s: FS.Settings, n: string, price: real): (r: FS.Settings)
    requires n in s.config
    ensures r.order == s.order && r.config == s.config[n := s.config[n].(price := price)]
  {
    FS.Settings(s.order, s.config[n := s.config[n].(price := price)])
  }

  /** A draft with an entry for each name of a valid catalogue's order has the catalogue's keys. */
  lemma AllListed(s: FS.Settings, d: Drafts)
    requires s.Valid()
    requires forall n :: n in d <==> n in s.order
    ensures d.Keys == s.config.Keys
  {
    forall n
      ensures n in d <==> n in s.config
    {
      FS.KeysListed(s, n);
    }
  }

  /** Drafts with the same names and the same entries are the same. */
  lemma SameDrafts(a: Drafts, b: Drafts)
    requires a.Keys == b.Keys && forall n :: n in a ==> a[n] == b[n]
    ensures a == b
  {
  }

  /** The current prices as drafts, built entry by entry in catalogue order. */
  method DraftFromCatalogue(s: FS.Settings) returns (prices: Drafts)
    requires s.Valid()
    ensures prices == CurrentPrices(s)
  {
    prices := map[];
    var i := 0;
    while i < |s.order|
      invariant 0 <= i <= |s.order|
      invariant forall n :: n in prices <==> n in s.order[..i]
      invariant forall n :: n in prices ==> prices[n] == Some(s.config[n].price)
    {
      var fuelType := s.order[i];
      prices := prices[fuelType := Some(s.config[fuelType].price)];
      i := i + 1;
    }
    assert s.order[..i] == s.order;
    AllListed(s, prices);
    SameDrafts(prices, CurrentPrices(s));
  }
}
