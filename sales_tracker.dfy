/**
 * The sale-entry screen: nozzle naming, the meter-reading form with its
 * derived litres and amount, and the edits (add, update, delete) it makes to
 * the list of sale records.
 */
module SalesTracker {
  import opened Wrappers
  import opened Decimal
  import opened Ledger
  import FS = FuelSettings

  // ---------------------------------------------------------------- nozzles

  /** A dispensing point as the nozzle picker lists it (its random mock meter reading is not modelled). */
  datatype Nozzle = Nozzle(id: string, name: string)

  /**
   * The nozzle-id prefix of a fuel type: "PO" for power, "PR" for premium
   * (compared case-insensitively), otherwise the first character upper-cased.
   * Comparing ASCII lower case to "power" and "premium" is exact: no other
   * character lower-cases to one of their letters.
   */
  function NozzlePrefix(fuelType: string): (p: string)
    ensures ToLower(fuelType) == "power" ==> p == "PO"
    ensures ToLower(fuelType) == "premium" ==> p == "PR"
    ensures ToLower(fuelType) != "power" && ToLower(fuelType) != "premium" && fuelType != "" ==>
              p == [ToUpperChar(fuelType[0])]
    ensures p == "" <==> fuelType == ""
  {
    if ToLower(fuelType) == "power" then "PO"
    else if ToLower(fuelType) == "premium" then "PR"
    else if fuelType == "" then ""
    else [ToUpperChar(fuelType[0])]
  }

  /** Fuel types that differ only in letter case get the same prefix. */
  lemma NozzlePrefixIgnoresCase(s: string, t: string)
    requires ToLower(s) == ToLower(t)
    ensures NozzlePrefix(s) == NozzlePrefix(t)
  {
    if s != [] {
      assert ToLowerChar(s[0]) == ToLower(s)[0] == ToLower(t)[0] == ToLowerChar(t[0]);
      ToUpperIgnoresCase(s[0], t[0]);
    }
  }

  /** `for (let i = 1; i <= n; i++)` runs max(n, 0) times. */
  function Times(n: int): nat {
    if n < 0 then 0 else n
  }

  /** The ids `prefix1`, `prefix2`, ... `prefixN` of a fuel type with N nozzles. */
  function NozzleIds(fuelType: string, count: int): (ids: seq<string>)
    ensures |ids| == Times(count)
    ensures forall k :: 0 <= k < |ids| ==> ids[k] == NozzlePrefix(fuelType) + NatToString(k + 1)
  {
    seq(Times(count), k requires 0 <= k < Times(count) => NozzlePrefix(fuelType) + NatToString(k + 1))
  }

  /** Within one fuel type the ids are all different. */
  lemma NozzleIdsDistinct(fuelType: string, count: int)
    ensures forall i, j :: 0 <= i < j < |NozzleIds(fuelType, count)| ==>
              NozzleIds(fuelType, count)[i] != NozzleIds(fuelType, count)[j]
  {
    var ids := NozzleIds(fuelType, count);
    forall i, j | 0 <= i < j < |ids| ensures ids[i] != ids[j] {
      PrefixedNatInjective(NozzlePrefix(fuelType), i + 1, j + 1);
    }
  }

  /**
   * `generateNozzlesForFuelType`: the nozzles of one fuel type in order, none
   * for a fuel type the catalogue does not have.
   */
  method GenerateNozzlesForFuelType(settings: FS.Settings, fuelType: string) returns (nozzles: seq<Nozzle>)
    ensures fuelType !in settings.config ==> nozzles == []
    ensures fuelType in settings.config ==> |nozzles| == Times(settings.config[fuelType].nozzleCount)
    ensures forall k :: 0 <= k < |nozzles| ==>
              nozzles[k].id == NozzlePrefix(fuelType) + NatToString(k + 1) &&
              nozzles[k].name == "Nozzle " + nozzles[k].id
  {
    if fuelType !in settings.config {
      return [];
    }
    var config := settings.config[fuelType];
    nozzles := [];
    var prefix := NozzlePrefix(fuelType);
    var i := 1;
    while i <= config.nozzleCount
      invariant 1 <= i <= Times(config.nozzleCount) + 1
      invariant |nozzles| == i - 1
      invariant forall k :: 0 <= k < |nozzles| ==>
                  nozzles[k].id == prefix + NatToString(k + 1) && nozzles[k].name == "Nozzle " + nozzles[k].id
    {
      var nozzleId := prefix + NatToString(i);
      nozzles := nozzles + [Nozzle(nozzleId, "Nozzle " + nozzleId)];
      i := i + 1;
    }
  }

  /** The ids of every fuel type in `names`, type after type. */
  function AllNozzleIds(names: seq<string>, config: map<string, FS.FuelConfig>): seq<string>
    requires forall i :: 0 <= i < |names| ==> names[i] in config
  {
    if names == [] then []
    else NozzleIds(names[0], config[names[0]].nozzleCount) + AllNozzleIds(names[1..], config)
  }

  /** The number of nozzles the catalogue declares. */
  function TotalNozzles(names: seq<string>, config: map<string, FS.FuelConfig>): nat
    requires forall i :: 0 <= i < |names| ==> names[i] in config
  {
    if names == [] then 0 else Times(config[names[0]].nozzleCount) + TotalNozzles(names[1..], config)
  }

  /** There is one id per declared nozzle. */
  lemma {:induction false} AllNozzleIdsLength(names: seq<string>, config: map<string, FS.FuelConfig>)
    requires forall i :: 0 <= i < |names| ==> names[i] in config
    ensures |AllNozzleIds(names, config)| == TotalNozzles(names, config)
  {
    if names != [] {
      AllNozzleIdsLength(names[1..], config);
    }
  }

  lemma {:induction false} AllNozzleIdsSnoc(names: seq<string>, n: string, config: map<string, FS.FuelConfig>)
    requires forall i :: 0 <= i < |names| ==> names[i] in config
    requires n in config
    ensures AllNozzleIds(names + [n], config) == AllNozzleIds(names, config) + NozzleIds(n, config[n].nozzleCount)
  {
    if names == [] {
      assert names + [n] == [n] && [n][1..] == [];
    } else {
      var rest := names[1..];
      assert names + [n] == [names[0]] + (rest + [n]);
      AllNozzleIdsSnoc(rest, n, config);
    }
  }

  /** `generateNozzles`: every nozzle id of the catalogue, fuel type by fuel type in catalogue order. */
  method GenerateNozzles(settings: FS.Settings) returns (allNozzles: seq<string>)
    requires settings.Valid()
    ensures allNozzles == AllNozzleIds(settings.order, settings.config)
    ensures |allNozzles| == TotalNozzles(settings.order, settings.config)
  {
    var order, config := settings.order, settings.config;
    allNozzles := [];
    var j := 0;
    while j < |order|
      invariant 0 <= j <= |order|
      invariant allNozzles == AllNozzleIds(order[..j], config)
    {
      var fuelType := order[j];
      var count := config[fuelType].nozzleCount;
      var prefix := NozzlePrefix(fuelType);
      ghost var before := allNozzles;
      var i := 1;
      while i <= count
        invariant 1 <= i <= Times(count) + 1
        invariant allNozzles == before + NozzleIds(fuelType, count)[..i - 1]
      {
        NozzleIdsStep(fuelType, count, i);
        allNozzles := allNozzles + [prefix + NatToString(i)];
        i := i + 1;
      }
      assert NozzleIds(fuelType, count)[..i - 1] == NozzleIds(fuelType, count);
      assert order[..j + 1] == order[..j] + [fuelType];
      AllNozzleIdsSnoc(order[..j], fuelType, config);
      j := j + 1;
    }
    assert order[..j] == order;
    AllNozzleIdsLength(order, config);
  }

  /** The first `i` ids are the first `i - 1` followed by the `i`-th. */
  lemma NozzleIdsStep(fuelType: string, count: int, i: int)
    requires 1 <= i <= count
    ensures NozzleIds(fuelType, count)[..i] == NozzleIds(fuelType, count)[..i - 1] + [NozzlePrefix(fuelType) + NatToString(i)]
  {
    var ids := NozzleIds(fuelType, count);
    assert ids[..i] == ids[..i - 1] + [ids[i - 1]];
  }

  /** The default catalogue gives the nozzles P1-P3, D1-D2, C1-C2 and PR1. */
  lemma DefaultNozzles()
    ensures AllNozzleIds(FS.Defaults.order, FS.Defaults.config)
         == ["P1", "P2", "P3", "D1", "D2", "C1", "C2", "PR1"]
  {
    var config := FS.Defaults.config;
    assert config["Petrol"].nozzleCount == 3 && config["Diesel"].nozzleCount == 2;
    assert config["CNG"].nozzleCount == 2 && config["Premium"].nozzleCount == 1;
    AllNozzleIdsOfFour("Petrol", "Diesel", "CNG", "Premium", config);
    DefaultIdsPerFuel();
  }

  /** The ids of a four-name catalogue, name by name. */
  lemma AllNozzleIdsOfFour(a: string, b: string, c: string, d: string, config: map<string, FS.FuelConfig>)
    requires a in config && b in config && c in config && d in config
    ensures AllNozzleIds([a, b, c, d], config)
         == NozzleIds(a, config[a].nozzleCount) + (NozzleIds(b, config[b].nozzleCount)
          + (NozzleIds(c, config[c].nozzleCount) + NozzleIds(d, config[d].nozzleCount)))
  {
    var o := [a, b, c, d];
    assert o[1..] == [b, c, d] && o[1..][1..] == [c, d] && o[1..][1..][1..] == [d];
    assert o[1..][1..][1..][1..] == [];
    var ia, ib, ic, id := NozzleIds(a, config[a].nozzleCount), NozzleIds(b, config[b].nozzleCount),
                          NozzleIds(c, config[c].nozzleCount), NozzleIds(d, config[d].nozzleCount);
    assert AllNozzleIds([d], config) == id;
    assert AllNozzleIds([c, d], config) == ic + id;
    assert AllNozzleIds([b, c, d], config) == ib + (ic + id);
  }

  /** The ids of each default fuel type with its default nozzle count. */
  lemma DefaultIdsPerFuel()
    ensures NozzleIds("Petrol", 3) == ["P1", "P2", "P3"] && NozzleIds("Diesel", 2) == ["D1", "D2"]
    ensures NozzleIds("CNG", 2) == ["C1", "C2"] && NozzleIds("Premium", 1) == ["PR1"]
  {
    InitialPrefix("Petrol", 'P');
    InitialPrefix("Diesel", 'D');
    InitialPrefix("CNG", 'C');
    PremiumPrefix();
    FirstIds("Petrol", 3);
    FirstIds("Diesel", 2);
    FirstIds("CNG", 2);
    FirstIds("Premium", 1);
    assert ['P'] + "1" == "P1" && ['P'] + "2" == "P2" && ['P'] + "3" == "P3";
    assert ['D'] + "1" == "D1" && ['D'] + "2" == "D2" && ['C'] + "1" == "C1" && ['C'] + "2" == "C2";
    assert "PR" + "1" == "PR1";
  }

  /** A name other than power or premium that starts with a capital letter takes that letter. */
  lemma InitialPrefix(t: string, c: char)
    requires |t| > 0 && |t| != 5 && |t| != 7 && t[0] == c && 'A' <= c <= 'Z'
    ensures NozzlePrefix(t) == [c]
  {
    PlainPrefix(t);
  }

  /** The first three ids of a fuel type, for up to three nozzles. */
  lemma FirstIds(t: string, count: int)
    requires 1 <= count <= 3
    ensures var p, ids := NozzlePrefix(t), NozzleIds(t, count);
            |ids| == count && ids[0] == p + "1" && (count >= 2 ==> ids[1] == p + "2") && (count >= 3 ==> ids[2] == p + "3")
  {
    NatToStringSmall();
  }

  /** The numbers of the first three nozzles. */
  lemma NatToStringSmall()
    ensures NatToString(1) == "1" && NatToString(2) == "2" && NatToString(3) == "3"
  {
  }

  /** A name of any length but five or seven can be neither "power" nor "premium": it takes its initial. */
  lemma PlainPrefix(t: string)
    requires |t| > 0 && |t| != 5 && |t| != 7
    ensures NozzlePrefix(t) == [ToUpperChar(t[0])]
  {
    assert |ToLower(t)| == |t|;
  }

  /** The default premium fuel takes the two-letter prefix. */
  lemma PremiumPrefix()
    ensures NozzlePrefix("Premium") == "PR"
  {
    var l := ToLower("Premium");
    assert l[0] == 'p' && l[1] == 'r' && l[2] == 'e' && l[3] == 'm' && l[4] == 'i' && l[5] == 'u' && l[6] == 'm';
    assert l == "premium";
  }

  /** Two fuel types with the same initial share nozzle ids: Petrol and Propane both have "P1". */
  lemma SharedInitialSharesIds()
    ensures NozzleIds("Petrol", 1) == NozzleIds("Propane", 1) == ["P1"]
  {
    assert ToLower("Propane")[2] == 'o';
    PlainPrefix("Petrol");
    assert NozzlePrefix("Propane") == "P";
    NatToStringSmall();
    assert "Petrol"[0] == 'P';
    var a, b := NozzleIds("Petrol", 1), NozzleIds("Propane", 1);
    assert a[0] == "P1" && b[0] == "P1";
  }

  // ---------------------------------------------------------------- the form

  /** The entry form. Number inputs are None while empty; `saleType` is the form's `type`. */
  datatype SaleForm = SaleForm(
    nozzle: string, fuelType: string,
    startReading: Option<real>, endReading: Option<real>, rate: Option<real>,
    saleType: string)

  const BlankForm: SaleForm := SaleForm("", "", None, None, None, "cash")

  /** The litres and amount shown under the form, both rounded to two decimals. */
  datatype Calculation = Calculation(liters: real, amount: real)

  /**
   * `calculateSale`: nothing until both readings and the rate are filled in;
   * then the litres dispensed and their price, each to the nearest hundredth.
   * The amount is rounded from the unrounded litres.
   */
  function CalculateSale(form: SaleForm): (c: Option<Calculation>)
    ensures c.None? <==> form.startReading.None? || form.endReading.None? || form.rate.None?
    ensures c.Some? ==>
              var liters := form.endReading.value - form.startReading.value;
              && IsCents(c.value.liters) && -0.005 <= c.value.liters - liters <= 0.005
              && IsCents(c.value.amount) && -0.005 <= c.value.amount - liters * form.rate.value <= 0.005
  {
    if form.startReading.None? || form.endReading.None? || form.rate.None? then None
    else
      var liters := form.endReading.value - form.startReading.value;
      Some(Calculation(Round2(liters), Round2(Cost(liters, form.rate.value))))
  }

  /** The price of `liters` litres at `rate` per litre. */
  function Cost(liters: real, rate: real): real {
    liters * rate
  }

  datatype SaleError = MissingInformation | InvalidReading

  datatype Checked = Accepted(record: SaleRecord) | Rejected(error: SaleError)

  /** A stored sale whose litres and amount were derived from its readings and rate. */
  predicate Derived(r: SaleRecord) {
    && r.endReading > r.startReading
    && r.liters > 0.0
    && r.liters == Round2(r.endReading - r.startReading)
    && r.amount == Round2(Cost(r.endReading - r.startReading, r.rate))
  }

  /**
   * The checks and the record of `handleSubmit`. Every field must be filled in,
   * and the litres must be positive once rounded, that is the end reading must
   * exceed the start by at least half a hundredth; otherwise the record carries
   * the form's fields, the given id and day, and the derived litres and amount.
   */
  function CheckSale(form: SaleForm, id: int, date: Date): (c: Checked)
    ensures c == Rejected(MissingInformation) <==>
              form.nozzle == "" || form.fuelType == "" ||
              form.startReading.None? || form.endReading.None? || form.rate.None?
    ensures c == Rejected(InvalidReading) <==>
              && form.nozzle != "" && form.fuelType != ""
              && form.startReading.Some? && form.endReading.Some? && form.rate.Some?
              && form.endReading.value - form.startReading.value < 0.005
    ensures c.Accepted? ==>
              && Derived(c.record)
              && c.record.id == id && c.record.date == date
              && c.record.nozzle == form.nozzle && c.record.fuelType == form.fuelType
              && c.record.saleType == form.saleType
              && form.startReading == Some(c.record.startReading)
              && form.endReading == Some(c.record.endReading)
              && form.rate == Some(c.record.rate)
  {
    if form.nozzle == "" || form.fuelType == "" ||
       form.startReading.None? || form.endReading.None? || form.rate.None? then
      Rejected(MissingInformation)
    else
      var liters := form.endReading.value - form.startReading.value;
      var calculation := CalculateSale(form).value;
      Round2Positive(form.endReading.value - form.startReading.value);
      if calculation.liters <= 0.0 then Rejected(InvalidReading)
      else Accepted(SaleRecord(
        id, date, form.nozzle, form.fuelType,
        form.startReading.value, form.endReading.value, form.rate.value,
        calculation.liters, calculation.amount, form.saleType))
  }

  /** An accepted sale always has its end reading above its start reading; equal readings are refused. */
  lemma AcceptedMeansEndAboveStart(form: SaleForm, id: int, date: Date)
    ensures CheckSale(form, id, date).Accepted? ==>
              form.endReading.value > form.startReading.value
    ensures form.startReading.Some? && form.endReading.Some? &&
            form.endReading.value <= form.startReading.value ==>
              CheckSale(form, id, date).Rejected?
  {
  }

  /**
   * The stored amount is rounded from the unrounded litres, so it need not be
   * the stored litres times the rate: 0.125 litres at 100 are stored as 0.13
   * litres and an amount of 12.50, not 13.00.
   */
  lemma AmountNotStoredLitersTimesRate()
    ensures var c := CheckSale(SaleForm("P1", "Petrol", Some(0.0), Some(0.125), Some(100.0), "cash"), 1, "2024-01-15");
            && c.Accepted? && c.record.liters == 0.13 && c.record.amount == 12.5
            && c.record.amount != c.record.liters * c.record.rate
  {
    assert (0.125 * 100.0 + 0.5).Floor == 13;
    assert (0.125 * 100.0 * 100.0 + 0.5).Floor == 1250;
  }

  /** `editSale`: the form refilled from a stored record. */
  function FormOf(sale: SaleRecord): (f: SaleForm)
    ensures f.nozzle == sale.nozzle && f.fuelType == sale.fuelType && f.saleType == sale.saleType
    ensures f.startReading == Some(sale.startReading) && f.endReading == Some(sale.endReading)
    ensures f.rate == Some(sale.rate)
  {
    SaleForm(sale.nozzle, sale.fuelType, Some(sale.startReading), Some(sale.endReading), Some(sale.rate), sale.saleType)
  }

  /** Opening an accepted sale for editing and submitting it unchanged gives back the same record. */
  lemma EditRoundTrip(form: SaleForm, id: int, date: Date)
    requires CheckSale(form, id, date).Accepted?
    ensures CheckSale(FormOf(CheckSale(form, id, date).record), id, date) == CheckSale(form, id, date)
  {
    var r := CheckSale(form, id, date).record;
    assert FormOf(r) == form;
  }

  // ---------------------------------------------------------------- list edits

  /** `prev.map(sale => sale.id === id ? r : sale)`. */
  function ReplaceById(xs: seq<SaleRecord>, id: int, r: SaleRecord): (ys: seq<SaleRecord>)
    ensures |ys| == |xs|
    ensures forall i :: 0 <= i < |xs| ==> ys[i] == if xs[i].id == id then r else xs[i]
  {
    if xs == [] then [] else [if xs[0].id == id then r else xs[0]] + ReplaceById(xs[1..], id, r)
  }

  /** `prev.filter(sale => sale.id !== id)`. */
  function RemoveById(xs: seq<SaleRecord>, id: int): (ys: seq<SaleRecord>)
    ensures |ys| <= |xs|
    ensures forall i :: 0 <= i < |ys| ==> ys[i].id != id && ys[i] in xs
  {
    if xs == [] then [] else (if xs[0].id == id then [] else [xs[0]]) + RemoveById(xs[1..], id)
  }

  /** Deleting removes every record with the id, and only those, each as often as it occurred. */
  lemma {:induction false} RemoveByIdMultiset(xs: seq<SaleRecord>, id: int)
    ensures forall x :: multiset(RemoveById(xs, id))[x] == if x.id == id then 0 else multiset(xs)[x]
  {
    if xs != [] {
      RemoveByIdMultiset(xs[1..], id);
      assert xs == [xs[0]] + xs[1..];
    }
  }

  /** Deleting keeps the remaining records in their order: it distributes over concatenation. */
  lemma {:induction false} RemoveByIdConcat(a: seq<SaleRecord>, b: seq<SaleRecord>, id: int)
    ensures RemoveById(a + b, id) == RemoveById(a, id) + RemoveById(b, id)
  {
    if a == [] {
      assert a + b == b;
    } else {
      assert (a + b)[0] == a[0] && (a + b)[1..] == a[1..] + b;
      RemoveByIdConcat(a[1..], b, id);
    }
  }

  /** Deleting an id nothing carries changes nothing. */
  lemma {:induction false} RemoveAbsentId(xs: seq<SaleRecord>, id: int)
    requires forall i :: 0 <= i < |xs| ==> xs[i].id != id
    ensures RemoveById(xs, id) == xs
  {
    if xs != [] {
      RemoveAbsentId(xs[1..], id);
    }
  }

  predicate AllDerived(xs: seq<SaleRecord>) {
    forall i :: 0 <= i < |xs| ==> Derived(xs[i])
  }

  // ---------------------------------------------------------------- the screen

  datatype SubmitOutcome = Added | Updated | Refused(error: SaleError)

  /** The sale-entry screen's state: the form, the record being edited and the sales list. */
  class SalesScreen {
    var formData: SaleForm
    var editingId: Option<int>
    var salesData: seq<SaleRecord>

    constructor (salesData: seq<SaleRecord>)
      ensures formData == BlankForm && editingId == None && this.salesData == salesData
    {
      formData := BlankForm;
      editingId := None;
      this.salesData := salesData;
    }

    /** `if (editingId)`: an id of 0 counts as not editing, as in JavaScript. */
    predicate Editing()
      reads this
    {
      editingId.Some? && editingId.value != 0
    }

    /** `handleFuelChange`: pick the fuel type, clear the nozzle, take the catalogue price as rate. */
    method HandleFuelChange(settings: FS.Settings, fuelType: string)
      modifies this
      ensures formData == old(formData).(fuelType := fuelType, nozzle := "",
                rate := if fuelType in settings.config then Some(settings.config[fuelType].price) else None)
      ensures editingId == old(editingId) && salesData == old(salesData)
    {
      var rate := if fuelType in settings.config then Some(settings.config[fuelType].price) else None;
      formData := formData.(fuelType := fuelType, nozzle := "", rate := rate);
    }

    /** The nozzle picker: only the nozzle changes. */
    method SetNozzle(nozzle: string)
      modifies this
      ensures formData == old(formData).(nozzle := nozzle)
      ensures editingId == old(editingId) && salesData == old(salesData)
    {
      formData := formData.(nozzle := nozzle);
    }

    /** The start-reading box: only the start reading changes. */
    method SetStartReading(reading: Option<real>)
      modifies this
      ensures formData == old(formData).(startReading := reading)
      ensures editingId == old(editingId) && salesData == old(salesData)
    {
      formData := formData.(startReading := reading);
    }

    /** The end-reading box: only the end reading changes. */
    method SetEndReading(reading: Option<real>)
      modifies this
      ensures formData == old(formData).(endReading := reading)
      ensures editingId == old(editingId) && salesData == old(salesData)
    {
      formData := formData.(endReading := reading);
    }

    /** The rate box: only the rate changes. */
    method SetRate(rate: Option<real>)
      modifies this
      ensures formData == old(formData).(rate := rate)
      ensures editingId == old(editingId) && salesData == old(salesData)
    {
      formData := formData.(rate := rate);
    }

    /** `resetForm`: a blank cash form, and nothing being edited. */
    method ResetForm()
      modifies this
      ensures formData == BlankForm && editingId == None && salesData == old(salesData)
    {
      formData := BlankForm;
      editingId := None;
    }

    /** `editSale`: load a record into the form and remember its id. */
    method EditSale(sale: SaleRecord)
      modifies this
      ensures formData == FormOf(sale) && editingId == Some(sale.id) && salesData == old(salesData)
    {
      formData := FormOf(sale);
      editingId := Some(sale.id);
    }

    /** `deleteSale`: drop every record with that id. The record being edited, if any, stays marked. */
    method DeleteSale(id: int)
      modifies this
      ensures salesData == RemoveById(old(salesData), id)
      ensures formData == old(formData) && editingId == old(editingId)
      ensures AllDerived(old(salesData)) ==> AllDerived(salesData)
    {
      salesData := RemoveById(salesData, id);
    }

    /**
     * `handleSubmit`: a refused form changes nothing; an accepted one replaces
     * the records carrying the edited id (keeping that id) or, when nothing is
     * being edited, goes to the front of the list with the id `now`; the form
     * is then reset. A list of derived records stays one.
     */
    method HandleSubmit(selectedDate: Date, now: int) returns (outcome: SubmitOutcome)
      modifies this
      ensures var id := if old(Editing()) then old(editingId).value else now;
              var c := CheckSale(old(formData), id, selectedDate);
              if c.Rejected? then
                outcome == Refused(c.error) &&
                formData == old(formData) && editingId == old(editingId) && salesData == old(salesData)
              else
                && formData == BlankForm && editingId == None
                && (old(Editing()) ==> outcome == Updated && salesData == ReplaceById(old(salesData), id, c.record))
                && (!old(Editing()) ==> outcome == Added && salesData == [c.record] + old(salesData))
      ensures AllDerived(old(salesData)) ==> AllDerived(salesData)
    {
      var id := if Editing() then editingId.value else now;
      var c := CheckSale(formData, id, selectedDate);
      if c.Rejected? {
        return Refused(c.error);
      }
      if Editing() {
        salesData := ReplaceById(salesData, id, c.record);
        editingId := None;
        outcome := Updated;
      } else {
        salesData := [c.record] + salesData;
        outcome := Added;
      }
      ResetForm();
    }
  }

  /**
   * Deleting the record that is open for editing and then submitting the edit
   * loses it: the update replaces nothing and adds nothing.
   */
  lemma UpdateAfterDeleteIsLost(xs: seq<SaleRecord>, id: int, r: SaleRecord)
    ensures ReplaceById(RemoveById(xs, id), id, r) == RemoveById(xs, id)
  {
    var ys := RemoveById(xs, id);
    assert forall i :: 0 <= i < |ys| ==> ys[i].id != id;
  }

  /** Replacing by id keeps the list's length and, for a record with that id, the id itself. */
  lemma ReplaceKeepsIds(xs: seq<SaleRecord>, id: int, r: SaleRecord)
    requires r.id == id
    ensures forall i :: 0 <= i < |xs| ==> ReplaceById(xs, id, r)[i].id == xs[i].id
  {
  }
}
