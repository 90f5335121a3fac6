/**
 * The fuel catalogue `fuelSettings`: a JavaScript object from fuel-type name to
 * `{ price, nozzleCount }`. Object keys keep insertion order, so the model keeps
 * the names in `order` next to the map `config`. Overwriting a key keeps its
 * place, a new key goes last, `delete` drops it from both.
 */
module FuelSettings {

  datatype FuelConfig = FuelConfig(price: real, nozzleCount: int)

  datatype Settings = Settings(order: seq<string>, config: map<string, FuelConfig>) {

    /** The names are listed once each, and exactly the keys of the map are listed. */
    predicate Valid() {
      && (forall i, j :: 0 <= i < j < |order| ==> order[i] != order[j])
      && (forall i :: 0 <= i < |order| ==> order[i] in config)
      && |order| == |config|
    }

    /** Every price is positive and every nozzle count lies in [1, 10]. */
    predicate Sane() {
      forall n :: n in config ==> config[n].price > 0.0 && 1 <= config[n].nozzleCount <= 10
    }
  }

  /** The four fuel types the station starts with and is reset to. */
  const Defaults: Settings := Settings(
    ["Petrol", "Diesel", "CNG", "Premium"],
    map["Petrol" := FuelConfig(102.50, 3),
        "Diesel" := FuelConfig(89.75, 2),
        "CNG" := FuelConfig(75.20, 2),
        "Premium" := FuelConfig(108.90, 1)])

  lemma DefaultsValid()
    ensures Defaults.Valid() && Defaults.Sane()
  {
    assert Defaults.config.Keys == {"Petrol", "Diesel", "CNG", "Premium"};
  }

  /** Listed names are exactly the keys of a valid catalogue. */
  lemma KeysListed(s: Settings, n: string)
    requires s.Valid()
    ensures n in s.config <==> n in s.order
  {
    if n in s.config && n !in s.order {
      var listed := set i | 0 <= i < |s.order| :: s.order[i];
      assert listed <= s.config.Keys - {n};
      DistinctSize(s.order);
      assert |s.config.Keys - {n}| < |s.config|;
      SubsetSize(listed, s.config.Keys - {n});
    }
  }

  lemma {:induction false} DistinctSize(xs: seq<string>)
    requires forall i, j :: 0 <= i < j < |xs| ==> xs[i] != xs[j]
    ensures |set i | 0 <= i < |xs| :: xs[i]| == |xs|
  {
    if xs != [] {
      var init := xs[..|xs| - 1];
      DistinctSize(init);
      var a := set i | 0 <= i < |init| :: init[i];
      var b := set i | 0 <= i < |xs| :: xs[i];
      assert b == a + {xs[|xs| - 1]};
      assert xs[|xs| - 1] !in a;
    }
  }

  lemma SubsetSize(a: set<string>, b: set<string>)
    requires a <= b
    ensures |a| <= |b|
  {
    assert b == a + (b - a);
  }

  /** `order` with every occurrence of `n` removed. */
  function Without(xs: seq<string>, n: string): seq<string> {
    if xs == [] then [] else (if xs[0] == n then [] else [xs[0]]) + Without(xs[1..], n)
  }

  /** What is left is every other name of the list, and only those. */
  lemma {:induction false} WithoutElements(xs: seq<string>, n: string)
    ensures forall i :: 0 <= i < |Without(xs, n)| ==> Without(xs, n)[i] != n && Without(xs, n)[i] in xs
    ensures forall i :: 0 <= i < |xs| && xs[i] != n ==> xs[i] in Without(xs, n)
  {
    if xs != [] {
      WithoutElements(xs[1..], n);
      assert xs == [xs[0]] + xs[1..];
    }
  }

  /** Removing a name that is not listed leaves the list as it is. */
  lemma {:induction false} WithoutAbsent(xs: seq<string>, n: string)
    requires n !in xs
    ensures Without(xs, n) == xs
  {
    if xs != [] {
      WithoutAbsent(xs[1..], n);
    }
  }

  lemma {:induction false} WithoutDistinct(xs: seq<string>, n: string)
    requires forall i, j :: 0 <= i < j < |xs| ==> xs[i] != xs[j]
    ensures forall i, j :: 0 <= i < j < |Without(xs, n)| ==> Without(xs, n)[i] != Without(xs, n)[j]
    ensures n in xs ==> |Without(xs, n)| == |xs| - 1
    ensures n !in xs ==> |Without(xs, n)| == |xs|
  {
    if xs != [] {
      WithoutDistinct(xs[1..], n);
      WithoutElements(xs[1..], n);
      if xs[0] == n {
        WithoutAbsent(xs[1..], n);
      }
    }
  }

  /** `{ ...prev, [n]: c }`: set an entry, keeping its place or appending it. */
  function Put(s: Settings, n: string, c: FuelConfig): (r: Settings)
    requires s.Valid()
    ensures r.Valid()
    ensures r.config == s.config[n := c]
    ensures n in s.config ==> r.order == s.order
    ensures n !in s.config ==> r.order == s.order + [n]
  {
    KeysListed(s, n);
    if n in s.config then Settings(s.order, s.config[n := c])
    else Settings(s.order + [n], s.config[n := c])
  }

  /** `delete copy[n]` on a copy of the catalogue. */
  function Delete(s: Settings, n: string): (r: Settings)
    requires s.Valid()
    ensures r.Valid()
    ensures r.config == s.config - {n}
    ensures forall i :: 0 <= i < |r.order| ==> r.order[i] != n
    ensures n !in s.config ==> r.order == s.order
    ensures n in s.config ==>
              exists k :: 0 <= k < |s.order| && s.order[k] == n && r.order == s.order[..k] + s.order[k + 1..]
  {
    KeysListed(s, n);
    WithoutDistinct(s.order, n);
    WithoutElements(s.order, n);
    DeleteKeepsOrder(s, n);
    var r := Settings(Without(s.order, n), s.config - {n});
    assert forall i :: 0 <= i < |r.order| ==> r.order[i] in r.config;
    r
  }

  /** The other names keep their order: a listed name is cut out where it stands, an unlisted one changes nothing. */
  lemma DeleteKeepsOrder(s: Settings, n: string)
    requires s.Valid()
    ensures n !in s.config ==> Without(s.order, n) == s.order
    ensures n in s.config ==>
              exists k :: 0 <= k < |s.order| && s.order[k] == n && Without(s.order, n) == s.order[..k] + s.order[k + 1..]
  {
    KeysListed(s, n);
    if n in s.config {
      var k :| 0 <= k < |s.order| && s.order[k] == n;
      var before, after := s.order[..k], s.order[k + 1..];
      assert n !in before && n !in after;
      assert s.order == before + [n] + after;
      WithoutSplice(before, n, after);
    } else {
      WithoutAbsent(s.order, n);
    }
  }

  /** Removing a name that occurs once, between `a` and `b`, leaves `a` followed by `b`. */
  lemma WithoutSplice(a: seq<string>, n: string, b: seq<string>)
    requires n !in a && n !in b
    ensures Without(a + [n] + b, n) == a + b
  {
    var single := [n];
    assert Without(single, n) == [] by { assert single[1..] == []; }
    WithoutAbsent(a, n);
    WithoutConcat(a, single, n);
    assert Without(a + single, n) == a;
    WithoutAbsent(b, n);
    WithoutConcat(a + single, b, n);
  }

  /** Removal works piecewise: it distributes over concatenation. */
  lemma {:induction false} WithoutConcat(a: seq<string>, b: seq<string>, n: string)
    ensures Without(a + b, n) == Without(a, n) + Without(b, n)
  {
    if a == [] {
      assert a + b == b;
    } else {
      assert (a + b)[0] == a[0] && (a + b)[1..] == a[1..] + b;
      WithoutConcat(a[1..], b, n);
    }
  }

  /** Adding a new entry and deleting it again restores the catalogue. */
  lemma DeleteUndoesPut(s: Settings, n: string, c: FuelConfig)
    requires s.Valid() && n !in s.config
    ensures Delete(Put(s, n, c), n) == s
  {
    KeysListed(s, n);
    var p := Put(s, n, c);
    assert p.order == s.order + [n];
    WithoutAppend(s.order, n);
    assert (s.config[n := c]) - {n} == s.config;
  }

  lemma {:induction false} WithoutAppend(xs: seq<string>, n: string)
    requires n !in xs
    ensures Without(xs + [n], n) == xs
  {
    if xs == [] {
      assert [n][1..] == [];
    } else {
      assert (xs + [n])[1..] == xs[1..] + [n];
      WithoutAppend(xs[1..], n);
    }
  }
}
