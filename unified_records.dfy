/**
 * The "All Records" card: the day's sales, credit sales, income and expenses,
 * their total count, and the groups the card shows for them.
 */
module UnifiedRecords {
  import opened Ledger

  /** How many records of `xs` belong to day `d`, counted on the unfiltered list. */
  function CountOnDate<T>(xs: seq<T>, dateOf: T -> Date, d: Date): nat {
    if xs == [] then 0
    else (if dateOf(xs[0]) == d then 1 else 0) + CountOnDate(xs[1..], dateOf, d)
  }

  /** The filtered list has one entry per record of the day. */
  lemma {:induction false} OnDateLength<T>(xs: seq<T>, dateOf: T -> Date, d: Date)
    ensures |OnDate(xs, dateOf, d)| == CountOnDate(xs, dateOf, d)
  {
    if xs != [] {
      OnDateLength(xs[1..], dateOf, d);
    }
  }

  /** The four lists of the ledger, as the card receives them. */
  datatype Ledgers = Ledgers(
    sales: seq<SaleRecord>, credits: seq<CreditRecord>,
    income: seq<MoneyRecord>, expenses: seq<MoneyRecord>)

  /** `totalRecords`: the lengths of the four filtered lists added up. */
  function TotalRecords(l: Ledgers, d: Date): (n: nat)
    ensures n == CountOnDate(l.sales, SaleDate, d) + CountOnDate(l.credits, CreditDate, d)
               + CountOnDate(l.income, MoneyDate, d) + CountOnDate(l.expenses, MoneyDate, d)
  {
    OnDateLength(l.sales, SaleDate, d);
    OnDateLength(l.credits, CreditDate, d);
    OnDateLength(l.income, MoneyDate, d);
    OnDateLength(l.expenses, MoneyDate, d);
    |OnDate(l.sales, SaleDate, d)| + |OnDate(l.credits, CreditDate, d)|
      + |OnDate(l.income, MoneyDate, d)| + |OnDate(l.expenses, MoneyDate, d)|
  }

  /** The four groups in the order the card draws them. */
  datatype Kind = FuelSales | CreditSales | Income | Expenses

  function Rank(k: Kind): nat {
    match k
    case FuelSales => 0
    case CreditSales => 1
    case Income => 2
    case Expenses => 3
  }

  /** A drawn group: its heading and the number of records under it. */
  datatype Group = Group(kind: Kind, count: nat)

  /** What the card shows: the empty-day message, or the groups. */
  datatype View = NoRecords | Groups(groups: seq<Group>)

  /** The day's record counts, kind by kind. */
  datatype Counts = Counts(sales: nat, credits: nat, income: nat, expenses: nat) {
    function Of(k: Kind): nat {
      match k
      case FuelSales => sales
      case CreditSales => credits
      case Income => income
      case Expenses => expenses
    }
  }

  /** The lengths of the four filtered lists. */
  function DayCounts(l: Ledgers, d: Date): (c: Counts)
    ensures c.sales + c.credits + c.income + c.expenses == TotalRecords(l, d)
  {
    Counts(|OnDate(l.sales, SaleDate, d)|, |OnDate(l.credits, CreditDate, d)|,
           |OnDate(l.income, MoneyDate, d)|, |OnDate(l.expenses, MoneyDate, d)|)
  }

  /** `RecordGroup`: nothing for an empty list, otherwise a heading with the count. */
  function RecordGroup(kind: Kind, count: nat): (g: seq<Group>)
    ensures count == 0 <==> g == []
    ensures g != [] ==> g == [Group(kind, count)]
  {
    if count == 0 then [] else [Group(kind, count)]
  }

  /** The sum of the counts under the groups. */
  function GroupTotal(gs: seq<Group>): nat {
    if gs == [] then 0 else gs[0].count + GroupTotal(gs[1..])
  }

  lemma {:induction false} GroupTotalConcat(a: seq<Group>, b: seq<Group>)
    ensures GroupTotal(a + b) == GroupTotal(a) + GroupTotal(b)
  {
    if a == [] {
      assert a + b == b;
    } else {
      assert (a + b)[1..] == a[1..] + b;
      GroupTotalConcat(a[1..], b);
    }
  }

  /** The kinds in drawing order. */
  const Kinds: seq<Kind> := [FuelSales, CreditSales, Income, Expenses]

  predicate Increasing(ks: seq<Kind>) {
    forall i, j :: 0 <= i < j < |ks| ==> Rank(ks[i]) < Rank(ks[j])
  }

  function KindsTotal(c: Counts, ks: seq<Kind>): nat {
    if ks == [] then 0 else c.Of(ks[0]) + KindsTotal(c, ks[1..])
  }

  /**
   * The `RecordGroup`s of the kinds `ks`, one after the other: a group for
   * each kind with records, carrying its count, none for the others, and
   * together holding all of their records.
   */
  function Drawn(c: Counts, ks: seq<Kind>): (gs: seq<Group>)
    ensures forall i :: 0 <= i < |gs| ==> gs[i].count == c.Of(gs[i].kind) > 0
    ensures GroupTotal(gs) == KindsTotal(c, ks)
  {
    if ks == [] then []
    else
      var head, rest := RecordGroup(ks[0], c.Of(ks[0])), Drawn(c, ks[1..]);
      GroupTotalConcat(head, rest);
      head + rest
  }

  /** Every group is of one of the kinds asked for. */
  lemma {:induction false} DrawnKinds(c: Counts, ks: seq<Kind>)
    ensures forall i :: 0 <= i < |Drawn(c, ks)| ==> Drawn(c, ks)[i].kind in ks
  {
    if ks != [] {
      DrawnKinds(c, ks[1..]);
      var head, rest := RecordGroup(ks[0], c.Of(ks[0])), Drawn(c, ks[1..]);
      var gs := Drawn(c, ks);
      assert gs == head + rest;
      forall i | 0 <= i < |gs|
        ensures gs[i].kind in ks
      {
        if i >= |head| {
          assert gs[i] == rest[i - |head|];
          assert rest[i - |head|].kind in ks[1..];
        }
      }
    }
  }

  /** Every kind asked for that has records gets a group. */
  lemma {:induction false} DrawnCovers(c: Counts, ks: seq<Kind>, k: Kind)
    requires k in ks && c.Of(k) > 0
    ensures exists i :: 0 <= i < |Drawn(c, ks)| && Drawn(c, ks)[i].kind == k
  {
    var head, rest := RecordGroup(ks[0], c.Of(ks[0])), Drawn(c, ks[1..]);
    var gs := Drawn(c, ks);
    assert gs == head + rest;
    if k == ks[0] {
      assert gs[0].kind == k;
    } else {
      assert k in ks[1..];
      DrawnCovers(c, ks[1..], k);
      var i :| 0 <= i < |rest| && rest[i].kind == k;
      assert gs[i + |head|].kind == k;
    }
  }

  /** The groups keep the order of the kinds. */
  lemma {:induction false} DrawnInOrder(c: Counts, ks: seq<Kind>)
    requires Increasing(ks)
    ensures forall i, j :: 0 <= i < j < |Drawn(c, ks)| ==> Rank(Drawn(c, ks)[i].kind) < Rank(Drawn(c, ks)[j].kind)
  {
    if ks != [] {
      DrawnInOrder(c, ks[1..]);
      DrawnKinds(c, ks[1..]);
      var head, rest := RecordGroup(ks[0], c.Of(ks[0])), Drawn(c, ks[1..]);
      var gs := Drawn(c, ks);
      assert gs == head + rest;
      forall i, j | 0 <= i < j < |gs|
        ensures Rank(gs[i].kind) < Rank(gs[j].kind)
      {
        assert gs[j] == rest[j - |head|];
        if i < |head| {
          assert gs[i].kind == ks[0];
          var m :| 0 <= m < |ks[1..]| && ks[1..][m] == rest[j - |head|].kind;
          assert ks[m + 1] == gs[j].kind;
        } else {
          assert gs[i] == rest[i - |head|];
        }
      }
    }
  }

  /**
   * The card's body: the empty-day message exactly when the day has no
   * records; otherwise one group per non-empty kind, in the order fuel sales,
   * credit sales, income, expenses, each with its day count, and together
   * holding every record of the day.
   */
  function Render(l: Ledgers, d: Date): (v: View)
    ensures v == NoRecords <==> TotalRecords(l, d) == 0
    ensures v.Groups? ==>
              && (forall i :: 0 <= i < |v.groups| ==> v.groups[i].count == DayCounts(l, d).Of(v.groups[i].kind) > 0)
              && (forall i, j :: 0 <= i < j < |v.groups| ==> Rank(v.groups[i].kind) < Rank(v.groups[j].kind))
              && (forall k :: DayCounts(l, d).Of(k) > 0 <==> exists i :: 0 <= i < |v.groups| && v.groups[i].kind == k)
              && GroupTotal(v.groups) == TotalRecords(l, d)
  {
    DrawnAllKinds(DayCounts(l, d));
    if TotalRecords(l, d) == 0 then NoRecords else Groups(Drawn(DayCounts(l, d), Kinds))
  }

  /** What the groups of all four kinds hold, for any counts. */
  lemma DrawnAllKinds(c: Counts)
    ensures forall i, j :: 0 <= i < j < |Drawn(c, Kinds)| ==> Rank(Drawn(c, Kinds)[i].kind) < Rank(Drawn(c, Kinds)[j].kind)
    ensures forall k :: c.Of(k) > 0 <==> exists i :: 0 <= i < |Drawn(c, Kinds)| && Drawn(c, Kinds)[i].kind == k
    ensures GroupTotal(Drawn(c, Kinds)) == c.sales + c.credits + c.income + c.expenses
  {
    AllKindsListed();
    DrawnInOrder(c, Kinds);
    forall k | c.Of(k) > 0
      ensures exists i :: 0 <= i < |Drawn(c, Kinds)| && Drawn(c, Kinds)[i].kind == k
    {
      DrawnCovers(c, Kinds, k);
    }
    KindsTotalAll(c);
  }

  /** The counts of the four kinds added up. */
  lemma KindsTotalAll(c: Counts)
    ensures KindsTotal(c, Kinds) == c.sales + c.credits + c.income + c.expenses
  {
    assert Kinds[1..] == [CreditSales, Income, Expenses] && Kinds[1..][1..] == [Income, Expenses];
    assert Kinds[1..][1..][1..] == [Expenses] && Kinds[1..][1..][1..][1..] == [];
    assert KindsTotal(c, Kinds[1..][1..][1..]) == c.expenses;
    assert KindsTotal(c, Kinds[1..][1..]) == c.income + c.expenses;
    assert KindsTotal(c, Kinds[1..]) == c.credits + c.income + c.expenses;
  }

  lemma AllKindsListed()
    ensures forall k: Kind :: k in Kinds
    ensures Increasing(Kinds)
  {
    forall k: Kind
      ensures k in Kinds
    {
      match k
      case FuelSales => assert Kinds[0] == k;
      case CreditSales => assert Kinds[1] == k;
      case Income => assert Kinds[2] == k;
      case Expenses => assert Kinds[3] == k;
    }
  }

  /** Records of other days change neither the count nor the card. */
  lemma OtherDayRecordIgnored(l: Ledgers, d: Date, s: SaleRecord)
    requires s.date != d
    ensures TotalRecords(l.(sales := [s] + l.sales), d) == TotalRecords(l, d)
    ensures Render(l.(sales := [s] + l.sales), d) == Render(l, d)
  {
    assert ([s] + l.sales)[1..] == l.sales;
    assert DayCounts(l.(sales := [s] + l.sales), d) == DayCounts(l, d);
  }

  /** A day's first sale turns the empty-day message into a single "Fuel Sales (1)" group. */
  lemma FirstSaleOfDay(d: Date, s: SaleRecord)
    requires s.date == d
    ensures Render(Ledgers([], [], [], []), d) == NoRecords
    ensures Render(Ledgers([s], [], [], []), d) == Groups([Group(FuelSales, 1)])
  {
    var l := Ledgers([s], [], [], []);
    assert [s][1..] == [];
    assert DayCounts(l, d) == Counts(1, 0, 0, 0);
    OnlySalesDrawn();
  }

  /** One sale and nothing else draws the fuel-sales group alone. */
  lemma OnlySalesDrawn()
    ensures Drawn(Counts(1, 0, 0, 0), Kinds) == [Group(FuelSales, 1)]
  {
    var c := Counts(1, 0, 0, 0);
    assert Kinds[1..] == [CreditSales, Income, Expenses] && Kinds[1..][1..] == [Income, Expenses];
    assert Kinds[1..][1..][1..] == [Expenses] && Kinds[1..][1..][1..][1..] == [];
    assert Drawn(c, Kinds[1..][1..][1..]) == [];
    assert Drawn(c, Kinds[1..][1..]) == [];
    assert Drawn(c, Kinds[1..]) == [];
  }
}
