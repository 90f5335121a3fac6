/**
 * The single-sale calculator: a fuel type picked from the pump's price list,
 * price per litre and quantity giving the total, the amount received giving
 * the change, and completed sales kept newest first. Number boxes hold None
 * while empty. The two derived figures, `totalCost` and `changeAmount`, are
 * recomputed after every edit of the boxes they depend on.
 */
module PetrolPumpCalculator {
  import opened Wrappers

  /** An entry of the pump's price list. */
  datatype PumpFuel = PumpFuel(fuelType: string, price: real)

  /** The price list the fuel-type picker offers. */
  const PumpFuels: seq<PumpFuel> := [
    PumpFuel("Petrol", 102.50), PumpFuel("Diesel", 89.75),
    PumpFuel("CNG", 75.20), PumpFuel("Premium", 108.90)]

  /**
   * A completed sale. `pricePerLiter` is None when the price box was empty,
   * which does not stop the sale from being recorded.
   */
  datatype Transaction = Transaction(
    id: int, timestamp: string, fuelType: string, quantity: real,
    pricePerLiter: Option<real>, totalCost: real, amountReceived: real, changeAmount: real)

  /** The total: price times quantity once both boxes are filled in, otherwise 0. */
  function TotalCost(pricePerLiter: Option<real>, quantity: Option<real>): (total: real)
    ensures pricePerLiter.None? || quantity.None? ==> total == 0.0
    ensures pricePerLiter.Some? && quantity.Some? ==> total == pricePerLiter.value * quantity.value
    ensures pricePerLiter.Some? && quantity.Some? && pricePerLiter.value >= 0.0 && quantity.value >= 0.0 ==> total >= 0.0
  {
    if pricePerLiter.Some? && quantity.Some? then pricePerLiter.value * quantity.value else 0.0
  }

  /**
   * The change: what was received beyond the total, never negative, and 0
   * while nothing is received or the total is 0.
   */
  function ChangeAmount(amountReceived: Option<real>, totalCost: real): (change: real)
    ensures change >= 0.0
    ensures amountReceived.None? || totalCost == 0.0 ==> change == 0.0
    ensures amountReceived.Some? && totalCost != 0.0 && amountReceived.value >= totalCost ==>
              amountReceived.value == totalCost + change
    ensures amountReceived.Some? && amountReceived.value <= totalCost ==> change == 0.0
  {
    if amountReceived.Some? && totalCost != 0.0 then
      var change := amountReceived.value - totalCost;
      if change > 0.0 then change else 0.0
    else 0.0
  }

  /** `fuelTypes.find(fuel => fuel.type === value)`: the first entry of that type, if any. */
  function FindFuel(fuels: seq<PumpFuel>, fuelType: string): (found: Option<PumpFuel>)
    ensures found.None? <==> forall i :: 0 <= i < |fuels| ==> fuels[i].fuelType != fuelType
    ensures found.Some? ==> found.value in fuels && found.value.fuelType == fuelType
  {
    if fuels == [] then None
    else if fuels[0].fuelType == fuelType then Some(fuels[0])
    else FindFuel(fuels[1..], fuelType)
  }

  /** Of several entries of one type, the search returns the first. */
  lemma {:induction false} FindFuelFirst(fuels: seq<PumpFuel>, fuelType: string, i: int)
    requires 0 <= i < |fuels| && fuels[i].fuelType == fuelType
    requires forall j :: 0 <= j < i ==> fuels[j].fuelType != fuelType
    ensures FindFuel(fuels, fuelType) == Some(fuels[i])
  {
    if i > 0 {
      FindFuelFirst(fuels[1..], fuelType, i - 1);
    }
  }

  datatype TransactionOutcome = IncompleteInformation | InsufficientPayment | Completed

  /** The calculator's state: the form, the two derived figures and the sales so far. */
  class Calculator {
    var fuelType: string
    var pricePerLiter: Option<real>
    var quantity: Option<real>
    var totalCost: real
    var amountReceived: Option<real>
    var changeAmount: real
    var transactions: seq<Transaction>

    /** The derived figures agree with the boxes, as they do once the effects have run. */
    predicate Settled()
      reads this
    {
      totalCost == TotalCost(pricePerLiter, quantity) && changeAmount == ChangeAmount(amountReceived, totalCost)
    }

    /** An empty form; the history starts as the sales loaded on mount. */
    constructor (history: seq<Transaction>)
      ensures fuelType == "" && pricePerLiter == None && quantity == None && amountReceived == None
      ensures totalCost == 0.0 && changeAmount == 0.0 && transactions == history
      ensures Settled()
    {
      fuelType := "";
      pricePerLiter := None;
      quantity := None;
      totalCost := 0.0;
      amountReceived := None;
      changeAmount := 0.0;
      transactions := history;
    }

    /** The two effects: the total follows price and quantity, then the change follows received and total. */
    method RecomputeDerived()
      modifies this
      ensures Settled()
      ensures fuelType == old(fuelType) && pricePerLiter == old(pricePerLiter) && quantity == old(quantity)
      ensures amountReceived == old(amountReceived) && transactions == old(transactions)
    {
      totalCost := TotalCost(pricePerLiter, quantity);
      changeAmount := ChangeAmount(amountReceived, totalCost);
    }

    method SetPricePerLiter(price: Option<real>)
      modifies this
      ensures pricePerLiter == price && Settled()
      ensures fuelType == old(fuelType) && quantity == old(quantity)
      ensures amountReceived == old(amountReceived) && transactions == old(transactions)
    {
      pricePerLiter := price;
      RecomputeDerived();
    }

    method SetQuantity(q: Option<real>)
      modifies this
      ensures quantity == q && Settled()
      ensures fuelType == old(fuelType) && pricePerLiter == old(pricePerLiter)
      ensures amountReceived == old(amountReceived) && transactions == old(transactions)
    {
      quantity := q;
      RecomputeDerived();
    }

    method SetAmountReceived(received: Option<real>)
      modifies this
      ensures amountReceived == received && Settled()
      ensures fuelType == old(fuelType) && pricePerLiter == old(pricePerLiter)
      ensures quantity == old(quantity) && transactions == old(transactions)
    {
      amountReceived := received;
      RecomputeDerived();
    }

    /**
     * `handleFuelTypeChange`: take the fuel type, and its listed price when the
     * price list has it; an unlisted type keeps the price that was there.
     */
    method HandleFuelTypeChange(value: string)
      modifies this
      ensures fuelType == value && Settled()
      ensures FindFuel(PumpFuels, value).Some? ==> pricePerLiter == Some(FindFuel(PumpFuels, value).value.price)
      ensures FindFuel(PumpFuels, value).None? ==> pricePerLiter == old(pricePerLiter)
      ensures quantity == old(quantity) && amountReceived == old(amountReceived) && transactions == old(transactions)
    {
      fuelType := value;
      var selectedFuel := FindFuel(PumpFuels, value);
      if selectedFuel.Some? {
        pricePerLiter := Some(selectedFuel.value.price);
      }
      RecomputeDerived();
    }

    /** `handleReset`: every box emptied and both figures back to 0. */
    method HandleReset()
      modifies this
      ensures fuelType == "" && pricePerLiter == None && quantity == None && amountReceived == None
      ensures totalCost == 0.0 && changeAmount == 0.0 && transactions == old(transactions)
      ensures Settled()
    {
      fuelType := "";
      pricePerLiter := None;
      quantity := None;
      totalCost := 0.0;
      amountReceived := None;
      changeAmount := 0.0;
    }

    /**
     * `handleTransaction`: refused while the fuel type, quantity or amount
     * received is missing, or while the amount received is below the total;
     * otherwise the sale, carrying the figures on screen, goes to the front of
     * the history (id `now`) and the form is reset. The price box is not checked.
     */
    method HandleTransaction(now: int, timestamp: string) returns (outcome: TransactionOutcome)
      modifies this
      ensures old(fuelType) == "" || old(quantity).None? || old(amountReceived).None? ==>
                outcome == IncompleteInformation && transactions == old(transactions)
      ensures old(fuelType) != "" && old(quantity).Some? && old(amountReceived).Some? &&
              old(amountReceived).value < old(totalCost) ==>
                outcome == InsufficientPayment && transactions == old(transactions)
      ensures outcome != Completed ==>
                && fuelType == old(fuelType) && pricePerLiter == old(pricePerLiter) && quantity == old(quantity)
                && amountReceived == old(amountReceived) && totalCost == old(totalCost) && changeAmount == old(changeAmount)
      ensures old(fuelType) != "" && old(quantity).Some? && old(amountReceived).Some? &&
              old(amountReceived).value >= old(totalCost) ==>
                && outcome == Completed
                && transactions == [Transaction(now, timestamp, old(fuelType), old(quantity).value, old(pricePerLiter),
                                                old(totalCost), old(amountReceived).value, old(changeAmount))]
                                   + old(transactions)
                && fuelType == "" && pricePerLiter == None && quantity == None && amountReceived == None
                && totalCost == 0.0 && changeAmount == 0.0
      ensures outcome == Completed && old(Settled()) ==> Balanced(transactions[0])
    {
      if fuelType == "" || quantity.None? || amountReceived.None? {
        return IncompleteInformation;
      }
      if amountReceived.value < totalCost {
        return InsufficientPayment;
      }
      var newTransaction := Transaction(now, timestamp, fuelType, quantity.value, pricePerLiter,
                                        totalCost, amountReceived.value, changeAmount);
      transactions := [newTransaction] + transactions;
      HandleReset();
      outcome := Completed;
    }
  }

  /**
   * A recorded sale adds up: the change is never negative, and unless the
   * total is 0 what was received is the total plus the change; a total of 0
   * records no change, however much was received.
   */
  predicate Balanced(t: Transaction) {
    && t.changeAmount >= 0.0
    && (t.totalCost != 0.0 ==> t.amountReceived == t.totalCost + t.changeAmount)
    && (t.totalCost == 0.0 ==> t.changeAmount == 0.0)
  }

  /** Whatever the boxes hold, a sale recorded from settled figures is balanced. */
  lemma SettledSaleBalanced(pricePerLiter: Option<real>, quantity: real, received: real)
    requires received >= TotalCost(pricePerLiter, Some(quantity))
    ensures var total := TotalCost(pricePerLiter, Some(quantity));
            Balanced(Transaction(0, "", "Petrol", quantity, pricePerLiter, total, received,
                                 ChangeAmount(Some(received), total)))
  {
  }

  /**
   * With the price box empty a sale still goes through: its total is 0, any
   * amount received passes the payment check, and no change is given.
   */
  lemma EmptyPriceSaleIsFree(quantity: real, received: real)
    requires received >= 0.0
    ensures TotalCost(None, Some(quantity)) == 0.0
    ensures received >= TotalCost(None, Some(quantity))
    ensures ChangeAmount(Some(received), TotalCost(None, Some(quantity))) == 0.0
  {
  }

  /** Petrol from the price list, 20.5 litres, 2200 received: total 2101.25, change 98.75. */
  method SamplePetrolSale() returns (t: Transaction)
    ensures t.fuelType == "Petrol" && t.pricePerLiter == Some(102.50)
    ensures t.totalCost == 2101.25 && t.changeAmount == 98.75 && Balanced(t)
  {
    var calculator := new Calculator([]);
    calculator.HandleFuelTypeChange("Petrol");
    calculator.SetQuantity(Some(20.5));
    calculator.SetAmountReceived(Some(2200.0));
    var outcome := calculator.HandleTransaction(1, "2024-01-15 14:30:22");
    t := calculator.transactions[0];
  }
}
