/** Services and the two places that price them: the booking snapshot and the cart quote. */
module Catalogue {
  import opened Tables
  import opened Money

  datatype AdvanceType = Fixed | Percentage

  datatype Service = Service(
    basePrice: int,
    sellingPrice: Option<int>,
    advanceType: AdvanceType,
    advanceValue: Option<int>,  // hundredths of a percent
    advanceAmount: int,
    trainingFee: int,
    trainingFeePerUnit: bool,
    active: bool,
    categoryActive: bool
  ) {
    function EffectivePrice(): int {
      if sellingPrice.Some? then sellingPrice.value else basePrice
    }

    predicate Available() { active && categoryActive }

    /** What `Service.clean` insists on before any save. */
    predicate Clean() {
      && basePrice >= 0
      && (sellingPrice.Some? ==> sellingPrice.value >= 0)
      && advanceAmount >= 0
      && (advanceValue.Some? ==> advanceValue.value >= 0)
      && trainingFee >= 0
      && (advanceType.Percentage? && advanceValue.Some? ==> advanceValue.value <= 10000)
      && advanceAmount <= EffectivePrice()
    }

    function TrainingFor(quantity: nat): int {
      if trainingFeePerUnit then trainingFee * quantity else trainingFee
    }

    /** The deposit on a total; None where the source divides a missing percentage and raises. */
    function Deposit(total: int): Option<int> {
      if advanceType.Percentage? then
        if advanceValue.None? then None else Some(HalfEven(total * advanceValue.value, 10000))
      else
        Some(Min(advanceAmount, total))
    }
  }

  datatype Price = Price(subtotal: int, discount: int, training: int, total: int, advance: int)

  /** The amounts a booking freezes when it is created. */
  function SnapshotPrice(service: Service, quantity: nat): Option<Price> {
    var subtotal := service.basePrice * quantity;
    var discount := subtotal - service.EffectivePrice() * quantity;
    var training := service.TrainingFor(quantity);
    var tax := 0;
    var total := subtotal - discount + training + tax;
    var deposit := service.Deposit(total);
    if deposit.None? then None else Some(Price(subtotal, discount, training, total, deposit.value))
  }

  datatype Quote = Quote(price: int, deposit: int)

  /** The amounts a cart row shows while no booking is attached to it. */
  function CartQuote(service: Service, quantity: nat): Option<Quote> {
    var price := service.EffectivePrice() * quantity + service.TrainingFor(quantity);
    var deposit := service.Deposit(price);
    if deposit.None? then None else Some(Quote(price, deposit.value))
  }

  /** The cart shows exactly what the booking will freeze, and fails on the same services. */
  lemma QuoteIsSnapshot(service: Service, quantity: nat)
    ensures CartQuote(service, quantity).Some? <==> SnapshotPrice(service, quantity).Some?
    ensures SnapshotPrice(service, quantity).Some? ==>
              CartQuote(service, quantity).value
              == Quote(SnapshotPrice(service, quantity).value.total, SnapshotPrice(service, quantity).value.advance)
  {
    var e, b := service.EffectivePrice() * quantity, service.basePrice * quantity;
    assert b - (b - e) + service.TrainingFor(quantity) + 0 == e + service.TrainingFor(quantity);
  }

  /** A clean service's deposit on a non-negative total lies between nothing and the total. */
  lemma DepositBounds(service: Service, total: int)
    requires service.Clean() && total >= 0
    ensures service.Deposit(total).Some? ==> 0 <= service.Deposit(total).value <= total
  {
    if service.advanceType.Percentage? && service.advanceValue.Some? {
      var v := service.advanceValue.value;
      MulMonotone(0, v, total);
      MulMonotone(v, 10000, total);
      assert total * v == v * total;
      HalfEvenBounds(total * v, 10000, 0, total);
    }
  }

  /** Any clean service asks for a deposit between nothing and the whole total. */
  lemma DepositWithinTotal(service: Service, quantity: nat)
    requires service.Clean()
    ensures SnapshotPrice(service, quantity).Some? ==>
              var p := SnapshotPrice(service, quantity).value;
              0 <= p.advance <= p.total && p.total == p.subtotal - p.discount + p.training
    ensures SnapshotPrice(service, quantity).None? <==>
              service.advanceType.Percentage? && service.advanceValue.None?
  {
    var subtotal, effective := service.basePrice * quantity, service.EffectivePrice() * quantity;
    var training := service.TrainingFor(quantity);
    MulMonotone(0, service.EffectivePrice(), quantity);
    MulMonotone(0, service.trainingFee, quantity);
    var total := subtotal - (subtotal - effective) + training + 0;
    assert total >= 0;
    DepositBounds(service, total);
  }
}
