/** Order amounts: computed with the coupon when the order is requested (internal/biz/seckill.go),
    recomputed from the message when the order is stored. All arithmetic is uint64. */
module Pricing {
  import opened Wrappers
  import opened Entities

  function OrderAmount(price: nat, quantity: int): nat {
    ToUint64(price * ToUint64(quantity))
  }

  /** A percentage coupon of value 95 leaves 95% to pay; the factors are uint64 and wrap. */
  function PercentOff(value: nat, amount: nat): nat {
    ToUint64(amount * ToUint64(100 - value)) / 100
  }

  /** None is the invalid coupon type. */
  function Discount(kind: int, value: nat, amount: nat): Option<nat> {
    match kind
    case 1 => Some(if value > amount then amount else value)
    case 2 => Some(PercentOff(value, amount))
    case _ => None
  }

  function Priced(amount: nat, discount: nat): Money {
    Money(amount, discount, ToUint64(amount - discount))
  }

  /** What ConfirmSeckillOrder stores: a zero amount in the message is read as "missing". */
  function Stored(m: Message): Money {
    var amount := if m.money.orderAmount == 0 then OrderAmount(m.price, m.claim.quantity) else m.money.orderAmount;
    var final :=
      if m.money.finalAmount == 0 then
        if m.money.discount > amount then 0 else amount - m.money.discount
      else m.money.finalAmount;
    Money(amount, m.money.discount, final)
  }

  // ---- arithmetic ----

  lemma DivLe(a: nat, b: nat, c: nat)
    requires a <= b * c && c > 0
    ensures a / c <= b
  {
  }

  lemma MulLe(a: nat, b: nat, c: nat)
    requires b <= c
    ensures a * b <= a * c
  {
  }

  /** Wrapping can only lose whole multiples of 2^64. */
  lemma WrapDrops(n: nat)
    ensures ToUint64(n) <= n
    ensures n < TWO_TO_THE_64 ==> ToUint64(n) == n
    ensures n >= TWO_TO_THE_64 ==> ToUint64(n) <= n - TWO_TO_THE_64
  {
  }

  /** A percentage coupon of at most 100 never takes off more than the order amount, not even when
      the product amount * (100 - value) overflows. */
  lemma PercentWithinAmount(value: nat, amount: nat)
    requires value <= 100 && amount < TWO_TO_THE_64
    ensures PercentOff(value, amount) <= amount
  {
    var k := 100 - value;
    MulLe(amount, k, 100);
    WrapDrops(amount * k);
    DivLe(ToUint64(amount * k), amount, 100);
  }

  /** Both usable coupon kinds: the discount fits and the parts add up to the order amount. */
  lemma MoneyAddsUp(kind: int, value: nat, amount: nat)
    requires amount < TWO_TO_THE_64
    requires kind == 1 || (kind == 2 && value <= 100)
    ensures var d := Discount(kind, value, amount).value;
            && d <= amount
            && Priced(amount, d).finalAmount + d == amount
  {
    hide PercentOff;
    if kind == 2 {
      PercentWithinAmount(value, amount);
    }
    WrapDrops(amount - Discount(kind, value, amount).value);
  }

  lemma WrapExact(n: nat)
    ensures ToUint64(n) / 100 == n / 100 <==> n < TWO_TO_THE_64
  {
    WrapDrops(n);
    if n >= TWO_TO_THE_64 {
      assert ToUint64(n) / 100 < n / 100;
    }
  }

  /** The percentage taken off is the true one exactly when the product does not overflow. */
  lemma PercentExactIffNoOverflow(value: nat, amount: nat)
    requires value <= 100
    ensures PercentOff(value, amount) == amount * (100 - value) / 100
       <==> amount * (100 - value) < TWO_TO_THE_64
  {
    assert ToUint64(100 - value) == 100 - value;
    WrapExact(amount * (100 - value));
  }

  /** The order that shows a percentage above 100 to be unsafe: 1 cent, or 100 cents for the very largest values. */
  function Overcharged(value: nat): nat {
    if ToUint64(100 - value) >= 200 then 1 else 100
  }

  lemma PercentAbove100Overshoots(value: nat)
    requires 100 < value < TWO_TO_THE_64
    ensures PercentOff(value, Overcharged(value)) > Overcharged(value)
  {
    var c := ToUint64(100 - value);
    assert c == 100 - value + TWO_TO_THE_64;
    if c < 200 {
      assert ToUint64(100 * c) == 100 * c;
    }
  }

  /** Past 100 the subtraction 100 - value wraps: some order then gets a discount above its amount. */
  lemma PercentSafeIffAtMost100(value: nat)
    requires value < TWO_TO_THE_64
    ensures value <= 100 <==> forall amount: nat :: amount < TWO_TO_THE_64 ==> PercentOff(value, amount) <= amount
  {
    hide PercentOff;
    if value <= 100 {
      forall amount: nat | amount < TWO_TO_THE_64
        ensures PercentOff(value, amount) <= amount
      {
        PercentWithinAmount(value, amount);
      }
    } else {
      PercentAbove100Overshoots(value);
      assert Overcharged(value) < TWO_TO_THE_64;
    }
  }

  /** What is stored in general: a zero order amount is worked out from price and quantity, a zero final amount from
      what the discount leaves, which is nothing if the discount is larger; amounts that are there are taken as they
      are. */
  lemma ZeroMeansMissing(m: Message)
    ensures var stored := Stored(m);
            && stored.orderAmount == (if m.money.orderAmount != 0 then m.money.orderAmount
                                      else m.price * (m.claim.quantity % TWO_TO_THE_64) % TWO_TO_THE_64)
            && stored.discount == m.money.discount
            && (m.money.finalAmount != 0 ==> stored.finalAmount == m.money.finalAmount)
            && (m.money.finalAmount == 0 && stored.discount <= stored.orderAmount ==>
                  stored.finalAmount + stored.discount == stored.orderAmount)
            && (m.money.finalAmount == 0 && stored.discount > stored.orderAmount ==> stored.finalAmount == 0)
  {
  }

  /** The consumer stores the very amounts the buyer was quoted, coupon paying everything included. */
  lemma StoredAmountsAreTheQuotedOnes(m: Message, discount: nat)
    requires discount < TWO_TO_THE_64
    requires m.money == Priced(OrderAmount(m.price, m.claim.quantity), discount)
    ensures Stored(m) == m.money
  {
    var amount := m.money.orderAmount;
    if m.money.finalAmount == 0 {
      assert amount == discount;
    }
  }
}
