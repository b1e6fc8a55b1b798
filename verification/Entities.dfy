/** The values that travel between Redis, MySQL and Kafka, and the errors they meet. */
module Entities {
  type Id = nat         // uint64 keys: users, activities, SKUs, coupons, addresses
  type OrderNo = nat    // snowflake numbers, rendered in decimal by the program
  type RequestId = string

  const ORDER_TIMEOUT := 900   // seconds until an unpaid order is cancelled

  const TWO_TO_THE_32: int := 0x1_0000_0000
  const TWO_TO_THE_64: int := 0x1_0000_0000_0000_0000

  /** Go's conversion of an int to uint32: the low 32 bits, also for negative values. */
  function ToUint32(n: int): nat { n % TWO_TO_THE_32 }

  /** The value of a uint64 expression whose mathematical value is n. */
  function ToUint64(n: int): nat { n % TWO_TO_THE_64 }

  /** What one purchase takes: units of a SKU, the user's single place in the sale, maybe a coupon (0: none). */
  datatype Claim = Claim(user: Id, activity: Id, sku: Id, quantity: int, coupon: Id)

  datatype StockKey = StockKey(activity: Id, sku: Id)

  datatype MarkKey = MarkKey(activity: Id, sku: Id, user: Id)

  function StockKeyOf(c: Claim): StockKey { StockKey(c.activity, c.sku) }

  function MarkKeyOf(c: Claim): MarkKey { MarkKey(c.activity, c.sku, c.user) }

  /** What a SKU is put on sale with; total stock is an unsigned 32-bit column. */
  datatype Offer = Offer(activity: Id, units: nat)

  predicate OffersFit(onSale: map<Id, Offer>) {
    forall sku :: sku in onSale ==> onSale[sku].units < TWO_TO_THE_32
  }

  datatype Money = Money(orderAmount: nat, discount: nat, finalAmount: nat)

  /** The Kafka order message; descriptive fields (names, images, trace ids) are not kept. */
  datatype Message = Message(orderNo: OrderNo, requestId: RequestId, claim: Claim, address: Id, price: nat,
                             money: Money)

  datatype PendingRecord = PendingRecord(orderNo: OrderNo, requestId: RequestId, claim: Claim, createdAt: int)

  datatype Status = Pending | Paid | Cancel

  datatype Order = Order(requestId: RequestId, claim: Claim, price: nat, money: Money, status: Status, createTime: int)

  datatype CouponStatus = Unused | Used | Expired

  /** A user's coupon joined with the template fields that pricing reads. */
  datatype CouponRow = CouponRow(user: Id, kind: int, value: nat, minAmount: nat, status: CouponStatus, expireTime: int)

  datatype BizError =
    | SystemBusy | TooManyRequests | DuplicateRequest | NoActiveActivity | ProductNotFound
    | InsufficientStock | ExceedLimit | OrderNotFound | OrderStatusIncorrect | OrderTimeout
    | OrderExists | PaymentExists | PayInfoNotFound | PayAmountMismatch | UserNotMatch
    | AddressNotFound | AlreadyBought | CouponInvalid | CouponUsed | CouponSceneInvalid

  /** A Go error: one of the business sentinels, or any other error with its text and, for a
      net.Error, whether it reports itself as a timeout or temporary. */
  datatype GoError = Biz(sentinel: BizError) | Infra(text: string, netTemporary: bool)

  /** strings.Contains. */
  predicate Contains(text: string, word: string) {
    exists i :: 0 <= i <= |text| && word <= text[i..]
  }
}
