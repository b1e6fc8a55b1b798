/** The accounting view of the sale: who holds units, buy marks and coupons, beside the shared counters.
    The protocol is shown to change this view only through the small moves below. */
module Books {
  import opened Entities
  import opened MapSum
  import opened MysqlRepo

  /** A request still on its way to an order, a live order, or a caller that cancelled one and still owes Redis. */
  datatype Holder = ByRequest(id: RequestId) | ByOrder(no: OrderNo) | ByCancel(caller: nat)

  /** Which parts of its claim a holder has taken and not given back. */
  datatype Hold = Hold(claim: Claim, stock: bool, mark: bool, coupon: bool)

  datatype Books = Books(
    holds: map<Holder, Hold>,
    stock: map<StockKey, int>,
    marks: set<MarkKey>,
    coupons: map<Id, CouponRow>)

  predicate HoldsCoupon(h: Hold) { h.coupon && h.claim.coupon > 0 }

  function Units(holds: map<Holder, Hold>, sku: Id): map<Holder, int> {
    map k | k in holds :: if holds[k].stock && holds[k].claim.sku == sku then holds[k].claim.quantity else 0
  }

  ghost function Held(holds: map<Holder, Hold>, sku: Id): int {
    Sum(Units(holds, sku))
  }

  // ---- the invariant ----

  /** The Redis counter of a claim's SKU exists: the SKU is on sale in that very activity. */
  predicate OnOffer(onSale: map<Id, Offer>, key: StockKey) {
    key.sku in onSale && key.activity == onSale[key.sku].activity
  }

  /** Redis stock never goes below zero, and with what is held it makes up what was put on sale. */
  ghost predicate LedgerOk(b: Books, onSale: map<Id, Offer>) {
    && (forall key :: key in b.stock <==> OnOffer(onSale, key))
    && forall key :: key in b.stock
                     ==> b.stock[key] >= 0 && b.stock[key] + Held(b.holds, key.sku) == onSale[key.sku].units
  }

  ghost predicate ClaimsOk(holds: map<Holder, Hold>, onSale: map<Id, Offer>) {
    forall h :: h in holds && holds[h].stock ==>
                  && OnOffer(onSale, StockKeyOf(holds[h].claim))
                  && 1 <= holds[h].claim.quantity < TWO_TO_THE_32
  }

  /** Every buy place that is held is marked in Redis, and no place has two holders. */
  ghost predicate MarksOk(holds: map<Holder, Hold>, marks: set<MarkKey>) {
    && (forall h :: h in holds && holds[h].mark ==> MarkKeyOf(holds[h].claim) in marks)
    && (forall g, h | g in holds && h in holds && holds[g].mark && holds[h].mark && g != h ::
          MarkKeyOf(holds[g].claim) != MarkKeyOf(holds[h].claim))
  }

  ghost predicate HasHolder(holds: map<Holder, Hold>, id: Id) {
    exists h :: h in holds && HoldsCoupon(holds[h]) && holds[h].claim.coupon == id
  }

  /** A coupon is Used exactly when it has a holder, and it never has two. */
  ghost predicate CouponsOk(holds: map<Holder, Hold>, coupons: map<Id, CouponRow>) {
    && (forall h :: h in holds && HoldsCoupon(holds[h]) ==> holds[h].claim.coupon in coupons)
    && (forall id :: id in coupons ==> (coupons[id].status == Used <==> HasHolder(holds, id)))
    && (forall g, h | g in holds && h in holds && HoldsCoupon(holds[g]) && HoldsCoupon(holds[h]) && g != h ::
          holds[g].claim.coupon != holds[h].claim.coupon)
  }

  ghost predicate BooksInv(b: Books, onSale: map<Id, Offer>) {
    && OffersFit(onSale)
    && ClaimsOk(b.holds, onSale)
    && LedgerOk(b, onSale)
    && MarksOk(b.holds, b.marks)
    && CouponsOk(b.holds, b.coupons)
  }

  // ---- sums ----

  lemma HeldPut(holds: map<Holder, Hold>, k: Holder, h: Hold, sku: Id)
    ensures Held(holds[k := h], sku) == Held(holds, sku)
                                        - (if k in holds then Units(holds, sku)[k] else 0)
                                        + (if h.stock && h.claim.sku == sku then h.claim.quantity else 0)
  {
    var units := if h.stock && h.claim.sku == sku then h.claim.quantity else 0;
    SumPut(Units(holds, sku), k, units);
    assert Units(holds[k := h], sku) == Units(holds, sku)[k := units];
  }

  lemma HeldRemove(holds: map<Holder, Hold>, k: Holder, sku: Id)
    requires k in holds
    ensures Held(holds - {k}, sku) == Held(holds, sku) - Units(holds, sku)[k]
  {
    SumRemove(Units(holds, sku), k);
    assert Units(holds - {k}, sku) == Units(holds, sku) - {k};
  }

  lemma HeldAtLeast(holds: map<Holder, Hold>, onSale: map<Id, Offer>, sku: Id)
    requires ClaimsOk(holds, onSale)
    ensures Held(holds, sku) >= 0
    ensures forall k :: k in holds ==> Held(holds, sku) >= Units(holds, sku)[k]
  {
    SumNonNegative(Units(holds, sku));
    forall k | k in holds
      ensures Held(holds, sku) >= Units(holds, sku)[k]
    {
      SumAtLeast(Units(holds, sku), k);
    }
  }

  // ---- moves ----

  function Open(b: Books, k: Holder, c: Claim): Books {
    b.(holds := b.holds[k := Hold(c, false, false, false)])
  }

  function TakeCoupon(b: Books, k: Holder): Books
    requires k in b.holds
  {
    var h := b.holds[k];
    b.(holds := b.holds[k := h.(coupon := true)],
    coupons := if h.claim.coupon > 0 && h.claim.coupon in b.coupons then CouponUsedUp(b.coupons, h.claim.coupon)
    else b.coupons)
  }

  function TakeStock(b: Books, k: Holder): Books
    requires k in b.holds && StockKeyOf(b.holds[k].claim) in b.stock
  {
    var h := b.holds[k];
    var key := StockKeyOf(h.claim);
    Books(b.holds[k := h.(stock := true, mark := true)],
          b.stock[key := b.stock[key] - h.claim.quantity], b.marks + {MarkKeyOf(h.claim)}, b.coupons)
  }

  function DropStock(b: Books, k: Holder): Books
    requires k in b.holds && StockKeyOf(b.holds[k].claim) in b.stock
  {
    var h := b.holds[k];
    var key := StockKeyOf(h.claim);
    b.(holds := b.holds[k := h.(stock := false)], stock := b.stock[key := b.stock[key] + h.claim.quantity])
  }

  function DropMark(b: Books, k: Holder): Books
    requires k in b.holds
  {
    var h := b.holds[k];
    b.(holds := b.holds[k := h.(mark := false)], marks := b.marks - {MarkKeyOf(h.claim)})
  }

  function DropCoupon(b: Books, k: Holder): Books
    requires k in b.holds
  {
    var h := b.holds[k];
    b.(holds := b.holds[k := h.(coupon := false)], coupons := CouponRestored(b.coupons, h.claim.coupon))
  }

  function Close(b: Books, k: Holder): Books {
    b.(holds := b.holds - {k})
  }

  function PassOn(b: Books, from: Holder, to: Holder): Books
    requires from in b.holds
  {
    b.(holds := (b.holds - {from})[to := b.holds[from]])
  }

  // ---- the moves keep the books in order ----

  /** Books without holders balance when the counters show what is on sale. */
  lemma EmptyBooks(b: Books, onSale: map<Id, Offer>)
    requires OffersFit(onSale) && b.holds == map[]
    requires forall key :: key in b.stock <==> OnOffer(onSale, key)
    requires forall key :: OnOffer(onSale, key) ==> key in b.stock && b.stock[key] == onSale[key.sku].units
    requires forall id :: id in b.coupons ==> b.coupons[id].status == Unused
    ensures BooksInv(b, onSale)
  {
    forall sku
      ensures Held(b.holds, sku) == 0
    {
      assert Units(b.holds, sku) == map[];
    }
  }

  lemma OpenKeeps(b: Books, onSale: map<Id, Offer>, k: Holder, c: Claim)
    requires BooksInv(b, onSale) && k !in b.holds
    ensures BooksInv(Open(b, k, c), onSale)
  {
    var h := Hold(c, false, false, false);
    SameStock(b, onSale, k, h);
    SameHolders(b.holds, k, h);
  }

  lemma CloseKeeps(b: Books, onSale: map<Id, Offer>, k: Holder)
    requires BooksInv(b, onSale)
    requires k in b.holds ==> !b.holds[k].stock && !b.holds[k].mark && !HoldsCoupon(b.holds[k])
    ensures BooksInv(Close(b, k), onSale)
  {
    var after := b.holds - {k};
    forall key | key in b.stock
      ensures Held(after, key.sku) == Held(b.holds, key.sku)
    {
      if k in b.holds {
        HeldRemove(b.holds, k, key.sku);
      } else {
        assert after == b.holds;
      }
    }
    forall id
      ensures HasHolder(after, id) <==> HasHolder(b.holds, id)
    {
      if HasHolder(b.holds, id) {
        var h :| h in b.holds && HoldsCoupon(b.holds[h]) && b.holds[h].claim.coupon == id;
        assert h in after;
      }
    }
  }

  /** Replacing a hold by one with the same units keeps the ledger. */
  lemma SameStock(b: Books, onSale: map<Id, Offer>, k: Holder, h: Hold)
    requires LedgerOk(b, onSale) && ClaimsOk(b.holds, onSale)
    requires h.stock ==> k in b.holds && b.holds[k].claim == h.claim
    requires k in b.holds ==> b.holds[k].stock == h.stock
    ensures LedgerOk(b.(holds := b.holds[k := h]), onSale)
    ensures ClaimsOk(b.holds[k := h], onSale)
  {
    forall key | key in b.stock
      ensures Held(b.holds[k := h], key.sku) == Held(b.holds, key.sku)
    {
      HeldPut(b.holds, k, h, key.sku);
    }
  }

  lemma SameHolders(holds: map<Holder, Hold>, k: Holder, h: Hold)
    requires k in holds ==> holds[k].claim == h.claim && HoldsCoupon(holds[k]) == HoldsCoupon(h)
    requires k !in holds ==> !HoldsCoupon(h)
    ensures forall id :: HasHolder(holds[k := h], id) <==> HasHolder(holds, id)
  {
    var after := holds[k := h];
    forall id
      ensures HasHolder(after, id) <==> HasHolder(holds, id)
    {
      if HasHolder(holds, id) {
        var g :| g in holds && HoldsCoupon(holds[g]) && holds[g].claim.coupon == id;
        assert g in after && HoldsCoupon(after[g]);
      }
      if HasHolder(after, id) {
        var g :| g in after && HoldsCoupon(after[g]) && after[g].claim.coupon == id;
        assert g in holds && HoldsCoupon(holds[g]);
      }
    }
  }

  lemma TakeCouponKeeps(b: Books, onSale: map<Id, Offer>, k: Holder)
    requires BooksInv(b, onSale) && k in b.holds && !b.holds[k].coupon
    requires b.holds[k].claim.coupon > 0 ==>
               b.holds[k].claim.coupon in b.coupons && b.coupons[b.holds[k].claim.coupon].status == Unused
    ensures BooksInv(TakeCoupon(b, k), onSale)
  {
    var h := b.holds[k];
    var after := TakeCoupon(b, k);
    SameStock(b, onSale, k, h.(coupon := true));
    if h.claim.coupon == 0 {
      SameHolders(b.holds, k, h.(coupon := true));
    } else {
      var c := h.claim.coupon;
      assert !HasHolder(b.holds, c);
      assert HoldsCoupon(after.holds[k]);
      forall id | id != c
        ensures HasHolder(after.holds, id) <==> HasHolder(b.holds, id)
      {
        if HasHolder(b.holds, id) {
          var g :| g in b.holds && HoldsCoupon(b.holds[g]) && b.holds[g].claim.coupon == id;
          assert g in after.holds && after.holds[g] == b.holds[g];
        }
        if HasHolder(after.holds, id) {
          var g :| g in after.holds && HoldsCoupon(after.holds[g]) && after.holds[g].claim.coupon == id;
          assert g in b.holds && after.holds[g] == b.holds[g];
        }
      }
    }
  }

  lemma DropCouponKeeps(b: Books, onSale: map<Id, Offer>, k: Holder)
    requires BooksInv(b, onSale) && k in b.holds && b.holds[k].coupon
    ensures BooksInv(DropCoupon(b, k), onSale)
  {
    var h := b.holds[k];
    var after := DropCoupon(b, k);
    SameStock(b, onSale, k, h.(coupon := false));
    if h.claim.coupon == 0 {
      SameHolders(b.holds, k, h.(coupon := false));
    } else {
      var c := h.claim.coupon;
      assert HoldsCoupon(h) && HasHolder(b.holds, c);
      forall id
        ensures HasHolder(after.holds, id) <==> HasHolder(b.holds, id) && id != c
      {
        if HasHolder(b.holds, id) && id != c {
          var g :| g in b.holds && HoldsCoupon(b.holds[g]) && b.holds[g].claim.coupon == id;
          assert g in after.holds && after.holds[g] == b.holds[g];
        }
        if HasHolder(after.holds, id) {
          var g :| g in after.holds && HoldsCoupon(after.holds[g]) && after.holds[g].claim.coupon == id;
          assert g in b.holds && after.holds[g] == b.holds[g];
        }
      }
    }
  }

  function Change(h: Hold, sku: Id): int {
    if sku != h.claim.sku then 0 else if h.stock then h.claim.quantity else -h.claim.quantity
  }

  /** Taking or giving back a claim's units changes what is held of its SKU, and of no other. */
  lemma HeldMoved(holds: map<Holder, Hold>, k: Holder, h: Hold)
    requires k in holds && h.claim == holds[k].claim && h.stock != holds[k].stock
    ensures forall sku :: Held(holds[k := h], sku) == Held(holds, sku) + Change(h, sku)
  {
    forall sku
      ensures Held(holds[k := h], sku) == Held(holds, sku) + Change(h, sku)
    {
      HeldPut(holds, k, h, sku);
    }
  }

  /** The counter moves the other way. */
  lemma CounterMoved(b: Books, onSale: map<Id, Offer>, holds: map<Holder, Hold>, key: StockKey, delta: int)
    requires LedgerOk(b, onSale) && key in b.stock && b.stock[key] + delta >= 0
    requires forall sku :: Held(holds, sku) == Held(b.holds, sku) - (if sku == key.sku then delta else 0)
    ensures LedgerOk(b.(holds := holds, stock := b.stock[key := b.stock[key] + delta]), onSale)
  {
  }

  lemma CouponsUnmoved(holds: map<Holder, Hold>, k: Holder, h: Hold, coupons: map<Id, CouponRow>)
    requires CouponsOk(holds, coupons)
    requires k in holds && holds[k].claim == h.claim && holds[k].coupon == h.coupon
    ensures CouponsOk(holds[k := h], coupons)
  {
    SameHolders(holds, k, h);
  }

  lemma NewMark(holds: map<Holder, Hold>, marks: set<MarkKey>, k: Holder, h: Hold)
    requires MarksOk(holds, marks) && k in holds && h.mark && MarkKeyOf(h.claim) !in marks
    ensures MarksOk(holds[k := h], marks + {MarkKeyOf(h.claim)})
  {
  }

  lemma SameMark(holds: map<Holder, Hold>, marks: set<MarkKey>, k: Holder, h: Hold)
    requires MarksOk(holds, marks) && k in holds && holds[k].claim == h.claim && holds[k].mark == h.mark
    ensures MarksOk(holds[k := h], marks)
  {
  }

  lemma StockMoved(b: Books, onSale: map<Id, Offer>, k: Holder, h: Hold, delta: int, after: Books)
    requires LedgerOk(b, onSale) && ClaimsOk(b.holds, onSale)
    requires k in b.holds && h.claim == b.holds[k].claim && h.stock != b.holds[k].stock
    requires StockKeyOf(h.claim) in b.stock && 1 <= h.claim.quantity < TWO_TO_THE_32
    requires delta == if h.stock then -h.claim.quantity else h.claim.quantity
    requires b.stock[StockKeyOf(h.claim)] + delta >= 0
    requires after.holds == b.holds[k := h]
    requires after.stock == b.stock[StockKeyOf(h.claim) := b.stock[StockKeyOf(h.claim)] + delta]
    ensures LedgerOk(after, onSale) && ClaimsOk(after.holds, onSale)
  {
    ClaimsMoved(b.holds, onSale, k, h, b.stock);
    hide ClaimsOk;
    HeldMoved(b.holds, k, h);
    hide Held;
    CounterMoved(b, onSale, after.holds, StockKeyOf(h.claim), delta);
  }

  lemma ClaimsMoved(holds: map<Holder, Hold>, onSale: map<Id, Offer>, k: Holder, h: Hold, stock: map<StockKey, int>)
    requires ClaimsOk(holds, onSale) && (forall key :: key in stock <==> OnOffer(onSale, key))
    requires StockKeyOf(h.claim) in stock && 1 <= h.claim.quantity < TWO_TO_THE_32
    ensures ClaimsOk(holds[k := h], onSale)
  {
  }

  lemma TakeStockKeeps(b: Books, onSale: map<Id, Offer>, k: Holder)
    requires BooksInv(b, onSale) && k in b.holds && !b.holds[k].stock && !b.holds[k].mark
    requires StockKeyOf(b.holds[k].claim) in b.stock
    requires 1 <= b.holds[k].claim.quantity <= b.stock[StockKeyOf(b.holds[k].claim)]
    requires MarkKeyOf(b.holds[k].claim) !in b.marks
    ensures BooksInv(TakeStock(b, k), onSale)
  {
    var h := b.holds[k].(stock := true, mark := true);
    var after := TakeStock(b, k);
    assert h.claim.quantity < TWO_TO_THE_32 by {
      HeldAtLeast(b.holds, onSale, h.claim.sku);
    }
    StockMoved(b, onSale, k, h, -h.claim.quantity, after);
    CouponsUnmoved(b.holds, k, h, b.coupons);
    NewMark(b.holds, b.marks, k, h);
  }

  lemma DropStockKeeps(b: Books, onSale: map<Id, Offer>, k: Holder)
    requires BooksInv(b, onSale) && k in b.holds && b.holds[k].stock
    ensures StockKeyOf(b.holds[k].claim) in b.stock
    ensures BooksInv(DropStock(b, k), onSale)
  {
    var h := b.holds[k].(stock := false);
    var after := DropStock(b, k);
    StockMoved(b, onSale, k, h, h.claim.quantity, after);
    CouponsUnmoved(b.holds, k, h, b.coupons);
    SameMark(b.holds, b.marks, k, h);
  }

  lemma DropMarkKeeps(b: Books, onSale: map<Id, Offer>, k: Holder)
    requires BooksInv(b, onSale) && k in b.holds && b.holds[k].mark
    ensures BooksInv(DropMark(b, k), onSale)
  {
    var h := b.holds[k].(mark := false);
    SameStock(b, onSale, k, h);
    SameHolders(b.holds, k, h);
  }

  lemma PassOnKeeps(b: Books, onSale: map<Id, Offer>, from: Holder, to: Holder)
    requires BooksInv(b, onSale) && from in b.holds && to !in b.holds
    ensures BooksInv(PassOn(b, from, to), onSale)
  {
    var h := b.holds[from];
    var after := PassOn(b, from, to);
    forall j | j in b.stock
      ensures Held(after.holds, j.sku) == Held(b.holds, j.sku)
    {
      HeldRemove(b.holds, from, j.sku);
      HeldPut(b.holds - {from}, to, h, j.sku);
    }
    forall id
      ensures HasHolder(after.holds, id) <==> HasHolder(b.holds, id)
    {
      if HasHolder(b.holds, id) {
        var g :| g in b.holds && HoldsCoupon(b.holds[g]) && b.holds[g].claim.coupon == id;
        assert (if g == from then to else g) in after.holds;
      }
      if HasHolder(after.holds, id) {
        var g :| g in after.holds && HoldsCoupon(after.holds[g]) && after.holds[g].claim.coupon == id;
        assert (if g == to then from else g) in b.holds;
      }
    }
  }

  lemma ExtraMarkKeeps(b: Books, onSale: map<Id, Offer>, key: MarkKey)
    requires BooksInv(b, onSale)
    ensures BooksInv(b.(marks := b.marks + {key}), onSale)
  {
  }

  lemma NewCouponKeeps(b: Books, onSale: map<Id, Offer>, id: Id, row: CouponRow)
    requires BooksInv(b, onSale) && id !in b.coupons && row.status == Unused
    ensures BooksInv(b.(coupons := b.coupons[id := row]), onSale)
  {
    assert !HasHolder(b.holds, id);
  }
}
