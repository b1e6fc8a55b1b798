/** The Redis side of the sale (internal/data/repo/redis_repo.go): stock counters, buy marks,
    pending-reservation records and idempotency keys. Key expiry is not part of this module. */
module RedisRepo {
  import opened Entities

  datatype Redis = Redis(
    stock: map<StockKey, int>,
    marks: set<MarkKey>,
    pending: map<RequestId, PendingRecord>,
    idempotent: set<RequestId>)

  // ---- specification functions ----

  /** The Lua script: -1 already bought, 0 unknown SKU or too little stock, 1 deducted and marked. */
  function Deduct(r: Redis, c: Claim): (Redis, int) {
    if MarkKeyOf(c) in r.marks then (r, -1)
    else if StockKeyOf(c) !in r.stock || r.stock[StockKeyOf(c)] < c.quantity then (r, 0)
    else
      (r.(stock := r.stock[StockKeyOf(c) := r.stock[StockKeyOf(c)] - c.quantity], marks := r.marks + {MarkKeyOf(c)}), 1)
  }

  /** INCRBY treats a missing counter as zero. */
  function Rollback(r: Redis, key: StockKey, quantity: int): Redis {
    r.(stock := r.stock[key := (if key in r.stock then r.stock[key] else 0) + quantity])
  }

  function Mark(r: Redis, key: MarkKey): Redis { r.(marks := r.marks + {key}) }

  function Unmark(r: Redis, key: MarkKey): Redis { r.(marks := r.marks - {key}) }

  function SetPending(r: Redis, p: PendingRecord): Redis { r.(pending := r.pending[p.requestId := p]) }

  function DeletePending(r: Redis, id: RequestId): Redis { r.(pending := r.pending - {id}) }

  /** A rollback of what the script took undoes it exactly, once the mark is removed too. */
  lemma RollbackUndoesDeduct(r: Redis, c: Claim)
    requires Deduct(r, c).1 == 1
    ensures Unmark(Rollback(Deduct(r, c).0, StockKeyOf(c), c.quantity), MarkKeyOf(c)) == r
  {
    var after := Unmark(Rollback(Deduct(r, c).0, StockKeyOf(c), c.quantity), MarkKeyOf(c));
    assert after.stock == r.stock;
    assert after.marks == r.marks;
  }

  /** The script in full: the mark is looked at first, then the counter; only with enough stock anything changes,
      and then the counter falls by the quantity and the mark is set. */
  lemma ScriptIs(r: Redis, c: Claim)
    ensures var key, mark, (after, res) := StockKey(c.activity, c.sku), MarkKey(c.activity, c.sku, c.user),
                                           Deduct(r, c);
            && (res == -1 <==> mark in r.marks)
            && (res == 1 <==> mark !in r.marks && key in r.stock && r.stock[key] >= c.quantity)
            && (res == 0 <==> mark !in r.marks && (key !in r.stock || r.stock[key] < c.quantity))
            && (res != 1 ==> after == r)
            && (res == 1 ==>
                  after == r.(stock := r.stock[key := r.stock[key] - c.quantity], marks := r.marks + {mark}))
  {
  }

  // ---- the repository ----

  class RedisStore {
    var stock: map<StockKey, int>
    var marks: set<MarkKey>
    var pending: map<RequestId, PendingRecord>
    var idempotent: set<RequestId>

    function Value(): Redis
      reads this
    {
      Redis(stock, marks, pending, idempotent)
    }

    constructor (initialStock: map<StockKey, int>)
      ensures Value() == Redis(initialStock, {}, map[], {})
    {
      stock, marks, pending, idempotent := initialStock, {}, map[], {};
    }

    /** SETNX: true for the first use of the key. */
    method CheckAndMark(id: RequestId) returns (first: bool)
      modifies this`idempotent
      ensures first == (id !in old(idempotent))
      ensures idempotent == old(idempotent) + {id}
    {
      first := id !in idempotent;
      idempotent := idempotent + {id};
    }

    method DeductStock(c: Claim) returns (res: int)
      modifies this`stock, this`marks
      ensures (Value(), res) == Deduct(old(Value()), c)
    {
      if MarkKeyOf(c) in marks {
        return -1;
      }
      if StockKeyOf(c) !in stock || stock[StockKeyOf(c)] < c.quantity {
        return 0;
      }
      stock := stock[StockKeyOf(c) := stock[StockKeyOf(c)] - c.quantity];
      marks := marks + {MarkKeyOf(c)};
      res := 1;
    }

    method RollbackStock(key: StockKey, quantity: int)
      modifies this`stock
      ensures Value() == Rollback(old(Value()), key, quantity)
    {
      var current := if key in stock then stock[key] else 0;
      stock := stock[key := current + quantity];
    }

    method SetStock(key: StockKey, quantity: int)
      modifies this`stock
      ensures Value() == old(Value()).(stock := old(stock)[key := quantity])
    {
      stock := stock[key := quantity];
    }

    predicate CheckUserBuy(key: MarkKey)
      reads this
    {
      key in marks
    }

    method MarkUserBuy(key: MarkKey)
      modifies this`marks
      ensures Value() == Mark(old(Value()), key)
    {
      marks := marks + {key};
    }

    method RemoveUserBuy(key: MarkKey)
      modifies this`marks
      ensures Value() == Unmark(old(Value()), key)
    {
      marks := marks - {key};
    }

    method SetPendingReservation(p: PendingRecord)
      modifies this`pending
      ensures Value() == SetPending(old(Value()), p)
    {
      pending := pending[p.requestId := p];
    }

    method DeletePendingReservation(id: RequestId)
      modifies this`pending
      ensures Value() == DeletePending(old(Value()), id)
    {
      pending := pending - {id};
    }
  }
}
