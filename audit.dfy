/**
 * What the ledger's operations do to the whole inventory of an item, summed over every
 * location, and how the movement log accounts for it.
 */
module Audit {
  import opened Wrappers
  import opened Ledger

  /** What the row at `k` contributes to the total of `item`. */
  function Share(stock: Stock, k: Slot, item: ItemId): nat {
    if k.itemId == item then Quantity(stock, k) else 0
  }

  /** The sum of `item`'s quantities over the rows with keys in `keys`. */
  ghost function SumOver(stock: Stock, keys: set<Slot>, item: ItemId): nat
    decreases keys
  {
    if keys == {} then 0
    else
      var k :| k in keys;
      Share(stock, k, item) + SumOver(stock, keys - {k}, item)
  }

  /** How many units of `item` the warehouse holds, over all locations. */
  ghost function ItemTotal(stock: Stock, item: ItemId): nat {
    SumOver(stock, stock.Keys, item)
  }

  /** Any key of the set can be taken out of the sum first. */
  lemma {:induction false} SumOverRemove(stock: Stock, keys: set<Slot>, k: Slot, item: ItemId)
    requires k in keys
    ensures SumOver(stock, keys, item) == Share(stock, k, item) + SumOver(stock, keys - {k}, item)
    decreases keys
  {
    var j :| j in keys && SumOver(stock, keys, item) == Share(stock, j, item) + SumOver(stock, keys - {j}, item);
    if j != k {
      SumOverRemove(stock, keys - {j}, k, item);
      SumOverRemove(stock, keys - {k}, j, item);
      assert keys - {j} - {k} == keys - {k} - {j};
    }
  }

  /** Two stocks that agree on every row of `keys` have the same sum over `keys`. */
  lemma {:induction false} SumOverFrame(a: Stock, b: Stock, keys: set<Slot>, item: ItemId)
    requires forall k :: k in keys ==> Share(a, k, item) == Share(b, k, item)
    ensures SumOver(a, keys, item) == SumOver(b, keys, item)
    decreases keys
  {
    if keys != {} {
      var k :| k in keys;
      SumOverRemove(a, keys, k, item);
      SumOverRemove(b, keys, k, item);
      SumOverFrame(a, b, keys - {k}, item);
    }
  }

  /** Changing (or creating) one row changes an item's total by exactly that row's change. */
  lemma ItemTotalChange(before: Stock, after: Stock, slot: Slot, item: ItemId)
    requires after.Keys == before.Keys + {slot}
    requires forall t :: t != slot ==> Quantity(after, t) == Quantity(before, t)
    ensures ItemTotal(after, item) + Share(before, slot, item) == ItemTotal(before, item) + Share(after, slot, item)
  {
    var rest := after.Keys - {slot};
    SumOverRemove(after, after.Keys, slot, item);
    SumOverFrame(after, before, rest, item);
    if slot in before {
      assert before.Keys - {slot} == rest;
      SumOverRemove(before, before.Keys, slot, item);
    } else {
      assert before.Keys == rest;
    }
  }

  /** A placement of `n` units raises the total of its own item by `n` and of no other item. */
  lemma CreditTotal(stock: Stock, slot: Slot, n: nat, item: ItemId)
    ensures ItemTotal(Credit(stock, slot, n), item) == ItemTotal(stock, item) + (if slot.itemId == item then n else 0)
  {
    ItemTotalChange(stock, Credit(stock, slot, n), slot, item);
  }

  /** A retrieval of `n` units lowers the total of its own item by `n` and of no other item. */
  lemma DebitTotal(stock: Stock, slot: Slot, n: nat, item: ItemId)
    requires slot in stock && n <= stock[slot]
    ensures ItemTotal(Debit(stock, slot, n), item) + (if slot.itemId == item then n else 0) == ItemTotal(stock, item)
  {
    ItemTotalChange(stock, Debit(stock, slot, n), slot, item);
  }

  /** A transfer moves units between two rows of one item: every item's total is unchanged. */
  lemma TransferConservesTotal(stock: Stock, src: Slot, dst: Slot, n: nat, item: ItemId)
    requires src in stock && n <= stock[src] && src.itemId == dst.itemId
    ensures ItemTotal(Credit(Debit(stock, src, n), dst, n), item) == ItemTotal(stock, item)
  {
    DebitTotal(stock, src, n, item);
    CreditTotal(Debit(stock, src, n), dst, n, item);
  }

  /** A transfer between two distinct rows keeps their sum and touches no third row. */
  lemma TransferConservesPair(stock: Stock, src: Slot, dst: Slot, n: nat)
    requires src in stock && n <= stock[src] && src != dst
    ensures var after := Credit(Debit(stock, src, n), dst, n);
      && Quantity(after, src) == Quantity(stock, src) - n
      && Quantity(after, dst) == Quantity(stock, dst) + n
      && Quantity(after, src) + Quantity(after, dst) == Quantity(stock, src) + Quantity(stock, dst)
      && forall t :: t != src && t != dst ==> Quantity(after, t) == Quantity(stock, t)
  {
  }

  /** How a movement changes the total of `item`: placements add, retrievals remove, transfers keep it. */
  function Delta(m: Movement, item: ItemId): int {
    if m.itemId != item then 0
    else match m.kind
      case Placement => m.quantity
      case Retrieval => -(m.quantity as int)
      case Transfer => 0
  }

  /** The net change in `item`'s total that a log records. */
  function NetFlow(log: seq<Movement>, item: ItemId): int
    decreases |log|
  {
    if log == [] then 0 else NetFlow(log[..|log| - 1], item) + Delta(log[|log| - 1], item)
  }

  /** Applying a movement changes an item's total by what the movement records. */
  lemma ApplyTotal(before: Stock, m: Movement, after: Stock, item: ItemId)
    requires Apply(before, m) == Some(after)
    ensures ItemTotal(after, item) == ItemTotal(before, item) + Delta(m, item)
  {
    match m.kind
    case Placement =>
      CreditTotal(before, Slot(m.itemId, m.toLocationId.value), m.quantity, item);
    case Retrieval =>
      DebitTotal(before, Slot(m.itemId, m.fromLocationId.value), m.quantity, item);
    case Transfer =>
      TransferConservesTotal(before, Slot(m.itemId, m.fromLocationId.value), Slot(m.itemId, m.toLocationId.value), m.quantity, item);
  }

  /**
   * The audit trail balances: the total of every item now is its total when the log began
   * plus what the logged placements added and minus what the logged retrievals removed.
   */
  lemma {:induction false} ReplayNetFlow(initial: Stock, log: seq<Movement>, now: Stock, item: ItemId)
    requires Replay(initial, log) == Some(now)
    ensures ItemTotal(now, item) == ItemTotal(initial, item) + NetFlow(log, item)
    decreases |log|
  {
    if log != [] {
      var prefix := log[..|log| - 1];
      match Replay(initial, prefix)
      case Some(before) =>
        ReplayNetFlow(initial, prefix, before, item);
        ApplyTotal(before, log[|log| - 1], now, item);
    }
  }

  /** The server's audit trail balances for every item, and every movement in it is well formed. */
  lemma ServerAuditTrail(server: InventoryServer, item: ItemId)
    requires server.Valid()
    ensures ItemTotal(server.stock, item) == ItemTotal(server.initial, item) + NetFlow(server.movements, item)
    ensures WellFormedLog(server.movements)
  {
    ReplayNetFlow(server.initial, server.movements, server.stock, item);
    ReplayWellFormed(server.initial, server.movements);
  }
}
