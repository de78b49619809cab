/**
 * The inventory ledger behind the `/api/placement`, `/api/retrieval` and `/api/transfer`
 * handlers: a quantity for every (item, location) pair, where a pair without a row holds 0,
 * and an append-only log of movements. Each handler is one sequential, atomic step.
 */
module Ledger {
  import opened Wrappers

  type ItemId = string
  type LocationId = string

  /** The key of an inventory row: one row per item and location. */
  datatype Slot = Slot(itemId: ItemId, locationId: LocationId)

  /** The inventory table: rows that exist map to their quantity, which is never negative. */
  type Stock = map<Slot, nat>

  datatype MovementType = Placement | Retrieval | Transfer

  /** A row of the movement table (its generated id and timestamp are not modelled). */
  datatype Movement = Movement(
    kind: MovementType,
    itemId: ItemId,
    fromLocationId: Option<LocationId>,
    toLocationId: Option<LocationId>,
    quantity: nat)

  /** The inventory row a placement or retrieval responds with. */
  datatype InventoryRow = InventoryRow(itemId: ItemId, locationId: LocationId, quantity: nat)

  /** Why a request is rejected: a body the schema refuses, too little stock, or a transfer to its own source. */
  datatype Error = ValidationError | InsufficientQuantity | SameLocation

  /** The quantity requested by a JSON body; the schema accepts only a positive integer. */
  predicate IsPositiveInt(qty: real) {
    qty > 0.0 && qty.Floor as real == qty
  }

  /** The schema's check of a requested quantity: the whole number it stands for, or None when it is not a positive integer. */
  function ParseQty(qty: real): (r: Option<nat>)
    ensures r.Some? <==> IsPositiveInt(qty)
    ensures r.Some? ==> r.value > 0 && r.value as real == qty
  {
    if IsPositiveInt(qty) then Some(qty.Floor) else None
  }

  /** The quantity at a slot, 0 when it has no row. */
  function Quantity(stock: Stock, slot: Slot): nat {
    if slot in stock then stock[slot] else 0
  }

  /** `upsert` with `increment`: the row for `slot` is created or raised by `n`; no other row changes. */
  function Credit(stock: Stock, slot: Slot, n: nat): (r: Stock)
    ensures slot in r && Quantity(r, slot) == Quantity(stock, slot) + n
    ensures r.Keys == stock.Keys + {slot}
    ensures forall t :: t != slot ==> Quantity(r, t) == Quantity(stock, t)
  {
    stock[slot := Quantity(stock, slot) + n]
  }

  /** `update` with `decrement` on an existing row holding at least `n`; no other row changes. */
  function Debit(stock: Stock, slot: Slot, n: nat): (r: Stock)
    requires slot in stock && n <= stock[slot]
    ensures Quantity(r, slot) == Quantity(stock, slot) - n
    ensures r.Keys == stock.Keys
    ensures forall t :: t != slot ==> Quantity(r, t) == Quantity(stock, t)
  {
    stock[slot := stock[slot] - n]
  }

  /** The shape every logged movement has: a positive quantity, and the location fields its type calls for. */
  predicate WellFormed(m: Movement) {
    m.quantity > 0 &&
    match m.kind
    case Placement => m.fromLocationId.None? && m.toLocationId.Some?
    case Retrieval => m.fromLocationId.Some? && m.toLocationId.None?
    case Transfer => m.fromLocationId.Some? && m.toLocationId.Some? && m.fromLocationId != m.toLocationId
  }

  predicate WellFormedLog(log: seq<Movement>) {
    forall i :: 0 <= i < |log| ==> WellFormed(log[i])
  }

  /**
   * The effect a movement records, applied to a stock: None when the movement could not
   * have happened there (it debits more than the source row holds, or is malformed).
   */
  function Apply(stock: Stock, m: Movement): (r: Option<Stock>)
    ensures r.Some? ==> WellFormed(m)
  {
    if !WellFormed(m) then None
    else match m.kind
      case Placement =>
        Some(Credit(stock, Slot(m.itemId, m.toLocationId.value), m.quantity))
      case Retrieval =>
        var src := Slot(m.itemId, m.fromLocationId.value);
        if src in stock && m.quantity <= stock[src] then Some(Debit(stock, src, m.quantity)) else None
      case Transfer =>
        var src := Slot(m.itemId, m.fromLocationId.value);
        var dst := Slot(m.itemId, m.toLocationId.value);
        if src in stock && m.quantity <= stock[src]
        then Some(Credit(Debit(stock, src, m.quantity), dst, m.quantity))
        else None
  }

  /** The stock obtained by replaying `log`, oldest first, from `initial`. */
  function Replay(initial: Stock, log: seq<Movement>): Option<Stock>
    decreases |log|
  {
    if log == [] then Some(initial)
    else match Replay(initial, log[..|log| - 1])
      case None => None
      case Some(s) => Apply(s, log[|log| - 1])
  }

  /** Replaying one more movement applies it to the stock the shorter log reached. */
  lemma ReplayAppend(initial: Stock, log: seq<Movement>, m: Movement, before: Stock)
    requires Replay(initial, log) == Some(before)
    ensures Replay(initial, log + [m]) == Apply(before, m)
  {
    assert (log + [m])[..|log|] == log;
  }

  /** Only well-formed movements replay, so a log that replays holds nothing else. */
  lemma {:induction false} ReplayWellFormed(initial: Stock, log: seq<Movement>)
    requires Replay(initial, log).Some?
    ensures WellFormedLog(log)
    decreases |log|
  {
    if log != [] {
      var prefix := log[..|log| - 1];
      ReplayWellFormed(initial, prefix);
      assert forall i :: 0 <= i < |prefix| ==> log[i] == prefix[i];
    }
  }

  /** The inventory service: the inventory and movement tables, as one sequential store. */
  class InventoryServer {
    var stock: Stock
    var movements: seq<Movement>
    /** The inventory as it stood when the log began (for instance the seed data). */
    ghost const initial: Stock

    /** The audit trail is complete: replaying the log from the initial inventory gives the current one. */
    ghost predicate Valid()
      reads this
    {
      Replay(initial, movements) == Some(stock)
    }

    constructor (seed: Stock)
      ensures Valid()
      ensures stock == seed && movements == [] && initial == seed
    {
      stock := seed;
      movements := [];
      initial := seed;
    }

    /** `POST /api/placement`. */
    method Place(itemId: ItemId, locationId: LocationId, qty: real) returns (r: Result<InventoryRow, Error>)
      requires Valid()
      modifies this
      ensures Valid()
      ensures ParseQty(qty).None? ==>
        r == Failure(ValidationError) && stock == old(stock) && movements == old(movements)
      ensures ParseQty(qty).Some? ==>
        var slot, n := Slot(itemId, locationId), ParseQty(qty).value;
        && r == Success(InventoryRow(itemId, locationId, Quantity(old(stock), slot) + n))
        && stock == Credit(old(stock), slot, n)
        && movements == old(movements) + [Movement(Placement, itemId, None, Some(locationId), n)]
    {
      var parsed := ParseQty(qty);
      if parsed.None? {
        return Failure(ValidationError);
      }
      var n := parsed.value;
      var slot := Slot(itemId, locationId);
      var m := Movement(Placement, itemId, None, Some(locationId), n);
      ReplayAppend(initial, movements, m, stock);
      var quantity := Quantity(stock, slot) + n;
      stock := Credit(stock, slot, n);
      movements := movements + [m];
      r := Success(InventoryRow(itemId, locationId, quantity));
    }

    /** `POST /api/retrieval`. */
    method Retrieve(itemId: ItemId, locationId: LocationId, qty: real) returns (r: Result<InventoryRow, Error>)
      requires Valid()
      modifies this
      ensures Valid()
      ensures ParseQty(qty).None? ==>
        r == Failure(ValidationError) && stock == old(stock) && movements == old(movements)
      ensures ParseQty(qty).Some? && Quantity(old(stock), Slot(itemId, locationId)) < ParseQty(qty).value ==>
        r == Failure(InsufficientQuantity) && stock == old(stock) && movements == old(movements)
      ensures ParseQty(qty).Some? && ParseQty(qty).value <= Quantity(old(stock), Slot(itemId, locationId)) ==>
        var slot, n := Slot(itemId, locationId), ParseQty(qty).value;
        && r == Success(InventoryRow(itemId, locationId, Quantity(old(stock), slot) - n))
        && stock == Debit(old(stock), slot, n)
        && movements == old(movements) + [Movement(Retrieval, itemId, Some(locationId), None, n)]
    {
      var parsed := ParseQty(qty);
      if parsed.None? {
        return Failure(ValidationError);
      }
      var n := parsed.value;
      var slot := Slot(itemId, locationId);
      if slot !in stock || stock[slot] < n {
        return Failure(InsufficientQuantity);
      }
      var m := Movement(Retrieval, itemId, Some(locationId), None, n);
      ReplayAppend(initial, movements, m, stock);
      var quantity := stock[slot] - n;
      stock := Debit(stock, slot, n);
      movements := movements + [m];
      r := Success(InventoryRow(itemId, locationId, quantity));
    }

    /** `POST /api/transfer`; success carries no value (the handler answers `{ok: true}`). */
    method Move(itemId: ItemId, fromLocationId: LocationId, toLocationId: LocationId, qty: real)
      returns (r: Result<(), Error>)
      requires Valid()
      modifies this
      ensures Valid()
      ensures ParseQty(qty).None? ==>
        r == Failure(ValidationError) && stock == old(stock) && movements == old(movements)
      ensures ParseQty(qty).Some? && fromLocationId == toLocationId ==>
        r == Failure(SameLocation) && stock == old(stock) && movements == old(movements)
      ensures ParseQty(qty).Some? && fromLocationId != toLocationId
              && Quantity(old(stock), Slot(itemId, fromLocationId)) < ParseQty(qty).value ==>
        r == Failure(InsufficientQuantity) && stock == old(stock) && movements == old(movements)
      ensures ParseQty(qty).Some? && fromLocationId != toLocationId
              && ParseQty(qty).value <= Quantity(old(stock), Slot(itemId, fromLocationId)) ==>
        var src, dst, n := Slot(itemId, fromLocationId), Slot(itemId, toLocationId), ParseQty(qty).value;
        && r == Success(())
        && stock == Credit(Debit(old(stock), src, n), dst, n)
        && movements == old(movements) + [Movement(Transfer, itemId, Some(fromLocationId), Some(toLocationId), n)]
    {
      var parsed := ParseQty(qty);
      if parsed.None? {
        return Failure(ValidationError);
      }
      var n := parsed.value;
      if fromLocationId == toLocationId {
        return Failure(SameLocation);
      }
      var src, dst := Slot(itemId, fromLocationId), Slot(itemId, toLocationId);
      if src !in stock || stock[src] < n {
        return Failure(InsufficientQuantity);
      }
      var m := Movement(Transfer, itemId, Some(fromLocationId), Some(toLocationId), n);
      ReplayAppend(initial, movements, m, stock);
      stock := Debit(stock, src, n);
      stock := Credit(stock, dst, n);
      movements := movements + [m];
      r := Success(());
    }
  }
}
