/** The order controller: it stores every order it places, follows the exchange's status changes, and
    keeps the open position of each pair. */
module Controllers {
  import opened Types
  import opened Ledger
  import opened WalletSpec
  import opened WalletShape
  import opened PaperWallets
  import opened Positions
  import opened Settlements

  class Position {
    var side: Side
    var avgPrice: real
    var quantity: real
    var createdAt: int

    constructor (o: Order)
      ensures View() == Pos(o.side, o.price, o.quantity, o.createdAt)
    {
      side, avgPrice, quantity, createdAt := o.side, o.price, o.quantity, o.createdAt;
    }

    ghost function View(): Pos
      reads this
    {
      Pos(side, avgPrice, quantity, createdAt)
    }

    /** Applies a fill. A fill on the other side reports the value it realised; the position is
        finished when the fill has exactly its size. */
    method Update(order: Order) returns (profitValue: Option<real>, finished: bool)
      requires quantity > 0.0 && order.quantity > 0.0
      modifies this
      ensures Updated(old(View()), order) == if finished then None else Some(View())
      ensures profitValue == Realized(old(View()), order)
    {
      profitValue, finished := None, false;
      var price := order.price;
      if IsStop(order) && order.stop.Some? { price := order.stop.value; }

      if side == order.side {
        avgPrice := (Worth(quantity, avgPrice) + Worth(order.quantity, price)) / (quantity + order.quantity);
        quantity := quantity + order.quantity;
      } else {
        if quantity == order.quantity {
          finished := true;
        } else if quantity > order.quantity {
          quantity := quantity - order.quantity;
        } else {
          quantity := order.quantity - quantity;
          side := order.side;
          createdAt := order.createdAt;
          avgPrice := price;
        }
        var closed := MinReal(quantity, order.quantity);
        profitValue := Some(Worth(closed, price - avgPrice));
      }
    }
  }

  lemma SortedAreFills(filled: seq<Order>)
    requires forall i :: 0 <= i < |filled| ==> IsFill(filled[i])
    ensures forall i :: 0 <= i < |SortByTime(filled)| ==> IsFill(SortByTime(filled)[i])
  {
    SortKeepsElements(filled);
    var sorted := SortByTime(filled);
    forall i | 0 <= i < |sorted| ensures IsFill(sorted[i]) {
      assert sorted[i] in multiset(filled);
    }
  }

  /** The order table: identifiers are assigned in sequence, so the row of id k is at k - 1. */
  class Storage {
    var rows: seq<Order>

    constructor ()
      ensures rows == []
    {
      rows := [];
    }

    method CreateOrder(order: Order) returns (stored: Order)
      modifies this
      ensures stored == order.(id := |old(rows)| + 1) && rows == old(rows) + [stored]
    {
      stored := order.(id := |rows| + 1);
      rows := rows + [stored];
    }

    method UpdateOrder(order: Order)
      requires 1 <= order.id <= |rows|
      modifies this
      ensures rows == old(rows)[order.id - 1 := order]
    {
      rows := rows[order.id - 1 := order];
    }

    /** The pending rows, each once. Callers may not rely on their order: the databases differ in it. */
    method PendingOrders() returns (r: seq<Order>)
      requires InSequence(rows)
      ensures PendingRows(r, rows, |rows|)
    {
      r := [];
      hide Pending, PendingRows;
      NoRows(rows);
      for k := 0 to |rows|
        invariant PendingRows(r, rows, k)
      {
        NextRow(r, rows, k);
        if Pending(rows[k].status) { r := r + [rows[k]]; }
      }
    }
  }

  /** r holds the pending ones of the first k rows, each once, in any order. */
  predicate PendingRows(r: seq<Order>, rows: seq<Order>, k: nat) {
    && k <= |rows| && OnlyRows(r, rows, k) && Distinct(r)
    && (forall j {:trigger Lists(r, j)} :: 0 <= j < k && Pending(rows[j].status) ==> Lists(r, j))
  }

  predicate OnlyRows(r: seq<Order>, rows: seq<Order>, k: nat)
    requires k <= |rows|
  {
    forall n :: 0 <= n < |r| ==> 1 <= r[n].id <= k && r[n] == rows[r[n].id - 1] && Pending(r[n].status)
  }

  predicate Distinct(r: seq<Order>) { forall m, n :: 0 <= m < n < |r| ==> r[m].id != r[n].id }

  predicate Lists(r: seq<Order>, j: nat) { exists n :: 0 <= n < |r| && r[n].id == j + 1 }

  lemma NoRows(rows: seq<Order>)
    ensures PendingRows([], rows, 0)
  {
  }

  lemma ListsMore(r: seq<Order>, o: Order, j: nat)
    ensures Lists(r, j) ==> Lists(r + [o], j)
    ensures o.id == j + 1 ==> Lists(r + [o], j)
  {
    var r' := r + [o];
    assert r'[|r|] == o;
    if Lists(r, j) {
      var n :| 0 <= n < |r| && r[n].id == j + 1;
      assert r'[n].id == j + 1;
    }
  }

  lemma OnlyRowsMore(r: seq<Order>, rows: seq<Order>, k: nat)
    requires k < |rows| && rows[k].id == k + 1 && OnlyRows(r, rows, k)
    ensures OnlyRows(r, rows, k + 1)
    ensures Pending(rows[k].status) ==> OnlyRows(r + [rows[k]], rows, k + 1)
  {
    hide Pending;
  }

  lemma DistinctMore(r: seq<Order>, rows: seq<Order>, k: nat)
    requires k < |rows| && rows[k].id == k + 1 && OnlyRows(r, rows, k) && Distinct(r)
    ensures Distinct(r + [rows[k]])
  {
    hide Pending;
  }

  lemma NextRow(r: seq<Order>, rows: seq<Order>, k: nat)
    requires k < |rows| && rows[k].id == k + 1 && PendingRows(r, rows, k)
    ensures PendingRows(if Pending(rows[k].status) then r + [rows[k]] else r, rows, k + 1)
  {
    hide Pending, Lists, OnlyRows, Distinct;
    OnlyRowsMore(r, rows, k);
    DistinctMore(r, rows, k);
    forall j {:trigger Lists(r + [rows[k]], j)} | 0 <= j < k + 1 && Pending(rows[j].status)
      ensures Lists(r + [rows[k]], j)
    {
      ListsMore(r, rows[k], j);
    }
  }

  /** A row is the exchange's order under a storage id, with a status of its own. */
  predicate RowOf(row: Order, o: Order, id: int) {
    row == o.(id := id, status := row.status, updatedAt := row.updatedAt)
  }

  predicate Aligned(rows: seq<Order>, orders: seq<Order>) {
    |rows| == |orders| && forall k :: 0 <= k < |rows| ==> RowOf(rows[k], orders[k], k + 1)
  }

  predicate SameStatus(rows: seq<Order>, orders: seq<Order>) {
    |rows| == |orders| && forall k :: 0 <= k < |rows| ==> rows[k].status == orders[k].status
  }

  /** Only pending rows may lag behind the exchange. */
  predicate LagIsPending(rows: seq<Order>, orders: seq<Order>) {
    |rows| == |orders| && forall k :: 0 <= k < |rows| ==> Pending(rows[k].status) || rows[k].status == orders[k].status
  }

  /** The stored fills grow by the fills among the updated orders, each once. */
  ghost predicate Tallied(rows0: seq<Order>, rows: seq<Order>, updated: seq<Order>) {
    multiset(FilledOnly(rows)) == multiset(FilledOnly(rows0)) + multiset(FilledOnly(updated))
  }

  predicate Positive(orders: seq<Order>) { forall i :: 0 <= i < |orders| ==> orders[i].quantity > 0.0 }

  lemma NothingTallied(rows: seq<Order>)
    ensures Tallied(rows, rows, []) && Positive([])
  {
  }

  lemma NextTallied(rows0: seq<Order>, before: seq<Order>, rows: seq<Order>, updated: seq<Order>, o: Order)
    requires Tallied(rows0, before, updated)
    requires Tallied(before, rows, [o])
    ensures Tallied(rows0, rows, updated + [o])
  {
    FilledAppend(updated, o);
    FilledAppend([], o);
  }

  lemma UpdateTallied(rows: seq<Order>, k: nat, update: Order)
    requires k < |rows| && rows[k].status != Filled
    ensures Tallied(rows, rows[k := update], [update])
  {
    FilledUpdate(rows, k, update);
    FilledAppend([], update);
    hide FilledOnly;
    assert [] + [update] == [update];
  }

  class Controller {
    const exchange: PaperWallet
    const storage: Storage
    var position: map<Pair, Position>
    ghost var applied: seq<Order> // the fills, in the order in which they were applied

    constructor (exchange: PaperWallet, storage: Storage)
      ensures this.exchange == exchange && this.storage == storage
      ensures Logged() && Positions() == map[] && applied == []
    {
      this.exchange, this.storage, position, applied := exchange, storage, map[], [];
    }

    /** No two pairs share a position object. */
    ghost predicate Owned()
      reads this
    {
      forall p, q :: p in position && q in position && p != q ==> position[p] != position[q]
    }

    ghost function Positions(): map<Pair, Pos>
      reads this, position.Values
    {
      map p | p in position :: position[p].View()
    }

    /** The positions are what the applied fills make, in their order. */
    ghost predicate Logged()
      reads this, position.Values
    {
      Owned() && AreFills(applied) && Positions() == ApplyAll(map[], applied)
    }

    method ApplyToPosition(o: Order) returns (profitValue: Option<real>)
      requires Owned() && Sizes(Positions()) && o.quantity > 0.0
      modifies this`position, position.Values
      ensures Owned() && fresh(position.Values - old(position.Values))
      ensures Positions() == Apply(old(Positions()), o)
      ensures profitValue
           == if o.pair in old(position) then Realized(old(Positions())[o.pair], o) else None
    {
      if o.pair !in position {
        var entry := new Position(o);
        position := position[o.pair := entry];
        return None;
      }
      assert Positions()[o.pair].quantity > 0.0;
      var closed;
      profitValue, closed := position[o.pair].Update(o);
      if closed { position := position - {o.pair}; }
    }

    /** Rebuilds the positions of a session from its order history, oldest fill first. */
    method RestorePositions(orders: seq<Order>)
      requires position == map[] && forall i :: 0 <= i < |orders| ==> orders[i].quantity > 0.0
      modifies this`position, this`applied
      ensures Logged() && Positions() == Restored(orders) && applied == SortByTime(FilledOnly(orders))
    {
      hide Apply, FilledOnly, SortByTime;
      var filled := FilledOf(orders);
      var sorted := SortByTime(filled);
      SortedAreFills(filled);
      for i := 0 to |sorted|
        invariant Owned() && fresh(position.Values)
        invariant Positions() == ApplyAll(map[], sorted[..i])
      {
        PositionsAreNetOfFills(map[], sorted[..i], sorted[i].pair);
        var _ := ApplyToPosition(sorted[i]);
        assert sorted[..i + 1][..i] == sorted[..i];
      }
      assert sorted[..|sorted|] == sorted;
      applied := sorted;
    }

    method FilledOf(orders: seq<Order>) returns (filled: seq<Order>)
      ensures filled == FilledOnly(orders)
    {
      filled := [];
      for i := 0 to |orders|
        invariant filled == FilledOnly(orders[..i])
      {
        assert orders[..i + 1][..i] == orders[..i];
        if orders[i].status == Filled { filled := filled + [orders[i]]; }
      }
      assert orders[..|orders|] == orders;
    }

    method ProcessTrade(order: Order)
      requires Logged() && order.quantity > 0.0
      modifies this`position, this`applied, position.Values
      ensures Logged() && fresh(position.Values - old(position.Values))
      ensures applied == if order.status == Filled then old(applied) + [order] else old(applied)
      ensures Positions() == if order.status == Filled then Apply(old(Positions()), order) else old(Positions())
    {
      if order.status != Filled { return; }
      LogIsNet(applied);
      ReplayOne(applied, order);
      var _ := ApplyToPosition(order);
      applied := applied + [order];
    }

    /** Asks the exchange for one pending row and stores the answer if its status changed. */
    method Refresh(row: Order) returns (changed: Option<Order>)
      requires WellFormed(exchange.View())
      requires 1 <= row.id <= |storage.rows| && row == storage.rows[row.id - 1] && Pending(row.status)
      modifies storage
      ensures changed == Visit(row, exchange.orders)
      ensures storage.rows == old(storage.rows)[row.id - 1 := SettledRow(row, exchange.orders)]
      ensures changed.Some? ==>
        changed.value.quantity > 0.0 && Tallied(old(storage.rows), storage.rows, [changed.value])
    {
      hide WellFormed, Tallied, Found;
      ghost var rows0 := storage.rows;
      assert rows0[row.id - 1 := row] == rows0;
      changed := None;
      var found := exchange.Order(row.exchangeId);
      match found
      case None => // not known to the exchange: the row stays
      case Some(excOrder) =>
        OrdersAreSane(exchange.View(), excOrder);
        if excOrder.status == row.status { return; }
        var update := excOrder.(id := row.id);
        storage.UpdateOrder(update);
        UpdateTallied(rows0, row.id - 1, update);
        changed := Some(update);
    }

    method Collect(row: Order, updated: seq<Order>, ghost rows0: seq<Order>) returns (updated': seq<Order>)
      requires WellFormed(exchange.View())
      requires 1 <= row.id <= |storage.rows| && row == storage.rows[row.id - 1] && Pending(row.status)
      requires Tallied(rows0, storage.rows, updated) && Positive(updated)
      modifies storage
      ensures storage.rows == old(storage.rows)[row.id - 1 := SettledRow(row, exchange.orders)]
      ensures Tallied(rows0, storage.rows, updated') && Positive(updated')
      ensures var update := Visit(row, exchange.orders);
        updated' == if update.Some? then updated + [update.value] else updated
    {
      hide WellFormed, Tallied, Pending, Visit, SettledRow;
      updated' := updated;
      ghost var before := storage.rows;
      var changed := Refresh(row);
      if changed.Some? {
        NextTallied(rows0, before, storage.rows, updated, changed.value);
        updated' := updated + [changed.value];
      } else {
        UnvisitedStays(row, exchange.orders);
        assert before[row.id - 1 := row] == before;
      }
    }

    /** Visits the pending rows one by one. */
    method CollectFrom(pending: seq<Order>) returns (updated: seq<Order>)
      requires WellFormed(exchange.View())
      requires PendingRows(pending, storage.rows, |storage.rows|)
      modifies storage
      ensures storage.rows == SettledRows(old(storage.rows), exchange.orders)
      ensures Positive(updated) && Tallied(old(storage.rows), storage.rows, updated)
      ensures updated == Collected(pending, exchange.orders)
    {
      hide WellFormed, Progress, Tallied, Positive, Visit, Collected, SettledRow, SettledRows, PendingRows, Pending;
      NothingCollected(exchange.orders);
      updated := [];
      ghost var rows0, orders := storage.rows, exchange.orders;
      NothingTallied(rows0);
      StartProgress(rows0, orders, pending);
      for n := 0 to |pending|
        invariant exchange.View() == old(exchange.View())
        invariant Progress(rows0, storage.rows, orders, pending, n)
        invariant Positive(updated) && Tallied(rows0, storage.rows, updated)
        invariant updated == Collected(pending[..n], orders)
      {
        ghost var before := storage.rows;
        NextPending(rows0, before, orders, pending, n);
        CollectedNext(pending, n, orders);
        updated := Collect(pending[n], updated, rows0);
        RowRefreshed(rows0, before, orders, pending, n);
      }
      AllRowsSettled(rows0, storage.rows, orders, pending);
      assert pending[..|pending|] == pending;
    }

    /** First half of a settlement: copies status changes from the exchange into storage and returns
        the changed orders, each once. Storage may hold rows of other wallets too. */
    method CollectUpdates() returns (updated: seq<Order>)
      requires WellFormed(exchange.View()) && InSequence(storage.rows)
      modifies storage
      ensures storage.rows == SettledRows(old(storage.rows), exchange.orders)
      ensures Positive(updated)
      ensures multiset(FilledOnly(updated)) == multiset(FilledOnly(Collected(old(storage.rows), exchange.orders)))
    {
      hide WellFormed, PendingRows, Positive, Collected, SettledRows, FilledOnly;
      ghost var rows0 := storage.rows;
      var pending := storage.PendingOrders();
      updated := CollectFrom(pending);
      SettledRowsTally(rows0, exchange.orders);
      SameGain(rows0, storage.rows, updated, Collected(rows0, exchange.orders));
    }

    // ----- the controller follows the exchange -----

    /** Every filled row has been applied exactly once. */
    ghost predicate Netted()
      reads this, position.Values, storage
    {
      Logged() && multiset(applied) == multiset(FilledOnly(storage.rows))
    }

    /** Every stored order was filled and applied as it was stored. */
    ghost predicate Immediate()
      reads this, storage
    {
      applied == storage.rows
    }

    ghost predicate Linked()
      reads this, position.Values, storage, exchange
    {
      && Netted() && exchange.Valid()
      && Aligned(storage.rows, exchange.orders)
      && Following(storage.rows, exchange.orders, exchange.pendingOrders)
    }

    /** Settlement: every pending row catches up with the exchange, and each fill among the updates is applied
        exactly once. Which fills these are, `Collected` says, whatever rows storage holds. */
    method UpdateOrders()
      requires Logged() && WellFormed(exchange.View()) && InSequence(storage.rows)
      modifies storage, this`position, this`applied, position.Values
      ensures Logged() && fresh(position.Values - old(position.Values))
      ensures storage.rows == SettledRows(old(storage.rows), exchange.orders)
      ensures old(applied) <= applied
      ensures multiset(applied[|old(applied)|..])
           == multiset(FilledOnly(Collected(old(storage.rows), exchange.orders)))
      ensures Positions() == ApplyAll(old(Positions()), applied[|old(applied)|..])
      ensures old(Netted()) ==> Netted()
    {
      hide WellFormed, Positive, FilledOnly, ApplyAll, AreFills, Collected, SettledRows, InSequence;
      ghost var before, rows0 := applied, storage.rows;
      var updated := CollectUpdates();
      ProcessTrades(updated);
      assert applied[..|before|] == before && applied[|before|..] == FilledOnly(updated);
      SettledRowsTally(rows0, exchange.orders);
      ApplyInParts(map[], before, FilledOnly(updated));
    }

    method ProcessTrades(orders: seq<Order>)
      requires Logged() && Positive(orders)
      modifies this`position, this`applied, position.Values
      ensures Logged() && fresh(position.Values - old(position.Values))
      ensures applied == old(applied) + FilledOnly(orders)
    {
      hide FilledOnly, ApplyAll, Apply, AreFills;
      ghost var before := applied;
      NoFills();
      for n := 0 to |orders|
        invariant Logged() && fresh(position.Values - old(position.Values))
        invariant applied == before + FilledOnly(orders[..n])
      {
        FilledAppend(orders[..n], orders[n]);
        assert orders[..n + 1] == orders[..n] + [orders[n]];
        ProcessTrade(orders[n]);
      }
      assert orders[..|orders|] == orders;
    }

    /** Stores the exchange's next order; a fill is applied to its position right away. */
    method Store(order: Order, fill: bool) returns (stored: Order)
      requires Netted() && |storage.rows| < |exchange.orders| && exchange.orders[|storage.rows|] == order
      requires order.quantity > 0.0 && (fill <==> order.status == Filled)
      modifies storage, this`position, this`applied, position.Values
      ensures Netted() && fresh(position.Values - old(position.Values))
      ensures stored == order.(id := |old(storage.rows)| + 1) && storage.rows == old(storage.rows) + [stored]
      ensures applied == if fill then old(applied) + [stored] else old(applied)
      ensures Positions() == if fill then Apply(old(Positions()), stored) else old(Positions())
    {
      hide Apply, ApplyAll, FilledOnly, AreFills;
      ghost var rows := storage.rows;
      stored := storage.CreateOrder(order);
      FilledAppend(rows, stored);
      if fill { ProcessTrade(stored); }
    }

    method CreateOrderMarket(side: Side, pair: Pair, size: real) returns (r: Result<Order>)
      requires Linked() && exchange.Tradable(pair, size)
      modifies this`position, this`applied, position.Values, storage, exchange
      ensures Linked() && fresh(position.Values - old(position.Values))
      ensures exchange.View() == PlaceMarket(old(exchange.View()), side, pair, size)
      ensures Reply(r, size, old(exchange.View()), side, pair, WalletSpec.Close(old(exchange.View()), pair))
      ensures applied == if r.Ok? then old(applied) + [r.value] else old(applied)
      ensures Positions() == if r.Ok? then Apply(old(Positions()), r.value) else old(Positions())
      ensures storage.rows == if r.Ok? then old(storage.rows) + [r.value] else old(storage.rows)
    {
      hide Netted, WellFormed, IndexCovers, PlaceMarket, Accepts, Apply;
      var reply := exchange.CreateOrderMarket(side, pair, size);
      if reply.Err? { return reply; }
      var stored := Store(reply.value, true);
      r := Ok(stored);
    }

    method CreateOrderLimit(side: Side, pair: Pair, size: real, limit: real) returns (r: Result<Order>)
      requires Linked() && exchange.Tradable(pair, size)
      modifies this`position, this`applied, position.Values, storage, exchange
      ensures Linked() && fresh(position.Values - old(position.Values))
      ensures exchange.View() == PlaceLimit(old(exchange.View()), side, pair, size, limit)
      ensures Reply(r, size, old(exchange.View()), side, pair, limit)
      ensures applied == old(applied) && Positions() == old(Positions())
      ensures storage.rows == if r.Ok? then old(storage.rows) + [r.value] else old(storage.rows)
    {
      hide Netted, WellFormed, IndexCovers, PlaceLimit, Accepts, Apply;
      var reply := exchange.CreateOrderLimit(side, pair, size, limit);
      if reply.Err? { return reply; }
      var stored := Store(reply.value, false);
      r := Ok(stored);
    }

    method CreateOrderStop(pair: Pair, size: real, limit: real) returns (r: Result<Order>)
      requires Linked() && exchange.Tradable(pair, size)
      modifies this`position, this`applied, position.Values, storage, exchange
      ensures Linked() && fresh(position.Values - old(position.Values))
      ensures exchange.View() == PlaceStop(old(exchange.View()), pair, size, limit)
      ensures Reply(r, size, old(exchange.View()), Sell, pair, limit)
      ensures applied == old(applied) && Positions() == old(Positions())
      ensures storage.rows == if r.Ok? then old(storage.rows) + [r.value] else old(storage.rows)
    {
      hide Netted, WellFormed, IndexCovers, PlaceStop, Accepts, Apply;
      var reply := exchange.CreateOrderStop(pair, size, limit);
      if reply.Err? { return reply; }
      var stored := Store(reply.value, false);
      r := Ok(stored);
    }

    method CreateOrderOCO(side: Side, pair: Pair, size: real, price: real, stop: real, stopLimit: real)
      returns (r: Result<(Order, Order)>)
      requires Linked() && exchange.Tradable(pair, size)
      modifies this`position, this`applied, position.Values, storage, exchange
      ensures Linked() && fresh(position.Values - old(position.Values))
      ensures exchange.View() == PlaceOco(old(exchange.View()), side, pair, size, price, stop, stopLimit)
      ensures Reply(r, size, old(exchange.View()), side, pair, price)
      ensures applied == old(applied) && Positions() == old(Positions())
      ensures storage.rows
           == if r.Ok? then old(storage.rows) + [r.value.0] + [r.value.1] else old(storage.rows)
    {
      hide Netted, WellFormed, IndexCovers, PlaceOco, Accepts, Apply;
      var reply := exchange.CreateOrderOCO(side, pair, size, price, stop, stopLimit);
      if reply.Err? { return reply; }
      var first, second := StoreGroup(reply.value.0, reply.value.1);
      r := Ok((first, second));
    }

    /** Stores the two legs of a group, which are pending. */
    method StoreGroup(maker: Order, stopper: Order) returns (first: Order, second: Order)
      requires Netted() && |storage.rows| <= |exchange.orders|
      requires exchange.orders == exchange.orders[..|storage.rows|] + [maker] + [stopper]
      requires maker.quantity > 0.0 && maker.status != Filled && stopper.quantity > 0.0 && stopper.status != Filled
      modifies storage, this`position, this`applied, position.Values
      ensures Netted() && fresh(position.Values - old(position.Values))
      ensures applied == old(applied) && Positions() == old(Positions())
      ensures first == maker.(id := |old(storage.rows)| + 1) && second == stopper.(id := |old(storage.rows)| + 2)
      ensures storage.rows == old(storage.rows) + [first] + [second]
    {
      hide Netted, Apply;
      first := Store(maker, false);
      second := Store(stopper, false);
    }

    /** Cancels an order: the exchange has it cancelled, storage notes a pending cancel. A pending one stays in
        step; cancelling an order that is settled already would undo that on the exchange as well. */
    method Cancel(order: Order)
      requires Linked() && 1 <= order.id <= |storage.rows| && storage.rows[order.id - 1] == order
      modifies storage, exchange
      ensures order.status == New ==> Linked()
      ensures exchange.View() == CancelOrder(old(exchange.View()), order.id - 1)
      ensures storage.rows == old(storage.rows)[order.id - 1 := order.(status := PendingCancel)]
    {
      hide Logged, FilledOnly, WellFormed, CancelOrder, Following, Aligned, IndexCovers;
      ghost var k := order.id - 1;
      CancelledRows(storage.rows, exchange.View(), exchange.pendingOrders, k);
      exchange.Cancel(order);
      var cancelled := order.(status := PendingCancel);
      storage.UpdateOrder(cancelled);
    }
  }

  /** What cancelling order k does to a row and to the exchange's order keeps them in step. */
  lemma CancelledRows(rows: seq<Order>, b: Book, index: map<Pair, seq<nat>>, k: nat)
    requires WellFormed(b) && Aligned(rows, b.orders)
    requires Following(rows, b.orders, index) && IndexCovers(b.orders, index)
    requires k < |rows|
    ensures |rows| == |b.orders| && rows[k].price == b.orders[k].price && rows[k].quantity == b.orders[k].quantity
    ensures forall i :: 0 <= i < |b.orders| && b.orders[i].exchangeId == rows[k].exchangeId <==> i == k
    ensures rows[k].status == New ==>
      var r, o := rows[k := rows[k].(status := PendingCancel)], CancelOrder(b, k).orders;
      Aligned(r, o) && Following(r, o, index) && multiset(FilledOnly(r)) == multiset(FilledOnly(rows))
  {
    hide WellFormed, CancelOrder, FilledOnly;
    assert RowOf(rows[k], b.orders[k], k + 1);
    forall i | 0 <= i < |b.orders| && b.orders[i].exchangeId == rows[k].exchangeId ensures i == k {
      IdentifierIsUnique(b, i, k);
    }
    CancelledOrders(b, k);
    if rows[k].status == New {
      CancelledFollows(rows, b.orders, index, k);
      PendingCancelFillsNothing(rows, k);
    }
  }

  lemma OrdersAreSane(b: Book, o: Order)
    requires WellFormed(b) && o in b.orders
    ensures o.quantity > 0.0
  {
    var j :| 0 <= j < |b.orders| && b.orders[j] == o;
    assert Sane(b.orders[j]);
  }

  lemma UnvisitedStays(row: Order, orders: seq<Order>)
    ensures Visit(row, orders).None? ==> SettledRow(row, orders) == row
  {
    hide Visit;
  }

  lemma SameGain(rows0: seq<Order>, rows: seq<Order>, a: seq<Order>, b: seq<Order>)
    requires Tallied(rows0, rows, a) && Tallied(rows0, rows, b)
    ensures multiset(FilledOnly(a)) == multiset(FilledOnly(b))
  {
    hide FilledOnly;
    var x, y, z := multiset(FilledOnly(rows0)), multiset(FilledOnly(a)), multiset(FilledOnly(b));
    assert x + y - x == y && x + z - x == z;
  }

  /** Looking up the number of order k finds that order. */
  lemma NumberIsFound(b: Book, k: nat)
    requires WellFormed(b) && k < |b.orders|
    ensures Found(b.orders, b.orders[k].exchangeId) == Some(b.orders[k])
  {
    var r := Found(b.orders, b.orders[k].exchangeId);
    var i :| 0 <= i < |b.orders| && b.orders[i] == r.value;
    IdentifierIsUnique(b, i, k);
  }

  /** Of a wallet's own rows, a settlement leaves none behind. */
  lemma OwnRowsFollow(rows: seq<Order>, b: Book)
    requires WellFormed(b) && Aligned(rows, b.orders) && LagIsPending(rows, b.orders)
    ensures Aligned(SettledRows(rows, b.orders), b.orders) && SameStatus(SettledRows(rows, b.orders), b.orders)
  {
    hide WellFormed, Found;
    var r := SettledRows(rows, b.orders);
    forall k | 0 <= k < |r| ensures RowOf(r[k], b.orders[k], k + 1) && r[k].status == b.orders[k].status {
      assert RowOf(rows[k], b.orders[k], k + 1);
      NumberIsFound(b, k);
    }
  }

  lemma NothingCollected(orders: seq<Order>)
    ensures Collected([], orders) == []
  {
  }

  lemma PendingCancelFillsNothing(rows: seq<Order>, k: nat)
    requires k < |rows| && rows[k].status == New
    ensures multiset(FilledOnly(rows[k := rows[k].(status := PendingCancel)])) == multiset(FilledOnly(rows))
  {
    FilledUpdate(rows, k, rows[k].(status := PendingCancel));
  }

  lemma NoFills()
    ensures FilledOnly([]) == []
  {
  }

  /** A log of fills makes positions of positive size. */
  lemma LogIsNet(fills: seq<Order>)
    requires AreFills(fills)
    ensures Sizes(ApplyAll(map[], fills))
  {
    forall p | p in ApplyAll(map[], fills) ensures ApplyAll(map[], fills)[p].quantity > 0.0 {
      PositionsAreNetOfFills(map[], fills, p);
    }
  }

  lemma CancelledFollows(rows: seq<Order>, orders: seq<Order>, index: map<Pair, seq<nat>>, k: nat)
    requires Aligned(rows, orders) && Following(rows, orders, index) && IndexCovers(orders, index)
    requires k < |rows| && rows[k].status == New
    ensures var r, o := rows[k := rows[k].(status := PendingCancel)], orders[k := orders[k].(status := Canceled)];
      orders[k].status == New && Aligned(r, o) && Following(r, o, index)
  {
    assert RowOf(rows[k], orders[k], k + 1);
  }

  /** A row has the exchange's status, or is waiting for a cancellation that the index still shows. */
  ghost predicate Following(rows: seq<Order>, orders: seq<Order>, index: map<Pair, seq<nat>>) {
    |rows| == |orders| && forall k :: 0 <= k < |rows| ==>
      rows[k].status == orders[k].status
      || (rows[k].status == PendingCancel && orders[k].status == Canceled
          && orders[k].pair in index && k in index[orders[k].pair])
  }

  // ----- progress of a settlement over the pending rows -----

  /** The first n pending rows are settled; the other rows are untouched. */
  ghost predicate Progress(rows0: seq<Order>, rows: seq<Order>, orders: seq<Order>, pending: seq<Order>, n: nat) {
    && PendingRows(pending, rows0, |rows0|) && n <= |pending| && |rows| == |rows0|
    && forall k :: 0 <= k < |rows| ==>
         rows[k] == if Lists(pending[..n], k) then SettledRow(rows0[k], orders) else rows0[k]
  }

  predicate InSequence(rows: seq<Order>) { forall k :: 0 <= k < |rows| ==> rows[k].id == k + 1 }

  lemma AlignedIds(rows: seq<Order>, orders: seq<Order>)
    requires Aligned(rows, orders)
    ensures |rows| == |orders| && InSequence(rows)
  {
    forall k | 0 <= k < |rows| ensures rows[k].id == k + 1 { assert RowOf(rows[k], orders[k], k + 1); }
  }

  lemma StartProgress(rows: seq<Order>, orders: seq<Order>, pending: seq<Order>)
    requires PendingRows(pending, rows, |rows|)
    ensures Progress(rows, rows, orders, pending, 0)
  {
  }

  lemma NotYetListed(pending: seq<Order>, n: nat)
    requires Distinct(pending) && n < |pending| && pending[n].id >= 1
    ensures !Lists(pending[..n], pending[n].id - 1)
  {
  }

  lemma NextPending(rows0: seq<Order>, rows: seq<Order>, orders: seq<Order>, pending: seq<Order>, n: nat)
    requires Progress(rows0, rows, orders, pending, n) && n < |pending|
    ensures 1 <= pending[n].id <= |rows| && rows[pending[n].id - 1] == pending[n] && Pending(pending[n].status)
  {
    NotYetListed(pending, n);
    hide Lists, SettledRow, Pending;
  }

  lemma RowRefreshed(rows0: seq<Order>, before: seq<Order>, orders: seq<Order>, pending: seq<Order>, n: nat)
    requires Progress(rows0, before, orders, pending, n) && n < |pending|
    ensures 1 <= pending[n].id <= |before|
    ensures Progress(rows0, before[pending[n].id - 1 := SettledRow(pending[n], orders)], orders, pending, n + 1)
  {
    NextPending(rows0, before, orders, pending, n);
    NotYetListed(pending, n);
    assert pending[..n + 1] == pending[..n] + [pending[n]];
    hide SettledRow, Pending;
    forall k | 0 <= k < |rows0|
      ensures Lists(pending[..n + 1], k) <==> Lists(pending[..n], k) || pending[n].id == k + 1
    {
      ListsMore(pending[..n], pending[n], k);
      ListsOrLast(pending[..n], pending[n], k);
    }
    hide Lists;
  }

  lemma ListsOrLast(r: seq<Order>, o: Order, j: nat)
    ensures Lists(r + [o], j) ==> Lists(r, j) || o.id == j + 1
  {
    if Lists(r + [o], j) {
      var n :| 0 <= n < |r + [o]| && (r + [o])[n].id == j + 1;
      if n < |r| { assert r[n].id == j + 1; }
    }
  }

  lemma AllRowsSettled(rows0: seq<Order>, rows: seq<Order>, orders: seq<Order>, pending: seq<Order>)
    requires Progress(rows0, rows, orders, pending, |pending|)
    ensures rows == SettledRows(rows0, orders)
  {
    hide Lists, Pending, Visit;
    assert pending[..|pending|] == pending;
    forall k | 0 <= k < |rows| ensures rows[k] == SettledRow(rows0[k], orders) {
      if Pending(rows0[k].status) { assert Lists(pending, k); }
    }
  }
}
