/** What one settlement collects from the exchange, when storage may also hold rows of other wallets: the
    pending rows are fetched without regard to the session, and every wallet numbers its orders from 1. */
module Settlements {
  import opened Types
  import opened WalletSpec
  import opened Positions

  predicate Pending(s: Status) { s in {New, PartiallyFilled, PendingCancel} }

  /** The exchange's order under the row's id, if its status is not the row's. */
  function Visit(row: Order, orders: seq<Order>): Option<Order> {
    var found := Found(orders, row.exchangeId);
    if found.None? || found.value.status == row.status then None else Some(found.value.(id := row.id))
  }

  /** The updates that visiting the rows in turn collects. */
  function Collected(rows: seq<Order>, orders: seq<Order>): seq<Order> {
    if rows == [] then []
    else
      var init, row := Collected(rows[..|rows|-1], orders), rows[|rows|-1];
      var update := Visit(row, orders);
      if Pending(row.status) && update.Some? then init + [update.value] else init
  }

  /** What a visit leaves of a row. */
  function SettledRow(row: Order, orders: seq<Order>): Order {
    if Pending(row.status) && Visit(row, orders).Some? then Visit(row, orders).value else row
  }

  /** The rows after a settlement. */
  function SettledRows(rows: seq<Order>, orders: seq<Order>): (r: seq<Order>)
    ensures |r| == |rows| && forall k :: 0 <= k < |rows| ==> r[k] == SettledRow(rows[k], orders)
  {
    if rows == [] then []
    else SettledRows(rows[..|rows|-1], orders) + [SettledRow(rows[|rows|-1], orders)]
  }

  /** The stored fills grow by the fills that the settlement collects, each once. */
  lemma {:induction false} SettledRowsTally(rows: seq<Order>, orders: seq<Order>)
    ensures multiset(FilledOnly(SettledRows(rows, orders)))
         == multiset(FilledOnly(rows)) + multiset(FilledOnly(Collected(rows, orders)))
  {
    hide Visit, FilledOnly;
    NoFilled();
    if rows != [] {
      var init, row := rows[..|rows|-1], rows[|rows|-1];
      SettledRowsTally(init, orders);
      assert rows == init + [row];
      FilledAppend(init, row);
      FilledAppend(SettledRows(init, orders), SettledRow(row, orders));
      if Pending(row.status) && Visit(row, orders).Some? {
        FilledAppend(Collected(init, orders), Visit(row, orders).value);
      }
    }
  }

  /** No row waits for the exchange. */
  predicate NothingPends(rows: seq<Order>) { forall k :: 0 <= k < |rows| ==> !Pending(rows[k].status) }

  lemma {:induction false} NothingPendsNothingMoves(rows: seq<Order>, orders: seq<Order>)
    requires NothingPends(rows)
    ensures SettledRows(rows, orders) == rows && Collected(rows, orders) == []
  {
    if rows != [] {
      var init := rows[..|rows|-1];
      assert forall k :: 0 <= k < |init| ==> init[k] == rows[k];
      NothingPendsNothingMoves(init, orders);
    }
  }

  lemma CollectedNext(rows: seq<Order>, n: nat, orders: seq<Order>)
    requires n < |rows| && Pending(rows[n].status)
    ensures var update := Visit(rows[n], orders);
      Collected(rows[..n + 1], orders)
      == if update.Some? then Collected(rows[..n], orders) + [update.value] else Collected(rows[..n], orders)
  {
    assert rows[..n + 1][..n] == rows[..n];
  }

  /** The number belongs to an order that is filled. */
  predicate FilledNumber(orders: seq<Order>, exchangeId: int) {
    exists i :: 0 <= i < |orders| && orders[i].exchangeId == exchangeId && orders[i].status == Filled
  }

  predicate Numbered(orders: seq<Order>) {
    forall i, j :: 0 <= i < j < |orders| ==> orders[i].exchangeId != orders[j].exchangeId
  }

  lemma SameNumber(orders: seq<Order>, i: nat, j: nat)
    requires Numbered(orders) && i < |orders| && j < |orders| && orders[i].exchangeId == orders[j].exchangeId
    ensures i == j
  {
  }

  /** A pending row adds a fill exactly if its number is that of a filled order. */
  lemma VisitFills(row: Order, orders: seq<Order>)
    requires Numbered(orders) && Pending(row.status)
    ensures Visit(row, orders).Some? && Visit(row, orders).value.status == Filled
       <==> FilledNumber(orders, row.exchangeId)
  {
    hide Numbered;
    var found := Found(orders, row.exchangeId);
    if found.Some? {
      var j :| 0 <= j < |orders| && orders[j] == found.value;
      forall i | 0 <= i < |orders| && orders[i].exchangeId == row.exchangeId ensures i == j {
        SameNumber(orders, i, j);
      }
    }
  }

  /** A row that waits takes over the exchange's order with its number, under its own id; a row that has been filled,
      cancelled, refused or has expired stays as it is, and so does one whose number the exchange does not know. */
  lemma RowTakesItsOrder(row: Order, orders: seq<Order>)
    requires Numbered(orders)
    ensures forall i :: 0 <= i < |orders| && orders[i].exchangeId == row.exchangeId ==>
      SettledRow(row, orders)
      == if row.status in {Filled, Canceled, Rejected, Expired} || row.status == orders[i].status then row
         else orders[i].(id := row.id)
    ensures (forall i :: 0 <= i < |orders| ==> orders[i].exchangeId != row.exchangeId) ==>
      SettledRow(row, orders) == row
  {
    hide Numbered;
    var found := Found(orders, row.exchangeId);
    if found.Some? {
      var j :| 0 <= j < |orders| && orders[j] == found.value;
      forall i | 0 <= i < |orders| && orders[i].exchangeId == row.exchangeId ensures i == j {
        SameNumber(orders, i, j);
      }
    }
  }

  lemma {:induction false} CollectedInParts(own: seq<Order>, foreign: seq<Order>, orders: seq<Order>)
    ensures FilledOnly(Collected(own + foreign, orders))
         == FilledOnly(Collected(own, orders)) + FilledOnly(Collected(foreign, orders))
  {
    hide Pending, Visit, FilledOnly;
    NoFilled();
    if foreign == [] {
      assert own + foreign == own && Collected(foreign, orders) == [];
    } else {
      var init, row := foreign[..|foreign|-1], foreign[|foreign|-1];
      CollectedInParts(own, init, orders);
      assert (own + foreign)[..|own + foreign|-1] == own + init;
      if Pending(row.status) && Visit(row, orders).Some? {
        FilledAppend(Collected(own + init, orders), Visit(row, orders).value);
        FilledAppend(Collected(init, orders), Visit(row, orders).value);
      }
    }
  }

  lemma NoFilled()
    ensures FilledOnly([]) == []
  {
  }

  /** Rows collect no fill exactly if no pending one carries the number of a filled order. */
  lemma {:induction false} NoFillsIff(rows: seq<Order>, orders: seq<Order>)
    requires Numbered(orders)
    ensures FilledOnly(Collected(rows, orders)) == [] <==>
      forall i :: 0 <= i < |rows| && Pending(rows[i].status) ==> !FilledNumber(orders, rows[i].exchangeId)
  {
    hide Pending, Visit, FilledNumber, Numbered, FilledOnly;
    NoFilled();
    if rows != [] {
      var init, row := rows[..|rows|-1], rows[|rows|-1];
      assert forall i :: 0 <= i < |init| ==> init[i] == rows[i];
      NoFillsIff(init, orders);
      if Pending(row.status) {
        VisitFills(row, orders);
        if Visit(row, orders).Some? { FilledAppend(Collected(init, orders), Visit(row, orders).value); }
      }
    }
  }

  /** One settlement applies just the wallet's own new fills exactly when no pending foreign row carries the number
      of an order that is filled. */
  lemma SettlementIsOwnIff(own: seq<Order>, foreign: seq<Order>, orders: seq<Order>)
    requires Numbered(orders)
    ensures multiset(FilledOnly(Collected(own + foreign, orders))) == multiset(FilledOnly(Collected(own, orders)))
       <==> forall i :: 0 <= i < |foreign| && Pending(foreign[i].status) ==>
              !FilledNumber(orders, foreign[i].exchangeId)
  {
    hide Numbered, FilledNumber, Pending, Collected, FilledOnly;
    CollectedInParts(own, foreign, orders);
    NoFillsIff(foreign, orders);
    var alone, more := FilledOnly(Collected(own, orders)), FilledOnly(Collected(foreign, orders));
    assert multiset(alone + more) == multiset(alone) + multiset(more);
    if more == [] {
      assert alone + more == alone;
    } else {
      assert more[0] in multiset(more);
    }
  }

  /** Otherwise a fill is applied once more: the positions differ from the wallet's own. One buy of a resumed
      wallet, whose number an older pending row shares, makes a position of twice its size. */
  lemma ForeignRowDoublesAFill(o: Order, stale: Order, p: Pair)
    requires o.status == Filled && o.quantity > 0.0 && o.pair == p
    requires stale.exchangeId == o.exchangeId && Pending(stale.status)
    ensures var row := o.(id := 1, status := New);
      var m := ApplyAll(map[], FilledOnly(Collected([row, stale], [o])));
      p in m && m[p].quantity == 2.0 * o.quantity
  {
    var row := o.(id := 1, status := New);
    var first, second := o.(id := row.id), o.(id := stale.id);
    assert Found([o], o.exchangeId) == Some(o);
    assert [row, stale][..1] == [row] && [row][..0] == [];
    assert Collected([row], [o]) == [first];
    assert Collected([row, stale], [o]) == [first, second];
    assert [first, second] == [] + [first] + [second];
    FilledAppend([], first);
    FilledAppend([] + [first], second);
    ReplayOne([], first);
    ReplayOne([first], second);
    assert [] + [first] == [first];
    hide Collected, FilledOnly, ApplyAll;
    TwiceTheSize(first, second);
  }

  lemma TwiceTheSize(a: Order, b: Order)
    requires a.pair == b.pair && a.side == b.side && a.quantity == b.quantity > 0.0
    ensures var m := Apply(Apply(map[], a), b); a.pair in m && m[a.pair].quantity == 2.0 * a.quantity
  {
  }

  // ----- whole runs -----

  /** One settlement of a run: the rows the wallet has stored since the last one, and the exchange's orders. */
  datatype Round = Round(added: seq<Order>, orders: seq<Order>)

  /** The fills that a run of settlements applies. The rows of other wallets are visited, and rewritten, too. */
  function RunFills(own: seq<Order>, foreign: seq<Order>, rounds: seq<Round>): seq<Order>
    decreases |rounds|
  {
    if rounds == [] then []
    else
      var rows, orders := own + rounds[0].added, rounds[0].orders;
      FilledOnly(Collected(rows + foreign, orders))
      + RunFills(SettledRows(rows, orders), SettledRows(foreign, orders), rounds[1..])
  }

  /** The fills that the rows of other wallets add. */
  function StrayFills(foreign: seq<Order>, rounds: seq<Round>): seq<Order>
    decreases |rounds|
  {
    if rounds == [] then []
    else
      var orders := rounds[0].orders;
      FilledOnly(Collected(foreign, orders)) + StrayFills(SettledRows(foreign, orders), rounds[1..])
  }

  /** The wallet's rows at the end of a run. */
  function RowsAfter(own: seq<Order>, rounds: seq<Round>): seq<Order>
    decreases |rounds|
  {
    if rounds == [] then own else RowsAfter(SettledRows(own + rounds[0].added, rounds[0].orders), rounds[1..])
  }

  function AllAdded(rounds: seq<Round>): seq<Order> {
    if rounds == [] then [] else rounds[0].added + AllAdded(rounds[1..])
  }

  /** The exchange only adds orders, keeps their numbers and never changes a settled status. */
  predicate Later(a: seq<Order>, b: seq<Order>) {
    && |a| <= |b|
    && (forall k :: 0 <= k < |a| ==> b[k].exchangeId == a[k].exchangeId)
    && (forall k :: 0 <= k < |a| && a[k].status != New ==> b[k].status == a[k].status)
  }

  predicate Course(rounds: seq<Round>) {
    && (forall i :: 0 <= i < |rounds| ==> Numbered(rounds[i].orders))
    && (forall i, j :: 0 <= i <= j < |rounds| ==> Later(rounds[i].orders, rounds[j].orders))
  }

  lemma {:induction false} RunSplits(own: seq<Order>, foreign: seq<Order>, rounds: seq<Round>)
    ensures multiset(RunFills(own, foreign, rounds))
         == multiset(RunFills(own, [], rounds)) + multiset(StrayFills(foreign, rounds))
    decreases |rounds|
  {
    hide Collected, FilledOnly;
    if rounds != [] {
      var rows, orders := own + rounds[0].added, rounds[0].orders;
      CollectedInParts(rows, foreign, orders);
      RunSplits(SettledRows(rows, orders), SettledRows(foreign, orders), rounds[1..]);
      assert rows + [] == rows && SettledRows([], orders) == [];
    }
  }

  /** Every fill of the wallet is applied once: the fills stored at the end are those stored before, those stored
      as filled and those that the run applied. */
  lemma {:induction false} OwnFillsOnce(own: seq<Order>, rounds: seq<Round>)
    ensures multiset(FilledOnly(RowsAfter(own, rounds)))
         == multiset(FilledOnly(own)) + multiset(FilledOnly(AllAdded(rounds))) + multiset(RunFills(own, [], rounds))
    decreases |rounds|
  {
    hide Collected, FilledOnly;
    NoFilled();
    if rounds != [] {
      var rows, orders := own + rounds[0].added, rounds[0].orders;
      OwnFillsOnce(SettledRows(rows, orders), rounds[1..]);
      SettledRowsTally(rows, orders);
      FilledInParts(own, rounds[0].added);
      FilledInParts(rounds[0].added, AllAdded(rounds[1..]));
      assert rows + [] == rows && SettledRows([], orders) == [];
    }
  }

  lemma {:induction false} FilledInParts(a: seq<Order>, b: seq<Order>)
    ensures FilledOnly(a + b) == FilledOnly(a) + FilledOnly(b)
  {
    hide FilledOnly;
    NoFilled();
    if b == [] {
      assert a + b == a;
    } else {
      var init, o := b[..|b|-1], b[|b|-1];
      FilledInParts(a, init);
      assert a + b == a + init + [o] && b == init + [o];
      FilledAppend(a + init, o);
      FilledAppend(init, o);
    }
  }

  lemma FilledStays(a: seq<Order>, b: seq<Order>, number: int)
    requires Later(a, b) && FilledNumber(a, number)
    ensures FilledNumber(b, number)
  {
    var i :| 0 <= i < |a| && a[i].exchangeId == number && a[i].status == Filled;
    assert b[i].exchangeId == number && b[i].status == Filled;
  }

  /** A pending row whose number will be filled, but is not yet, stays pending. */
  lemma StaysPending(row: Order, a: seq<Order>, b: seq<Order>)
    requires Later(a, b) && Numbered(b) && Pending(row.status)
    requires FilledNumber(b, row.exchangeId) && !FilledNumber(a, row.exchangeId)
    ensures Pending(SettledRow(row, a).status) && SettledRow(row, a).exchangeId == row.exchangeId
  {
    var found := Found(a, row.exchangeId);
    if found.Some? {
      var k :| 0 <= k < |a| && a[k] == found.value;
      var i :| 0 <= i < |b| && b[i].exchangeId == row.exchangeId && b[i].status == Filled;
      SameNumber(b, i, k);
      assert a[k].status == New;
    }
  }

  lemma SettledRowBecomesPending(row: Order, orders: seq<Order>)
    ensures Pending(SettledRow(row, orders).status) ==> Pending(row.status)
    ensures SettledRow(row, orders).exchangeId == row.exchangeId
  {
  }

  lemma RestOfCourse(rounds: seq<Round>)
    requires Course(rounds) && rounds != []
    ensures Course(rounds[1..]) && Numbered(rounds[0].orders) && Numbered(rounds[|rounds|-1].orders)
    ensures Later(rounds[0].orders, rounds[|rounds|-1].orders)
  {
  }

  /** Over a run the rows of other wallets add no fill exactly if none that is pending at first carries the number
      of an order that is filled at the end. */
  lemma {:induction false} NoStrayFillsIff(foreign: seq<Order>, rounds: seq<Round>)
    requires Course(rounds) && rounds != []
    ensures StrayFills(foreign, rounds) == [] <==>
      forall i :: 0 <= i < |foreign| && Pending(foreign[i].status) ==>
        !FilledNumber(rounds[|rounds|-1].orders, foreign[i].exchangeId)
    decreases |rounds|
  {
    hide Collected, FilledOnly, FilledNumber, Pending, Numbered, Later, Course, SettledRow;
    RestOfCourse(rounds);
    var first, last, rest := rounds[0].orders, rounds[|rounds|-1].orders, rounds[1..];
    var settled := SettledRows(foreign, first);
    NoFillsIff(foreign, first);
    if rest == [] {
      assert StrayFills(settled, rest) == [];
    } else {
      NoStrayFillsIff(settled, rest);
      assert rest[|rest|-1] == rounds[|rounds|-1];
      forall i | 0 <= i < |foreign| && Pending(foreign[i].status) && FilledNumber(last, foreign[i].exchangeId)
        ensures FilledNumber(first, foreign[i].exchangeId)
          || (Pending(settled[i].status) && settled[i].exchangeId == foreign[i].exchangeId)
      {
        if !FilledNumber(first, foreign[i].exchangeId) { StaysPending(foreign[i], first, last); }
      }
      forall i | 0 <= i < |foreign|
        ensures FilledNumber(first, foreign[i].exchangeId) ==> FilledNumber(last, foreign[i].exchangeId)
        ensures settled[i].exchangeId == foreign[i].exchangeId
        ensures Pending(settled[i].status) ==> Pending(foreign[i].status)
      {
        SettledRowBecomesPending(foreign[i], first);
        if FilledNumber(first, foreign[i].exchangeId) { FilledStays(first, last, foreign[i].exchangeId); }
      }
    }
  }

  /** So a run of settlements applies just the wallet's own fills exactly when no row of another wallet that is
      pending at first carries the number of an order that is filled at the end. */
  lemma RunIsOwnIff(own: seq<Order>, foreign: seq<Order>, rounds: seq<Round>)
    requires Course(rounds) && rounds != []
    ensures multiset(RunFills(own, foreign, rounds)) == multiset(RunFills(own, [], rounds)) <==>
      forall i :: 0 <= i < |foreign| && Pending(foreign[i].status) ==>
        !FilledNumber(rounds[|rounds|-1].orders, foreign[i].exchangeId)
  {
    hide Course, Pending, FilledNumber, RunFills, StrayFills;
    RunSplits(own, foreign, rounds);
    NoStrayFillsIff(foreign, rounds);
    var stray := StrayFills(foreign, rounds);
    if stray != [] { assert stray[0] in multiset(stray); }
  }
}
