/** Batch cancellation of limit orders (AbstractLimitOrdersCanceller).
    Orders whose asset pair is still configured are cancelled, the others only removed.
    The orders are grouped by pair and side, removed from one private copy of each
    pair's order book, and turned into reservation releases and client reports; the
    copies replace the live books only when the batch is applied. */
module Canceller {
  import opened Types

  // ----- Classification and grouping -----

  datatype OrderOperation = Cancel | Remove

  /** CANCEL when the order's asset pair can be resolved, REMOVE otherwise. */
  function GetOrderOperation(order: LimitOrder, assetPairs: map<string, AssetPair>): (op: OrderOperation)
    ensures op == Remove <==> order.assetPairId !in assetPairs
  {
    if order.assetPairId in assetPairs then Cancel else Remove
  }

  /** The orders given the operation `op`, in their original order. */
  function WithOperation(orders: seq<LimitOrder>, assetPairs: map<string, AssetPair>, op: OrderOperation): seq<LimitOrder>
  {
    if orders == [] then []
    else WithOperation(orders[..|orders| - 1], assetPairs, op)
         + (if GetOrderOperation(orders[|orders| - 1], assetPairs) == op then [orders[|orders| - 1]] else [])
  }

  /** The cancel and remove lists split the input: together they hold every order exactly as
      often as the input does. */
  lemma {:induction false} OperationsPartition(orders: seq<LimitOrder>, assetPairs: map<string, AssetPair>)
    ensures multiset(WithOperation(orders, assetPairs, Cancel)) + multiset(WithOperation(orders, assetPairs, Remove)) == multiset(orders)
  {
    if orders != [] {
      var prefix, last := orders[..|orders| - 1], orders[|orders| - 1];
      OperationsPartition(prefix, assetPairs);
      PartitionStep(orders, WithOperation(prefix, assetPairs, Cancel), WithOperation(prefix, assetPairs, Remove),
                    GetOrderOperation(last, assetPairs) == Cancel);
    }
  }

  /** Appending one element to whichever side of a split keeps it a split. */
  lemma PartitionStep<T>(s: seq<T>, left: seq<T>, right: seq<T>, toLeft: bool)
    requires s != [] && multiset(left) + multiset(right) == multiset(s[..|s| - 1])
    ensures var last := s[|s| - 1];
            multiset(left + (if toLeft then [last] else [])) + multiset(right + (if toLeft then [] else [last])) == multiset(s)
  {
    assert s == s[..|s| - 1] + [s[|s| - 1]];
  }

  /** The cancel list holds only orders of resolvable pairs, the remove list only the others. */
  lemma {:induction false} OperationsSelect(orders: seq<LimitOrder>, assetPairs: map<string, AssetPair>)
    ensures forall o :: o in WithOperation(orders, assetPairs, Cancel) ==> o in orders && o.assetPairId in assetPairs
    ensures forall o :: o in WithOperation(orders, assetPairs, Remove) ==> o in orders && o.assetPairId !in assetPairs
  {
    if orders != [] {
      var prefix := orders[..|orders| - 1];
      OperationsSelect(prefix, assetPairs);
      assert orders == prefix + [orders[|orders| - 1]];
    }
  }

  /** The orders of one pair and side, buys first sells later: `allOrders` lists the sells, then the buys. */
  datatype OrdersProcessingInfo = OrdersProcessingInfo(buyOrders: seq<LimitOrder>, sellOrders: seq<LimitOrder>, assetPairId: string)
  {
    function AllOrders(): seq<LimitOrder> { sellOrders + buyOrders }
  }

  function Appended(info: OrdersProcessingInfo, order: LimitOrder): OrdersProcessingInfo
  {
    if order.IsBuySide() then info.(buyOrders := info.buyOrders + [order])
    else info.(sellOrders := info.sellOrders + [order])
  }

  /** Files one order under its pair, opening a group for a pair not seen before. */
  function AddToGroups(groups: seq<OrdersProcessingInfo>, order: LimitOrder): seq<OrdersProcessingInfo>
  {
    if groups == [] then [Appended(OrdersProcessingInfo([], [], order.assetPairId), order)]
    else if groups[0].assetPairId == order.assetPairId then [Appended(groups[0], order)] + groups[1..]
    else [groups[0]] + AddToGroups(groups[1..], order)
  }

  /** convertOrdersToOrderProcessingInfo: group by pair, then by side, keeping the order of
      appearance within each side. Groups come in order of first appearance. */
  function Group(orders: seq<LimitOrder>): seq<OrdersProcessingInfo>
  {
    if orders == [] then [] else AddToGroups(Group(orders[..|orders| - 1]), orders[|orders| - 1])
  }

  /** The orders of a pair on one side, in their original order. */
  function OfPairAndSide(orders: seq<LimitOrder>, assetPairId: string, isBuy: bool): seq<LimitOrder>
  {
    if orders == [] then []
    else OfPairAndSide(orders[..|orders| - 1], assetPairId, isBuy)
         + (var o := orders[|orders| - 1]; if o.assetPairId == assetPairId && o.IsBuySide() == isBuy then [o] else [])
  }

  function PairIds(groups: seq<OrdersProcessingInfo>): set<string>
  {
    set g | g in groups :: g.assetPairId
  }

  function OrderPairIds(orders: seq<LimitOrder>): set<string>
  {
    set o | o in orders :: o.assetPairId
  }

  predicate DistinctPairs(groups: seq<OrdersProcessingInfo>)
  {
    forall i, j :: 0 <= i < j < |groups| ==> groups[i].assetPairId != groups[j].assetPairId
  }

  /** All orders of a list of groups, group after group, each group sells then buys. */
  function Flatten(groups: seq<OrdersProcessingInfo>): seq<LimitOrder>
  {
    if groups == [] then [] else groups[0].AllOrders() + Flatten(groups[1..])
  }

  lemma {:induction false} AddToGroupsShape(groups: seq<OrdersProcessingInfo>, order: LimitOrder)
    requires DistinctPairs(groups)
    ensures var r := AddToGroups(groups, order);
            (order.assetPairId in PairIds(groups) ==>
               |r| == |groups| &&
               forall i :: 0 <= i < |groups| ==>
                 r[i] == if groups[i].assetPairId == order.assetPairId then Appended(groups[i], order) else groups[i]) &&
            (order.assetPairId !in PairIds(groups) ==>
               r == groups + [Appended(OrdersProcessingInfo([], [], order.assetPairId), order)])
  {
    if groups != [] && groups[0].assetPairId != order.assetPairId {
      var rest := groups[1..];
      assert PairIds(groups) == {groups[0].assetPairId} + PairIds(rest) by {
        assert groups == [groups[0]] + rest;
      }
      AddToGroupsShape(rest, order);
    } else if groups != [] {
      forall i | 0 < i < |groups| ensures groups[i].assetPairId != order.assetPairId {
      }
    }
  }

  lemma {:induction false} AddToGroupsMultiset(groups: seq<OrdersProcessingInfo>, order: LimitOrder)
    ensures multiset(Flatten(AddToGroups(groups, order))) == multiset(Flatten(groups)) + multiset{order}
  {
    if groups == [] {
      assert Flatten([Appended(OrdersProcessingInfo([], [], order.assetPairId), order)]) ==
             Appended(OrdersProcessingInfo([], [], order.assetPairId), order).AllOrders();
    } else if groups[0].assetPairId == order.assetPairId {
      var r := AddToGroups(groups, order);
      assert r[1..] == groups[1..];
    } else {
      var r := AddToGroups(groups, order);
      assert r[1..] == AddToGroups(groups[1..], order);
      AddToGroupsMultiset(groups[1..], order);
    }
  }

  /** Grouping keeps every order exactly once. */
  lemma {:induction false} GroupPreservesOrders(orders: seq<LimitOrder>)
    ensures multiset(Flatten(Group(orders))) == multiset(orders)
  {
    if orders != [] {
      var prefix := orders[..|orders| - 1];
      var last := orders[|orders| - 1];
      var before := Group(prefix);
      GroupPreservesOrders(prefix);
      assert Group(orders) == AddToGroups(before, last);
      AddToGroupsMultiset(before, last);
      MultisetSnoc(orders, Flatten(before), Flatten(AddToGroups(before, last)));
    }
  }

  lemma MultisetSnoc<T>(s: seq<T>, before: seq<T>, after: seq<T>)
    requires s != []
    requires multiset(before) == multiset(s[..|s| - 1])
    requires multiset(after) == multiset(before) + multiset{s[|s| - 1]}
    ensures multiset(after) == multiset(s)
  {
    assert s == s[..|s| - 1] + [s[|s| - 1]];
  }

  /** Each group's buy and sell lists are its pair's buy and sell orders, in their original order. */
  predicate SidesMatch(groups: seq<OrdersProcessingInfo>, orders: seq<LimitOrder>)
  {
    forall i :: 0 <= i < |groups| ==>
      groups[i].buyOrders == OfPairAndSide(orders, groups[i].assetPairId, true) &&
      groups[i].sellOrders == OfPairAndSide(orders, groups[i].assetPairId, false)
  }

  lemma OfPairAndSideSnoc(orders: seq<LimitOrder>, o: LimitOrder, assetPairId: string, isBuy: bool)
    ensures OfPairAndSide(orders + [o], assetPairId, isBuy) ==
            OfPairAndSide(orders, assetPairId, isBuy) + (if o.assetPairId == assetPairId && o.IsBuySide() == isBuy then [o] else [])
  {
    assert (orders + [o])[..|orders|] == orders;
  }

  lemma {:induction false} AddToExistingGroup(groups: seq<OrdersProcessingInfo>, orders: seq<LimitOrder>, o: LimitOrder)
    requires DistinctPairs(groups) && SidesMatch(groups, orders) && o.assetPairId in PairIds(groups)
    ensures var r := AddToGroups(groups, o);
            DistinctPairs(r) && SidesMatch(r, orders + [o]) && PairIds(r) == PairIds(groups)
  {
    AddToGroupsShape(groups, o);
    var r := AddToGroups(groups, o);
    forall i | 0 <= i < |r|
      ensures r[i].assetPairId == groups[i].assetPairId
      ensures r[i].buyOrders == OfPairAndSide(orders + [o], r[i].assetPairId, true)
      ensures r[i].sellOrders == OfPairAndSide(orders + [o], r[i].assetPairId, false)
    {
      OfPairAndSideSnoc(orders, o, groups[i].assetPairId, true);
      OfPairAndSideSnoc(orders, o, groups[i].assetPairId, false);
    }
    assert PairIds(r) == PairIds(groups) by {
      forall p | p in PairIds(r) ensures p in PairIds(groups) {
        var g :| g in r && g.assetPairId == p;
        var i :| 0 <= i < |r| && r[i] == g;
        assert groups[i] in groups;
      }
      forall p | p in PairIds(groups) ensures p in PairIds(r) {
        var g :| g in groups && g.assetPairId == p;
        var i :| 0 <= i < |groups| && groups[i] == g;
        assert r[i] in r;
      }
    }
  }

  lemma AppendKeepsDistinct(groups: seq<OrdersProcessingInfo>, g: OrdersProcessingInfo)
    requires DistinctPairs(groups) && g.assetPairId !in PairIds(groups)
    ensures DistinctPairs(groups + [g])
  {
    forall i, j | 0 <= i < j < |groups + [g]| ensures (groups + [g])[i].assetPairId != (groups + [g])[j].assetPairId {
      assert groups[i] in groups;
    }
  }

  lemma AppendedPairIds(groups: seq<OrdersProcessingInfo>, g: OrdersProcessingInfo)
    ensures PairIds(groups + [g]) == PairIds(groups) + {g.assetPairId}
  {
    assert forall h :: h in groups + [g] <==> h in groups || h == g;
  }

  /** Orders of a new pair leave the existing groups' lists as they were. */
  lemma OtherGroupsUnaffected(groups: seq<OrdersProcessingInfo>, orders: seq<LimitOrder>, o: LimitOrder)
    requires SidesMatch(groups, orders) && o.assetPairId !in PairIds(groups)
    ensures SidesMatch(groups, orders + [o])
  {
    forall i | 0 <= i < |groups|
      ensures groups[i].buyOrders == OfPairAndSide(orders + [o], groups[i].assetPairId, true)
      ensures groups[i].sellOrders == OfPairAndSide(orders + [o], groups[i].assetPairId, false)
    {
      assert groups[i] in groups;
      OfPairAndSideSnoc(orders, o, groups[i].assetPairId, true);
      OfPairAndSideSnoc(orders, o, groups[i].assetPairId, false);
    }
  }

  /** The group opened for the first order of a pair holds exactly that pair's orders. */
  lemma NewGroupMatches(orders: seq<LimitOrder>, o: LimitOrder)
    requires o.assetPairId !in OrderPairIds(orders)
    ensures var g := Appended(OrdersProcessingInfo([], [], o.assetPairId), o);
            g.buyOrders == OfPairAndSide(orders + [o], o.assetPairId, true) &&
            g.sellOrders == OfPairAndSide(orders + [o], o.assetPairId, false)
  {
    NoOrdersOfAbsentPair(orders, o.assetPairId, true);
    NoOrdersOfAbsentPair(orders, o.assetPairId, false);
    OfPairAndSideSnoc(orders, o, o.assetPairId, true);
    OfPairAndSideSnoc(orders, o, o.assetPairId, false);
  }

  lemma SidesMatchSnoc(groups: seq<OrdersProcessingInfo>, g: OrdersProcessingInfo, orders: seq<LimitOrder>)
    requires SidesMatch(groups, orders)
    requires g.buyOrders == OfPairAndSide(orders, g.assetPairId, true) && g.sellOrders == OfPairAndSide(orders, g.assetPairId, false)
    ensures SidesMatch(groups + [g], orders)
  {
    forall i | 0 <= i < |groups + [g]|
      ensures (groups + [g])[i].buyOrders == OfPairAndSide(orders, (groups + [g])[i].assetPairId, true)
      ensures (groups + [g])[i].sellOrders == OfPairAndSide(orders, (groups + [g])[i].assetPairId, false)
    {
      if i < |groups| {
        assert (groups + [g])[i] == groups[i];
      }
    }
  }

  lemma {:induction false} AddNewGroup(groups: seq<OrdersProcessingInfo>, orders: seq<LimitOrder>, o: LimitOrder)
    requires DistinctPairs(groups) && SidesMatch(groups, orders) && PairIds(groups) == OrderPairIds(orders)
    requires o.assetPairId !in PairIds(groups)
    ensures var r := AddToGroups(groups, o);
            DistinctPairs(r) && SidesMatch(r, orders + [o]) && PairIds(r) == PairIds(groups) + {o.assetPairId}
  {
    AddToGroupsShape(groups, o);
    var g := Appended(OrdersProcessingInfo([], [], o.assetPairId), o);
    AppendKeepsDistinct(groups, g);
    AppendedPairIds(groups, g);
    OtherGroupsUnaffected(groups, orders, o);
    NewGroupMatches(orders, o);
    SidesMatchSnoc(groups, g, orders + [o]);
  }

  /** One group per pair that occurs, and each group's buy and sell lists are exactly
      that pair's buy and sell orders in their original order. */
  lemma {:induction false} GroupIsByPairAndSide(orders: seq<LimitOrder>)
    ensures DistinctPairs(Group(orders))
    ensures PairIds(Group(orders)) == OrderPairIds(orders)
    ensures SidesMatch(Group(orders), orders)
  {
    if orders != [] {
      var prefix := orders[..|orders| - 1];
      var o := orders[|orders| - 1];
      GroupIsByPairAndSide(prefix);
      assert orders == prefix + [o];
      assert Group(orders) == AddToGroups(Group(prefix), o);
      assert OrderPairIds(orders) == OrderPairIds(prefix) + {o.assetPairId};
      if o.assetPairId in PairIds(Group(prefix)) {
        AddToExistingGroup(Group(prefix), prefix, o);
      } else {
        AddNewGroup(Group(prefix), prefix, o);
      }
    }
  }

  /** Every order in a group's buy list is a buy order of that group's pair, every order in its
      sell list a sell order of that pair. */
  lemma GroupSidesAreHomogeneous(orders: seq<LimitOrder>)
    ensures forall g, o :: g in Group(orders) && o in g.buyOrders ==> o in orders && o.assetPairId == g.assetPairId && o.IsBuySide()
    ensures forall g, o :: g in Group(orders) && o in g.sellOrders ==> o in orders && o.assetPairId == g.assetPairId && !o.IsBuySide()
  {
    GroupIsByPairAndSide(orders);
    forall g | g in Group(orders)
      ensures forall o :: o in g.buyOrders ==> o in orders && o.assetPairId == g.assetPairId && o.IsBuySide()
      ensures forall o :: o in g.sellOrders ==> o in orders && o.assetPairId == g.assetPairId && !o.IsBuySide()
    {
      var i :| 0 <= i < |Group(orders)| && Group(orders)[i] == g;
      OfPairAndSideSelects(orders, g.assetPairId, true);
      OfPairAndSideSelects(orders, g.assetPairId, false);
    }
  }

  lemma {:induction false} NoOrdersOfAbsentPair(orders: seq<LimitOrder>, assetPairId: string, isBuy: bool)
    requires assetPairId !in OrderPairIds(orders)
    ensures OfPairAndSide(orders, assetPairId, isBuy) == []
  {
    if orders != [] {
      var prefix := orders[..|orders| - 1];
      assert OrderPairIds(prefix) <= OrderPairIds(orders);
      assert orders[|orders| - 1] in orders;
      NoOrdersOfAbsentPair(prefix, assetPairId, isBuy);
    }
  }

  /** The orders a pair-and-side selection returns are of that pair and side. */
  lemma {:induction false} OfPairAndSideSelects(orders: seq<LimitOrder>, assetPairId: string, isBuy: bool)
    ensures forall o :: o in OfPairAndSide(orders, assetPairId, isBuy) ==>
              o in orders && o.assetPairId == assetPairId && o.IsBuySide() == isBuy
  {
    if orders != [] {
      OfPairAndSideSelects(orders[..|orders| - 1], assetPairId, isBuy);
    }
  }

  // ----- Order-book copies -----

  /** An order book with its buy and sell sides. */
  datatype AssetOrderBook = AssetOrderBook(assetPairId: string, buy: seq<LimitOrder>, sell: seq<LimitOrder>)
  {
    /** The book with the order, matched by id, taken off its side. */
    function RemoveOrder(order: LimitOrder): (r: AssetOrderBook)
      ensures r.assetPairId == assetPairId
      ensures order.IsBuySide() ==> r.sell == sell && forall o :: o in r.buy <==> o in buy && o.id != order.id
      ensures !order.IsBuySide() ==> r.buy == buy && forall o :: o in r.sell <==> o in sell && o.id != order.id
    {
      if order.IsBuySide() then this.(buy := WithoutId(buy, order.id)) else this.(sell := WithoutId(sell, order.id))
    }
  }

  function WithoutId(orders: seq<LimitOrder>, id: string): (r: seq<LimitOrder>)
    ensures forall o :: o in r <==> o in orders && o.id != id
  {
    if orders == [] then [] else (if orders[0].id == id then [] else [orders[0]]) + WithoutId(orders[1..], id)
  }

  /** The live book of a pair; a pair without one has an empty book. */
  function LiveBook(books: map<string, AssetOrderBook>, assetPairId: string): AssetOrderBook
  {
    if assetPairId in books then books[assetPairId] else AssetOrderBook(assetPairId, [], [])
  }

  /** The copy of a pair's book to work on: the copy already taken, else a copy of the live book. */
  function CopyFor(copies: map<string, AssetOrderBook>, live: map<string, AssetOrderBook>, assetPairId: string): AssetOrderBook
  {
    if assetPairId in copies then copies[assetPairId] else LiveBook(live, assetPairId)
  }

  function RemoveAll(book: AssetOrderBook, orders: seq<LimitOrder>): AssetOrderBook
  {
    if orders == [] then book else RemoveAll(book, orders[..|orders| - 1]).RemoveOrder(orders[|orders| - 1])
  }

  /** The copies after removing every group's orders from its pair's copy. */
  function RemoveFromCopies(copies: map<string, AssetOrderBook>, live: map<string, AssetOrderBook>,
                            groups: seq<OrdersProcessingInfo>): map<string, AssetOrderBook>
  {
    if groups == [] then copies
    else
      var before := RemoveFromCopies(copies, live, groups[..|groups| - 1]);
      var g := groups[|groups| - 1];
      before[g.assetPairId := RemoveAll(CopyFor(before, live, g.assetPairId), g.AllOrders())]
  }

  /** Whether some order is on the given side. */
  function HasSide(orders: seq<LimitOrder>, isBuy: bool): bool
  {
    orders != [] && (HasSide(orders[..|orders| - 1], isBuy) || orders[|orders| - 1].IsBuySide() == isBuy)
  }

  /** The pairs whose given side had an order removed. */
  function ChangedPairs(groups: seq<OrdersProcessingInfo>, isBuy: bool): set<string>
  {
    if groups == [] then {}
    else ChangedPairs(groups[..|groups| - 1], isBuy)
         + (if HasSide(groups[|groups| - 1].AllOrders(), isBuy) then {groups[|groups| - 1].assetPairId} else {})
  }

  lemma {:induction false} HasSideIff(orders: seq<LimitOrder>, isBuy: bool)
    ensures HasSide(orders, isBuy) <==> exists k :: 0 <= k < |orders| && orders[k].IsBuySide() == isBuy
  {
    if orders != [] {
      var prefix := orders[..|orders| - 1];
      HasSideIff(prefix, isBuy);
      if HasSide(prefix, isBuy) {
        var k :| 0 <= k < |prefix| && prefix[k].IsBuySide() == isBuy;
        assert orders[k] == prefix[k];
      }
      if exists k :: 0 <= k < |orders| && orders[k].IsBuySide() == isBuy {
        var k :| 0 <= k < |orders| && orders[k].IsBuySide() == isBuy;
        if k < |prefix| {
          assert prefix[k] == orders[k];
        }
      }
    }
  }

  /** A pair's side is marked changed exactly when one of that pair's groups has an order on that side. */
  lemma {:induction false} ChangedPairsIff(groups: seq<OrdersProcessingInfo>, isBuy: bool, assetPairId: string)
    ensures assetPairId in ChangedPairs(groups, isBuy) <==>
            exists i :: 0 <= i < |groups| && groups[i].assetPairId == assetPairId && HasSide(groups[i].AllOrders(), isBuy)
  {
    if groups != [] {
      var prefix := groups[..|groups| - 1];
      ChangedPairsIff(prefix, isBuy, assetPairId);
      if exists i :: 0 <= i < |prefix| && prefix[i].assetPairId == assetPairId && HasSide(prefix[i].AllOrders(), isBuy) {
        var i :| 0 <= i < |prefix| && prefix[i].assetPairId == assetPairId && HasSide(prefix[i].AllOrders(), isBuy);
        assert groups[i] == prefix[i];
      }
      if exists i :: 0 <= i < |groups| && groups[i].assetPairId == assetPairId && HasSide(groups[i].AllOrders(), isBuy) {
        var i :| 0 <= i < |groups| && groups[i].assetPairId == assetPairId && HasSide(groups[i].AllOrders(), isBuy);
        if i < |prefix| {
          assert prefix[i] == groups[i];
        }
      }
    }
  }

  /** The copies kept are the ones held before plus one per group's pair; a copy of a pair
      without a group is left as it was. */
  lemma {:induction false} CopiesKept(copies: map<string, AssetOrderBook>, live: map<string, AssetOrderBook>,
                                      groups: seq<OrdersProcessingInfo>)
    ensures var r := RemoveFromCopies(copies, live, groups);
            (forall p :: p in r <==> p in copies || p in PairIds(groups)) &&
            (forall p :: p in copies && p !in PairIds(groups) ==> r[p] == copies[p])
  {
    if groups != [] {
      var prefix := groups[..|groups| - 1];
      CopiesKept(copies, live, prefix);
      assert PairIds(groups) == PairIds(prefix) + {groups[|groups| - 1].assetPairId} by {
        assert groups == prefix + [groups[|groups| - 1]];
      }
    }
  }

  /** With one group per pair, each group's pair gets exactly one copy: the copy already
      held or the live book, with that group's orders removed. */
  lemma {:induction false} OneCopyPerPair(copies: map<string, AssetOrderBook>, live: map<string, AssetOrderBook>,
                                          groups: seq<OrdersProcessingInfo>)
    requires DistinctPairs(groups)
    ensures forall i :: 0 <= i < |groups| ==>
              groups[i].assetPairId in RemoveFromCopies(copies, live, groups) &&
              RemoveFromCopies(copies, live, groups)[groups[i].assetPairId] ==
              RemoveAll(CopyFor(copies, live, groups[i].assetPairId), groups[i].AllOrders())
  {
    if groups != [] {
      var prefix := groups[..|groups| - 1];
      var g := groups[|groups| - 1];
      OneCopyPerPair(copies, live, prefix);
      CopiesKept(copies, live, prefix);
      var before := RemoveFromCopies(copies, live, prefix);
      LastPairIsNew(groups);
      assert CopyFor(before, live, g.assetPairId) == CopyFor(copies, live, g.assetPairId);
      var v := RemoveAll(CopyFor(copies, live, g.assetPairId), g.AllOrders());
      assert RemoveFromCopies(copies, live, groups) == before[g.assetPairId := v];
      UpdateKeepsCopies(copies, live, prefix, before, g.assetPairId, v);
      forall i | 0 <= i < |groups|
        ensures groups[i].assetPairId in before[g.assetPairId := v]
        ensures before[g.assetPairId := v][groups[i].assetPairId] ==
                RemoveAll(CopyFor(copies, live, groups[i].assetPairId), groups[i].AllOrders())
      {
        if i < |prefix| {
          assert groups[i] == prefix[i];
        }
      }
    }
  }

  /** Setting the copy of a pair no earlier group has leaves the earlier groups' copies alone. */
  lemma UpdateKeepsCopies(copies: map<string, AssetOrderBook>, live: map<string, AssetOrderBook>,
                          prefix: seq<OrdersProcessingInfo>, before: map<string, AssetOrderBook>,
                          assetPairId: string, book: AssetOrderBook)
    requires assetPairId !in PairIds(prefix)
    requires forall i :: 0 <= i < |prefix| ==>
               prefix[i].assetPairId in before &&
               before[prefix[i].assetPairId] == RemoveAll(CopyFor(copies, live, prefix[i].assetPairId), prefix[i].AllOrders())
    ensures forall i :: 0 <= i < |prefix| ==>
              prefix[i].assetPairId in before[assetPairId := book] &&
              before[assetPairId := book][prefix[i].assetPairId] ==
              RemoveAll(CopyFor(copies, live, prefix[i].assetPairId), prefix[i].AllOrders())
  {
    forall i | 0 <= i < |prefix|
      ensures prefix[i].assetPairId != assetPairId
    {
      assert prefix[i] in prefix;
    }
  }

  lemma LastPairIsNew(groups: seq<OrdersProcessingInfo>)
    requires groups != [] && DistinctPairs(groups)
    ensures groups[|groups| - 1].assetPairId !in PairIds(groups[..|groups| - 1])
  {
    var prefix := groups[..|groups| - 1];
    forall h | h in prefix ensures h.assetPairId != groups[|groups| - 1].assetPairId {
      var i :| 0 <= i < |prefix| && prefix[i] == h;
      assert groups[i] == h;
    }
  }

  // ----- Wallet operations and reports -----

  /** The reference data and balances the canceller reads; `limitVolumeOf` is the abstract
      getOrderLimitVolume hook that each concrete canceller defines. */
  datatype Holders = Holders(
    assetPairs: map<string, AssetPair>,
    assets: map<string, Asset>,
    trustedClients: set<string>,
    reserved: map<BalanceKey, real>,
    limitVolumeOf: (LimitOrder, Asset) -> real)

  /** A change of a client's balance and reserved balance in one asset. */
  datatype WalletOperation = WalletOperation(clientId: string, assetId: string, amount: real, reservedAmount: real)

  /** What one cancelled order contributes: nothing, a release of its reservation, or the
      exception raised when its limit asset is unknown. */
  datatype WalletStep = NoOperation | Release(operation: WalletOperation) | MissingAsset

  function OrderLimitAssetId(order: LimitOrder, assetPair: AssetPair): string
  {
    if order.IsBuySide() then assetPair.quotingAssetId else assetPair.baseAssetId
  }

  function OrderWalletStep(order: LimitOrder, assetPair: AssetPair, h: Holders): (r: WalletStep)
    ensures var assetId := if order.IsBuySide() then assetPair.quotingAssetId else assetPair.baseAssetId;
            var reserved := GetOrZero(h.reserved, BalanceKey(order.clientId, assetId));
            (r.MissingAsset? <==> order.clientId !in h.trustedClients && assetId !in h.assets) &&
            (r.Release? <==> order.clientId !in h.trustedClients && assetId in h.assets && reserved > 0.0) &&
            (r.Release? ==>
               r.operation == WalletOperation(order.clientId, assetId, 0.0,
                                              -Min(h.limitVolumeOf(order, h.assets[assetId]), reserved)) &&
               -reserved <= r.operation.reservedAmount)
  {
    if order.clientId in h.trustedClients then NoOperation
    else
      var assetId := OrderLimitAssetId(order, assetPair);
      if assetId !in h.assets then MissingAsset
      else
        var limitVolume := h.limitVolumeOf(order, h.assets[assetId]);
        var reserved := GetOrZero(h.reserved, BalanceKey(order.clientId, assetId));
        if reserved > 0.0 then
          Release(WalletOperation(order.clientId, assetId, 0.0, if limitVolume > reserved then -reserved else -limitVolume))
        else NoOperation
  }

  /** calculateWalletOperation over one group's orders; `None` when an exception is raised. */
  function GroupWalletOperations(orders: seq<LimitOrder>, assetPair: AssetPair, h: Holders): Option<seq<WalletOperation>>
  {
    if orders == [] then Some([])
    else
      match GroupWalletOperations(orders[..|orders| - 1], assetPair, h)
      case None => None
      case Some(ops) =>
        match OrderWalletStep(orders[|orders| - 1], assetPair, h)
        case NoOperation => Some(ops)
        case Release(op) => Some(ops + [op])
        case MissingAsset => None
  }

  /** calculateWalletOperations: groups whose pair cannot be resolved contribute nothing. */
  function WalletOperations(groups: seq<OrdersProcessingInfo>, h: Holders): Option<seq<WalletOperation>>
  {
    if groups == [] then Some([])
    else
      match WalletOperations(groups[..|groups| - 1], h)
      case None => None
      case Some(ops) =>
        var g := groups[|groups| - 1];
        if g.assetPairId !in h.assetPairs then Some(ops)
        else
          match GroupWalletOperations(g.AllOrders(), h.assetPairs[g.assetPairId], h)
          case None => None
          case Some(more) => Some(ops + more)
  }

  /** Every operation releases reservation only: it moves no balance, belongs to a client who is not
      trusted and holds a positive reservation, and releases at most that reservation. */
  predicate IsRelease(op: WalletOperation, h: Holders)
  {
    var reserved := GetOrZero(h.reserved, BalanceKey(op.clientId, op.assetId));
    op.amount == 0.0 && op.clientId !in h.trustedClients && reserved > 0.0 && -reserved <= op.reservedAmount
  }

  lemma {:induction false} GroupWalletOperationsAreReleases(orders: seq<LimitOrder>, assetPair: AssetPair, h: Holders)
    requires GroupWalletOperations(orders, assetPair, h).Some?
    ensures var ops := GroupWalletOperations(orders, assetPair, h).value;
            |ops| <= |orders| && forall k :: 0 <= k < |ops| ==> IsRelease(ops[k], h)
  {
    if orders != [] {
      GroupWalletOperationsAreReleases(orders[..|orders| - 1], assetPair, h);
    }
  }

  lemma {:induction false} WalletOperationsAreReleases(groups: seq<OrdersProcessingInfo>, h: Holders)
    requires WalletOperations(groups, h).Some?
    ensures forall k :: 0 <= k < |WalletOperations(groups, h).value| ==> IsRelease(WalletOperations(groups, h).value[k], h)
  {
    if groups != [] {
      var g := groups[|groups| - 1];
      WalletOperationsAreReleases(groups[..|groups| - 1], h);
      if g.assetPairId in h.assetPairs {
        GroupWalletOperationsAreReleases(g.AllOrders(), h.assetPairs[g.assetPairId], h);
      }
    }
  }

  lemma {:induction false} GroupFailurePropagates(orders: seq<LimitOrder>, assetPair: AssetPair, h: Holders, k: nat)
    requires k <= |orders| && GroupWalletOperations(orders[..k], assetPair, h).None?
    ensures GroupWalletOperations(orders, assetPair, h).None?
  {
    if k < |orders| {
      var prefix := orders[..|orders| - 1];
      assert prefix[..k] == orders[..k];
      GroupFailurePropagates(prefix, assetPair, h, k);
    } else {
      assert orders[..k] == orders;
    }
  }

  lemma {:induction false} WalletFailurePropagates(groups: seq<OrdersProcessingInfo>, h: Holders, k: nat)
    requires k <= |groups| && WalletOperations(groups[..k], h).None?
    ensures WalletOperations(groups, h).None?
  {
    if k < |groups| {
      var prefix := groups[..|groups| - 1];
      assert prefix[..k] == groups[..k];
      WalletFailurePropagates(prefix, h, k);
    } else {
      assert groups[..k] == groups;
    }
  }

  /** calculateWalletOperation: the loop over one group's orders. */
  method CalculateWalletOperation(orders: seq<LimitOrder>, assetPair: AssetPair, h: Holders)
    returns (ops: Option<seq<WalletOperation>>)
    ensures ops == GroupWalletOperations(orders, assetPair, h)
  {
    var acc: seq<WalletOperation> := [];
    for i := 0 to |orders|
      invariant GroupWalletOperations(orders[..i], assetPair, h) == Some(acc)
    {
      var order := orders[i];
      assert orders[..i + 1][..i] == orders[..i];
      if order.clientId !in h.trustedClients {
        var limitAssetId := if order.IsBuySide() then assetPair.quotingAssetId else assetPair.baseAssetId;
        if limitAssetId !in h.assets {
          GroupFailurePropagates(orders, assetPair, h, i + 1);
          return None;
        }
        var limitVolume := h.limitVolumeOf(order, h.assets[limitAssetId]);
        var reservedBalance := GetOrZero(h.reserved, BalanceKey(order.clientId, limitAssetId));
        if reservedBalance > 0.0 {
          acc := acc + [WalletOperation(order.clientId, limitAssetId, 0.0,
                                        if limitVolume > reservedBalance then -reservedBalance else -limitVolume)];
        }
      }
    }
    assert orders[..|orders|] == orders;
    ops := Some(acc);
  }

  /** calculateWalletOperations: the loop over the groups. */
  method CalculateWalletOperations(groups: seq<OrdersProcessingInfo>, h: Holders) returns (ops: Option<seq<WalletOperation>>)
    ensures ops == WalletOperations(groups, h)
  {
    var acc: seq<WalletOperation> := [];
    for i := 0 to |groups|
      invariant WalletOperations(groups[..i], h) == Some(acc)
    {
      var g := groups[i];
      assert groups[..i + 1][..i] == groups[..i];
      if g.assetPairId in h.assetPairs {
        var more := CalculateWalletOperation(g.AllOrders(), h.assetPairs[g.assetPairId], h);
        if more.None? {
          WalletFailurePropagates(groups, h, i + 1);
          return None;
        }
        acc := acc + more.value;
      }
    }
    assert groups[..|groups|] == groups;
    ops := Some(acc);
  }

  /** The two report lists: orders of trusted clients that are not partially matched, and all others. */
  datatype ReportBuckets = ReportBuckets(clientsOrders: seq<LimitOrder>, trustedClientsOrders: seq<LimitOrder>)

  predicate GoesToTrustedBucket(order: LimitOrder, trustedClients: set<string>)
  {
    order.clientId in trustedClients && !order.IsPartiallyMatched()
  }

  function Buckets(orders: seq<LimitOrder>, trustedClients: set<string>): ReportBuckets
  {
    if orders == [] then ReportBuckets([], [])
    else
      var before := Buckets(orders[..|orders| - 1], trustedClients);
      var o := orders[|orders| - 1];
      if GoesToTrustedBucket(o, trustedClients) then before.(trustedClientsOrders := before.trustedClientsOrders + [o])
      else before.(clientsOrders := before.clientsOrders + [o])
  }

  /** Each reported order lands in exactly one bucket: the trusted one exactly when its client
      is trusted and it is not partially matched. */
  lemma {:induction false} BucketsPartition(orders: seq<LimitOrder>, trustedClients: set<string>)
    ensures var b := Buckets(orders, trustedClients);
            multiset(b.clientsOrders) + multiset(b.trustedClientsOrders) == multiset(orders) &&
            (forall o :: o in b.trustedClientsOrders ==> GoesToTrustedBucket(o, trustedClients)) &&
            (forall o :: o in b.clientsOrders ==> !GoesToTrustedBucket(o, trustedClients))
  {
    if orders != [] {
      var prefix, last := orders[..|orders| - 1], orders[|orders| - 1];
      var before := Buckets(prefix, trustedClients);
      BucketsPartition(prefix, trustedClients);
      PartitionStep(orders, before.clientsOrders, before.trustedClientsOrders, !GoesToTrustedBucket(last, trustedClients));
    }
  }

  /** calculateOrdersWithTrades: the loop over all orders of the groups. */
  method CalculateOrdersWithTrades(groups: seq<OrdersProcessingInfo>, trustedClients: set<string>) returns (b: ReportBuckets)
    ensures b == Buckets(Flatten(groups), trustedClients)
  {
    var all := Flatten(groups);
    var clientsOrders: seq<LimitOrder> := [];
    var trustedClientsOrders: seq<LimitOrder> := [];
    for i := 0 to |all|
      invariant Buckets(all[..i], trustedClients) == ReportBuckets(clientsOrders, trustedClientsOrders)
    {
      var order := all[i];
      assert all[..i + 1][..i] == all[..i];
      if order.clientId in trustedClients && !order.IsPartiallyMatched() {
        trustedClientsOrders := trustedClientsOrders + [order];
      } else {
        clientsOrders := clientsOrders + [order];
      }
    }
    assert all[..|all|] == all;
    b := ReportBuckets(clientsOrders, trustedClientsOrders);
  }

  const ExamplePair := AssetPair("EURUSD", "EUR", "USD", 2, None, None, None, None)
  const ExampleHolders := Holders(map["EURUSD" := ExamplePair], map["USD" := Asset("USD", 2)], {},
                                  map[BalanceKey("c", "USD") := 100.0], (o: LimitOrder, a: Asset) => 80.0)
  const ExampleOrder := LimitOrder("1", "e1", "EURUSD", "c", Limit, 10.0, 10.0, 8.0, true, InOrderBook, 0,
                                   None, None, None, None, None, None, None)

  /** The clamp is per order against the reservation as it stood before the batch: two buy orders
      of one client, each reserving 80 USD of a 100 USD reservation, give two releases of 80 each,
      160 in all. */
  lemma ClampIsPerOrder()
    ensures GroupWalletOperations([ExampleOrder, ExampleOrder.(id := "2", externalId := "e2")], ExamplePair, ExampleHolders) ==
            Some([WalletOperation("c", "USD", 0.0, -80.0), WalletOperation("c", "USD", 0.0, -80.0)])
  {
    var two := [ExampleOrder, ExampleOrder.(id := "2", externalId := "e2")];
    var release := WalletOperation("c", "USD", 0.0, -80.0);
    assert OrderWalletStep(two[0], ExamplePair, ExampleHolders) == Release(release);
    assert OrderWalletStep(two[1], ExamplePair, ExampleHolders) == Release(release);
    assert two[..1][..0] == [];
    assert GroupWalletOperations(two[..1][..0], ExamplePair, ExampleHolders) == Some([]);
    assert GroupWalletOperations(two[..1], ExamplePair, ExampleHolders) == Some([] + [release]);
    assert [] + [release] == [release];
    assert GroupWalletOperations(two, ExamplePair, ExampleHolders) == Some([release] + [release]);
    assert [release] + [release] == [release, release];
  }

  // ----- Persistence data -----

  /** One side of a pair's book as it is to be persisted. */
  datatype SideSnapshot = SideSnapshot(assetPairId: string, isBuy: bool, orders: seq<LimitOrder>)

  /** The side snapshots to save, the orders to save (none for a cancellation) and the orders to remove. */
  datatype PersistenceData = PersistenceData(snapshots: set<SideSnapshot>, ordersToSave: seq<LimitOrder>, ordersToRemove: seq<LimitOrder>)

  /** A changed book copy handed to the processChangedOrderBook hook, with its side. */
  datatype ChangedBook = ChangedBook(book: AssetOrderBook, isBuy: bool)

  function Notices(copies: map<string, AssetOrderBook>, pairs: set<string>, isBuy: bool): set<ChangedBook>
  {
    set p | p in pairs && p in copies :: ChangedBook(copies[p], isBuy)
  }

  /** What getCancelResult receives (the result type is defined by each concrete canceller). */
  datatype CancelResult = CancelResult(
    walletOperations: seq<WalletOperation>,
    clientsOrders: seq<LimitOrder>,
    trustedClientsOrders: seq<LimitOrder>,
    assetOrderBooks: map<string, AssetOrderBook>)

  /** The live limit-order service: its order books and its index of active orders. */
  class LimitOrderService {
    var books: map<string, AssetOrderBook>
    var activeOrders: map<string, LimitOrder>

    constructor (books: map<string, AssetOrderBook>, activeOrders: map<string, LimitOrder>)
      ensures this.books == books && this.activeOrders == activeOrders
    {
      this.books := books;
      this.activeOrders := activeOrders;
    }

    /** cancelLimitOrders: the orders leave the index of active orders. */
    method CancelLimitOrders(orders: seq<LimitOrder>, date: int)
      modifies this`activeOrders
      ensures activeOrders == WithoutIds(old(activeOrders), IdsOf(orders))
    {
      activeOrders := WithoutIds(activeOrders, IdsOf(orders));
    }

    method SetOrderBook(assetPairId: string, book: AssetOrderBook)
      modifies this`books
      ensures books == old(books)[assetPairId := book]
    {
      books := books[assetPairId := book];
    }
  }

  function IdsOf(orders: seq<LimitOrder>): set<string>
  {
    set o | o in orders :: o.id
  }

  /** The inner loop of removeOrdersFromAssetOrderBookCopy: remove each order from the copy and
      note which sides lost an order. */
  method RemoveFromBook(book: AssetOrderBook, orders: seq<LimitOrder>)
    returns (r: AssetOrderBook, buyChanged: bool, sellChanged: bool)
    ensures r == RemoveAll(book, orders)
    ensures buyChanged == HasSide(orders, true) && sellChanged == HasSide(orders, false)
  {
    r := book;
    buyChanged := false;
    sellChanged := false;
    for j := 0 to |orders|
      invariant r == RemoveAll(book, orders[..j])
      invariant buyChanged == HasSide(orders[..j], true) && sellChanged == HasSide(orders[..j], false)
    {
      assert orders[..j + 1][..j] == orders[..j];
      r := r.RemoveOrder(orders[j]);
      if orders[j].IsBuySide() {
        buyChanged := true;
      } else {
        sellChanged := true;
      }
    }
    assert orders[..|orders|] == orders;
  }

  class LimitOrdersCanceller {
    const holders: Holders
    const service: LimitOrderService
    const date: int
    var allOrders: seq<OrdersProcessingInfo>
    var ordersToCancel: seq<OrdersProcessingInfo>
    var assetOrderBooks: map<string, AssetOrderBook>
    var changeBuy: set<string>
    var changeSell: set<string>
    var notices: set<ChangedBook>

    constructor (holders: Holders, service: LimitOrderService, date: int)
      ensures this.holders == holders && this.service == service && this.date == date
      ensures allOrders == [] && ordersToCancel == [] && assetOrderBooks == map[]
      ensures changeBuy == {} && changeSell == {} && notices == {}
    {
      this.holders := holders;
      this.service := service;
      this.date := date;
      allOrders := [];
      ordersToCancel := [];
      assetOrderBooks := map[];
      changeBuy := {};
      changeSell := {};
      notices := {};
    }

    /** preProcess(ordersToCancel, ordersToRemove). */
    method PreProcessLists(cancel: seq<LimitOrder>, remove: seq<LimitOrder>)
      modifies this`allOrders, this`ordersToCancel
      ensures ordersToCancel == Group(cancel)
      ensures allOrders == Group(cancel + remove)
    {
      ordersToCancel := Group(cancel);
      allOrders := Group(cancel + remove);
    }

    /** preProcess(orders): split by operation, then group. */
    method PreProcess(orders: seq<LimitOrder>)
      modifies this`allOrders, this`ordersToCancel
      ensures ordersToCancel == Group(WithOperation(orders, holders.assetPairs, Cancel))
      ensures allOrders == Group(WithOperation(orders, holders.assetPairs, Cancel) + WithOperation(orders, holders.assetPairs, Remove))
    {
      PreProcessLists(WithOperation(orders, holders.assetPairs, Cancel), WithOperation(orders, holders.assetPairs, Remove));
    }

    /** removeOrdersFromAssetOrderBookCopy: take at most one copy of each pair's live book,
        remove the groups' orders from it, and record the changed sides. */
    method RemoveOrdersFromAssetOrderBookCopy(groups: seq<OrdersProcessingInfo>)
      modifies this`assetOrderBooks, this`changeBuy, this`changeSell, this`notices
      ensures assetOrderBooks == RemoveFromCopies(old(assetOrderBooks), service.books, groups)
      ensures changeBuy == old(changeBuy) + ChangedPairs(groups, true)
      ensures changeSell == old(changeSell) + ChangedPairs(groups, false)
      ensures notices == old(notices) + Notices(assetOrderBooks, ChangedPairs(groups, true), true)
                                      + Notices(assetOrderBooks, ChangedPairs(groups, false), false)
    {
      var live := service.books;
      var changedBuy: set<string> := {};
      var changedSell: set<string> := {};
      for i := 0 to |groups|
        invariant assetOrderBooks == RemoveFromCopies(old(assetOrderBooks), live, groups[..i])
        invariant changedBuy == ChangedPairs(groups[..i], true) && changedSell == ChangedPairs(groups[..i], false)
        invariant changeBuy == old(changeBuy) && changeSell == old(changeSell) && notices == old(notices)
      {
        var g := groups[i];
        var book := CopyFor(assetOrderBooks, live, g.assetPairId);
        var buyChanged, sellChanged;
        book, buyChanged, sellChanged := RemoveFromBook(book, g.AllOrders());
        assetOrderBooks := assetOrderBooks[g.assetPairId := book];
        if buyChanged {
          changedBuy := changedBuy + {g.assetPairId};
        }
        if sellChanged {
          changedSell := changedSell + {g.assetPairId};
        }
        assert groups[..i + 1][..i] == groups[..i];
      }
      assert groups[..|groups|] == groups;
      changeBuy := changeBuy + changedBuy;
      changeSell := changeSell + changedSell;
      notices := notices + Notices(assetOrderBooks, changedBuy, true) + Notices(assetOrderBooks, changedSell, false);
    }

    /** process: copies and changed sides from every order, reports and wallet operations from
        the orders to cancel only. `None` stands for the exception raised on an unknown asset. */
    method Process() returns (result: Option<CancelResult>)
      modifies this`assetOrderBooks, this`changeBuy, this`changeSell, this`notices
      ensures assetOrderBooks == RemoveFromCopies(old(assetOrderBooks), service.books, allOrders)
      ensures changeBuy == old(changeBuy) + ChangedPairs(allOrders, true)
      ensures changeSell == old(changeSell) + ChangedPairs(allOrders, false)
      ensures var buckets := Buckets(Flatten(ordersToCancel), holders.trustedClients);
              result == match WalletOperations(ordersToCancel, holders)
                        case None => None
                        case Some(ops) => Some(CancelResult(ops, buckets.clientsOrders, buckets.trustedClientsOrders, assetOrderBooks))
    {
      RemoveOrdersFromAssetOrderBookCopy(allOrders);
      var buckets := CalculateOrdersWithTrades(ordersToCancel, holders.trustedClients);
      var ops := CalculateWalletOperations(ordersToCancel, holders);
      if ops.None? {
        return None;
      }
      result := Some(CancelResult(ops.value, buckets.clientsOrders, buckets.trustedClientsOrders, assetOrderBooks));
    }

    /** getPersistenceData: every order of the batch is removed; each changed side of a copied
        book is saved. */
    function GetPersistenceData(): (d: PersistenceData)
      reads this
      ensures d.ordersToRemove == Flatten(allOrders) && d.ordersToSave == []
      ensures forall s :: s in d.snapshots <==>
                s.assetPairId in assetOrderBooks &&
                ((s.isBuy && s.assetPairId in changeBuy && s.orders == assetOrderBooks[s.assetPairId].buy) ||
                 (!s.isBuy && s.assetPairId in changeSell && s.orders == assetOrderBooks[s.assetPairId].sell))
    {
      PersistenceData(
        (set p | p in assetOrderBooks && p in changeBuy :: SideSnapshot(p, true, assetOrderBooks[p].buy)) +
        (set p | p in assetOrderBooks && p in changeSell :: SideSnapshot(p, false, assetOrderBooks[p].sell)),
        [],
        Flatten(allOrders))
    }

    /** removeOrdersFromCache for one group: cancel its buy orders and install the pair's copy,
        then the same for its sell orders. */
    method RemoveGroupFromCache(g: OrdersProcessingInfo)
      requires g.assetPairId in assetOrderBooks
      modifies service
      ensures service.books == old(service.books)[g.assetPairId := assetOrderBooks[g.assetPairId]]
      ensures service.activeOrders == WithoutIds(old(service.activeOrders), IdsOf(g.AllOrders()))
    {
      service.CancelLimitOrders(g.buyOrders, date);
      service.SetOrderBook(g.assetPairId, assetOrderBooks[g.assetPairId]);
      service.CancelLimitOrders(g.sellOrders, date);
      service.SetOrderBook(g.assetPairId, assetOrderBooks[g.assetPairId]);
      IdsOfAppend(g.sellOrders, g.buyOrders);
      WithoutIdsTwice(old(service.activeOrders), IdsOf(g.buyOrders), IdsOf(g.sellOrders));
    }

    /** apply: remove every group's orders from the service and install each pair's copy as its
        live book. The copies exist once process has run. */
    method Apply()
      requires forall i :: 0 <= i < |allOrders| ==> allOrders[i].assetPairId in assetOrderBooks
      modifies service
      ensures service.books == Installed(old(service.books), assetOrderBooks, allOrders)
      ensures service.activeOrders == WithoutIds(old(service.activeOrders), IdsOf(Flatten(allOrders)))
    {
      for i := 0 to |allOrders|
        invariant service.books == Installed(old(service.books), assetOrderBooks, allOrders[..i])
        invariant service.activeOrders == WithoutIds(old(service.activeOrders), IdsOf(Flatten(allOrders[..i])))
      {
        var g := allOrders[i];
        RemoveGroupFromCache(g);
        assert allOrders[..i + 1] == allOrders[..i] + [g];
        ActiveAfterGroup(old(service.activeOrders), allOrders[..i], g);
        InstalledSnoc(old(service.books), assetOrderBooks, allOrders[..i], g);
      }
      assert allOrders[..|allOrders|] == allOrders;
    }
  }

  /** Removing one more group's orders from the active index. */
  lemma ActiveAfterGroup(active: map<string, LimitOrder>, groups: seq<OrdersProcessingInfo>, g: OrdersProcessingInfo)
    ensures WithoutIds(WithoutIds(active, IdsOf(Flatten(groups))), IdsOf(g.AllOrders())) ==
            WithoutIds(active, IdsOf(Flatten(groups + [g])))
  {
    FlattenSnoc(groups, g);
    IdsOfAppend(Flatten(groups), g.AllOrders());
    WithoutIdsTwice(active, IdsOf(Flatten(groups)), IdsOf(g.AllOrders()));
  }

  /** Installing one more group's copy. */
  lemma InstalledSnoc(books: map<string, AssetOrderBook>, copies: map<string, AssetOrderBook>,
                      groups: seq<OrdersProcessingInfo>, g: OrdersProcessingInfo)
    requires g.assetPairId in copies
    ensures Installed(books, copies, groups)[g.assetPairId := copies[g.assetPairId]] == Installed(books, copies, groups + [g])
  {
    assert (groups + [g])[..|groups|] == groups;
  }

  /** The live books after installing each group's copy. */
  function Installed(books: map<string, AssetOrderBook>, copies: map<string, AssetOrderBook>,
                     groups: seq<OrdersProcessingInfo>): map<string, AssetOrderBook>
  {
    if groups == [] then books
    else
      var g := groups[|groups| - 1];
      Installed(books, copies, groups[..|groups| - 1])[g.assetPairId := LiveBook(copies, g.assetPairId)]
  }

  /** After apply, each pair of the batch has its copy as the live book; the other books are untouched. */
  lemma {:induction false} InstalledBooks(books: map<string, AssetOrderBook>, copies: map<string, AssetOrderBook>,
                                          groups: seq<OrdersProcessingInfo>)
    requires forall i :: 0 <= i < |groups| ==> groups[i].assetPairId in copies
    ensures var r := Installed(books, copies, groups);
            (forall p :: p in r <==> p in books || p in PairIds(groups)) &&
            (forall p :: p in PairIds(groups) ==> r[p] == copies[p]) &&
            (forall p :: p in books && p !in PairIds(groups) ==> r[p] == books[p])
  {
    if groups != [] {
      var prefix := groups[..|groups| - 1];
      InstalledBooks(books, copies, prefix);
      assert PairIds(groups) == PairIds(prefix) + {groups[|groups| - 1].assetPairId} by {
        assert groups == prefix + [groups[|groups| - 1]];
      }
    }
  }

  function WithoutIds(active: map<string, LimitOrder>, ids: set<string>): map<string, LimitOrder>
  {
    map id | id in active && id !in ids :: active[id]
  }

  lemma WithoutIdsTwice(active: map<string, LimitOrder>, a: set<string>, b: set<string>)
    ensures WithoutIds(WithoutIds(active, a), b) == WithoutIds(active, a + b)
  {
  }

  lemma IdsOfAppend(xs: seq<LimitOrder>, ys: seq<LimitOrder>)
    ensures IdsOf(xs + ys) == IdsOf(xs) + IdsOf(ys)
  {
    assert forall o :: o in xs + ys <==> o in xs || o in ys;
  }

  lemma {:induction false} FlattenSnoc(groups: seq<OrdersProcessingInfo>, g: OrdersProcessingInfo)
    ensures Flatten(groups + [g]) == Flatten(groups) + g.AllOrders()
  {
    if groups == [] {
      assert [g][1..] == [];
    } else {
      assert (groups + [g])[1..] == groups[1..] + [g];
      FlattenSnoc(groups[1..], g);
    }
  }

  /** The orders listed for removal are exactly the cancel and remove lists together. */
  lemma PersistedRemovalsAreTheBatch(cancel: seq<LimitOrder>, remove: seq<LimitOrder>)
    ensures multiset(Flatten(Group(cancel + remove))) == multiset(cancel) + multiset(remove)
  {
    GroupPreservesOrders(cancel + remove);
  }

  /** The reports describe exactly the orders to cancel, none of the orders only removed. */
  lemma ReportsCoverExactlyTheCancelled(cancel: seq<LimitOrder>, trustedClients: set<string>)
    ensures var b := Buckets(Flatten(Group(cancel)), trustedClients);
            multiset(b.clientsOrders) + multiset(b.trustedClientsOrders) == multiset(cancel)
  {
    GroupPreservesOrders(cancel);
    BucketsPartition(Flatten(Group(cancel)), trustedClients);
  }
}
