/**
 * The per-subscription grouping the test plugin returns from
 * getInvoiceGrouping: every item is keyed by its subscription id, or, for a
 * linked item such as a tax item, by the subscription id of the item it
 * points to; the item ids are then collected per key.
 */
module InvoiceGrouping {
  import opened Results
  import opened Invoices

  /** The key of a group. None is the null key of the source's HashMap: the
      key of an item linked to a target that has no subscription id. */
  type GroupKey = Option<Uuid>

  /** What findGroup throws: `orElseThrow` on a missing link target, or the
      IllegalStateException for an item with neither id. */
  datatype GroupingError = NoSuchElement | IllegalState(item: InvoiceItem)

  /** The first item of `items` whose id is `id`, if any. */
  function FindItem(items: seq<InvoiceItem>, id: Uuid): (r: Option<InvoiceItem>)
    ensures r.Some? ==> r.value in items && r.value.id == id
    ensures r.None? <==> forall x :: x in items ==> x.id != id
  {
    if items == [] then None
    else if items[0].id == id then Some(items[0])
    else FindItem(items[1..], id)
  }

  /** The group of `item` within `inv` (findGroup). */
  function FindGroup(inv: Invoice, item: InvoiceItem): (r: Result<GroupKey, GroupingError>)
    ensures item.subscriptionId.Some? ==> r == Success(item.subscriptionId)
    ensures item.subscriptionId.None? && item.linkedItemId.None? ==> r == Failure(IllegalState(item))
    ensures item.subscriptionId.None? && item.linkedItemId.Some? ==> r.Success? || r == Failure(NoSuchElement)
  {
    if item.subscriptionId.Some? then Success(item.subscriptionId)
    else if item.linkedItemId.Some? then
      match FindItem(inv.items, item.linkedItemId.value)
      case Some(target) => Success(target.subscriptionId)
      case None => Failure(NoSuchElement)
    else Failure(IllegalState(item))
  }

  /**
   * The group of a linked item without a subscription id: NoSuchElement
   * exactly when no item of the invoice has the linked id, and otherwise the
   * subscription id (possibly null) of an item that has it.
   */
  lemma FindGroupLinked(inv: Invoice, item: InvoiceItem)
    requires item.subscriptionId.None? && item.linkedItemId.Some?
    ensures FindGroup(inv, item) == Failure(NoSuchElement) <==>
              forall x :: x in inv.items ==> x.id != item.linkedItemId.value
    ensures FindGroup(inv, item).Success? ==>
              exists target :: target in inv.items && target.id == item.linkedItemId.value &&
                               FindGroup(inv, item).value == target.subscriptionId
    ensures (exists x :: x in inv.items && x.id == item.linkedItemId.value) ==> FindGroup(inv, item).Success?
  {
    var found := FindItem(inv.items, item.linkedItemId.value);
    if found.Some? {
      assert found.value in inv.items && found.value.id == item.linkedItemId.value;
    }
  }

  /** Every item of `items` has a group in `inv`. */
  predicate AllGrouped(inv: Invoice, items: seq<InvoiceItem>)
  {
    forall it :: it in items ==> FindGroup(inv, it).Success?
  }

  /** The ids of the items of `items` whose group is `g`, in order. */
  function Members(inv: Invoice, items: seq<InvoiceItem>, g: GroupKey): (r: seq<Uuid>)
    decreases |items|
  {
    if items == [] then []
    else
      var last := items[|items| - 1];
      Members(inv, items[..|items| - 1], g) + if FindGroup(inv, last) == Success(g) then [last.id] else []
  }

  /** The keys of the groups of `items`. */
  function GroupKeys(inv: Invoice, items: seq<InvoiceItem>): (r: set<GroupKey>)
    requires AllGrouped(inv, items)
  {
    set it | it in items :: FindGroup(inv, it).value
  }

  /** The map that the source's apply builds from `items`: key to member ids. */
  function Grouping(inv: Invoice, items: seq<InvoiceItem>): (r: map<GroupKey, seq<Uuid>>)
    requires AllGrouped(inv, items)
  {
    map g | g in GroupKeys(inv, items) :: Members(inv, items, g)
  }

  /**
   * `groups` listed in some order: `order` names each key once, and the i-th
   * list is the member list of the i-th key.
   */
  ghost predicate IsListing(lists: seq<seq<Uuid>>, order: seq<GroupKey>, groups: map<GroupKey, seq<Uuid>>)
  {
    && |order| == |lists|
    && Distinct(order)
    && (forall g :: g in groups <==> g in order)
    && (forall i :: 0 <= i < |lists| ==> order[i] in groups && lists[i] == groups[order[i]])
  }

  /** Appending an item adds its id to the members of its own group only. */
  lemma MembersSnoc(inv: Invoice, pre: seq<InvoiceItem>, last: InvoiceItem, h: GroupKey)
    ensures Members(inv, pre + [last], h) ==
              Members(inv, pre, h) + if FindGroup(inv, last) == Success(h) then [last.id] else []
  {
    assert (pre + [last])[..|pre|] == pre;
  }

  /** Appending a grouped item adds its group to the keys. */
  lemma GroupKeysSnoc(inv: Invoice, pre: seq<InvoiceItem>, last: InvoiceItem)
    requires AllGrouped(inv, pre) && FindGroup(inv, last).Success?
    ensures AllGrouped(inv, pre + [last])
    ensures GroupKeys(inv, pre + [last]) == GroupKeys(inv, pre) + {FindGroup(inv, last).value}
  {
    forall it | it in pre + [last] ensures it in pre || it == last {}
  }

  /** One loop step of apply: the grouping of a longer prefix. */
  lemma GroupingSnoc(inv: Invoice, n: nat)
    requires n < |inv.items| && AllGrouped(inv, inv.items[..n]) && FindGroup(inv, inv.items[n]).Success?
    ensures AllGrouped(inv, inv.items[..n + 1])
    ensures var g := FindGroup(inv, inv.items[n]).value;
            var before := Grouping(inv, inv.items[..n]);
            Grouping(inv, inv.items[..n + 1]) ==
              before[g := (if g in before then before[g] else []) + [inv.items[n].id]]
  {
    var pre, last := inv.items[..n], inv.items[n];
    assert inv.items[..n + 1] == pre + [last];
    GroupKeysSnoc(inv, pre, last);
    var g := FindGroup(inv, last).value;
    var before, after := Grouping(inv, pre), Grouping(inv, pre + [last]);
    var updated := before[g := (if g in before then before[g] else []) + [last.id]];
    if g !in before {
      MembersOutsideKeys(inv, pre, g);
    }
    forall h | h in after ensures h in updated && after[h] == updated[h] {
      MembersSnoc(inv, pre, last, h);
      if h != g {
        assert h in before;
      }
    }
    assert after.Keys == updated.Keys;
  }

  /** A key that no item has collects no ids. */
  lemma {:induction false} MembersOutsideKeys(inv: Invoice, items: seq<InvoiceItem>, g: GroupKey)
    requires forall it :: it in items ==> FindGroup(inv, it) != Success(g)
    ensures Members(inv, items, g) == []
    decreases |items|
  {
    if items != [] {
      assert items[..|items| - 1] + [items[|items| - 1]] == items;
      MembersOutsideKeys(inv, items[..|items| - 1], g);
    }
  }

  /**
   * The grouping loop of apply: walks the invoice items and appends each id
   * to the list of its group, creating the list on first use; a findGroup
   * failure aborts the whole call.
   */
  method GroupItems(inv: Invoice) returns (r: Result<map<GroupKey, seq<Uuid>>, GroupingError>)
    ensures r.Success? <==> AllGrouped(inv, inv.items)
    ensures r.Success? ==> r.value == Grouping(inv, inv.items)
    ensures r.Failure? ==>
              exists k :: 0 <= k < |inv.items| && FindGroup(inv, inv.items[k]) == Failure(r.error) &&
                (forall j :: 0 <= j < k ==> FindGroup(inv, inv.items[j]).Success?)
  {
    var groups: map<GroupKey, seq<Uuid>> := map[];
    var i := 0;
    while i < |inv.items|
      invariant 0 <= i <= |inv.items|
      invariant AllGrouped(inv, inv.items[..i])
      invariant groups == Grouping(inv, inv.items[..i])
    {
      var ii := inv.items[i];
      var groupId := FindGroup(inv, ii);
      if groupId.Failure? {
        forall j | 0 <= j < i ensures FindGroup(inv, inv.items[j]).Success? {
          assert inv.items[..i][j] in inv.items[..i];
        }
        return Failure(groupId.error);
      }
      GroupingSnoc(inv, i);
      var key := groupId.value;
      if key !in groups {
        groups := groups[key := []];
      }
      groups := groups[key := groups[key] + [ii.id]];
      i := i + 1;
    }
    assert inv.items[..i] == inv.items;
    return Success(groups);
  }

  /**
   * initGroups: lists the member lists of `groups`. The source walks
   * HashMap.values(), whose order is unspecified; here each next key is
   * chosen arbitrarily and `order` records the choice.
   */
  method InitGroups(groups: map<GroupKey, seq<Uuid>>) returns (tmp: seq<seq<Uuid>>, ghost order: seq<GroupKey>)
    ensures IsListing(tmp, order, groups)
    ensures forall g :: g in groups ==> groups[g] in tmp
    ensures forall i :: 0 <= i < |tmp| ==> tmp[i] in groups.Values
  {
    tmp, order := [], [];
    var rest := groups.Keys;
    while rest != {}
      invariant rest <= groups.Keys
      invariant |order| == |tmp| && Distinct(order)
      invariant forall g :: g in groups ==> (g in rest <==> g !in order)
      invariant forall g :: g in order ==> g in groups
      invariant forall i :: 0 <= i < |tmp| ==> order[i] in groups && tmp[i] == groups[order[i]]
      decreases rest
    {
      var g :| g in rest;
      tmp, order := tmp + [groups[g]], order + [g];
      rest := rest - {g};
    }
    forall g | g in groups ensures groups[g] in tmp {
      var i :| 0 <= i < |order| && order[i] == g;
      assert tmp[i] == groups[g];
    }
    forall i | 0 <= i < |tmp| ensures tmp[i] in groups.Values {
      assert order[i] in groups && tmp[i] == groups[order[i]];
    }
  }

  /**
   * The grouping function the test installs (apply): group the items, then
   * hand the lists to the grouping result in map order.
   */
  method Apply(inv: Invoice) returns (r: Result<seq<seq<Uuid>>, GroupingError>, ghost order: seq<GroupKey>)
    ensures r.Success? <==> AllGrouped(inv, inv.items)
    ensures r.Success? ==> IsListing(r.value, order, Grouping(inv, inv.items))
    ensures r.Failure? ==>
              exists k :: 0 <= k < |inv.items| && FindGroup(inv, inv.items[k]) == Failure(r.error) &&
                (forall j :: 0 <= j < k ==> FindGroup(inv, inv.items[j]).Success?)
  {
    var groups := GroupItems(inv);
    if groups.Failure? {
      return Failure(groups.error), [];
    }
    var tmp;
    tmp, order := InitGroups(groups.value);
    return Success(tmp), order;
  }

  /** An id is in the group of `g` exactly when some item with that id has group `g`. */
  lemma {:induction false} MembersIn(inv: Invoice, items: seq<InvoiceItem>, g: GroupKey, id: Uuid)
    ensures id in Members(inv, items, g) <==>
              exists k :: 0 <= k < |items| && items[k].id == id && FindGroup(inv, items[k]) == Success(g)
    decreases |items|
  {
    if items != [] {
      var init := items[..|items| - 1];
      MembersIn(inv, init, g, id);
      if exists k :: 0 <= k < |items| && items[k].id == id && FindGroup(inv, items[k]) == Success(g) {
        var k :| 0 <= k < |items| && items[k].id == id && FindGroup(inv, items[k]) == Success(g);
        if k < |init| {
          assert init[k] == items[k];
        }
      }
    }
  }

  /** A group's ids appear in invoice order. */
  lemma {:induction false} MembersInOrder(inv: Invoice, items: seq<InvoiceItem>, g: GroupKey)
    ensures IsSubsequence(Members(inv, items, g), Ids(items))
    decreases |items|
  {
    if items != [] {
      var init := items[..|items| - 1];
      var last := items[|items| - 1];
      assert items == init + [last];
      MembersInOrder(inv, init, g);
      MembersSnoc(inv, init, last, g);
      IdsSnoc(init, last);
      if FindGroup(inv, last) == Success(g) {
        SubsequenceSnoc(Members(inv, init, g), Ids(init), last.id);
      } else {
        assert Members(inv, items, g) == Members(inv, init, g);
        SubsequenceExtend(Members(inv, init, g), Ids(init), last.id);
      }
    }
  }

  /**
   * The grouping covers the invoice: every item's id is in the group of its
   * key, every listed id belongs to an item of that group, and no group is
   * empty.
   */
  lemma GroupingCovers(inv: Invoice, items: seq<InvoiceItem>)
    requires AllGrouped(inv, items)
    ensures forall it :: it in items ==>
              FindGroup(inv, it).value in Grouping(inv, items) &&
              it.id in Grouping(inv, items)[FindGroup(inv, it).value]
    ensures forall g, id :: g in Grouping(inv, items) && id in Grouping(inv, items)[g] ==>
              exists it :: it in items && it.id == id && FindGroup(inv, it) == Success(g)
    ensures forall g :: g in Grouping(inv, items) ==> Grouping(inv, items)[g] != []
  {
    var G := Grouping(inv, items);
    forall it | it in items
      ensures FindGroup(inv, it).value in G && it.id in G[FindGroup(inv, it).value]
    {
      var k :| 0 <= k < |items| && items[k] == it;
      MembersIn(inv, items, FindGroup(inv, it).value, it.id);
    }
    forall g, id | g in G && id in G[g]
      ensures exists it :: it in items && it.id == id && FindGroup(inv, it) == Success(g)
    {
      MembersIn(inv, items, g, id);
      var k :| 0 <= k < |items| && items[k].id == id && FindGroup(inv, items[k]) == Success(g);
      assert items[k] in items;
    }
    forall g | g in G ensures G[g] != [] {
      var it :| it in items && FindGroup(inv, it).value == g;
      var k :| 0 <= k < |items| && items[k] == it;
      MembersIn(inv, items, g, it.id);
    }
  }

  /**
   * With distinct item ids the groups are disjoint, each lists an id at most
   * once, and each keeps invoice order.
   */
  lemma GroupingDisjoint(inv: Invoice, items: seq<InvoiceItem>)
    requires AllGrouped(inv, items) && DistinctIds(items)
    ensures forall g1, g2, id ::
              (g1 in Grouping(inv, items) && g2 in Grouping(inv, items) &&
               id in Grouping(inv, items)[g1] && id in Grouping(inv, items)[g2]) ==> g1 == g2
    ensures forall g :: g in Grouping(inv, items) ==>
              Distinct(Grouping(inv, items)[g]) && IsSubsequence(Grouping(inv, items)[g], Ids(items))
  {
    var G := Grouping(inv, items);
    forall g1, g2, id | g1 in G && g2 in G && id in G[g1] && id in G[g2] ensures g1 == g2 {
      MembersIn(inv, items, g1, id);
      MembersIn(inv, items, g2, id);
      var a :| 0 <= a < |items| && items[a].id == id && FindGroup(inv, items[a]) == Success(g1);
      var b :| 0 <= b < |items| && items[b].id == id && FindGroup(inv, items[b]) == Success(g2);
      assert a == b;
    }
    forall g | g in G ensures Distinct(G[g]) && IsSubsequence(G[g], Ids(items)) {
      MembersInOrder(inv, items, g);
      SubsequenceDistinct(G[g], Ids(items));
    }
  }

  /** Every item id of the invoice is in some list handed to the grouping result. */
  lemma ListingCoversInvoice(inv: Invoice, lists: seq<seq<Uuid>>, order: seq<GroupKey>)
    requires AllGrouped(inv, inv.items)
    requires IsListing(lists, order, Grouping(inv, inv.items))
    ensures forall it :: it in inv.items ==> exists i :: 0 <= i < |lists| && it.id in lists[i]
  {
    GroupingCovers(inv, inv.items);
    forall it | it in inv.items ensures exists i :: 0 <= i < |lists| && it.id in lists[i] {
      var g := FindGroup(inv, it).value;
      assert g in order;
      var i :| 0 <= i < |order| && order[i] == g;
      assert it.id in lists[i];
    }
  }

  /** With distinct item ids, no id is in two of the lists. */
  lemma ListingDisjoint(inv: Invoice, lists: seq<seq<Uuid>>, order: seq<GroupKey>)
    requires AllGrouped(inv, inv.items) && DistinctIds(inv.items)
    requires IsListing(lists, order, Grouping(inv, inv.items))
    ensures forall i, j, id :: 0 <= i < |lists| && 0 <= j < |lists| && id in lists[i] && id in lists[j] ==> i == j
  {
    GroupingDisjoint(inv, inv.items);
    forall i, j, id | 0 <= i < |lists| && 0 <= j < |lists| && id in lists[i] && id in lists[j]
      ensures i == j
    {
      assert order[i] == order[j];
    }
  }

  /** Every id in the lists is an item id of the invoice. */
  lemma ListingWithinInvoice(inv: Invoice, lists: seq<seq<Uuid>>, order: seq<GroupKey>)
    requires AllGrouped(inv, inv.items)
    requires IsListing(lists, order, Grouping(inv, inv.items))
    ensures forall i, id :: 0 <= i < |lists| && id in lists[i] ==> id in Ids(inv.items)
  {
    forall i, id | 0 <= i < |lists| && id in lists[i] ensures id in Ids(inv.items) {
      MembersIn(inv, inv.items, order[i], id);
      var k :| 0 <= k < |inv.items| && inv.items[k].id == id && FindGroup(inv, inv.items[k]) == Success(order[i]);
      assert Ids(inv.items)[k] == id;
    }
  }
}
