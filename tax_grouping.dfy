/**
 * The tax hook and the per-subscription grouping together, as the grouping
 * test combines them: the tax items are added to the invoice (appended after
 * its own items), and the grouping then splits the result.
 */
module TaxGrouping {
  import opened Results
  import opened Invoices
  import opened Tax
  import opened InvoiceGrouping

  /** The invoice once the tax items have been appended to it. */
  function WithTaxItems(inv: Invoice, freshId: nat -> Uuid): (r: Invoice)
  {
    inv.(items := inv.items + TaxItems(inv, freshId))
  }

  /**
   * Each tax item lands in the same group as the item it is linked to: the
   * group of that item's subscription.
   */
  lemma TaxItemJoinsItsTarget(inv: Invoice, freshId: nat -> Uuid, k: nat)
    requires DistinctIds(WithTaxItems(inv, freshId).items)
    requires k < |TaxItems(inv, freshId)|
    ensures var source := SubscriptionItems(inv.items)[k];
            var merged := WithTaxItems(inv, freshId);
            && source.subscriptionId.Some?
            && FindGroup(merged, source) == Success(source.subscriptionId)
            && FindGroup(merged, TaxItems(inv, freshId)[k]) == Success(source.subscriptionId)
  {
    var merged := WithTaxItems(inv, freshId);
    var s := SubscriptionItems(inv.items);
    var taxes := TaxItems(inv, freshId);
    var t := taxes[k];
    SubscriptionItemsSpec(inv.items);
    assert s[k] in s;
    assert t == TaxItemFor(inv, s[k], freshId(k));
    assert s[k] in merged.items;
    var r := FindGroup(merged, t);
    if r.Failure? {
      assert false;
    }
    var target :| target in merged.items && target.id == s[k].id && r.value == target.subscriptionId;
    var a :| 0 <= a < |merged.items| && merged.items[a] == target;
    var b :| 0 <= b < |merged.items| && merged.items[b] == s[k];
    SameIdSamePosition(merged.items, a, b);
  }

  /** An invoice whose items all carry a subscription id is its own SubscriptionItems. */
  lemma {:induction false} AllSubscriptionItems(items: seq<InvoiceItem>)
    requires forall x :: x in items ==> x.subscriptionId.Some?
    ensures SubscriptionItems(items) == items
    decreases |items|
  {
    if items != [] {
      var init, last := items[..|items| - 1], items[|items| - 1];
      assert items == init + [last];
      assert forall x :: x in init ==> x in items;
      AllSubscriptionItems(init);
      assert last.subscriptionId.Some?;
    }
  }

  /** The ids of a concatenation grouped under `g` are those of each part. */
  lemma {:induction false} MembersAppend(inv: Invoice, a: seq<InvoiceItem>, b: seq<InvoiceItem>, g: GroupKey)
    ensures Members(inv, a + b, g) == Members(inv, a, g) + Members(inv, b, g)
    decreases |b|
  {
    if b != [] {
      var b' := b[..|b| - 1];
      var last := b[|b| - 1];
      assert (a + b)[..|a + b| - 1] == a + b';
      assert (a + b)[|a + b| - 1] == last;
      var tail := if FindGroup(inv, last) == Success(g) then [last.id] else [];
      assert Members(inv, a + b, g) == Members(inv, a + b', g) + tail;
      assert Members(inv, b, g) == Members(inv, b', g) + tail;
      MembersAppend(inv, a, b', g);
    } else {
      assert a + b == a;
    }
  }

  /** When exactly one item has group `g`, the group lists exactly its id. */
  lemma MembersSingle(inv: Invoice, items: seq<InvoiceItem>, g: GroupKey, k: nat)
    requires k < |items| && FindGroup(inv, items[k]) == Success(g)
    requires forall j :: 0 <= j < |items| && j != k ==> FindGroup(inv, items[j]) != Success(g)
    ensures Members(inv, items, g) == [items[k].id]
  {
    var left, right := items[..k], items[k + 1..];
    assert items == left + [items[k]] + right;
    forall it | it in left ensures FindGroup(inv, it) != Success(g) {
      var j :| 0 <= j < |left| && left[j] == it;
      assert items[j] == it;
    }
    forall it | it in right ensures FindGroup(inv, it) != Success(g) {
      var j :| 0 <= j < |right| && right[j] == it;
      assert items[k + 1 + j] == it;
    }
    MembersOutsideKeys(inv, left, g);
    MembersOutsideKeys(inv, right, g);
    MembersAppend(inv, left + [items[k]], right, g);
    MembersAppend(inv, left, [items[k]], g);
    assert [items[k]][..0] == [];
  }

  /**
   * The shape of the invoice in the grouping test: every item is a RECURRING
   * item of its own subscription, no two sharing one.
   */
  predicate OneRecurringItemPerSubscription(inv: Invoice)
  {
    && (forall x :: x in inv.items ==> x.itemType == Recurring && x.subscriptionId.Some?)
    && (forall a, b :: 0 <= a < b < |inv.items| ==> inv.items[a].subscriptionId != inv.items[b].subscriptionId)
  }

  /** In such an invoice the k-th item and the k-th tax item share the k-th subscription's group. */
  lemma SplitGroupOf(inv: Invoice, freshId: nat -> Uuid, k: nat)
    requires OneRecurringItemPerSubscription(inv) && DistinctIds(WithTaxItems(inv, freshId).items)
    requires k < |inv.items|
    ensures |TaxItems(inv, freshId)| == |inv.items|
    ensures FindGroup(WithTaxItems(inv, freshId), inv.items[k]) == Success(inv.items[k].subscriptionId)
    ensures FindGroup(WithTaxItems(inv, freshId), TaxItems(inv, freshId)[k]) == Success(inv.items[k].subscriptionId)
  {
    AllSubscriptionItems(inv.items);
    TaxItemJoinsItsTarget(inv, freshId, k);
  }

  /** The j-th item of the taxed invoice has the group of the invoice's own item j, or j - n for a tax item. */
  lemma SplitItemGroup(inv: Invoice, freshId: nat -> Uuid, j: nat)
    requires OneRecurringItemPerSubscription(inv) && DistinctIds(WithTaxItems(inv, freshId).items)
    requires j < |WithTaxItems(inv, freshId).items|
    ensures var k := if j < |inv.items| then j else j - |inv.items|;
            0 <= k < |inv.items| &&
            FindGroup(WithTaxItems(inv, freshId), WithTaxItems(inv, freshId).items[j]) == Success(inv.items[k].subscriptionId)
  {
    var n := |inv.items|;
    AllSubscriptionItems(inv.items);
    if j < n {
      SplitGroupOf(inv, freshId, j);
    } else {
      SplitGroupOf(inv, freshId, j - n);
      assert WithTaxItems(inv, freshId).items[j] == TaxItems(inv, freshId)[j - n];
    }
  }

  /** Every item of the taxed invoice has the group of one of the invoice's own items. */
  lemma SplitAllGrouped(inv: Invoice, freshId: nat -> Uuid)
    requires OneRecurringItemPerSubscription(inv) && DistinctIds(WithTaxItems(inv, freshId).items)
    ensures forall it :: it in WithTaxItems(inv, freshId).items ==>
              exists k :: 0 <= k < |inv.items| &&
                FindGroup(WithTaxItems(inv, freshId), it) == Success(inv.items[k].subscriptionId)
  {
    var merged := WithTaxItems(inv, freshId);
    forall it | it in merged.items
      ensures exists k :: 0 <= k < |inv.items| && FindGroup(merged, it) == Success(inv.items[k].subscriptionId)
    {
      var j :| 0 <= j < |merged.items| && merged.items[j] == it;
      SplitItemGroup(inv, freshId, j);
    }
  }

  /** Every item of the taxed invoice has a group, and the groups are the subscriptions. */
  lemma SplitKeys(inv: Invoice, freshId: nat -> Uuid)
    requires OneRecurringItemPerSubscription(inv) && DistinctIds(WithTaxItems(inv, freshId).items)
    ensures AllGrouped(WithTaxItems(inv, freshId), WithTaxItems(inv, freshId).items)
    ensures forall g :: g in Grouping(WithTaxItems(inv, freshId), WithTaxItems(inv, freshId).items) <==>
              exists k :: 0 <= k < |inv.items| && g == inv.items[k].subscriptionId
  {
    var merged := WithTaxItems(inv, freshId);
    var n := |inv.items|;
    SplitAllGrouped(inv, freshId);
    assert AllGrouped(merged, merged.items);
    var G := Grouping(merged, merged.items);
    forall g | exists k :: 0 <= k < n && g == inv.items[k].subscriptionId
      ensures g in G
    {
      var k :| 0 <= k < n && g == inv.items[k].subscriptionId;
      SplitGroupOf(inv, freshId, k);
      assert inv.items[k] in merged.items;
    }
  }

  /** The group of the k-th subscription lists the k-th item and its tax item. */
  lemma SplitGroupMembers(inv: Invoice, freshId: nat -> Uuid, k: nat)
    requires OneRecurringItemPerSubscription(inv) && DistinctIds(WithTaxItems(inv, freshId).items)
    requires k < |inv.items|
    ensures |TaxItems(inv, freshId)| == |inv.items|
    ensures Members(WithTaxItems(inv, freshId), WithTaxItems(inv, freshId).items, inv.items[k].subscriptionId)
              == [inv.items[k].id, TaxItems(inv, freshId)[k].id]
  {
    var merged := WithTaxItems(inv, freshId);
    var taxes := TaxItems(inv, freshId);
    var g := inv.items[k].subscriptionId;
    SplitGroupOf(inv, freshId, k);
    forall j | 0 <= j < |inv.items| && j != k
      ensures FindGroup(merged, inv.items[j]) != Success(g)
      ensures FindGroup(merged, taxes[j]) != Success(g)
    {
      SplitGroupOf(inv, freshId, j);
    }
    MembersSingle(merged, inv.items, g, k);
    MembersSingle(merged, taxes, g, k);
    MembersAppend(merged, inv.items, taxes, g);
  }

  /**
   * The split the grouping test expects. When every item of the invoice is a
   * RECURRING item of its own subscription, grouping the invoice with its
   * tax items gives one group per subscription, and the group of the k-th
   * item lists exactly that item and the TAX item linked to it.
   */
  lemma SplitIsRecurringPlusTax(inv: Invoice, freshId: nat -> Uuid)
    requires OneRecurringItemPerSubscription(inv) && DistinctIds(WithTaxItems(inv, freshId).items)
    ensures AllGrouped(WithTaxItems(inv, freshId), WithTaxItems(inv, freshId).items)
    ensures |TaxItems(inv, freshId)| == |inv.items|
    ensures forall g :: g in Grouping(WithTaxItems(inv, freshId), WithTaxItems(inv, freshId).items) <==>
              exists k :: 0 <= k < |inv.items| && g == inv.items[k].subscriptionId
    ensures forall k :: 0 <= k < |inv.items| ==>
              var t := TaxItems(inv, freshId)[k];
              && inv.items[k].itemType == Recurring
              && t.itemType == Tax && t.linkedItemId == Some(inv.items[k].id)
              && Grouping(WithTaxItems(inv, freshId), WithTaxItems(inv, freshId).items)[inv.items[k].subscriptionId]
                   == [inv.items[k].id, t.id]
  {
    var merged := WithTaxItems(inv, freshId);
    AllSubscriptionItems(inv.items);
    SplitKeys(inv, freshId);
    forall k | 0 <= k < |inv.items|
      ensures var t := TaxItems(inv, freshId)[k];
              && t.itemType == Tax && t.linkedItemId == Some(inv.items[k].id)
              && Grouping(merged, merged.items)[inv.items[k].subscriptionId] == [inv.items[k].id, t.id]
    {
      assert inv.items[k] in inv.items;
      SplitGroupMembers(inv, freshId, k);
      assert TaxItems(inv, freshId)[k] == TaxItemFor(inv, inv.items[k], freshId(k));
    }
  }
}
