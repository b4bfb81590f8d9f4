/**
 * The per-subscription tax hook of the test plugin: one TAX item for every
 * item of the invoice that belongs to a subscription, linked back to it.
 */
module Tax {
  import opened Results
  import opened Invoices

  const TaxItemDescription := "Tax Item"

  /** The items of `items` that carry a subscription id, in order. */
  function SubscriptionItems(items: seq<InvoiceItem>): (r: seq<InvoiceItem>)
    decreases |items|
  {
    if items == [] then []
    else
      var last := items[|items| - 1];
      SubscriptionItems(items[..|items| - 1]) + (if last.subscriptionId.Some? then [last] else [])
  }

  /**
   * SubscriptionItems keeps exactly the items with a subscription id, in
   * input order.
   */
  lemma {:induction false} SubscriptionItemsSpec(items: seq<InvoiceItem>)
    ensures forall x :: x in SubscriptionItems(items) ==> x in items && x.subscriptionId.Some?
    ensures forall x :: x in items && x.subscriptionId.Some? ==> x in SubscriptionItems(items)
    ensures IsSubsequence(SubscriptionItems(items), items)
    ensures forall x :: multiset(SubscriptionItems(items))[x] ==
                          if x.subscriptionId.Some? then multiset(items)[x] else 0
    decreases |items|
  {
    if items != [] {
      var init := items[..|items| - 1];
      var last := items[|items| - 1];
      SubscriptionItemsSpec(init);
      assert items == init + [last];
      assert multiset(items) == multiset(init) + multiset{last};
      var s := SubscriptionItems(items);
      if last.subscriptionId.Some? {
        assert s == SubscriptionItems(init) + [last];
        assert s[..|s| - 1] == SubscriptionItems(init);
        assert multiset(s) == multiset(SubscriptionItems(init)) + multiset{last};
      } else {
        assert s == SubscriptionItems(init);
        SubsequenceExtend(s, init, last);
      }
    }
  }

  /** The positions of the items that carry a subscription id. */
  function SubscriptionPositions(items: seq<InvoiceItem>): (r: set<nat>)
    ensures forall k :: k in r <==> 0 <= k < |items| && items[k].subscriptionId.Some?
  {
    set k: nat | k < |items| && items[k].subscriptionId.Some?
  }

  /** One item of SubscriptionItems per position that carries a subscription id, repeats included. */
  lemma {:induction false} SubscriptionItemsLength(items: seq<InvoiceItem>)
    ensures |SubscriptionItems(items)| == |SubscriptionPositions(items)|
    decreases |items|
  {
    if items != [] {
      var n := |items| - 1;
      var init := items[..n];
      SubscriptionItemsLength(init);
      var before, after := SubscriptionPositions(init), SubscriptionPositions(items);
      assert n !in before;
      if items[n].subscriptionId.Some? {
        assert after == before + {n};
      } else {
        assert after == before;
      }
    }
  }

  /** The TAX item the hook creates for `source`, with the freshly drawn id `id`. */
  function TaxItemFor(inv: Invoice, source: InvoiceItem, id: Uuid): (t: InvoiceItem)
    ensures t.itemType == Tax && t.amount == 1 && t.linkedItemId == Some(source.id)
    ensures t.startDate == source.startDate && t.subscriptionId == None
  {
    InvoiceItem(id, inv.id, inv.accountId, Tax, None, Some(source.id),
                source.startDate, 1, inv.currency, TaxItemDescription)
  }

  /**
   * What the hook returns for `inv` when the k-th random UUID it draws is
   * `freshId(k)`: the k-th subscription item gets the k-th tax item.
   */
  function TaxItems(inv: Invoice, freshId: nat -> Uuid): (r: seq<InvoiceItem>)
  {
    var s := SubscriptionItems(inv.items);
    seq(|s|, k requires 0 <= k < |s| => TaxItemFor(inv, s[k], freshId(k)))
  }

  /** Appending one item to the invoice appends at most one tax item. */
  lemma TaxItemsSnoc(inv: Invoice, n: nat, freshId: nat -> Uuid)
    requires n < |inv.items|
    ensures var before := TaxItems(inv.(items := inv.items[..n]), freshId);
            TaxItems(inv.(items := inv.items[..n + 1]), freshId) ==
              before + if inv.items[n].subscriptionId.Some?
                       then [TaxItemFor(inv, inv.items[n], freshId(|before|))] else []
  {
    var pre, post := inv.(items := inv.items[..n]), inv.(items := inv.items[..n + 1]);
    assert post.items[..n] == pre.items;
    var s0, s1 := SubscriptionItems(pre.items), SubscriptionItems(post.items);
    var before, after := TaxItems(pre, freshId), TaxItems(post, freshId);
    assert s1 == s0 + if inv.items[n].subscriptionId.Some? then [inv.items[n]] else [];
    forall k | 0 <= k < |s0| ensures after[k] == before[k] {
      assert s1[k] == s0[k];
      assert after[k] == TaxItemFor(post, s1[k], freshId(k));
      assert before[k] == TaxItemFor(pre, s0[k], freshId(k));
    }
    if inv.items[n].subscriptionId.Some? {
      assert after[|s0|] == TaxItemFor(inv, inv.items[n], freshId(|before|));
      assert after == before + [TaxItemFor(inv, inv.items[n], freshId(|before|))];
    } else {
      assert s1 == s0;
      assert after == before;
    }
  }

  /**
   * The hook itself: walks the invoice items and appends a tax item for each
   * one that belongs to a subscription.
   */
  method PerSubscriptionTaxItems(inv: Invoice, freshId: nat -> Uuid) returns (result: seq<InvoiceItem>)
    ensures result == TaxItems(inv, freshId)
  {
    result := [];
    var i := 0;
    while i < |inv.items|
      invariant 0 <= i <= |inv.items|
      invariant result == TaxItems(inv.(items := inv.items[..i]), freshId)
    {
      var ii := inv.items[i];
      TaxItemsSnoc(inv, i, freshId);
      if ii.subscriptionId.Some? {
        result := result + [TaxItemFor(inv, ii, freshId(|result|))];
      }
      i := i + 1;
    }
    assert inv.items[..i] == inv.items;
  }

  /** The hook returns one tax item per invoice position whose item carries a subscription id. */
  lemma TaxItemsCount(inv: Invoice, freshId: nat -> Uuid)
    ensures |TaxItems(inv, freshId)| == |SubscriptionPositions(inv.items)|
  {
    SubscriptionItemsLength(inv.items);
  }

  /**
   * Every tax item is a TAX item of amount 1, without a subscription id,
   * linked to an input item that has a subscription id, and it starts on
   * that item's start date.
   */
  lemma TaxItemsLinkToSubscriptionItems(inv: Invoice, freshId: nat -> Uuid)
    ensures forall t :: t in TaxItems(inv, freshId) ==>
              t.itemType == Tax && t.amount == 1 && t.subscriptionId == None &&
              exists x :: x in inv.items && x.subscriptionId.Some? &&
                          t.linkedItemId == Some(x.id) && t.startDate == x.startDate
  {
    var s := SubscriptionItems(inv.items);
    var r := TaxItems(inv, freshId);
    SubscriptionItemsSpec(inv.items);
    forall t | t in r
      ensures t.itemType == Tax && t.amount == 1 && t.subscriptionId == None
      ensures exists x :: x in inv.items && x.subscriptionId.Some? &&
                          t.linkedItemId == Some(x.id) && t.startDate == x.startDate
    {
      var k :| 0 <= k < |r| && r[k] == t;
      assert r[k] == TaxItemFor(inv, s[k], freshId(k));
      assert s[k] in s;
    }
  }

  /** Every input item with a subscription id gets a tax item linked to it. */
  lemma EverySubscriptionItemIsTaxed(inv: Invoice, freshId: nat -> Uuid)
    ensures forall x :: x in inv.items && x.subscriptionId.Some? ==>
              exists t :: t in TaxItems(inv, freshId) && t.linkedItemId == Some(x.id)
  {
    var s := SubscriptionItems(inv.items);
    var r := TaxItems(inv, freshId);
    SubscriptionItemsSpec(inv.items);
    forall x | x in inv.items && x.subscriptionId.Some?
      ensures exists t :: t in r && t.linkedItemId == Some(x.id)
    {
      var k :| 0 <= k < |s| && s[k] == x;
      assert r[k] == TaxItemFor(inv, s[k], freshId(k));
      assert r[k] in r;
    }
  }

  /**
   * With distinct item ids, no two tax items are linked to the same item and
   * no tax item is linked to an item without a subscription id: together with
   * the two lemmas above, exactly one tax item per subscription item.
   */
  lemma TaxItemsLinkOnce(inv: Invoice, freshId: nat -> Uuid)
    requires DistinctIds(inv.items)
    ensures forall a, b :: 0 <= a < b < |TaxItems(inv, freshId)| ==>
              TaxItems(inv, freshId)[a].linkedItemId != TaxItems(inv, freshId)[b].linkedItemId
    ensures forall x, t :: x in inv.items && x.subscriptionId.None? && t in TaxItems(inv, freshId) ==>
              t.linkedItemId != Some(x.id)
  {
    TaxLinksDistinct(inv, freshId);
    TaxLinksSkipItemsWithoutSubscription(inv, freshId);
  }

  /** With distinct item ids, the tax items link to pairwise different items. */
  lemma TaxLinksDistinct(inv: Invoice, freshId: nat -> Uuid)
    requires DistinctIds(inv.items)
    ensures forall a, b :: 0 <= a < b < |TaxItems(inv, freshId)| ==>
              TaxItems(inv, freshId)[a].linkedItemId != TaxItems(inv, freshId)[b].linkedItemId
  {
    var s := SubscriptionItems(inv.items);
    var r := TaxItems(inv, freshId);
    SubscriptionItemsSpec(inv.items);
    IdsOfSubsequence(s, inv.items);
    SubsequenceDistinct(Ids(s), Ids(inv.items));
    forall a, b | 0 <= a < b < |r| ensures r[a].linkedItemId != r[b].linkedItemId {
      assert r[a] == TaxItemFor(inv, s[a], freshId(a));
      assert r[b] == TaxItemFor(inv, s[b], freshId(b));
      assert Ids(s)[a] != Ids(s)[b];
    }
  }

  /** With distinct item ids, no tax item links to an item without a subscription id. */
  lemma TaxLinksSkipItemsWithoutSubscription(inv: Invoice, freshId: nat -> Uuid)
    requires DistinctIds(inv.items)
    ensures forall x, t :: x in inv.items && x.subscriptionId.None? && t in TaxItems(inv, freshId) ==>
              t.linkedItemId != Some(x.id)
  {
    var s := SubscriptionItems(inv.items);
    var r := TaxItems(inv, freshId);
    SubscriptionItemsSpec(inv.items);
    forall x, t | x in inv.items && x.subscriptionId.None? && t in r
      ensures t.linkedItemId != Some(x.id)
    {
      var k :| 0 <= k < |r| && r[k] == t;
      assert r[k] == TaxItemFor(inv, s[k], freshId(k));
      assert s[k] in s;
      var a :| 0 <= a < |inv.items| && inv.items[a] == s[k];
      var b :| 0 <= b < |inv.items| && inv.items[b] == x;
      SameIdSamePosition(inv.items, a, b);
    }
  }


  /** The ids of a subsequence form a subsequence of the ids. */
  lemma {:induction false} IdsOfSubsequence(a: seq<InvoiceItem>, b: seq<InvoiceItem>)
    requires IsSubsequence(a, b)
    ensures IsSubsequence(Ids(a), Ids(b))
    decreases |b|
  {
    if a != [] {
      var a', b' := a[..|a| - 1], b[..|b| - 1];
      assert Ids(b)[..|b| - 1] == Ids(b');
      assert Ids(a)[..|a| - 1] == Ids(a');
      if a[|a| - 1] == b[|b| - 1] {
        IdsOfSubsequence(a', b');
      } else {
        IdsOfSubsequence(a, b');
        SubsequenceExtend(Ids(a), Ids(b'), b[|b| - 1].id);
        assert Ids(b') + [b[|b| - 1].id] == Ids(b);
      }
    }
  }
}
