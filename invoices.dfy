/** Failure-compatible wrappers shared by the other modules. */
module Results {

  /** A nullable Java reference: None stands for null. */
  datatype Option<+T> = None | Some(value: T)

  /** The value a Java method returns, or the exception it throws. */
  datatype Result<+T, +E> = Success(value: T) | Failure(error: E)
}

/**
 * The invoice and invoice-item records the plugin stub reads and builds.
 * Dates are day numbers, amounts whole currency units.
 */
module Invoices {
  import opened Results

  /** An identifier, held in its canonical textual form (UUID.toString). */
  type Uuid = string

  datatype ItemType =
    | ExternalCharge | Fixed | Recurring | RepairAdj | CbaAdj
    | CreditAdj | ItemAdj | Usage | Tax | ParentSummary

  datatype InvoiceItem = InvoiceItem(
    id: Uuid,
    invoiceId: Uuid,
    accountId: Uuid,
    itemType: ItemType,
    subscriptionId: Option<Uuid>,
    linkedItemId: Option<Uuid>,
    startDate: int,
    amount: int,
    currency: string,
    description: string)

  datatype Invoice = Invoice(id: Uuid, accountId: Uuid, currency: string, items: seq<InvoiceItem>)

  /** A key/value pair handed to every plugin call. */
  datatype PluginProperty = PluginProperty(key: string, value: string, isUpdatable: bool)

  /** The ids of `items`, in order. */
  function Ids(items: seq<InvoiceItem>): (r: seq<Uuid>)
    ensures |r| == |items|
    ensures forall k :: 0 <= k < |items| ==> r[k] == items[k].id
  {
    seq(|items|, k requires 0 <= k < |items| => items[k].id)
  }

  /** No element occurs twice in `s`. */
  predicate Distinct<T(==)>(s: seq<T>)
  {
    forall a, b :: 0 <= a < b < |s| ==> s[a] != s[b]
  }

  /** No two items share an id (random UUIDs in the source). */
  predicate DistinctIds(items: seq<InvoiceItem>)
  {
    Distinct(Ids(items))
  }

  /** With distinct ids, two positions holding the same id are the same position. */
  lemma SameIdSamePosition(items: seq<InvoiceItem>, a: nat, b: nat)
    requires DistinctIds(items) && a < |items| && b < |items|
    ensures items[a].id == items[b].id ==> a == b
  {
    assert Ids(items)[a] == items[a].id && Ids(items)[b] == items[b].id;
  }

  /** `a` is `b` with some elements dropped, order kept. */
  predicate IsSubsequence<T(==)>(a: seq<T>, b: seq<T>)
    decreases |b|
  {
    if a == [] then true
    else if b == [] then false
    else if a[|a| - 1] == b[|b| - 1] then IsSubsequence(a[..|a| - 1], b[..|b| - 1])
    else IsSubsequence(a, b[..|b| - 1])
  }

  /** Every element of a subsequence is an element of the whole. */
  lemma {:induction false} SubsequenceElements<T>(a: seq<T>, b: seq<T>)
    requires IsSubsequence(a, b)
    ensures forall x :: x in a ==> x in b
    decreases |b|
  {
    if a != [] {
      if a[|a| - 1] == b[|b| - 1] {
        SubsequenceElements(a[..|a| - 1], b[..|b| - 1]);
        assert a == a[..|a| - 1] + [a[|a| - 1]];
        assert b == b[..|b| - 1] + [b[|b| - 1]];
      } else {
        SubsequenceElements(a, b[..|b| - 1]);
        assert b == b[..|b| - 1] + [b[|b| - 1]];
      }
    }
  }

  /** A subsequence of a sequence without repeats has no repeats. */
  lemma {:induction false} SubsequenceDistinct<T>(a: seq<T>, b: seq<T>)
    requires IsSubsequence(a, b) && Distinct(b)
    ensures Distinct(a)
    decreases |b|
  {
    if a != [] {
      var b' := b[..|b| - 1];
      assert Distinct(b');
      if a[|a| - 1] == b[|b| - 1] {
        var a' := a[..|a| - 1];
        SubsequenceDistinct(a', b');
        SubsequenceElements(a', b');
        forall x, y | 0 <= x < y < |a| ensures a[x] != a[y] {
          if y == |a| - 1 {
            assert a[x] in a' && a[x] in b';
            assert b[|b| - 1] !in b';
          } else {
            assert a[x] == a'[x] && a[y] == a'[y];
          }
        }
      } else {
        SubsequenceDistinct(a, b');
      }
    }
  }

  /** Appending the same element to both keeps a subsequence. */
  lemma SubsequenceSnoc<T>(a: seq<T>, b: seq<T>, x: T)
    requires IsSubsequence(a, b)
    ensures IsSubsequence(a + [x], b + [x])
  {
    assert (a + [x])[..|a|] == a;
    assert (b + [x])[..|b|] == b;
  }

  /** The ids of a longer prefix. */
  lemma IdsSnoc(items: seq<InvoiceItem>, x: InvoiceItem)
    ensures Ids(items + [x]) == Ids(items) + [x.id]
  {
  }

  /** A subsequence of a prefix is a subsequence of the whole. */
  lemma {:induction false} SubsequenceExtend<T>(a: seq<T>, b: seq<T>, x: T)
    requires IsSubsequence(a, b)
    ensures IsSubsequence(a, b + [x])
    decreases |b|, 1
  {
    var bx := b + [x];
    assert bx[..|bx| - 1] == b;
    if a != [] && a[|a| - 1] == x {
      SubsequenceDropLast(a, b);
    }
  }

  /** Dropping the last element of a subsequence keeps it a subsequence. */
  lemma {:induction false} SubsequenceDropLast<T>(a: seq<T>, b: seq<T>)
    requires a != [] && IsSubsequence(a, b)
    ensures IsSubsequence(a[..|a| - 1], b)
    decreases |b|, 0
  {
    var a' := a[..|a| - 1];
    var b' := b[..|b| - 1];
    assert b' + [b[|b| - 1]] == b;
    if a[|a| - 1] == b[|b| - 1] {
      SubsequenceExtend(a', b', b[|b| - 1]);
    } else {
      SubsequenceDropLast(a, b');
      SubsequenceExtend(a', b', b[|b| - 1]);
    }
  }
}
