/**
 * The checks the test plugin and the test bodies apply: the description the
 * plugin writes on every item, the property-count check a test installs, and
 * the two synthetic properties a dry run must carry.
 */
module PluginChecks {
  import opened Invoices

  const PluginDescriptionPrefix := "[plugin] "

  /** String.format("[plugin] %s", id). */
  function PluginDescription(id: Uuid): (r: string)
  {
    PluginDescriptionPrefix + id
  }

  /** The id can be read back from the description, so distinct ids get distinct descriptions. */
  lemma PluginDescriptionInjective(a: Uuid, b: Uuid)
    ensures PluginDescription(a) == PluginDescription(b) ==> a == b
  {
    if PluginDescription(a) == PluginDescription(b) {
      var n := |PluginDescriptionPrefix|;
      assert a == PluginDescription(a)[n..];
      assert b == PluginDescription(b)[n..];
    }
  }

  /** A copy of `item` whose description is the plugin's; every other field is kept. */
  function WithPluginDescription(item: InvoiceItem): (r: InvoiceItem)
    ensures r.description == PluginDescription(item.id)
    ensures r.(description := item.description) == item
  {
    item.(description := PluginDescription(item.id))
  }

  /** checkInvoiceDescriptions: every item but the CBA_ADJ ones carries the plugin's description. */
  predicate CheckInvoiceDescriptions(inv: Invoice)
    ensures CheckInvoiceDescriptions(inv) ==>
              forall k :: 0 <= k < |inv.items| && inv.items[k].itemType != CbaAdj ==>
                && PluginDescriptionPrefix <= inv.items[k].description
                && inv.items[k].description[|PluginDescriptionPrefix|..] == inv.items[k].id
  {
    forall it :: it in inv.items && it.itemType != CbaAdj ==> it.description == PluginDescription(it.id)
  }

  /** Items whose descriptions the plugin rewrote pass the check. */
  lemma RewrittenDescriptionsPass(inv: Invoice, updated: seq<InvoiceItem>)
    requires |updated| == |inv.items|
    requires forall k :: 0 <= k < |updated| ==> updated[k] == WithPluginDescription(inv.items[k])
    ensures CheckInvoiceDescriptions(inv.(items := updated))
  {
    forall it | it in updated ensures it.description == PluginDescription(it.id) {
      var k :| 0 <= k < |updated| && updated[k] == it;
    }
  }

  /**
   * The check passes exactly when rewriting the descriptions again would
   * leave every item other than CBA_ADJ unchanged.
   */
  lemma CheckMeansRewriteIsIdentity(inv: Invoice)
    ensures CheckInvoiceDescriptions(inv) <==>
              forall k :: 0 <= k < |inv.items| && inv.items[k].itemType != CbaAdj ==>
                WithPluginDescription(inv.items[k]) == inv.items[k]
  {
    if forall k :: 0 <= k < |inv.items| && inv.items[k].itemType != CbaAdj ==>
         WithPluginDescription(inv.items[k]) == inv.items[k]
    {
      forall it | it in inv.items && it.itemType != CbaAdj ensures it.description == PluginDescription(it.id) {
        var k :| 0 <= k < |inv.items| && inv.items[k] == it;
        assert WithPluginDescription(inv.items[k]).description == inv.items[k].description;
      }
    }
  }

  /** The check does not look at the description of a CBA_ADJ item. */
  lemma CheckIgnoresCbaDescriptions(inv: Invoice, k: nat, description: string)
    requires k < |inv.items| && inv.items[k].itemType == CbaAdj
    ensures CheckInvoiceDescriptions(inv) ==
            CheckInvoiceDescriptions(inv.(items := inv.items[k := inv.items[k].(description := description)]))
  {
    var other := inv.items[k := inv.items[k].(description := description)];
    if CheckInvoiceDescriptions(inv) {
      forall it | it in other && it.itemType != CbaAdj ensures it.description == PluginDescription(it.id) {
        var j :| 0 <= j < |other| && other[j] == it;
        assert inv.items[j] == it;
      }
    }
    if CheckInvoiceDescriptions(inv.(items := other)) {
      forall it | it in inv.items && it.itemType != CbaAdj ensures it.description == PluginDescription(it.id) {
        var j :| 0 <= j < |inv.items| && inv.items[j] == it;
        assert other[j] == it;
      }
    }
  }

  /**
   * Under the check, two checked items with the same description are items
   * with the same id: a passing description names its item.
   */
  lemma PassingDescriptionsNameTheirItems(inv: Invoice, a: nat, b: nat)
    requires CheckInvoiceDescriptions(inv) && a < |inv.items| && b < |inv.items|
    requires inv.items[a].itemType != CbaAdj && inv.items[b].itemType != CbaAdj
    ensures inv.items[a].description == inv.items[b].description ==> inv.items[a].id == inv.items[b].id
  {
    assert inv.items[a] in inv.items && inv.items[b] in inv.items;
    PluginDescriptionInjective(inv.items[a].id, inv.items[b].id);
  }

  /** How many of the given properties are among the expected ones (the stream filter and sum). */
  function CountContained(given: seq<PluginProperty>, expected: seq<PluginProperty>): (r: nat)
    ensures r <= |given|
    ensures r == |given| <==> forall p :: p in given ==> p in expected
    ensures r == 0 <==> forall p :: p in given ==> p !in expected
  {
    if given == [] then 0
    else (if given[0] in expected then 1 else 0) + CountContained(given[1..], expected)
  }

  /** The property check a test installs: as many hits as expected properties. */
  predicate ExpectedPropertiesFound(given: seq<PluginProperty>, expected: seq<PluginProperty>)
    ensures ExpectedPropertiesFound(given, expected) ==> |expected| <= |given|
    ensures (forall p :: p in given ==> p in expected) ==>
              (ExpectedPropertiesFound(given, expected) <==> |given| == |expected|)
  {
    CountContained(given, expected) == |expected|
  }

  /** The elements of a sequence, as a set. */
  function Elements<T>(s: seq<T>): (r: set<T>)
  {
    set x | x in s
  }

  /** The elements of a sequence without repeats: its head, apart from those of its tail. */
  lemma ElementsCons<T>(s: seq<T>)
    requires s != [] && Distinct(s)
    ensures Elements(s) == {s[0]} + Elements(s[1..]) && s[0] !in Elements(s[1..])
  {
    assert s == [s[0]] + s[1..];
  }

  /** Taking the head off a sequence without repeats takes at most its head off the intersection. */
  lemma IntersectionCons<T>(s: seq<T>, t: seq<T>)
    requires s != [] && Distinct(s)
    ensures |Elements(s) * Elements(t)| ==
            (if s[0] in t then 1 else 0) + |Elements(s[1..]) * Elements(t)|
  {
    ElementsCons(s);
    var both, restBoth := Elements(s) * Elements(t), Elements(s[1..]) * Elements(t);
    if s[0] in t {
      assert both == {s[0]} + restBoth;
      assert s[0] !in restBoth;
    } else {
      assert both == restBoth;
    }
  }

  /** Without repeats, the count is the number of properties in both lists. */
  lemma {:induction false} CountIsIntersection(given: seq<PluginProperty>, expected: seq<PluginProperty>)
    requires Distinct(given)
    ensures CountContained(given, expected) == |Elements(given) * Elements(expected)|
    decreases |given|
  {
    if given != [] {
      var rest := given[1..];
      assert Distinct(rest);
      CountIsIntersection(rest, expected);
      IntersectionCons(given, expected);
    }
  }

  /** A sequence without repeats has as many elements as its set. */
  lemma {:induction false} DistinctCardinality<T>(s: seq<T>)
    requires Distinct(s)
    ensures |Elements(s)| == |s|
    decreases |s|
  {
    if s != [] {
      var rest := s[1..];
      assert Distinct(rest);
      DistinctCardinality(rest);
      assert Elements(s) == {s[0]} + Elements(rest);
      assert s[0] !in Elements(rest);
    }
  }

  /** A subset is no larger than the whole. */
  lemma {:induction false} SubsetCardinality<T>(a: set<T>, b: set<T>)
    requires a <= b
    ensures |a| <= |b|
    decreases a
  {
    if a != {} {
      var y :| y in a;
      SubsetCardinality(a - {y}, b - {y});
    }
  }

  /** A subset as large as the whole is the whole. */
  lemma SubsetOfSameSize<T>(a: set<T>, b: set<T>)
    requires a <= b && |a| == |b|
    ensures a == b
  {
    if a != b {
      var x :| x in b && x !in a;
      SubsetCardinality(a, b - {x});
    }
  }

  /**
   * When neither list repeats a property, the check passes exactly when
   * every expected property was given.
   */
  lemma ExpectedPropertiesFoundIff(given: seq<PluginProperty>, expected: seq<PluginProperty>)
    requires Distinct(given) && Distinct(expected)
    ensures ExpectedPropertiesFound(given, expected) <==> forall e :: e in expected ==> e in given
  {
    CountIsIntersection(given, expected);
    DistinctCardinality(expected);
    var both := Elements(given) * Elements(expected);
    if forall e :: e in expected ==> e in given {
      assert both == Elements(expected);
    }
    if ExpectedPropertiesFound(given, expected) {
      SubsetOfSameSize(both, Elements(expected));
      forall e | e in expected ensures e in given {
        assert e in Elements(expected);
      }
    }
  }

  /**
   * Without the no-repeat condition the count is not containment: a repeated
   * given property can stand in for a missing one, and a repeated expected
   * property can never be matched.
   */
  lemma CountIsNotContainmentWithRepeats()
    ensures var tree, shirt := PluginProperty("tree", "leaf", true), PluginProperty("shirt", "button", true);
            && ExpectedPropertiesFound([tree, tree], [tree, shirt]) && shirt !in [tree, tree]
            && !ExpectedPropertiesFound([tree], [tree, tree])
  {
    var tree, shirt := PluginProperty("tree", "leaf", true), PluginProperty("shirt", "button", true);
    assert [tree, tree][1..] == [tree] && [tree][1..] == [];
    assert CountContained([tree], [tree, shirt]) == 1;
    assert CountContained([tree], [tree, tree]) == 1;
  }

  const DryRunCurDate := "DRY_RUN_CUR_DATE"
  const DryRunTargetDate := "DRY_RUN_TARGET_DATE"

  /** Some property has key `key` (Iterables.tryFind(...).isPresent()). */
  predicate HasKey(props: seq<PluginProperty>, key: string)
  {
    exists p :: p in props && p.key == key
  }

  /** The dry-run assertions of getAdditionalInvoiceItems: two properties, with both dry-run keys. */
  predicate DryRunPropertiesOk(props: seq<PluginProperty>)
  {
    |props| == 2 && HasKey(props, DryRunCurDate) && HasKey(props, DryRunTargetDate)
  }

  /** The dry-run properties are exactly one DRY_RUN_CUR_DATE and one DRY_RUN_TARGET_DATE entry. */
  lemma DryRunPropertiesExact(props: seq<PluginProperty>)
    ensures DryRunPropertiesOk(props) <==>
              |props| == 2 &&
              ((props[0].key == DryRunCurDate && props[1].key == DryRunTargetDate) ||
               (props[0].key == DryRunTargetDate && props[1].key == DryRunCurDate))
  {
    if |props| == 2 {
      assert props[0] in props && props[1] in props;
      if HasKey(props, DryRunCurDate) && HasKey(props, DryRunTargetDate) {
        var p :| p in props && p.key == DryRunCurDate;
        var q :| q in props && q.key == DryRunTargetDate;
        assert DryRunCurDate != DryRunTargetDate by {
          assert DryRunCurDate[8] != DryRunTargetDate[8];
        }
      }
    }
  }
}
