# Kill Bill invoice plugin stub — a Dafny model

Kill Bill's invoice engine lets plugins take part in every invoice run. The
run calls `priorCall` first, and the plugin can abort or reschedule it. It then
calls `getAdditionalInvoiceItems`, which can add items such as taxes or rewrite
items. Next comes `getInvoiceGrouping`, which can split the invoice into several
invoices. The run ends with `onSuccessCall` or `onFailureCall`.

The integration tests register `TestInvoicePluginApi`, a fake plugin driven by
switches: its public fields are flipped by a test between runs and read back
afterwards. This project models that plugin and the helpers it is wired to:

- the per-subscription tax function;
- the per-subscription grouping function and the grouping result;
- the description check;
- the plugin-property count check;
- the `setUp` reset.

It then proves what the tests rely on these helpers to do.

Modules:

- `Results` (invoices.dfy): `Option` for Java's nullable references and
  `Result` for a value or a thrown exception.
- `Invoices` (invoices.dfy): invoices, invoice items, plugin properties, and
  sequence helpers (distinctness and order-preserving subsequence).
- `Tax` (tax.dfy): `PerSubscriptionTaxItems`, a loop that emits one TAX item
  for each item carrying a subscription id. It is proved equal to the
  specification function `TaxItems`, and the linking properties are proved
  about that function.
- `InvoiceGrouping` (grouping.dfy): `findGroup`, the grouping loop of `apply`,
  and `initGroups`. The loop is proved equal to the specification map
  `Grouping`. The lemmas show the groups cover the invoice, are disjoint, and
  keep invoice order.
- `TaxGrouping` (tax_grouping.dfy): the two helpers used together, which gives
  the split that the grouping test asserts.
- `PluginChecks` (checks.dfy): `checkInvoiceDescriptions`, the property-count
  lambda, and the dry-run property assertions.
- `InvoicePlugin` (plugin.dfy): the `TestInvoicePluginApi` class, with all of
  its fields and its five plugin calls.

Modelling choices:

- Java exceptions become `Failure` values. A failed `assertTrue`/`assertEquals`
  inside a plugin call is `AssertionError`, and the retry exception is
  `InvoicePluginApiRetryException`.
- The function-valued fields hold only the functions the tests install, as
  datatypes: `NoTaxItems` or the per-subscription tax function, the null
  grouping or the per-subscription grouping, and no property check or the
  count check.
- `UUIDs.randomUUID()` becomes the parameter `freshId`: the k-th tax item gets
  `freshId(k)`.
- `HashMap.values()` iteration order is unspecified. It is modelled as an
  arbitrary choice, which a ghost `order` out-parameter records.

## Model

All source paths below are under `beatrix/src/test/java/org/killbill/billing/beatrix/integration/`; the table writes them in full.

| member | source | states |
|---|---|---|
| Tax.TaxItemFor | beatrix/src/test/java/org/killbill/billing/beatrix/integration/TestWithInvoicePlugin.java:146 | the item built for a source item is a TAX item of amount one, linked to the source item's id, on the source item's start date, with no subscription id |
| Tax.SubscriptionItemsSpec | beatrix/src/test/java/org/killbill/billing/beatrix/integration/TestWithInvoicePlugin.java:141-147 | the items the tax loop acts on are exactly the invoice items that carry a subscription id, each as many times as it occurs in the invoice, in invoice order |
| Tax.PerSubscriptionTaxItems | beatrix/src/test/java/org/killbill/billing/beatrix/integration/TestWithInvoicePlugin.java:138-151 | the loop returns, for the k-th item with a subscription id, the TAX item linked to it that carries the k-th fresh id (the specification `TaxItems`) |
| Tax.TaxItemsCount | beatrix/src/test/java/org/killbill/billing/beatrix/integration/TestWithInvoicePlugin.java:138-151 | the hook returns exactly one tax item per invoice position whose item carries a subscription id, repeated items included |
| Tax.TaxItemsLinkToSubscriptionItems | beatrix/src/test/java/org/killbill/billing/beatrix/integration/TestWithInvoicePlugin.java:138-151 | every tax item returned is a TAX item of amount one that is linked to an invoice item with a subscription id |
| Tax.EverySubscriptionItemIsTaxed | beatrix/src/test/java/org/killbill/billing/beatrix/integration/TestWithInvoicePlugin.java:138-151 | every invoice item with a subscription id has a tax item linked to it |
| Tax.TaxItemsLinkOnce | beatrix/src/test/java/org/killbill/billing/beatrix/integration/TestWithInvoicePlugin.java:138-151 | with distinct item ids, no two tax items link to the same item, and none links to an item without a subscription id |
| InvoiceGrouping.FindItem | beatrix/src/test/java/org/killbill/billing/beatrix/integration/TestWithInvoicePlugin.java:920-924 | the lookup finds an item of the invoice with the linked id, and finds nothing exactly when no item has that id |
| InvoiceGrouping.FindGroup | beatrix/src/test/java/org/killbill/billing/beatrix/integration/TestWithInvoicePlugin.java:916-928 | an item with a subscription id is grouped by it; an item with neither a subscription id nor a linked id throws IllegalState; a linked item without a subscription id either gets a group or throws NoSuchElement |
| InvoiceGrouping.FindGroupLinked | beatrix/src/test/java/org/killbill/billing/beatrix/integration/TestWithInvoicePlugin.java:919-925 | a linked item without a subscription id throws NoSuchElement exactly when no invoice item has the linked id; when such an item exists the call succeeds, and its group is the subscription id (possibly null) of an item with that id |
| InvoiceGrouping.GroupItems | beatrix/src/test/java/org/killbill/billing/beatrix/integration/TestWithInvoicePlugin.java:932-940 | the loop succeeds exactly when every item has a group, then builds the key-to-ids map `Grouping`; a failure is the findGroup failure of the first item that has no group |
| InvoiceGrouping.InitGroups | beatrix/src/test/java/org/killbill/billing/beatrix/integration/TestWithInvoicePlugin.java:992-998 | every member list of the map is among the returned lists and every returned list is one of them; in the order chosen, each key is listed exactly once |
| InvoiceGrouping.Apply | beatrix/src/test/java/org/killbill/billing/beatrix/integration/TestWithInvoicePlugin.java:931-942 | the grouping function succeeds exactly when every item has a group, and then hands the groups of `Grouping` to the result, each exactly once; a failure is that of the first item without a group |
| InvoiceGrouping.GroupingSnoc | beatrix/src/test/java/org/killbill/billing/beatrix/integration/TestWithInvoicePlugin.java:934-939 | one loop step: appending an item adds its id at the end of its group's list, creating the list if the group is new |
| InvoiceGrouping.MembersIn | beatrix/src/test/java/org/killbill/billing/beatrix/integration/TestWithInvoicePlugin.java:934-939 | an id is listed under a key exactly when some item with that id has that group |
| InvoiceGrouping.MembersInOrder | beatrix/src/test/java/org/killbill/billing/beatrix/integration/TestWithInvoicePlugin.java:934-939 | each group lists its ids in invoice order |
| InvoiceGrouping.GroupingCovers | beatrix/src/test/java/org/killbill/billing/beatrix/integration/TestWithInvoicePlugin.java:931-942 | every item's id is in its own group, every listed id belongs to an item of that group, and no group is empty |
| InvoiceGrouping.GroupingDisjoint | beatrix/src/test/java/org/killbill/billing/beatrix/integration/TestWithInvoicePlugin.java:931-942 | with distinct item ids, no id is in two groups, and each group has no repeats and keeps invoice order |
| InvoiceGrouping.ListingCoversInvoice | beatrix/src/test/java/org/killbill/billing/beatrix/integration/TestWithInvoicePlugin.java:992-998 | every invoice item id is in one of the lists handed to the grouping result |
| InvoiceGrouping.ListingDisjoint | beatrix/src/test/java/org/killbill/billing/beatrix/integration/TestWithInvoicePlugin.java:992-998 | with distinct item ids, no id is in two of those lists |
| InvoiceGrouping.ListingWithinInvoice | beatrix/src/test/java/org/killbill/billing/beatrix/integration/TestWithInvoicePlugin.java:992-998 | every id in those lists is an item id of the invoice |
| TaxGrouping.TaxItemJoinsItsTarget | beatrix/src/test/java/org/killbill/billing/beatrix/integration/TestWithInvoicePlugin.java:916-928 | once the tax items are added to the invoice, each tax item has the same group as the item it is linked to: that item's subscription |
| TaxGrouping.SplitIsRecurringPlusTax | beatrix/src/test/java/org/killbill/billing/beatrix/integration/TestWithInvoicePlugin.java:959-981 | when every item is a RECURRING item of its own subscription, the taxed invoice splits into one group per subscription, and each group is that RECURRING item followed by the TAX item linked to it |
| PluginChecks.PluginDescriptionInjective | beatrix/src/test/java/org/killbill/billing/beatrix/integration/TestWithInvoicePlugin.java:1135 | distinct item ids get distinct plugin descriptions |
| PluginChecks.WithPluginDescription | beatrix/src/test/java/org/killbill/billing/beatrix/integration/TestWithInvoicePlugin.java:1133-1136 | the rewritten item carries the plugin description of its id and agrees with the original item on every other field |
| PluginChecks.CheckInvoiceDescriptions | beatrix/src/test/java/org/killbill/billing/beatrix/integration/TestWithInvoicePlugin.java:530-538 | when the check passes, every item other than CBA_ADJ has a description that starts with "[plugin] " and ends with the item's own id |
| PluginChecks.PassingDescriptionsNameTheirItems | beatrix/src/test/java/org/killbill/billing/beatrix/integration/TestWithInvoicePlugin.java:530-538 | when the check passes, two items other than CBA_ADJ with the same description have the same id |
| PluginChecks.RewrittenDescriptionsPass | beatrix/src/test/java/org/killbill/billing/beatrix/integration/TestWithInvoicePlugin.java:530-538 | items whose descriptions the plugin rewrote pass checkInvoiceDescriptions |
| PluginChecks.CheckMeansRewriteIsIdentity | beatrix/src/test/java/org/killbill/billing/beatrix/integration/TestWithInvoicePlugin.java:530-538 | the check passes exactly when rewriting again would leave every item other than CBA_ADJ unchanged |
| PluginChecks.CheckIgnoresCbaDescriptions | beatrix/src/test/java/org/killbill/billing/beatrix/integration/TestWithInvoicePlugin.java:532-534 | changing the description of a CBA_ADJ item never changes the check's verdict |
| PluginChecks.CountContained | beatrix/src/test/java/org/killbill/billing/beatrix/integration/TestWithInvoicePlugin.java:861-864 | the count of given properties found among the expected ones is at most the number given; it equals that number exactly when every given property is expected, and is zero exactly when none is |
| PluginChecks.ExpectedPropertiesFound | beatrix/src/test/java/org/killbill/billing/beatrix/integration/TestWithInvoicePlugin.java:858-867 | a passing check needs at least as many given properties as expected ones; when every given property is expected, the check passes exactly when both lists have the same length |
| PluginChecks.ExpectedPropertiesFoundIff | beatrix/src/test/java/org/killbill/billing/beatrix/integration/TestWithInvoicePlugin.java:858-867 | when neither list repeats a property, the count check passes exactly when every expected property was given |
| PluginChecks.CountIsNotContainmentWithRepeats | beatrix/src/test/java/org/killbill/billing/beatrix/integration/TestWithInvoicePlugin.java:858-867 | with repeats, the count check accepts a list missing an expected property and rejects one that has every expected property |
| PluginChecks.DryRunPropertiesExact | beatrix/src/test/java/org/killbill/billing/beatrix/integration/TestWithInvoicePlugin.java:1106-1123 | the dry-run assertions pass exactly when there are two properties, one keyed DRY_RUN_CUR_DATE and one keyed DRY_RUN_TARGET_DATE, in either order |
| InvoicePlugin.DryRunAssertion | beatrix/src/test/java/org/killbill/billing/beatrix/integration/TestWithInvoicePlugin.java:1106-1123 | no dry-run assertion fails exactly when the dry-run properties are as required |
| InvoicePlugin.TestInvoicePluginApi.constructor | beatrix/src/test/java/org/killbill/billing/beatrix/integration/TestWithInvoicePlugin.java:1066-1078 | a new plugin has every switch off, both counters at zero, and the default functions installed |
| InvoicePlugin.TestInvoicePluginApi.SetUp | beatrix/src/test/java/org/killbill/billing/beatrix/integration/TestWithInvoicePlugin.java:170-185 | after a failed test changes nothing; otherwise resets every switch, counter and installed function; shouldThrowException keeps its value in both cases |
| InvoicePlugin.TestInvoicePluginApi.PriorCall | beatrix/src/test/java/org/killbill/billing/beatrix/integration/TestWithInvoicePlugin.java:1081-1099 | the call counter goes up by one even when the property assertion fails; on success it records the reschedule flag and answers with the abort and reschedule switches; on failure wasRescheduled is untouched |
| InvoicePlugin.TestInvoicePluginApi.ItemsCallAssertion | beatrix/src/test/java/org/killbill/billing/beatrix/integration/TestWithInvoicePlugin.java:1104-1123 | the item call's assertions pass exactly when the property check accepts and, on a dry run, the dry-run properties are as required |
| InvoicePlugin.TestInvoicePluginApi.GetAdditionalInvoiceItems | beatrix/src/test/java/org/killbill/billing/beatrix/integration/TestWithInvoicePlugin.java:1102-1142 | after the assertions, the first switch that is on decides the answer: the retry exception, then the one additional item, then the tax items, then every item with the plugin's description, otherwise nothing |
| InvoicePlugin.TestInvoicePluginApi.GetInvoiceGrouping | beatrix/src/test/java/org/killbill/billing/beatrix/integration/TestWithInvoicePlugin.java:1145-1149 | after the property assertion, returns null or the per-subscription grouping, which succeeds exactly when every item has a group and lists each group once; the failure of the first item without a group propagates |
| InvoicePlugin.TestInvoicePluginApi.OnSuccessCall | beatrix/src/test/java/org/killbill/billing/beatrix/integration/TestWithInvoicePlugin.java:1152-1157 | the success counter goes up by one before the property assertion; the answer is null, or the assertion failure |
| InvoicePlugin.TestInvoicePluginApi.OnFailureCall | beatrix/src/test/java/org/killbill/billing/beatrix/integration/TestWithInvoicePlugin.java:1160-1164 | succeeds exactly when the property check accepts; otherwise the assertion failure; no state changes |

## Left out

- The invoice engine, the bus, the notification queues, the retry scheduling,
  OSGi registration, payments, and the bodies of the `@Test` methods are not
  part of this model. Only their assertions about the helpers are stated, as
  lemmas.
- Dates are whole day or instant numbers, not Joda `LocalDate`/`DateTime`.
  Amounts are integers, not `BigDecimal`; the tax amount is exactly one.
- `InvoiceContext` keeps only `isRescheduled`, the one field the plugin reads.
- Mockito's spy becomes a record copy with a new description. Identity and
  spying are not modelled.
- `TaxInvoiceItem` carries no bundle id. The model gives it no subscription id.
- The set of functions a test can install is closed: the three defaults, the
  per-subscription tax and grouping functions, and the property-count lambda.
- InvoicePlugin.TestInvoicePluginApi.PriorCall: the counter is an unbounded integer, so Java `int` overflow is not modelled.
- InvoicePlugin.TestInvoicePluginApi.OnSuccessCall: the counter is an unbounded integer, so Java `int` overflow is not modelled.
- InvoicePlugin.TestInvoicePluginApi.PriorCall: the source builds `PriorInvoiceResult` as an object whose getters read the switches when called. The model returns their values at the time of the call.
- InvoicePlugin.TestInvoicePluginApi.GetAdditionalInvoiceItems: the source applies the tax function twice, once for the null test and once for the answer, drawing fresh ids each time. The model applies it once.
- InvoicePlugin.TestInvoicePluginApi.SetUp: setUp (:175-184) does not assign `shouldThrowException`, so the model keeps it unchanged; only the tests that set it reset it. The test base class's `hasFailed()` is not modelled and becomes the parameter `hasFailed`.
- TaxGrouping.SplitIsRecurringPlusTax: the engine's merging of additional items is taken to append them after the invoice's own items. The engine is not part of this model. Item ids are required to be distinct, as random UUIDs are.
- PluginChecks.ExpectedPropertiesFound: the count is an unbounded integer compared directly with the size of the expected list. The source's `found.intValue()` keeps only the low 32 bits of the BigInteger count, so more than 2^31 - 1 matches would wrap; the model does not capture that.
- PluginChecks.ExpectedPropertiesFoundIff: the "exactly when" holds only for lists without repeats; `CountIsNotContainmentWithRepeats` shows the general case.
