/**
 * TestInvoicePluginApi: the fake invoice plugin the integration tests
 * register. Its public fields are switches a test flips between invoice
 * runs and counters it reads back; each plugin call reads the switches and
 * two calls bump a counter.
 */
module InvoicePlugin {
  import opened Results
  import opened Invoices
  import opened Tax
  import opened InvoiceGrouping
  import opened PluginChecks

  /** What a plugin call learns about the run; only the reschedule flag is read. */
  datatype InvoiceContext = InvoiceContext(isRescheduled: bool)

  /** The answer to priorCall: abort the run, or reschedule it (a timestamp), or neither. */
  datatype PriorInvoiceResult = PriorInvoiceResult(isAborted: bool, rescheduleDate: Option<int>)

  /** The tax functions a test can install: NoTaxItems (returns null) or PerSubscriptionTaxItems. */
  datatype TaxFunction = NoTaxItems | TaxPerSubscription

  /** The grouping functions a test can install: NullInvoiceGroupingResult or the per-subscription one. */
  datatype GroupingFunction = NullGrouping | GroupPerSubscription

  /** The property checks a test can install: accept anything, or the count check over a list. */
  datatype PropertiesCheck = NoCheckPluginProperties | ExpectProperties(expected: seq<PluginProperty>)
  {
    predicate Accepts(props: seq<PluginProperty>)
    {
      match this
      case NoCheckPluginProperties => true
      case ExpectProperties(expected) => ExpectedPropertiesFound(props, expected)
    }
  }

  /** Which assertTrue / assertEquals inside a plugin call failed. */
  datatype FailedAssertion = PropertiesRejected | DryRunPropertyCount | DryRunCurDateMissing | DryRunTargetDateMissing

  /** What a plugin call throws. */
  datatype PluginFailure =
    | AssertionError(failed: FailedAssertion)
    | InvoicePluginApiRetryException
    | GroupingFailed(cause: GroupingError)

  /** The first dry-run assertion of getAdditionalInvoiceItems that fails, if any. */
  function DryRunAssertion(props: seq<PluginProperty>): (r: Option<FailedAssertion>)
    ensures r.None? <==> DryRunPropertiesOk(props)
  {
    if |props| != 2 then Some(DryRunPropertyCount)
    else if !HasKey(props, DryRunCurDate) then Some(DryRunCurDateMissing)
    else if !HasKey(props, DryRunTargetDate) then Some(DryRunTargetDateMissing)
    else None
  }

  class TestInvoicePluginApi {
    var shouldThrowException: bool
    var additionalInvoiceItem: Option<InvoiceItem>
    var isAborted: bool
    var shouldUpdateDescription: bool
    var rescheduleDate: Option<int>
    var wasRescheduled: bool
    var priorCallInvocationCalls: int
    var onSuccessInvocationCalls: int
    var taxItems: TaxFunction
    var grpResult: GroupingFunction
    var checkPluginProperties: PropertiesCheck

    /** The state setUp leaves behind: every switch off, both counters zero. */
    ghost predicate IsReset()
      reads this
    {
      && additionalInvoiceItem == None
      && !isAborted
      && !shouldUpdateDescription
      && rescheduleDate == None
      && !wasRescheduled
      && priorCallInvocationCalls == 0
      && onSuccessInvocationCalls == 0
      && taxItems == NoTaxItems
      && grpResult == NullGrouping
      && checkPluginProperties == NoCheckPluginProperties
    }

    /** The field initialisers. */
    constructor ()
      ensures IsReset() && !shouldThrowException
    {
      shouldThrowException := false;
      additionalInvoiceItem := None;
      isAborted := false;
      shouldUpdateDescription := false;
      rescheduleDate := None;
      wasRescheduled := false;
      priorCallInvocationCalls := 0;
      onSuccessInvocationCalls := 0;
      taxItems := NoTaxItems;
      grpResult := NullGrouping;
      checkPluginProperties := NoCheckPluginProperties;
    }

    /**
     * setUp, run before each test. After a failed test (`hasFailed`, the test
     * base class's hasFailed()) it changes nothing; otherwise it resets every
     * field but shouldThrowException, which it never assigns.
     */
    method SetUp(hasFailed: bool)
      modifies this
      ensures hasFailed ==> unchanged(this)
      ensures !hasFailed ==> IsReset()
      ensures shouldThrowException == old(shouldThrowException)
    {
      if hasFailed {
        return;
      }
      additionalInvoiceItem := None;
      isAborted := false;
      shouldUpdateDescription := false;
      rescheduleDate := None;
      wasRescheduled := false;
      priorCallInvocationCalls := 0;
      onSuccessInvocationCalls := 0;
      taxItems := NoTaxItems;
      grpResult := NullGrouping;
      checkPluginProperties := NoCheckPluginProperties;
    }

    /**
     * priorCall: counts the call first, then asserts the properties, then
     * records whether this run was rescheduled, and answers with the current
     * abort and reschedule switches. No other field changes.
     */
    method PriorCall(context: InvoiceContext, props: seq<PluginProperty>) returns (r: Result<PriorInvoiceResult, PluginFailure>)
      modifies this`priorCallInvocationCalls, this`wasRescheduled
      ensures priorCallInvocationCalls == old(priorCallInvocationCalls) + 1
      ensures checkPluginProperties.Accepts(props) ==>
                r == Success(PriorInvoiceResult(isAborted, rescheduleDate)) && wasRescheduled == context.isRescheduled
      ensures !checkPluginProperties.Accepts(props) ==>
                r == Failure(AssertionError(PropertiesRejected)) && wasRescheduled == old(wasRescheduled)
    {
      priorCallInvocationCalls := priorCallInvocationCalls + 1;
      if !checkPluginProperties.Accepts(props) {
        return Failure(AssertionError(PropertiesRejected));
      }
      wasRescheduled := context.isRescheduled;
      return Success(PriorInvoiceResult(isAborted, rescheduleDate));
    }

    /** The assertions getAdditionalInvoiceItems makes before it answers, the first failing one if any. */
    function ItemsCallAssertion(isDryRun: bool, props: seq<PluginProperty>): (r: Option<FailedAssertion>)
      reads this
      ensures r.None? <==> checkPluginProperties.Accepts(props) && (isDryRun ==> DryRunPropertiesOk(props))
    {
      if !checkPluginProperties.Accepts(props) then Some(PropertiesRejected)
      else if isDryRun then DryRunAssertion(props)
      else None
    }

    /**
     * getAdditionalInvoiceItems: after its assertions, the first switch that
     * is on decides the answer: throw the retry exception; else the one
     * additional item; else the tax function's non-null list; else every
     * item with the plugin's description; else nothing. `freshId(k)` is the
     * k-th random UUID the tax function draws.
     */
    method GetAdditionalInvoiceItems(inv: Invoice, isDryRun: bool, props: seq<PluginProperty>, freshId: nat -> Uuid)
      returns (r: Result<seq<InvoiceItem>, PluginFailure>)
      ensures ItemsCallAssertion(isDryRun, props).Some? ==>
                r == Failure(AssertionError(ItemsCallAssertion(isDryRun, props).value))
      ensures ItemsCallAssertion(isDryRun, props).None? ==>
                if shouldThrowException then r == Failure(InvoicePluginApiRetryException)
                else if additionalInvoiceItem.Some? then r == Success([additionalInvoiceItem.value])
                else if taxItems == TaxPerSubscription then r == Success(TaxItems(inv, freshId))
                else if shouldUpdateDescription then
                  r.Success? && |r.value| == |inv.items| &&
                  forall k :: 0 <= k < |inv.items| ==> r.value[k] == WithPluginDescription(inv.items[k])
                else r == Success([])
    {
      var failed := ItemsCallAssertion(isDryRun, props);
      if failed.Some? {
        return Failure(AssertionError(failed.value));
      }
      if shouldThrowException {
        return Failure(InvoicePluginApiRetryException);
      } else if additionalInvoiceItem.Some? {
        return Success([additionalInvoiceItem.value]);
      } else if taxItems == TaxPerSubscription {
        var taxes := PerSubscriptionTaxItems(inv, freshId);
        return Success(taxes);
      } else if shouldUpdateDescription {
        var updated: seq<InvoiceItem> := [];
        for i := 0 to |inv.items|
          invariant |updated| == i
          invariant forall k :: 0 <= k < i ==> updated[k] == WithPluginDescription(inv.items[k])
        {
          updated := updated + [WithPluginDescription(inv.items[i])];
        }
        return Success(updated);
      } else {
        return Success([]);
      }
    }

    /**
     * getInvoiceGrouping: after asserting the properties, no grouping (null)
     * or the per-subscription grouping, whose failures propagate. `order` is
     * the order in which the grouping lists its groups.
     */
    method GetInvoiceGrouping(inv: Invoice, dryRun: bool, props: seq<PluginProperty>)
      returns (r: Result<Option<seq<seq<Uuid>>>, PluginFailure>, ghost order: seq<GroupKey>)
      ensures !checkPluginProperties.Accepts(props) ==> r == Failure(AssertionError(PropertiesRejected))
      ensures checkPluginProperties.Accepts(props) && grpResult == NullGrouping ==> r == Success(None)
      ensures checkPluginProperties.Accepts(props) && grpResult == GroupPerSubscription ==>
                && (r.Success? <==> AllGrouped(inv, inv.items))
                && (r.Success? ==> r.value.Some? && IsListing(r.value.value, order, Grouping(inv, inv.items)))
                && (r.Failure? ==> r.error.GroupingFailed?)
                && (r.Failure? ==>
                      exists k :: 0 <= k < |inv.items| && FindGroup(inv, inv.items[k]) == Failure(r.error.cause) &&
                             forall j :: 0 <= j < k ==> FindGroup(inv, inv.items[j]).Success?)
    {
      order := [];
      if !checkPluginProperties.Accepts(props) {
        return Failure(AssertionError(PropertiesRejected)), order;
      }
      if grpResult == NullGrouping {
        return Success(None), order;
      }
      var groups;
      groups, order := Apply(inv);
      if groups.Failure? {
        return Failure(GroupingFailed(groups.error)), order;
      }
      return Success(Some(groups.value)), order;
    }

    /** onSuccessCall: counts the call first, then asserts the properties; its answer is null. */
    method OnSuccessCall(context: InvoiceContext, props: seq<PluginProperty>) returns (r: Result<(), PluginFailure>)
      modifies this`onSuccessInvocationCalls
      ensures onSuccessInvocationCalls == old(onSuccessInvocationCalls) + 1
      ensures r == if checkPluginProperties.Accepts(props) then Success(()) else Failure(AssertionError(PropertiesRejected))
    {
      onSuccessInvocationCalls := onSuccessInvocationCalls + 1;
      if !checkPluginProperties.Accepts(props) {
        return Failure(AssertionError(PropertiesRejected));
      }
      return Success(());
    }

    /** onFailureCall: only asserts the properties; its answer is null. */
    method OnFailureCall(context: InvoiceContext, props: seq<PluginProperty>) returns (r: Result<(), PluginFailure>)
      ensures r.Success? <==> checkPluginProperties.Accepts(props)
      ensures r.Failure? ==> r.error == AssertionError(PropertiesRejected)
    {
      if !checkPluginProperties.Accepts(props) {
        return Failure(AssertionError(PropertiesRejected));
      }
      return Success(());
    }
  }
}
