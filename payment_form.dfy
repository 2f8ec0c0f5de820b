/** The checkout form component: its state, the handlers that change it, and
    the SDK calls it makes. The SDK itself is not modelled; each call made on it
    is appended to `trace`, and each asynchronous completion or event it sends
    back is a method the environment calls. */
module PaymentForm {
  import opened Wrappers
  import opened LogText
  import opened Customer
  import opened Relay
  import opened SdkTrace

  const ReadyText := "Surfboard SDK is ready."
  const InitializedText := "Surfboard SDK initialized."
  const StatusText := "Payment status:"
  const CustomerInfoText := "Updating customer info:"
  const ErrorPrefix := "Error: "

  class Form {
    // banners
    var errorMessage: Option<ErrorNotice>
    var successMessage: Option<string>
    var paymentErrorMessage: Option<string>
    // the log panel
    var logs: seq<string>
    // the customer-details inputs
    var customerDetails: CustomerDetails
    // whether the SDK script has defined its global object
    var sdkLoaded: bool
    // the calls made on the SDK, in order
    var trace: seq<SdkCall>
    // initialise promises not yet settled
    var pendingInits: nat
    // five-second clears scheduled and not yet fired
    var pendingClears: nat

    /** The SDK trace is in bootstrap order, and there is at most one mount per
        settled initialisation. */
    ghost predicate Valid()
      reads this`trace, this`pendingInits
    {
      Wellformed(trace) && CountMounts(trace) + pendingInits <= CountInits(trace)
    }

    constructor ()
      ensures Valid()
      ensures errorMessage == None && successMessage == None && paymentErrorMessage == None
      ensures logs == [] && customerDetails == EmptyDetails
      ensures !sdkLoaded && trace == [] && pendingInits == 0 && pendingClears == 0
    {
      errorMessage, successMessage, paymentErrorMessage := None, None, None;
      logs := [];
      customerDetails := EmptyDetails;
      sdkLoaded := false;
      trace := [];
      pendingInits, pendingClears := 0, 0;
    }

    /** `log`: appends exactly one entry at the end and keeps the earlier ones;
        the copied text grows by a newline and the new entry. */
    method Log(timestamp: string, args: seq<string>)
      modifies this`logs
      ensures logs == old(logs) + [LogLine(timestamp, args)]
      ensures old(logs) != [] ==> CopyText() == old(CopyText()) + "\n" + LogLine(timestamp, args)
      ensures NoSeparator(old(logs), '\n') && '\n' !in timestamp && NoSeparator(args, '\n') ==>
        NoSeparator(logs, '\n')
    {
      if logs != [] {
        JoinSnoc(logs, LogLine(timestamp, args), "\n");
      }
      logs := logs + [LogLine(timestamp, args)];
    }

    /** `handleSDKReady`, run by the script's `onReady`. It logs first, then checks
        the order id and nonce; on a missing value it raises MISSING_VALUES and
        calls nothing on the SDK, otherwise it registers both callbacks and then
        calls initialise. There is no run-once guard. */
    method HandleSdkReady(timestamp: string, config: SdkConfig)
      requires Valid()
      modifies this`logs, this`sdkLoaded, this`errorMessage, this`trace, this`pendingInits
      ensures Valid() && sdkLoaded
      ensures logs == old(logs) + [LogLine(timestamp, [ReadyText])]
      ensures MissingValues(config) ==>
        errorMessage == Some(MissingValuesNotice) && trace == old(trace) && pendingInits == old(pendingInits)
      ensures !MissingValues(config) ==>
        errorMessage == old(errorMessage) && trace == old(trace) + Bootstrap(config) &&
        pendingInits == old(pendingInits) + 1
    {
      sdkLoaded := true;
      Log(timestamp, [ReadyText]);
      if MissingValues(config) {
        errorMessage := Some(MissingValuesNotice);
        return;
      }
      BootstrapKeepsWellformed(trace, config);
      trace := trace + [RegisterErrorCallback, RegisterStatusCallback, InitialiseOnlineSdk(config)];
      pendingInits := pendingInits + 1;
    }

    /** The initialise promise resolves: log, then mount the three widgets. */
    method HandleInitialiseResolved(timestamp: string)
      requires Valid() && pendingInits > 0
      modifies this`logs, this`trace, this`pendingInits
      ensures Valid()
      ensures logs == old(logs) + [LogLine(timestamp, [InitializedText])]
      ensures trace == old(trace) + [WidgetMount]
      ensures pendingInits == old(pendingInits) - 1
      ensures CountMounts(trace) == CountMounts(old(trace)) + 1
    {
      Log(timestamp, [InitializedText]);
      AppendKeepsWellformed(trace, WidgetMount);
      trace := trace + [WidgetMount];
      pendingInits := pendingInits - 1;
    }

    /** The initialise promise rejects: there is no handler for it, so nothing is mounted. */
    method HandleInitialiseRejected()
      requires Valid() && pendingInits > 0
      modifies this`pendingInits
      ensures Valid()
      ensures pendingInits == old(pendingInits) - 1
    {
      pendingInits := pendingInits - 1;
    }

    /** The script's `onError`: raises SDK_LOAD_ERROR and calls nothing on the SDK. */
    method HandleScriptError()
      modifies this`errorMessage
      ensures errorMessage == Some(LoadErrorNotice)
    {
      errorMessage := Some(LoadErrorNotice);
    }

    /** The registered error callback: log, replace the notice whatever it was,
        and schedule one more clear. */
    method HandleSdkError(timestamp: string, code: string, message: string)
      requires RegisterErrorCallback in trace
      modifies this`logs, this`errorMessage, this`pendingClears
      ensures logs == old(logs) + [LogLine(timestamp, [ErrorPrefix + code, message])]
      ensures errorMessage == Some(ErrorNotice(code, message))
      ensures pendingClears == old(pendingClears) + 1
    {
      Log(timestamp, [ErrorPrefix + code, message]);
      errorMessage := Some(ErrorNotice(code, message));
      pendingClears := pendingClears + 1;
    }

    /** A scheduled clear fires. It is not cancelled by a newer error, so it
        clears whatever notice is showing. */
    method ExpireError()
      requires pendingClears > 0
      modifies this`errorMessage, this`pendingClears
      ensures errorMessage == None
      ensures pendingClears == old(pendingClears) - 1
    {
      errorMessage := None;
      pendingClears := pendingClears - 1;
    }

    /** The close button of the error banner. */
    method DismissError()
      modifies this`errorMessage
      ensures errorMessage == None
    {
      errorMessage := None;
    }

    /** The registered payment-status callback: log the raw event, then set the
        banner the status maps to; a status other than the two mapped ones sets none.
        Neither banner clears the other. */
    method HandlePaymentStatus(timestamp: string, event: StatusEvent, stringify: StatusEvent -> string)
      requires RegisterStatusCallback in trace
      modifies this`logs, this`successMessage, this`paymentErrorMessage
      ensures logs == old(logs) + [LogLine(timestamp, [StatusText, stringify(event)])]
      ensures successMessage == (if event.paymentStatus == PaymentCompleted then Some(SuccessText) else old(successMessage))
      ensures event.paymentStatus == PaymentFailed ==> paymentErrorMessage.Some? && paymentErrorMessage.value != ""
      ensures paymentErrorMessage ==
        (match StatusBanner(event) case ShowPaymentError(m) => Some(m) case _ => old(paymentErrorMessage))
    {
      Log(timestamp, [StatusText, stringify(event)]);
      match StatusBanner(event)
      case ShowSuccess(m) => successMessage := Some(m);
      case ShowPaymentError(m) => paymentErrorMessage := Some(m);
      case NoBanner =>
    }

    /** `handlePayment`: one `initiatePayments` call. Without the SDK global the
        call throws before reaching the SDK, so nothing is recorded. */
    method HandlePayment(paymentMethod: PaymentMethod)
      requires Valid()
      modifies this`trace
      ensures Valid()
      ensures trace == if sdkLoaded then old(trace) + [InitiatePayments(paymentMethod)] else old(trace)
    {
      if sdkLoaded {
        AppendKeepsWellformed(trace, InitiatePayments(paymentMethod));
        trace := trace + [InitiatePayments(paymentMethod)];
      }
    }

    /** `handleUpdateCustomerDetails`: shape the record into the nested payload,
        log it, then hand it to `addCustomerInformation`. The log entry is made
        before the SDK is touched, so it is there even when the SDK is missing. */
    method HandleUpdateCustomerDetails(timestamp: string, stringify: CustomerPayload -> string)
      requires Valid()
      modifies this`logs, this`trace
      ensures Valid()
      ensures logs == old(logs) + [LogLine(timestamp, [CustomerInfoText, stringify(ToPayload(customerDetails))])]
      ensures trace ==
        if sdkLoaded then old(trace) + [AddCustomerInformation(ToPayload(customerDetails))] else old(trace)
    {
      var payload := ToPayload(customerDetails);
      Log(timestamp, [CustomerInfoText, stringify(payload)]);
      if sdkLoaded {
        AppendKeepsWellformed(trace, AddCustomerInformation(payload));
        trace := trace + [AddCustomerInformation(payload)];
      }
    }

    /** `handleInputChange`: the named input takes the new value, the other six keep theirs. */
    method HandleInputChange(field: Field, value: string)
      modifies this`customerDetails
      ensures customerDetails == WithField(old(customerDetails), field, value)
      ensures Get(customerDetails, field) == value
      ensures forall g :: g != field ==> Get(customerDetails, g) == Get(old(customerDetails), g)
    {
      customerDetails := WithField(customerDetails, field, value);
    }

    /** The Clear button: the log becomes empty whatever it held. */
    method ClearLogs()
      modifies this`logs
      ensures logs == []
    {
      logs := [];
    }

    /** The text the Copy button puts on the clipboard: the entries joined by
        newlines. It holds every entry in insertion order: split at the
        newlines it gives the log back. */
    function CopyText(): (text: string)
      reads this`logs
      ensures logs == [] ==> text == ""
      ensures logs != [] && NoSeparator(logs, '\n') ==> Split(text, '\n') == logs
    {
      if logs != [] && NoSeparator(logs, '\n') then SplitJoin(logs, '\n'); Join(logs, "\n")
      else Join(logs, "\n")
    }
  }

  const TestConfig := SdkConfig(Some("public-key"), "ORDER_ID", "NONCE")

  /** A successful bootstrap: both registrations, initialise, and once it
      resolves the single mount, in that order. */
  method BootstrapScenario() returns (calls: seq<SdkCall>, mounts: nat)
    ensures calls == [RegisterErrorCallback, RegisterStatusCallback, InitialiseOnlineSdk(TestConfig), WidgetMount]
    ensures mounts == 1
  {
    var f := new Form();
    f.HandleSdkReady("t0", TestConfig);
    f.HandleInitialiseResolved("t1");
    calls := f.trace;
    mounts := CountMounts(calls);
    CountSnoc([RegisterErrorCallback, RegisterStatusCallback, InitialiseOnlineSdk(TestConfig)], WidgetMount);
    assert [RegisterErrorCallback, RegisterStatusCallback, InitialiseOnlineSdk(TestConfig)] + [WidgetMount] == calls;
  }

  /** A second `onReady` registers the callbacks and initialises again: the
      handler has no run-once guard. */
  method ReadyTwiceScenario() returns (inits: nat)
    ensures inits == 2
  {
    var f := new Form();
    f.HandleSdkReady("t0", TestConfig);
    f.HandleSdkReady("t1", TestConfig);
    assert f.trace == Bootstrap(TestConfig) + Bootstrap(TestConfig);
    BootstrapKeepsWellformed([], TestConfig);
    assert [] + Bootstrap(TestConfig) == Bootstrap(TestConfig);
    BootstrapKeepsWellformed(Bootstrap(TestConfig), TestConfig);
    inits := CountInits(f.trace);
  }

  /** Error E1 at 0 s, error E2 at 2 s: the clear scheduled for E1 fires at 5 s
      and removes E2, because a newer error does not cancel the older clear. */
  method StaleClearScenario() returns (shown: Option<ErrorNotice>, stillScheduled: nat)
    ensures shown == None && stillScheduled == 1
  {
    var f := new Form();
    f.HandleSdkReady("t0", TestConfig);
    f.HandleSdkError("t0", "E1", "bad card");
    f.HandleSdkError("t2", "E2", "timeout");
    f.ExpireError();
    shown, stillScheduled := f.errorMessage, f.pendingClears;
  }

  /** A missing nonce: MISSING_VALUES is raised, the ready entry is still logged,
      and nothing is called on the SDK. */
  method MissingNonceScenario() returns (shown: Option<ErrorNotice>, calls: seq<SdkCall>, entries: nat)
    ensures shown == Some(ErrorNotice("MISSING_VALUES", MissingValuesNotice.message))
    ensures calls == [] && entries == 1
  {
    var f := new Form();
    f.HandleSdkReady("t0", SdkConfig(Some("public-key"), "ORDER_ID", ""));
    shown, calls, entries := f.errorMessage, f.trace, |f.logs|;
  }
}
