# Checkout form of the Surfboard online-payments demo, modelled in Dafny

The repository is a Next.js page holding one React component, the checkout
form `PaymentForm`. The form loads Surfboard's online payment SDK as a script.
When the script is ready, it registers an error callback and a payment-status
callback, initialises the SDK with a public key, an order id and a nonce, and
mounts the card, Apple Pay and Google Pay widgets. The form also relays the
customer's details to the SDK, starts card or Klarna payments, and shows
what the SDK reports back: error, success and payment-failure banners, plus a
timestamped event log with Copy and Clear buttons.

The model keeps the component's state in one class, `PaymentForm.Form`. Its
fields are the three banners, the log, the customer-details record, and a
trace of the calls made on the SDK. Each event handler is a method that
states the whole new state. The pure parts are functions with lemmas:

- `LogText`: log-entry format, and the copy text (`join('\n')`) with its
  inverse `Split`.
- `Customer`: the seven-field record, input changes, and the nested payload.
- `Relay`: error notices, and the status-to-banner choice.
- `SdkTrace`: the SDK call trace and its ordering invariant.

Each answer the environment gives becomes a method the environment calls:

- the initialise promise settling: `HandleInitialiseResolved` or
  `HandleInitialiseRejected`;
- an SDK callback firing: `HandleSdkError` or `HandlePaymentStatus`;
- a scheduled five-second clear firing: `ExpireError`.

`HandleSdkError` and `HandlePaymentStatus` require that their callback is
already in the trace, because the SDK can only call a handler it has been
given. `ExpireError` requires an outstanding clear, and the two initialise
steps require an unsettled initialise.

Timestamps (`new Date().toLocaleString()`) are string parameters.
`JSON.stringify` is a function parameter. The order id, nonce and public key
are a `SdkConfig` parameter: the source hard-codes the first two to non-empty
strings, so only a parameter can reach the missing-values branch.

The model keeps these behaviours of the code, some of which a reader might
not expect:

- There is no run-once guard. A second `onReady` registers both callbacks
  again and initialises again (`ReadyTwiceScenario`).
- Each error schedules its own clear, and none is cancelled. The clear from an
  older error therefore removes a newer notice; it does not restart a timer
  (`StaleClearScenario`).
- The MISSING_VALUES path still appends the "Surfboard SDK is ready." log
  entry, because the component logs before it checks the configuration.
- A success banner does not clear the failure banner, and a failure does not
  clear the success banner.
- The public key is not checked. An undefined key is passed to
  `initialiseOnlineSDK` as it is.
- Initialise has no rejection handler. A rejected initialise mounts nothing
  and raises no banner.
- Paying or submitting customer details before the SDK global exists throws
  before any SDK call. Nothing is recorded in the trace then. A submit has
  already appended its log entry by that point.

## Model

| member | source | states |
|---|---|---|
| `PaymentForm.Form.constructor` | app/components/PaymentForm.tsx:13-31 | no banners, an empty log, all seven customer inputs empty, no SDK loaded and no SDK calls made |
| `PaymentForm.Form.Log` | app/components/PaymentForm.tsx:33-35 | appends exactly one entry (timestamp, space, arguments joined by spaces) at the end and keeps every earlier entry; when the log was non-empty the copy text grows by a newline and that entry; a log without newlines stays without them when the timestamp and arguments have none |
| `LogText.LogLine` | app/components/PaymentForm.tsx:34 | an entry starts with its timestamp and a space, and holds no newline when neither the timestamp nor any argument does, so the copy-text round trip covers the logs the handlers build |
| `LogText.JoinSnoc` | app/components/PaymentForm.tsx:123 | joining one more entry keeps the earlier text and adds the separator and the new entry at the end (insertion order) |
| `LogText.SplitJoin` | app/components/PaymentForm.tsx:123 | the copy text, split at newlines, gives back exactly the log entries in insertion order when the log is non-empty and no entry holds a newline |
| `PaymentForm.Form.CopyText` | app/components/PaymentForm.tsx:122-124 | the copy text of an empty log is empty; otherwise (entries without newlines) splitting it at newlines recovers the log |
| `PaymentForm.Form.ClearLogs` | app/components/PaymentForm.tsx:202 | the log is empty afterwards whatever it held, and nothing else changes |
| `PaymentForm.Form.HandleSdkReady` | app/components/PaymentForm.tsx:52-84 | logs the ready entry; with an empty order id or nonce raises MISSING_VALUES and makes no SDK call; otherwise leaves the notice alone and appends exactly error-callback, status-callback, initialise with the given public key, order id and nonce; the trace stays in bootstrap order |
| `SdkTrace.BootstrapKeepsWellformed` | app/components/PaymentForm.tsx:65-84 | the bootstrap calls keep every initialise directly preceded by the two callback registrations, add one initialise and no mount |
| `PaymentForm.Form.HandleInitialiseResolved` | app/components/PaymentForm.tsx:84-91 | a resolved initialise logs "Surfboard SDK initialized." and appends exactly one mount of card-details, apple-pay and google-pay; mounts never exceed settled initialises |
| `PaymentForm.Form.HandleInitialiseRejected` | app/components/PaymentForm.tsx:80-91 | a rejected initialise mounts nothing and changes no banner or log |
| `SdkTrace.AppendKeepsWellformed` | app/components/PaymentForm.tsx:86-95 | a call that is not an initialise, and is a mount only while an initialise is unmatched, keeps the trace ordered and changes the counts by exactly that call |
| `SdkTrace.PrefixMountsFollowInits` | app/components/PaymentForm.tsx:80-91 | in every prefix of a well-formed trace there are no more mounts than initialises |
| `SdkTrace.MountAfterInit` | app/components/PaymentForm.tsx:84-90 | every mount in a well-formed trace is preceded by some initialise |
| `PaymentForm.Form.HandleScriptError` | app/components/PaymentForm.tsx:132 | a script-load failure raises SDK_LOAD_ERROR and makes no SDK call |
| `PaymentForm.Form.HandleSdkError` | app/components/PaymentForm.tsx:65-69 | an SDK error appends one log entry, replaces the notice with (code, message) whatever it was, and schedules one more clear |
| `PaymentForm.Form.ExpireError` | app/components/PaymentForm.tsx:68 | a scheduled clear removes whatever notice is showing and uses up one scheduled clear |
| `PaymentForm.Form.DismissError` | app/components/PaymentForm.tsx:143 | the close button removes the notice unconditionally |
| `Relay.OrElse` | app/components/PaymentForm.tsx:76 | JavaScript `||` on the SDK's message: the result is either the fallback or the SDK's own message, and it is never empty when the fallback is not |
| `Relay.StatusBanner` | app/components/PaymentForm.tsx:73-77 | success exactly for PAYMENT_COMPLETED, with "Payment Successful!"; failure exactly for PAYMENT_FAILED, with the SDK's message when non-empty and "Payment Failed" otherwise, so never empty; no banner for any other status |
| `PaymentForm.Form.HandlePaymentStatus` | app/components/PaymentForm.tsx:71-78 | a status event appends exactly one log entry with the raw event; PAYMENT_COMPLETED sets the success banner, PAYMENT_FAILED sets a non-empty failure banner, other statuses change no banner |
| `PaymentForm.Form.HandlePayment` | app/components/PaymentForm.tsx:94-96 | one `initiatePayments` call with the chosen method when the SDK is loaded, no call otherwise, and no other state change |
| `Customer.WithField` | app/components/PaymentForm.tsx:117-120 | the named input takes the new value and the other six keep theirs |
| `Customer.WithFieldUnique` | app/components/PaymentForm.tsx:119 | any record that has the new value in the named input and the old values elsewhere is the updated record |
| `PaymentForm.Form.HandleInputChange` | app/components/PaymentForm.tsx:117-120 | only the customer record changes, and only in the named input |
| `Customer.ToPayload` | app/components/PaymentForm.tsx:100-112 | the nested payload loses nothing: the flat record is read back from it |
| `Customer.PayloadCopiesFields` | app/components/PaymentForm.tsx:100-112 | each of the seven inputs is copied unchanged into its own slot: email, phone country code and number, billing city, postal code, country code and address line 1 |
| `Customer.ToPayloadFromPayload` | app/components/PaymentForm.tsx:100-112 | every payload is the one built from the record it carries, so shaping is a bijection |
| `Customer.PayloadAfterInputChange` | app/components/PaymentForm.tsx:100-119 | after one input change, the submitted payload differs from the previous one in that input's slot only |
| `PaymentForm.Form.HandleUpdateCustomerDetails` | app/components/PaymentForm.tsx:98-115 | submitting appends one log entry with the serialised payload and, when the SDK is loaded, one `addCustomerInformation` call carrying the shaped payload |
| `PaymentForm.BootstrapScenario` | app/components/PaymentForm.tsx:52-91 | a ready handler followed by a resolved initialise makes exactly the calls error-callback, status-callback, initialise, mount, with one mount |
| `PaymentForm.ReadyTwiceScenario` | app/components/PaymentForm.tsx:52-92 | two ready signals initialise the SDK twice: there is no run-once guard |
| `PaymentForm.StaleClearScenario` | app/components/PaymentForm.tsx:65-69 | error E1 then error E2, then the first clear fires: no notice is shown, though one clear is still scheduled |
| `PaymentForm.MissingNonceScenario` | app/components/PaymentForm.tsx:52-63 | an empty nonce shows MISSING_VALUES, makes no SDK call and still logs one entry |

## Left out

- Rendering: the JSX, styling and the customer-details visibility toggle (app/components/PaymentForm.tsx:17, 126-214). They are presentation. `app/page.tsx` only renders the component.
- The `console.log` replacement (app/components/PaymentForm.tsx:39-50). It patches global output. In the running page it also copies every `log` call into the log a second time; the model's log holds only the entries that `log` appends.
- The payment SDK's own behaviour. Only the calls made on it are recorded. Its answers come in as the environment methods listed above.
- Real time: `setTimeout` is modelled by a count of scheduled clears and the `ExpireError` step. When a clear fires is not modelled.
- Date formatting, `JSON.stringify`, the clipboard and `alert`. The model takes their results as parameters, and `CopyText` gives only the text handed to the clipboard.
- The script loader and React's batched, asynchronous state updates. Each handler is applied as one atomic step on the current state.
- Input names other than the seven the form renders. A dynamic `[name]` key outside them would add a new property; the model's `Field` type admits only the seven.
- Status events whose `errorMessage` is not a string, or that are not objects at all. The model's event holds an optional string.
- The awaited completion or rejection of `addCustomerInformation`. Neither outcome changes the form's state.
- `SplitJoin`, `CopyText`: the round trip is stated only for logs whose entries contain no newline. An entry that holds one cannot be told apart from two entries in the copied text.
