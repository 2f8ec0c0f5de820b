/** The events the SDK sends back through the two registered callbacks, and the
    banners they raise. */
module Relay {
  import opened Wrappers

  /** The error banner: `{ code, message }`. */
  datatype ErrorNotice = ErrorNotice(code: string, message: string)

  /** The part of a payment-status event the form looks at; `errorMessage` may be missing. */
  datatype StatusEvent = StatusEvent(paymentStatus: string, errorMessage: Option<string>)

  /** Which payment banner a status event sets, if any. */
  datatype BannerUpdate = ShowSuccess(text: string) | ShowPaymentError(text: string) | NoBanner

  const PaymentCompleted := "PAYMENT_COMPLETED"
  const PaymentFailed := "PAYMENT_FAILED"
  const SuccessText := "Payment Successful!"
  const FailureFallback := "Payment Failed"

  const MissingValuesNotice := ErrorNotice("MISSING_VALUES", "Please update the hardcoded Order ID and nonce in PaymentForm.tsx.")
  const LoadErrorNotice := ErrorNotice("SDK_LOAD_ERROR", "Failed to load Surfboard SDK.")

  /** JavaScript's `a || b` for an optional string: a missing or empty `a` falls back to `b`. */
  function OrElse(a: Option<string>, b: string): (r: string)
    ensures b != "" ==> r != ""
    ensures r == b || a == Some(r)
  {
    match a
    case Some(s) => if s != "" then s else b
    case None => b
  }

  /** The status-to-banner choice of the payment-status callback. */
  function StatusBanner(e: StatusEvent): (r: BannerUpdate)
    ensures r.ShowSuccess? <==> e.paymentStatus == PaymentCompleted
    ensures r.ShowPaymentError? <==> e.paymentStatus == PaymentFailed
    ensures r.ShowSuccess? ==> r.text == SuccessText
    ensures r.ShowPaymentError? ==> r.text != ""
    ensures r.ShowPaymentError? ==>
      if e.errorMessage.Some? && e.errorMessage.value != "" then r.text == e.errorMessage.value
      else r.text == FailureFallback
  {
    if e.paymentStatus == PaymentCompleted then ShowSuccess(SuccessText)
    else if e.paymentStatus == PaymentFailed then ShowPaymentError(OrElse(e.errorMessage, FailureFallback))
    else NoBanner
  }
}
