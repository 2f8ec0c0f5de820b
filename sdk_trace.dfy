/** The calls the form makes on the payment SDK, recorded as a trace in the
    order they are made, and the ordering the bootstrap sequence keeps on it. */
module SdkTrace {
  import opened Wrappers
  import opened Customer

  datatype PaymentMethod = Card | Klarna

  /** The argument of `initialiseOnlineSDK`. The public key comes from the
      environment and may be undefined; it is passed on unchecked. */
  datatype SdkConfig = SdkConfig(publicKey: Option<string>, orderId: string, nonce: string)

  datatype SdkCall =
    | RegisterErrorCallback
    | RegisterStatusCallback
    | InitialiseOnlineSdk(config: SdkConfig)
    | Mount(cardWidget: string, applePayWidget: string, googlePayWidget: string)
    | InitiatePayments(paymentMethod: PaymentMethod)
    | AddCustomerInformation(payload: CustomerPayload)

  /** The one mount call: card, Apple Pay and Google Pay widgets into their page regions. */
  const WidgetMount := Mount("card-details", "apple-pay", "google-pay")

  /** `!orderId || !nonce`: an empty order id or nonce is a configuration error. */
  predicate MissingValues(c: SdkConfig)
  {
    c.orderId == "" || c.nonce == ""
  }

  /** The calls of one ready handler that passed the configuration check, in order. */
  function Bootstrap(c: SdkConfig): seq<SdkCall>
  {
    [RegisterErrorCallback, RegisterStatusCallback, InitialiseOnlineSdk(c)]
  }

  function CountInits(t: seq<SdkCall>): nat
  {
    if t == [] then 0
    else CountInits(t[..|t| - 1]) + (if t[|t| - 1].InitialiseOnlineSdk? then 1 else 0)
  }

  function CountMounts(t: seq<SdkCall>): nat
  {
    if t == [] then 0
    else CountMounts(t[..|t| - 1]) + (if t[|t| - 1].Mount? then 1 else 0)
  }

  /** At every point of the trace, no more mounts have been made than initialisations. */
  ghost predicate MountsFollowInits(t: seq<SdkCall>)
  {
    t == [] || (MountsFollowInits(t[..|t| - 1]) && CountMounts(t) <= CountInits(t))
  }

  /** Every initialisation is immediately preceded by the two callback registrations. */
  ghost predicate RegisteredBeforeInit(t: seq<SdkCall>)
  {
    forall i :: 0 <= i < |t| && t[i].InitialiseOnlineSdk? ==>
      2 <= i && t[i - 2] == RegisterErrorCallback && t[i - 1] == RegisterStatusCallback
  }

  ghost predicate Wellformed(t: seq<SdkCall>)
  {
    MountsFollowInits(t) && RegisteredBeforeInit(t)
  }

  lemma CountSnoc(t: seq<SdkCall>, e: SdkCall)
    ensures CountInits(t + [e]) == CountInits(t) + (if e.InitialiseOnlineSdk? then 1 else 0)
    ensures CountMounts(t + [e]) == CountMounts(t) + (if e.Mount? then 1 else 0)
  {
    assert (t + [e])[..|t|] == t;
  }

  /** Appending a call that is neither an initialisation nor an unmatched mount keeps the trace well formed. */
  lemma {:induction false} AppendKeepsWellformed(t: seq<SdkCall>, e: SdkCall)
    requires Wellformed(t) && !e.InitialiseOnlineSdk?
    requires e.Mount? ==> CountMounts(t) < CountInits(t)
    ensures Wellformed(t + [e])
    ensures CountInits(t + [e]) == CountInits(t)
    ensures CountMounts(t + [e]) == CountMounts(t) + (if e.Mount? then 1 else 0)
  {
    CountSnoc(t, e);
    assert (t + [e])[..|t|] == t;
    forall i | 0 <= i < |t + [e]| && (t + [e])[i].InitialiseOnlineSdk?
      ensures 2 <= i && (t + [e])[i - 2] == RegisterErrorCallback && (t + [e])[i - 1] == RegisterStatusCallback
    {
      assert i < |t| && (t + [e])[i] == t[i];
    }
  }

  /** Appending the bootstrap calls keeps the trace well formed and adds one initialisation. */
  lemma {:induction false} BootstrapKeepsWellformed(t: seq<SdkCall>, c: SdkConfig)
    requires Wellformed(t)
    ensures Wellformed(t + Bootstrap(c))
    ensures CountInits(t + Bootstrap(c)) == CountInits(t) + 1
    ensures CountMounts(t + Bootstrap(c)) == CountMounts(t)
  {
    var t1 := t + [RegisterErrorCallback];
    var t2 := t1 + [RegisterStatusCallback];
    var t3 := t2 + [InitialiseOnlineSdk(c)];
    assert t3 == t + Bootstrap(c);
    AppendKeepsWellformed(t, RegisterErrorCallback);
    AppendKeepsWellformed(t1, RegisterStatusCallback);
    CountSnoc(t2, InitialiseOnlineSdk(c));
    assert t3[..|t2|] == t2;
    forall i | 0 <= i < |t3| && t3[i].InitialiseOnlineSdk?
      ensures 2 <= i && t3[i - 2] == RegisterErrorCallback && t3[i - 1] == RegisterStatusCallback
    {
      if i < |t2| {
        assert t3[i] == t2[i] && t3[i - 2] == t2[i - 2] && t3[i - 1] == t2[i - 1];
      }
    }
  }

  /** The ordering holds of every prefix of a well-formed trace, not just of the whole. */
  lemma {:induction false} PrefixMountsFollowInits(t: seq<SdkCall>, k: nat)
    requires MountsFollowInits(t) && k <= |t|
    ensures MountsFollowInits(t[..k])
    ensures CountMounts(t[..k]) <= CountInits(t[..k])
    decreases |t| - k
  {
    if k == |t| {
      assert t[..k] == t;
    } else {
      PrefixMountsFollowInits(t[..|t| - 1], k);
      assert t[..|t| - 1][..k] == t[..k];
    }
  }

  lemma {:induction false} CountInitsPositive(t: seq<SdkCall>)
    requires CountInits(t) > 0
    ensures exists j :: 0 <= j < |t| && t[j].InitialiseOnlineSdk?
  {
    if !t[|t| - 1].InitialiseOnlineSdk? {
      CountInitsPositive(t[..|t| - 1]);
      var j :| 0 <= j < |t| - 1 && t[..|t| - 1][j].InitialiseOnlineSdk?;
      assert t[j] == t[..|t| - 1][j];
    }
  }

  /** Every mount in a well-formed trace comes after some initialisation. */
  lemma MountAfterInit(t: seq<SdkCall>, i: nat)
    requires MountsFollowInits(t) && i < |t| && t[i].Mount?
    ensures exists j :: 0 <= j < i && t[j].InitialiseOnlineSdk?
  {
    PrefixMountsFollowInits(t, i + 1);
    assert t[..i + 1] == t[..i] + [t[i]];
    CountSnoc(t[..i], t[i]);
    CountInitsPositive(t[..i]);
    var j :| 0 <= j < i && t[..i][j].InitialiseOnlineSdk?;
    assert t[j] == t[..i][j];
  }
}
