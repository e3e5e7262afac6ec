/** The Android `CustomConsentClient`: the native SDK calls
    `transferCustomConsentToUnity` with a JSON string. The client unwraps
    it, keeps the GDPR consent in `customGdprConsent` and hands it to the
    application's callback, or hands null to the callback when the first
    unwrap fails.

    The two JSON unwrappers are not part of this model; each is a
    parameter that throws, returns null or returns a value. The shape of
    `parsed.gdpr` is left open as the type parameter `G`. */
module AndroidCustomConsent {
  import opened Common
  import opened GdprConsentModel
  import opened ConsentData

  /** `SpCustomConsentAndroid`: only its `gdpr` member is read. */
  datatype SpCustomConsentAndroid<G> = SpCustomConsentAndroid(gdpr: G)

  /** What one transfer does: the new value of `customGdprConsent`, the
      argument of the callback invocation if there was one, and how the
      method ends. */
  datatype Transfer = Transfer(field: Option<GdprConsent>, delivered: Option<Option<GdprConsent>>, exit: Exit)

  /** `transferCustomConsentToUnity(json)` on a client whose callback is
      `callback` and whose field holds `field`. `callbackThrows` says
      whether the callback throws when it is invoked. */
  function TransferSpec<G>(
    callback: Option<CallbackRef>, field: Option<GdprConsent>, json: Option<string>,
    unwrapCustom: string -> Parsed<SpCustomConsentAndroid<G>>, unwrapGdpr: G -> Parsed<SpGdprConsent>,
    callbackThrows: bool): Transfer
  {
    if json.None? then
      // `spConsentsJson.ToString()` runs before the `try`
      Transfer(field, None, Thrown(NullReferenceException))
    else
      var invokeExit := if callback.Some? && callbackThrows then Thrown(HandlerException) else Normal;
      match unwrapCustom(json.value)
      case ParseOk(parsed) =>
        (match unwrapGdpr(parsed.gdpr)
         case ParseThrows => Transfer(field, None, Thrown(ParserException))
         case ParseNull => Transfer(field, None, Thrown(NullReferenceException))
         case ParseOk(spGdpr) =>
           var consents := spGdpr.consents;
           Transfer(consents, if callback.Some? then Some(consents) else None, invokeExit))
      case _ =>
        // caught and logged, or a null result: the `finally` hands null on
        Transfer(field, if callback.Some? then Some(None) else None, invokeExit)
  }

  class CustomConsentClient {
    /** The delegate given to the constructor; it is never reassigned. */
    const callback: Option<CallbackRef>
    var customGdprConsent: Option<GdprConsent>
    /** Every invocation of the callback, with its argument, in order. */
    var invocations: seq<(CallbackRef, Option<GdprConsent>)>

    constructor(callback: Option<CallbackRef>)
      ensures this.callback == callback
      ensures customGdprConsent == None
      ensures invocations == []
    {
      this.callback := callback;
      customGdprConsent := None;
      invocations := [];
    }

    /** Invoke the callback, if any, with `arg` through `callback?.Invoke`. */
    method InvokeCallback(arg: Option<GdprConsent>, throws: bool) returns (exit: Exit)
      modifies this
      ensures customGdprConsent == old(customGdprConsent)
      ensures invocations == old(invocations) + (if callback.Some? then [(callback.value, arg)] else [])
      ensures exit == (if callback.Some? && throws then Thrown(HandlerException) else Normal)
    {
      exit := Normal;
      if callback.Some? {
        invocations := invocations + [(callback.value, arg)];
        if throws {
          exit := Thrown(HandlerException);
        }
      }
    }

    /** `transferCustomConsentToUnity`. */
    method TransferCustomConsentToUnity<G>(
      json: Option<string>,
      unwrapCustom: string -> Parsed<SpCustomConsentAndroid<G>>, unwrapGdpr: G -> Parsed<SpGdprConsent>,
      callbackThrows: bool) returns (exit: Exit)
      modifies this
      ensures var t := TransferSpec(callback, old(customGdprConsent), json, unwrapCustom, unwrapGdpr, callbackThrows);
        && customGdprConsent == t.field
        && invocations == old(invocations) + (if t.delivered.Some? then [(callback.value, t.delivered.value)] else [])
        && exit == t.exit
    {
      if json.None? {
        return Thrown(NullReferenceException);
      }
      // try
      var parsed: Option<SpCustomConsentAndroid<G>> := None;
      var attempt := unwrapCustom(json.value);
      if attempt.ParseOk? {
        parsed := Some(attempt.value);
      }
      // catch: a thrown unwrap leaves `parsed` null
      // finally
      if parsed.None? {
        exit := InvokeCallback(None, callbackThrows);
      } else {
        var spGdpr := unwrapGdpr(parsed.value.gdpr);
        if spGdpr.ParseThrows? {
          return Thrown(ParserException);
        } else if spGdpr.ParseNull? {
          return Thrown(NullReferenceException);
        }
        customGdprConsent := spGdpr.value.consents;
        exit := InvokeCallback(customGdprConsent, callbackThrows);
      }
    }
  }

  // ---------------------------------------------------------------------
  // Properties of a transfer

  /** A null JSON string fails before anything else happens. */
  lemma NullJsonThrowsFirst<G>(callback: Option<CallbackRef>, field: Option<GdprConsent>,
    unwrapCustom: string -> Parsed<SpCustomConsentAndroid<G>>, unwrapGdpr: G -> Parsed<SpGdprConsent>, callbackThrows: bool)
    ensures TransferSpec(callback, field, None, unwrapCustom, unwrapGdpr, callbackThrows)
         == Transfer(field, None, Thrown(NullReferenceException))
  {
  }

  /** When the first unwrap throws or returns null, the callback (if set)
      receives null, `customGdprConsent` keeps its value, and the
      exception is swallowed unless the callback itself throws. */
  lemma FailedUnwrapDeliversNull<G>(callback: Option<CallbackRef>, field: Option<GdprConsent>, json: string,
    unwrapCustom: string -> Parsed<SpCustomConsentAndroid<G>>, unwrapGdpr: G -> Parsed<SpGdprConsent>, callbackThrows: bool)
    requires !unwrapCustom(json).ParseOk?
    ensures var t := TransferSpec(callback, field, Some(json), unwrapCustom, unwrapGdpr, callbackThrows);
      && t.field == field
      && (callback.Some? <==> t.delivered == Some(None))
      && (t.exit.Thrown? <==> callback.Some? && callbackThrows)
  {
  }

  /** On success `customGdprConsent` becomes the `consents` of the
      unwrapped `parsed.gdpr`, and the callback (if set) receives exactly
      the new field value. */
  lemma SuccessStoresAndDelivers<G>(callback: Option<CallbackRef>, field: Option<GdprConsent>, json: string,
    unwrapCustom: string -> Parsed<SpCustomConsentAndroid<G>>, unwrapGdpr: G -> Parsed<SpGdprConsent>, callbackThrows: bool)
    requires unwrapCustom(json).ParseOk?
    requires unwrapGdpr(unwrapCustom(json).value.gdpr).ParseOk?
    ensures var t := TransferSpec(callback, field, Some(json), unwrapCustom, unwrapGdpr, callbackThrows);
      && t.field == unwrapGdpr(unwrapCustom(json).value.gdpr).value.consents
      && (callback.Some? ==> t.delivered == Some(t.field))
      && (callback.None? ==> t.delivered == None && t.exit == Normal)
  {
  }

  /** When the second unwrap fails, its exception (or the dereference of
      its null result) escapes the `finally`: the field keeps its value and
      the callback is not invoked. */
  lemma FailedGdprUnwrapEscapes<G>(callback: Option<CallbackRef>, field: Option<GdprConsent>, json: string,
    unwrapCustom: string -> Parsed<SpCustomConsentAndroid<G>>, unwrapGdpr: G -> Parsed<SpGdprConsent>, callbackThrows: bool)
    requires unwrapCustom(json).ParseOk?
    requires !unwrapGdpr(unwrapCustom(json).value.gdpr).ParseOk?
    ensures var t := TransferSpec(callback, field, Some(json), unwrapCustom, unwrapGdpr, callbackThrows);
      t.field == field && t.delivered == None && t.exit.Thrown?
  {
  }

  /** Unless the JSON string is null or the second unwrap fails, a
      transfer with a callback set invokes it exactly once, and one
      without a callback invokes nothing and ends normally. */
  lemma ExactlyOnce<G>(callback: Option<CallbackRef>, field: Option<GdprConsent>, json: string,
    unwrapCustom: string -> Parsed<SpCustomConsentAndroid<G>>, unwrapGdpr: G -> Parsed<SpGdprConsent>, callbackThrows: bool)
    requires unwrapCustom(json).ParseOk? ==> unwrapGdpr(unwrapCustom(json).value.gdpr).ParseOk?
    ensures var t := TransferSpec(callback, field, Some(json), unwrapCustom, unwrapGdpr, callbackThrows);
      && (t.delivered.Some? <==> callback.Some?)
      && (callback.None? ==> t.exit == Normal)
  {
  }

  /** The field only ever changes to a value that was also delivered to
      the callback when one is set. */
  lemma FieldChangesOnlyOnSuccess<G>(callback: Option<CallbackRef>, field: Option<GdprConsent>, json: Option<string>,
    unwrapCustom: string -> Parsed<SpCustomConsentAndroid<G>>, unwrapGdpr: G -> Parsed<SpGdprConsent>, callbackThrows: bool)
    ensures var t := TransferSpec(callback, field, json, unwrapCustom, unwrapGdpr, callbackThrows);
      t.field != field ==> json.Some? && unwrapCustom(json.value).ParseOk? && (callback.Some? ==> t.delivered == Some(t.field))
  {
  }
}
