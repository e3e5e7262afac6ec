/** `CMPiOSListenerHelper`: the object that receives the native iOS SDK's
    messages. Each channel handler turns a message string into one
    `ConsentMessenger.Broadcast<T>` call; the custom consent handler
    deserialises the message and hands the result, or null, to the
    application's success action.

    The JSON deserialiser and `JsonUnwrapper.UnwrapSpGdprConsent` are not
    part of this model: each is a parameter that throws, returns null or
    returns a value. */
module IosListener {
  import opened Common
  import opened ConsentData
  import opened Messenger

  // ---------------------------------------------------------------------
  // `Convert.ToInt32(string)`

  /** The white space `NumberStyles.Integer` allows around the number:
      U+0009 to U+000D and U+0020. */
  predicate IsWhite(c: char) {
    c == ' ' || '\t' <= c <= '\r'
  }

  predicate IsDigit(c: char) {
    '0' <= c <= '9'
  }

  predicate AllDigits(s: string) {
    forall i | 0 <= i < |s| :: IsDigit(s[i])
  }

  function TrimStart(s: string): string
    decreases |s|
  {
    if |s| > 0 && IsWhite(s[0]) then TrimStart(s[1..]) else s
  }

  function TrimEnd(s: string): string
    decreases |s|
  {
    if |s| > 0 && IsWhite(s[|s| - 1]) then TrimEnd(s[..|s| - 1]) else s
  }

  function DigitValue(c: char): nat
    requires IsDigit(c)
  {
    c as nat - '0' as nat
  }

  /** The value of a string of decimal digits. */
  function DigitsValue(s: string): nat
    requires AllDigits(s)
    decreases |s|
  {
    if s == [] then 0 else DigitsValue(s[..|s| - 1]) * 10 + DigitValue(s[|s| - 1])
  }

  /** The digits `Convert.ToInt32` reads, once the white space and the
      sign are cut off. */
  function DigitPart(t: string): string {
    if |t| > 0 && (t[0] == '-' || t[0] == '+') then t[1..] else t
  }

  /** `Convert.ToInt32(value)`: null is 0; otherwise `Int32.Parse` with
      `NumberStyles.Integer` — optional white space, an optional `+` or
      `-`, one or more decimal digits, optional white space. Anything else
      is a `FormatException`; a value outside the range of `int`, an
      `OverflowException`. */
  function ToInt32(value: Option<string>): (r: Completion<int32>)
    ensures value == None ==> r == Returned(0)
    ensures r.Raised? ==> r.error == FormatException || r.error == OverflowException
  {
    if value.None? then Returned(0)
    else
      var t := TrimEnd(TrimStart(value.value));
      var negative := |t| > 0 && t[0] == '-';
      var digits := DigitPart(t);
      if digits == [] || !AllDigits(digits) then Raised(FormatException)
      else
        var v: int := if negative then 0 - DigitsValue(digits) else DigitsValue(digits);
        if MinInt32 <= v <= MaxInt32 then Returned(v as int32) else Raised(OverflowException)
  }

  /** The decimal text of a natural number, without leading zeros. */
  function NatText(n: nat): (s: string)
    ensures |s| > 0 && AllDigits(s)
    ensures DigitsValue(s) == n
    decreases n
  {
    var d := [('0' as int + n % 10) as char];
    if n < 10 then d
    else
      var s := NatText(n / 10) + d;
      assert s[..|s| - 1] == NatText(n / 10);
      s
  }

  /** `int.ToString()` in the invariant culture. */
  function Int32Text(n: int32): string {
    if n < 0 then "-" + NatText(-(n as int)) else NatText(n as int)
  }

  lemma TrimStartKeeps(s: string)
    requires |s| > 0 && !IsWhite(s[0])
    ensures TrimStart(s) == s
  {
  }

  lemma {:induction false} TrimStartSkips(w: string, s: string)
    requires forall i | 0 <= i < |w| :: IsWhite(w[i])
    ensures TrimStart(w + s) == TrimStart(s)
    decreases |w|
  {
    if w != [] {
      assert (w + s)[1..] == w[1..] + s;
      TrimStartSkips(w[1..], s);
    } else {
      assert w + s == s;
    }
  }

  lemma {:induction false} TrimEndSkips(s: string, w: string)
    requires forall i | 0 <= i < |w| :: IsWhite(w[i])
    ensures TrimEnd(s + w) == TrimEnd(s)
    decreases |w|
  {
    if w != [] {
      var w' := w[..|w| - 1];
      assert (s + w)[..|s + w| - 1] == s + w';
      TrimEndSkips(s, w');
    } else {
      assert s + w == s;
    }
  }

  /** `Convert.ToInt32` reads back the text of every `int`, whatever white
      space surrounds it. */
  lemma Int32TextRoundTrip(n: int32, before: string, after: string)
    requires forall i | 0 <= i < |before| :: IsWhite(before[i])
    requires forall i | 0 <= i < |after| :: IsWhite(after[i])
    ensures ToInt32(Some(before + Int32Text(n) + after)) == Returned(n)
  {
    var t := Int32Text(n);
    assert |t| > 0 && !IsWhite(t[0]) && !IsWhite(t[|t| - 1]);
    TrimStartSkips(before, t + after);
    assert before + t + after == before + (t + after);
    TrimStartKeeps(t + after);
    TrimEndSkips(t, after);
    if n < 0 {
      assert t[1..] == NatText(-(n as int));
    }
  }

  /** A message without a single decimal digit is a `FormatException`. */
  lemma NoDigitIsFormatError(s: string)
    requires forall i | 0 <= i < |s| :: !IsDigit(s[i])
    ensures ToInt32(Some(s)) == Raised(FormatException)
  {
    var t := TrimEnd(TrimStart(s));
    TrimmedIsInside(s);
    var digits := DigitPart(t);
    if digits != [] {
      assert digits[0] in t;
      assert !IsDigit(digits[0]);
    }
  }

  lemma {:induction false} TrimmedIsInside(s: string)
    ensures forall c | c in TrimEnd(TrimStart(s)) :: c in s
  {
    TrimStartInside(s);
    TrimEndInside(TrimStart(s));
  }

  lemma {:induction false} TrimStartInside(s: string)
    ensures forall c | c in TrimStart(s) :: c in s
    decreases |s|
  {
    if |s| > 0 && IsWhite(s[0]) {
      TrimStartInside(s[1..]);
      assert forall c | c in s[1..] :: c in s;
    }
  }

  lemma {:induction false} TrimEndInside(s: string)
    ensures forall c | c in TrimEnd(s) :: c in s
    decreases |s|
  {
    if |s| > 0 && IsWhite(s[|s| - 1]) {
      TrimEndInside(s[..|s| - 1]);
      assert forall c | c in s[..|s| - 1] :: c in s;
    }
  }

  // ---------------------------------------------------------------------
  // The texts `Int32.Parse` accepts

  predicate AllWhite(s: string) {
    forall i | 0 <= i < |s| :: IsWhite(s[i])
  }

  /** No sign, `+` or `-`. */
  predicate IsSign(sign: string) {
    sign == "" || sign == "+" || sign == "-"
  }

  /** `s` is white space `w1`, a sign, a non-empty run `d` of decimal
      digits, and white space `w2`. */
  predicate IntegerShape(s: string, w1: string, sign: string, d: string, w2: string) {
    && AllWhite(w1) && IsSign(sign) && |d| > 0 && AllDigits(d) && AllWhite(w2)
    && s == w1 + sign + d + w2
  }

  /** The value the sign and the digits spell. */
  function SignedValue(sign: string, d: string): int
    requires AllDigits(d)
  {
    if sign == "-" then 0 - DigitsValue(d) else DigitsValue(d)
  }

  lemma TrimEndKeeps(s: string)
    requires |s| > 0 && !IsWhite(s[|s| - 1])
    ensures TrimEnd(s) == s
  {
  }

  /** `TrimStart` removes a prefix of white space. */
  lemma {:induction false} TrimStartSplit(s: string) returns (w: string)
    ensures AllWhite(w) && s == w + TrimStart(s)
    decreases |s|
  {
    if |s| > 0 && IsWhite(s[0]) {
      var w' := TrimStartSplit(s[1..]);
      w := [s[0]] + w';
      assert s == [s[0]] + s[1..];
    } else {
      w := [];
    }
  }

  /** `TrimEnd` removes a suffix of white space. */
  lemma {:induction false} TrimEndSplit(s: string) returns (w: string)
    ensures AllWhite(w) && s == TrimEnd(s) + w
    decreases |s|
  {
    if |s| > 0 && IsWhite(s[|s| - 1]) {
      var w' := TrimEndSplit(s[..|s| - 1]);
      w := w' + [s[|s| - 1]];
      assert s == s[..|s| - 1] + [s[|s| - 1]];
    } else {
      w := [];
    }
  }

  /** A text of integer shape parses to the value it spells, or overflows
      when that value is outside the range of `int`. */
  lemma ShapeParses(s: string, w1: string, sign: string, d: string, w2: string)
    requires IntegerShape(s, w1, sign, d, w2)
    ensures var v := SignedValue(sign, d);
      ToInt32(Some(s)) == if MinInt32 <= v <= MaxInt32 then Returned(v as int32) else Raised(OverflowException)
  {
    var t := sign + d;
    assert s == w1 + (t + w2);
    assert |t| > 0 && !IsWhite(t[0]) && !IsWhite(t[|t| - 1]);
    TrimStartSkips(w1, t + w2);
    TrimStartKeeps(t + w2);
    TrimEndSkips(t, w2);
    TrimEndKeeps(t);
    assert TrimEnd(TrimStart(s)) == t;
    if sign == "" {
      assert t == d;
    } else {
      assert t[1..] == d;
    }
  }

  lemma ParsedDigits(s: string)
    requires ToInt32(Some(s)) != Raised(FormatException)
    ensures var d := DigitPart(TrimEnd(TrimStart(s))); |d| > 0 && AllDigits(d)
  {
  }

  /** A text that does not raise `FormatException` has integer shape. */
  lemma ParsedShape(s: string) returns (w1: string, sign: string, d: string, w2: string)
    requires ToInt32(Some(s)) != Raised(FormatException)
    ensures IntegerShape(s, w1, sign, d, w2)
  {
    var u := TrimStart(s);
    var t := TrimEnd(u);
    w1 := TrimStartSplit(s);
    w2 := TrimEndSplit(u);
    ParsedDigits(s);
    d := DigitPart(t);
    sign := SignSplit(t);
    Regroup(s, w1, u, t, w2, sign, d);
  }

  /** The sign `DigitPart` cuts off. */
  lemma SignSplit(t: string) returns (sign: string)
    ensures IsSign(sign) && t == sign + DigitPart(t)
  {
    if |t| > 0 && (t[0] == '-' || t[0] == '+') {
      sign := if t[0] == '-' then "-" else "+";
      assert t == [t[0]] + t[1..];
    } else {
      sign := "";
    }
  }

  lemma Regroup(s: string, w1: string, u: string, t: string, w2: string, sign: string, d: string)
    requires s == w1 + u && u == t + w2 && t == sign + d
    ensures s == w1 + sign + d + w2
  {
  }

  /** `Convert.ToInt32` returns `n` exactly for the texts made of white
      space, an optional sign, decimal digits (leading zeros included)
      that spell `n`, and white space. */
  lemma IntegerTextParses(s: string, n: int32)
    ensures ToInt32(Some(s)) == Returned(n) <==>
      exists w1, sign, d, w2 :: IntegerShape(s, w1, sign, d, w2) && SignedValue(sign, d) == n as int
  {
    if ToInt32(Some(s)) == Returned(n) {
      var w1, sign, d, w2 := ParsedShape(s);
      ShapeParses(s, w1, sign, d, w2);
    }
    if exists w1, sign, d, w2 :: IntegerShape(s, w1, sign, d, w2) && SignedValue(sign, d) == n as int {
      var w1, sign, d, w2 :| IntegerShape(s, w1, sign, d, w2) && SignedValue(sign, d) == n as int;
      ShapeParses(s, w1, sign, d, w2);
    }
  }

  /** `Convert.ToInt32` raises `OverflowException` exactly for the texts
      of integer shape whose value is outside the range of `int`. */
  lemma IntegerTextOverflows(s: string)
    ensures ToInt32(Some(s)) == Raised(OverflowException) <==>
      exists w1, sign, d, w2 :: IntegerShape(s, w1, sign, d, w2) && !(MinInt32 <= SignedValue(sign, d) <= MaxInt32)
  {
    if ToInt32(Some(s)) == Raised(OverflowException) {
      var w1, sign, d, w2 := ParsedShape(s);
      ShapeParses(s, w1, sign, d, w2);
    }
    if exists w1, sign, d, w2 :: IntegerShape(s, w1, sign, d, w2) && !(MinInt32 <= SignedValue(sign, d) <= MaxInt32) {
      var w1, sign, d, w2 :| IntegerShape(s, w1, sign, d, w2) && !(MinInt32 <= SignedValue(sign, d) <= MaxInt32);
      ShapeParses(s, w1, sign, d, w2);
    }
  }

  /** `Convert.ToInt32` raises `FormatException` exactly for the texts
      that do not have integer shape ("12abc", "- 5", "", ...). */
  lemma OtherTextIsFormatError(s: string)
    ensures ToInt32(Some(s)) == Raised(FormatException) <==>
      forall w1, sign, d, w2 :: !IntegerShape(s, w1, sign, d, w2)
  {
    if ToInt32(Some(s)) == Raised(FormatException) {
      forall w1, sign, d, w2 ensures !IntegerShape(s, w1, sign, d, w2) {
        if IntegerShape(s, w1, sign, d, w2) {
          ShapeParses(s, w1, sign, d, w2);
        }
      }
    } else {
      var w1, sign, d, w2 := ParsedShape(s);
    }
  }

  // ---------------------------------------------------------------------
  // Channel handlers

  /** A `ConsentMessenger.Broadcast<T>(args)` call, with `T`'s type name. */
  datatype BroadcastCall = BroadcastCall(typeName: string, args: seq<Obj>)

  /** A `string` passed as one `params object[]` argument. */
  function StringArg(s: Option<string>): Obj {
    if s.Some? then StringObj(s.value) else NullObj
  }

  function OnConsentReady(message: Option<string>): (c: BroadcastCall)
    ensures c.args == []
  {
    BroadcastCall("IOnConsentMessageReady", [])
  }

  function OnConsentUIReady(message: Option<string>): (c: BroadcastCall)
    ensures c.args == [StringArg(message)]
  {
    BroadcastCall("IOnConsentUIReadyEventHandler", [StringArg(message)])
  }

  /** The message is the action type's number; a malformed message escapes
      as the exception `Convert.ToInt32` throws. */
  function OnConsentAction(message: Option<string>): (r: Completion<BroadcastCall>)
    ensures r.Returned? <==> ToInt32(message).Returned?
    ensures r.Returned? ==> r.value.args == [ActionTypeObj(ToInt32(message).value)]
    ensures r.Raised? ==> r.error == ToInt32(message).error
  {
    match ToInt32(message)
    case Raised(e) => Raised(e)
    case Returned(n) => Returned(BroadcastCall("IOnConsentActionEventHandler", [ActionTypeObj(n)]))
  }

  function OnConsentUIFinished(message: Option<string>): (c: BroadcastCall)
    ensures c.args == []
  {
    BroadcastCall("IOnConsentUIFinishedEventHandler", [])
  }

  function OnErrorCallback(jsonError: Option<string>): (c: BroadcastCall)
    ensures c.args == [ExceptionObj(ExceptionObject(jsonError))]
  {
    BroadcastCall("IOnConsentErrorEventHandler", [ExceptionObj(ExceptionObject(jsonError))])
  }

  /** What `Broadcast` does with a call. */
  function Deliver(c: BroadcastCall): BroadcastResult {
    Broadcast(c.typeName, c.args)
  }

  /** None of the type names the iOS handlers broadcast under is a case of
      `Broadcast`'s switch, so every iOS event is dropped without a
      dispatch or an error. */
  lemma IosEventsAreDropped(message: Option<string>)
    ensures Deliver(OnConsentReady(message)) == Dropped
    ensures Deliver(OnConsentUIReady(message)) == Dropped
    ensures Deliver(OnConsentUIFinished(message)) == Dropped
    ensures Deliver(OnErrorCallback(message)) == Dropped
    ensures OnConsentAction(message).Returned? ==> Deliver(OnConsentAction(message).value) == Dropped
  {
  }

  /** Under the name `Broadcast` knows, the error event would reach the
      error handlers with the raw message, while the action event would
      still fail: its argument is a boxed action type, not an `SpAction`
      (a class, which no boxed enumeration value casts to). */
  lemma IosPayloadsUnderKnownNames(message: Option<string>)
    ensures Broadcast(NameOf(ConsentError), OnErrorCallback(message).args)
         == Dispatched(Execute(ConsentError, None, OnConsentError(Some(ExceptionObject(message)))))
    ensures OnConsentAction(message).Returned? ==>
      Broadcast(NameOf(ConsentAction), OnConsentAction(message).value.args) == Failed(InvalidCastException)
  {
  }

  /** The action type broadcast is the number the message spells; a null
      message is action type 0; a message without digits throws. */
  lemma ActionTypeFromMessage(n: int32, s: string)
    ensures OnConsentAction(Some(Int32Text(n))) == Returned(BroadcastCall("IOnConsentActionEventHandler", [ActionTypeObj(n)]))
    ensures OnConsentAction(None) == Returned(BroadcastCall("IOnConsentActionEventHandler", [ActionTypeObj(0)]))
    ensures (forall i | 0 <= i < |s| :: !IsDigit(s[i])) ==> OnConsentAction(Some(s)) == Raised(FormatException)
    ensures forall w1, sign, d, w2 | IntegerShape(s, w1, sign, d, w2) ::
      OnConsentAction(Some(s)) ==
        if MinInt32 <= SignedValue(sign, d) <= MaxInt32
        then Returned(BroadcastCall("IOnConsentActionEventHandler", [ActionTypeObj(SignedValue(sign, d) as int32)]))
        else Raised(OverflowException)
    ensures (forall w1, sign, d, w2 :: !IntegerShape(s, w1, sign, d, w2)) ==> OnConsentAction(Some(s)) == Raised(FormatException)
  {
    forall w1, sign, d, w2 | IntegerShape(s, w1, sign, d, w2) {
      ShapeParses(s, w1, sign, d, w2);
    }
    OtherTextIsFormatError(s);
    Int32TextRoundTrip(n, "", "");
    assert "" + Int32Text(n) + "" == Int32Text(n);
    if forall i | 0 <= i < |s| :: !IsDigit(s[i]) {
      NoDigitIsFormatError(s);
    }
  }

  // ---------------------------------------------------------------------
  // The custom consent callback

  /** An `Action<SpGdprConsent>` delegate, by identity. */
  datatype ActionRef = ActionRef(id: nat)

  /** The value the `try` block hands to the success action: it throws when
      the deserialiser or the unwrapper throws, is null when either returns
      null, and is the unwrapped consent otherwise. */
  function TryValue<W>(json: Option<string>, deserialize: Option<string> -> Parsed<W>, unwrap: W -> Parsed<SpGdprConsent>): Parsed<SpGdprConsent> {
    match deserialize(json)
    case ParseThrows => ParseThrows
    case ParseNull => ParseNull
    case ParseOk(w) => unwrap(w)
  }

  /** What one `OnCustomConsentGDPRCallback` does: the arguments of the
      success action's invocations, in order, and how the method ends. */
  datatype CustomConsentOutcome = CustomConsentOutcome(delivered: seq<Option<SpGdprConsent>>, exit: Exit)

  /** `OnCustomConsentGDPRCallback(json)` when a success action is set or
      not; `throwsAt(k)` says whether the action's `k`-th invocation within
      this call throws. */
  function CustomConsentSpec<W>(hasAction: bool, json: Option<string>, deserialize: Option<string> -> Parsed<W>,
    unwrap: W -> Parsed<SpGdprConsent>, throwsAt: nat -> bool): CustomConsentOutcome
  {
    var v := TryValue(json, deserialize, unwrap);
    if !hasAction then CustomConsentOutcome([], Normal)
    else if v.ParseThrows? then
      // the catch block
      CustomConsentOutcome([None], if throwsAt(0) then Thrown(HandlerException) else Normal)
    else
      var first := if v.ParseOk? then Some(v.value) else None;
      if !throwsAt(0) then CustomConsentOutcome([first], Normal)
      else
        // the action threw inside the try: the catch block invokes it again
        CustomConsentOutcome([first, None], if throwsAt(1) then Thrown(HandlerException) else Normal)
  }

  class ListenerHelper {
    var successAction: Option<ActionRef>
    /** Every invocation of a success action, with its argument, in order. */
    var invocations: seq<(ActionRef, Option<SpGdprConsent>)>

    constructor()
      ensures successAction == None && invocations == []
    {
      successAction := None;
      invocations := [];
    }

    /** `SetCustomConsentsGDPRSuccessAction`: the new action replaces the
        old one. */
    method SetCustomConsentsGDPRSuccessAction(action: Option<ActionRef>)
      modifies this
      ensures successAction == action
      ensures invocations == old(invocations)
    {
      successAction := action;
    }

    /** `onCustomConsentsGDPRSuccessAction?.Invoke(arg)` with an action set. */
    method InvokeSuccessAction(arg: Option<SpGdprConsent>, throws: bool) returns (exit: Exit)
      requires successAction.Some?
      modifies this
      ensures successAction == old(successAction)
      ensures invocations == old(invocations) + [(successAction.value, arg)]
      ensures exit == (if throws then Thrown(HandlerException) else Normal)
    {
      invocations := invocations + [(successAction.value, arg)];
      exit := if throws then Thrown(HandlerException) else Normal;
    }

    /** `OnCustomConsentGDPRCallback`: every invocation goes to the action
        set at the time of the call. */
    method OnCustomConsentGDPRCallback<W>(json: Option<string>, deserialize: Option<string> -> Parsed<W>,
      unwrap: W -> Parsed<SpGdprConsent>, throwsAt: nat -> bool) returns (exit: Exit)
      modifies this
      ensures var o := CustomConsentSpec(successAction.Some?, json, deserialize, unwrap, throwsAt);
        && successAction == old(successAction)
        && |invocations| == |old(invocations)| + |o.delivered|
        && invocations[..|old(invocations)|] == old(invocations)
        && (forall k | 0 <= k < |o.delivered| :: invocations[|old(invocations)| + k] == (successAction.value, o.delivered[k]))
        && exit == o.exit
    {
      exit := Normal;
      if successAction.None? {
        return;
      }
      // try
      var v := TryValue(json, deserialize, unwrap);
      if v.ParseThrows? {
        // catch
        exit := InvokeSuccessAction(None, throwsAt(0));
        return;
      }
      var first := if v.ParseOk? then Some(v.value) else None;
      exit := InvokeSuccessAction(first, throwsAt(0));
      if exit.Thrown? {
        // catch
        exit := InvokeSuccessAction(None, throwsAt(1));
      }
    }
  }

  // ---------------------------------------------------------------------
  // Properties of the custom consent callback

  /** With no success action set, nothing is invoked on any path and the
      parser's exceptions are swallowed. */
  lemma NoActionInvokesNothing<W>(json: Option<string>, deserialize: Option<string> -> Parsed<W>,
    unwrap: W -> Parsed<SpGdprConsent>, throwsAt: nat -> bool)
    ensures CustomConsentSpec(false, json, deserialize, unwrap, throwsAt) == CustomConsentOutcome([], Normal)
  {
  }

  /** When deserialising returns null, or deserialising or unwrapping
      throws, the action's first invocation receives null. */
  lemma FailureDeliversNull<W>(json: Option<string>, deserialize: Option<string> -> Parsed<W>,
    unwrap: W -> Parsed<SpGdprConsent>, throwsAt: nat -> bool)
    requires deserialize(json).ParseNull? || deserialize(json).ParseThrows?
          || (deserialize(json).ParseOk? && unwrap(deserialize(json).value).ParseThrows?)
    ensures var o := CustomConsentSpec(true, json, deserialize, unwrap, throwsAt);
      |o.delivered| > 0 && o.delivered[0] == None
  {
  }

  /** On success the action receives the unwrapped consent, once. */
  lemma SuccessDeliversUnwrapped<W>(json: Option<string>, deserialize: Option<string> -> Parsed<W>,
    unwrap: W -> Parsed<SpGdprConsent>, throwsAt: nat -> bool)
    requires deserialize(json).ParseOk? && unwrap(deserialize(json).value).ParseOk?
    requires !throwsAt(0)
    ensures CustomConsentSpec(true, json, deserialize, unwrap, throwsAt)
         == CustomConsentOutcome([Some(unwrap(deserialize(json).value).value)], Normal)
  {
  }

  /** An action that throws on a value from the `try` block is invoked a
      second time, with null, by the `catch` block; only an exception from
      that second invocation escapes. */
  lemma ThrowingActionIsCalledAgainWithNull<W>(json: Option<string>, deserialize: Option<string> -> Parsed<W>,
    unwrap: W -> Parsed<SpGdprConsent>, throwsAt: nat -> bool)
    requires !TryValue(json, deserialize, unwrap).ParseThrows? && throwsAt(0)
    ensures var o := CustomConsentSpec(true, json, deserialize, unwrap, throwsAt);
      && |o.delivered| == 2
      && o.delivered[0] == (if TryValue(json, deserialize, unwrap).ParseOk? then Some(TryValue(json, deserialize, unwrap).value) else None)
      && o.delivered[1] == None
      && (o.exit.Thrown? <==> throwsAt(1))
  {
  }

  /** Every call invokes the action once or twice, a second invocation
      always with null, and the call throws only when the action's last
      invocation threw. */
  lemma AtMostTwice<W>(json: Option<string>, deserialize: Option<string> -> Parsed<W>,
    unwrap: W -> Parsed<SpGdprConsent>, throwsAt: nat -> bool)
    ensures var o := CustomConsentSpec(true, json, deserialize, unwrap, throwsAt);
      && 1 <= |o.delivered| <= 2
      && (|o.delivered| == 2 ==> o.delivered[1] == None && throwsAt(0))
      && (o.exit.Thrown? <==> throwsAt(|o.delivered| - 1))
  {
  }
}
