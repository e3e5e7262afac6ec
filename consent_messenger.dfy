/** `ConsentMessenger`: listener registration forwarding and the closed
    switch of `Broadcast<T>` from the handler interface's type name to one
    typed dispatch for all receivers of that interface.

    `BroadcastReceivers` and `BroadcastEventDispatcher` are not part of
    this model: a registration is the call forwarded to the registry, and a
    dispatch is the `Execute` call that enqueues delivery. */
module Messenger {
  import opened Common
  import opened ConsentData

  // ---------------------------------------------------------------------
  // Handler interfaces and the objects passed through `params object[]`

  /** The handler interfaces `Broadcast` knows, and any other type name. */
  datatype Kind =
    | ConsentReady
    | ConsentAction
    | ConsentError
    | ConsentUIReady
    | ConsentUIFinished
    | ConsentSpFinished
    | Unknown(name: string)

  /** `nameof(...)` of each handler interface. */
  function NameOf(k: Kind): string {
    match k
    case ConsentReady => "IOnConsentReady"
    case ConsentAction => "IOnConsentAction"
    case ConsentError => "IOnConsentError"
    case ConsentUIReady => "IOnConsentUIReady"
    case ConsentUIFinished => "IOnConsentUIFinished"
    case ConsentSpFinished => "IOnConsentSpFinished"
    case Unknown(name) => name
  }

  /** Which case of the switch `typeof(T).Name` selects. */
  function KindOf(typeName: string): Kind {
    if typeName == "IOnConsentReady" then ConsentReady
    else if typeName == "IOnConsentAction" then ConsentAction
    else if typeName == "IOnConsentError" then ConsentError
    else if typeName == "IOnConsentUIReady" then ConsentUIReady
    else if typeName == "IOnConsentUIFinished" then ConsentUIFinished
    else if typeName == "IOnConsentSpFinished" then ConsentSpFinished
    else Unknown(typeName)
  }

  /** A kind that names one of the six interfaces, never a known name
      disguised as `Unknown`. */
  predicate Canonical(k: Kind) {
    k.Unknown? ==> KindOf(k.name) == k
  }

  /** The kinds whose handler takes `list[0]` as its argument. */
  predicate TakesPayload(k: Kind) {
    k.ConsentReady? || k.ConsentAction? || k.ConsentError? || k.ConsentSpFinished?
  }

  /** `SpAction`; its fields are not part of this model. */
  datatype SpAction = SpAction(handle: nat)

  /** A `System.Exception` object: the message given to its constructor. */
  datatype ExceptionObject = ExceptionObject(message: Option<string>)

  /** An element of `params object[] list`. */
  datatype Obj =
    | NullObj
    | ConsentsObj(consents: SpConsents)
    | ActionObj(action: SpAction)
    | ExceptionObj(exception: ExceptionObject)
    | StringObj(text: string)
    | ActionTypeObj(ordinal: int32)  // a boxed `CONSENT_ACTION_TYPE`

  /** The handler calls that `Execute` delivers; a null payload is `None`. */
  datatype Event =
    | OnConsentReady(consents: Option<SpConsents>)
    | OnConsentAction(action: Option<SpAction>)
    | OnConsentError(exception: Option<ExceptionObject>)
    | OnConsentUIReady
    | OnConsentUIFinished
    | OnConsentSpFinished(spConsents: Option<SpConsents>)

  /** The interface whose method an event calls. */
  function EventKind(e: Event): Kind {
    match e
    case OnConsentReady(_) => ConsentReady
    case OnConsentAction(_) => ConsentAction
    case OnConsentError(_) => ConsentError
    case OnConsentUIReady => ConsentUIReady
    case OnConsentUIFinished => ConsentUIFinished
    case OnConsentSpFinished(_) => ConsentSpFinished
  }

  /** The argument of the handler call, boxed back into an object. */
  function PayloadObj(e: Event): Option<Obj> {
    match e
    case OnConsentReady(c) => Some(if c.Some? then ConsentsObj(c.value) else NullObj)
    case OnConsentAction(a) => Some(if a.Some? then ActionObj(a.value) else NullObj)
    case OnConsentError(x) => Some(if x.Some? then ExceptionObj(x.value) else NullObj)
    case OnConsentUIReady => None
    case OnConsentUIFinished => None
    case OnConsentSpFinished(c) => Some(if c.Some? then ConsentsObj(c.value) else NullObj)
  }

  /** A Unity `GameObject`, by identity. */
  datatype GameObjectRef = GameObjectRef(id: nat)

  /** `BroadcastEventDispatcher.Execute<T>(target, handler)`; a `None`
      target is the `null` that addresses every receiver of `T`. */
  datatype Dispatch = Execute(handler: Kind, target: Option<GameObjectRef>, event: Event)

  /** How one `Broadcast<T>` call ends. */
  datatype BroadcastResult =
    | Dispatched(dispatch: Dispatch)
    | Dropped                        // no case of the switch matched
    | Failed(error: Exception)       // `list[0]` or its cast threw

  // ---------------------------------------------------------------------
  // Casts of `list[0]`

  function CastConsents(o: Obj): Completion<Option<SpConsents>> {
    match o
    case NullObj => Returned(None)
    case ConsentsObj(c) => Returned(Some(c))
    case _ => Raised(InvalidCastException)
  }

  function CastAction(o: Obj): Completion<Option<SpAction>> {
    match o
    case NullObj => Returned(None)
    case ActionObj(a) => Returned(Some(a))
    case _ => Raised(InvalidCastException)
  }

  function CastException(o: Obj): Completion<Option<ExceptionObject>> {
    match o
    case NullObj => Returned(None)
    case ExceptionObj(x) => Returned(Some(x))
    case _ => Raised(InvalidCastException)
  }

  /** Whether `(P)o` succeeds for the payload type `P` of kind `k`. */
  predicate FitsPayload(k: Kind, o: Obj)
    requires TakesPayload(k)
  {
    match k
    case ConsentAction => o.NullObj? || o.ActionObj?
    case ConsentError => o.NullObj? || o.ExceptionObj?
    case _ => o.NullObj? || o.ConsentsObj?
  }

  // ---------------------------------------------------------------------
  // Operations

  /** `ConsentMessenger.Broadcast<T>(params object[] list)` with
      `typeof(T).Name == typeName`. */
  function Broadcast(typeName: string, list: seq<Obj>): (r: BroadcastResult)
    ensures r.Dropped? <==> KindOf(typeName).Unknown?
    ensures r.Dispatched? ==>
      && r.dispatch.handler == KindOf(typeName)
      && r.dispatch.target == None
      && EventKind(r.dispatch.event) == r.dispatch.handler
    ensures r.Failed? ==> TakesPayload(KindOf(typeName)) && r.error in {IndexOutOfRangeException, InvalidCastException}
  {
    var k := KindOf(typeName);
    match k
    case ConsentUIReady => Dispatched(Execute(k, None, OnConsentUIReady))
    case ConsentUIFinished => Dispatched(Execute(k, None, OnConsentUIFinished))
    case Unknown(_) => Dropped
    case ConsentReady =>
      if |list| == 0 then Failed(IndexOutOfRangeException)
      else
        match CastConsents(list[0]) {
          case Raised(e) => Failed(e)
          case Returned(c) => Dispatched(Execute(k, None, OnConsentReady(c)))
        }
    case ConsentAction =>
      if |list| == 0 then Failed(IndexOutOfRangeException)
      else
        match CastAction(list[0]) {
          case Raised(e) => Failed(e)
          case Returned(a) => Dispatched(Execute(k, None, OnConsentAction(a)))
        }
    case ConsentError =>
      if |list| == 0 then Failed(IndexOutOfRangeException)
      else
        match CastException(list[0]) {
          case Raised(e) => Failed(e)
          case Returned(x) => Dispatched(Execute(k, None, OnConsentError(x)))
        }
    case ConsentSpFinished =>
      if |list| == 0 then Failed(IndexOutOfRangeException)
      else
        match CastConsents(list[0]) {
          case Raised(e) => Failed(e)
          case Returned(c) => Dispatched(Execute(k, None, OnConsentSpFinished(c)))
        }
  }

  /** The call `AddListener<T>` / `RemoveListener<T>` forwards to
      `BroadcastReceivers`. */
  datatype RegistryCall =
    | RegisterBroadcastReceiver(typeName: string, go: Option<GameObjectRef>)
    | UnregisterBroadcastReceiver(typeName: string, go: Option<GameObjectRef>)

  function AddListener(typeName: string, go: Option<GameObjectRef>): (c: RegistryCall)
    ensures c.RegisterBroadcastReceiver? && c.typeName == typeName && c.go == go
  {
    RegisterBroadcastReceiver(typeName, go)
  }

  function RemoveListener(typeName: string, go: Option<GameObjectRef>): (c: RegistryCall)
    ensures c.UnregisterBroadcastReceiver? && c.typeName == typeName && c.go == go
  {
    UnregisterBroadcastReceiver(typeName, go)
  }

  /** The registry call that undoes another. */
  function Undo(c: RegistryCall): RegistryCall {
    match c
    case RegisterBroadcastReceiver(t, g) => UnregisterBroadcastReceiver(t, g)
    case UnregisterBroadcastReceiver(t, g) => RegisterBroadcastReceiver(t, g)
  }

  // ---------------------------------------------------------------------
  // Properties

  /** The switch is a bijection between the six interface names and the
      six recognised kinds; every other name is its own `Unknown`. */
  lemma NamesRoundTrip(k: Kind, typeName: string)
    ensures Canonical(k) ==> KindOf(NameOf(k)) == k
    ensures NameOf(KindOf(typeName)) == typeName
    ensures Canonical(KindOf(typeName))
  {
  }

  /** Each recognised interface name yields exactly one dispatch to that
      same interface, addressed to all receivers, as soon as `list[0]` has
      the payload type (or is null); the two UI kinds dispatch whatever the
      list holds, even when it is empty. */
  lemma RecognisedNamesDispatch(k: Kind, list: seq<Obj>)
    requires !k.Unknown?
    requires TakesPayload(k) ==> |list| > 0 && FitsPayload(k, list[0])
    ensures var r := Broadcast(NameOf(k), list);
      r.Dispatched? && r.dispatch.handler == k && r.dispatch.target == None
  {
  }

  /** The handler of a payload kind receives `list[0]` itself, and a
      payload kind fails exactly when the list is empty (index out of range)
      or `list[0]` has another type (invalid cast). */
  lemma PayloadIsFirstArgument(typeName: string, list: seq<Obj>)
    requires TakesPayload(KindOf(typeName))
    ensures var r := Broadcast(typeName, list);
      && (r.Dispatched? ==> PayloadObj(r.dispatch.event) == Some(list[0]))
      && (r.Failed? <==> |list| == 0 || !FitsPayload(KindOf(typeName), list[0]))
      && (|list| == 0 ==> r == Failed(IndexOutOfRangeException))
  {
  }

  /** The UI kinds ignore the argument list entirely and never fail. */
  lemma UiKindsIgnoreArguments(typeName: string, list: seq<Obj>, other: seq<Obj>)
    requires KindOf(typeName) == ConsentUIReady || KindOf(typeName) == ConsentUIFinished
    ensures Broadcast(typeName, list) == Broadcast(typeName, other)
    ensures Broadcast(typeName, list).Dispatched?
    ensures PayloadObj(Broadcast(typeName, list).dispatch.event) == None
  {
  }

  /** An unrecognised name dispatches nothing and raises nothing, whatever
      the arguments. */
  lemma UnknownNamesAreDropped(typeName: string, list: seq<Obj>)
    requires typeName !in {"IOnConsentReady", "IOnConsentAction", "IOnConsentError",
                           "IOnConsentUIReady", "IOnConsentUIFinished", "IOnConsentSpFinished"}
    ensures Broadcast(typeName, list) == Dropped
  {
  }

  /** `RemoveListener` forwards the registration `AddListener` made, for
      the same interface and object. */
  lemma RemoveUndoesAdd(typeName: string, go: Option<GameObjectRef>)
    ensures RemoveListener(typeName, go) == Undo(AddListener(typeName, go))
    ensures Undo(RemoveListener(typeName, go)) == AddListener(typeName, go)
  {
  }
}
