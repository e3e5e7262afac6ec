# Sourcepoint CMP Unity SDK: a verified model of the core

This project models the C# core of the Sourcepoint consent-management SDK for Unity and proves properties of that model. The core has six parts:

- **`CMP`**, the static facade (module `Facade`, `cmp.dfy`):
  - It validates the campaign list and, on Android, removes IOS14 campaigns from it.
  - It creates the main-thread executor object at most once.
  - It forwards each operation to the native wrapper that the compiled build target and the runtime platform select.
  - On Android it converts the message timeout from seconds to milliseconds, with 64-bit wrap-around.
- **`BroadcastEventsExecutor.Update`** (module `Executor`, `broadcast_events_executor.dfy`): it drains the shared queue of deferred actions on the main thread. It dequeues one entry at a time and invokes it, skipping null entries, until the queue is empty or an action throws.
- **`ConsentMessenger`** (module `Messenger`, `consent_messenger.dfy`):
  - `Broadcast<T>` switches on the handler interface's type name. It casts `list[0]` to the interface's payload type and makes one dispatch for all receivers.
  - `AddListener` and `RemoveListener` forward a registration.
- **The Android `CustomConsentClient`** (module `AndroidCustomConsent`, `custom_consent_client.dfy`): `transferCustomConsentToUnity` runs a `try`/`catch`/`finally`. It unwraps the JSON, stores the GDPR consent and hands it (or null) to the callback.
- **`CMPiOSListenerHelper`** (module `IosListener`, `cmp_ios_listener_helper.dfy`):
  - Each channel handler turns a native message into a `Broadcast` call. This includes `Convert.ToInt32` of the action message, with its white-space, sign, format and overflow rules.
  - The custom consent callback hands the unwrapped consent (or null) to the success action. It calls that action a second time, with null, when the first call throws.
- **`GdprConsent.ToFullString`** (module `GdprConsentModel`, `gdpr_consent.dfy`):
  - `Lines` specifies the lines it appends, in order, and `Join` the text a `StringBuilder` holds after `AppendLine` of each line.
  - The method `ToFullString` builds that text with the source's nested loops.
  - The consent records that the callbacks and `Broadcast` carry (`SpGdprConsent`, `SpCcpaConsent`, `SpConsents`) are values in module `ConsentData` (`sp_consents.dfy`).

`common.dfy` (module `Common`) holds the shared pieces:

- `Option`;
- the three-way result of an unwrapper (`Parsed`: it throws, returns null, or returns a value);
- the exceptions the core can raise;
- `int32` and `int64`, and `WrapInt64`, the two's-complement wrap-around of a C# `long` multiplication.

### How the model is set up

The model takes the source's own form:

- **State changed in place becomes a class.** These are the dispatcher queue, the client's stored consent, the listener helper's success action, the facade's static executor reference, and the caller's `List<SpCampaign>`, which `RemoveIos14SpCampaign` changes through `ref`. Each method that updates one has a `modifies` clause, and its `ensures` ties the new state to a specification function of the old state and the inputs.
- **Loops become `while` loops with invariants.** These are the drain, the removal of IOS14 campaigns, and the `foreach` loops of `ToFullString`. Each is proved against its specification function.
- **The rest is functions and lemmas.** This covers the switch, the forwards, the parsers and the channel handlers.

### Behaviour of the drain and the facade

- Actions enqueued while `Update` drains the queue run in the same `Update`, after every entry queued before them (`Executor.DrainedRunsEverything`, `Executor.ReentrantActionRunsInSameUpdate`).
- No action is guarded: an action's exception ends `Update` and leaves the later entries queued (`Executor.ThrowLeavesLaterActionsQueued`).
- `CMP` keeps no lifecycle state: every forward consults only the build target and the runtime platform. The only state the facade keeps is whether the executor object exists.

### A property of the iOS channel handlers

The iOS handlers broadcast under these interface names:

- `IOnConsentMessageReady`
- `IOnConsentUIReadyEventHandler`
- `IOnConsentActionEventHandler`
- `IOnConsentUIFinishedEventHandler`
- `IOnConsentErrorEventHandler`

None of these is a case of `Broadcast`'s switch, so every iOS event is dropped (`IosListener.IosEventsAreDropped`). `IosListener.IosPayloadsUnderKnownNames` shows what would happen under the names the switch does know:
- The error payload would reach the error handlers.
- The action payload, a boxed `CONSENT_ACTION_TYPE`, would still fail the cast to `SpAction`, taking `SpAction` to be a class (see "## Left out").

The intended names cannot be read off the code, so this is a proved property of the code as written rather than a corrected definition.

## Model

Paths are relative to the repository root.

| member | source | states |
|---|---|---|
| Executor.Drain | Assets/ConsentManagementProvider/Scripts/observer/BroadcastEventsExecutor.cs:13-19 | At most `fuel` actions are invoked. When the drain ends normally the queue is empty. Running out of fuel means exactly `fuel` invocations were made. |
| Executor.Update | Assets/ConsentManagementProvider/Scripts/observer/BroadcastEventsExecutor.cs:13-19 | The loop leaves the queue as `Drain`'s rest and extends the invocation history by `Drain`'s invocations, in order. It ends as `Drain` ends: emptied, at the action that threw, or out of fuel. |
| Executor.DrainConservation | Assets/ConsentManagementProvider/Scripts/observer/BroadcastEventsExecutor.cs:15-17 | Nothing is lost or run twice. The entries queued at the start, followed by everything the invoked actions enqueued, are exactly the invoked actions (in invocation order) followed by what is still queued. Null entries are dropped from both sides. |
| Executor.DrainedRunsEverything | Assets/ConsentManagementProvider/Scripts/observer/BroadcastEventsExecutor.cs:15-17 | When `Update` returns normally, the queue is empty. The invoked actions are the initially queued ones followed by everything they enqueued, in FIFO order. |
| Executor.StopsAtFirstThrow | Assets/ConsentManagementProvider/Scripts/observer/BroadcastEventsExecutor.cs:17 | Every invoked action except possibly the last returned normally. A throwing drain ends with the action that threw. A drain that empties the queue had no throwing action. |
| Executor.FirstActionThrows | Assets/ConsentManagementProvider/Scripts/observer/BroadcastEventsExecutor.cs:15-17 | When the first action throws, `Update` stops after it. The later entries stay queued, followed by whatever the action enqueued before throwing. |
| Executor.ThrowLeavesLaterActionsQueued | Assets/ConsentManagementProvider/Scripts/observer/BroadcastEventsExecutor.cs:15-17 | When no action enqueues and the drain stops on a throw, the invoked actions are a prefix of the queued ones and end with the one that threw. The remaining suffix is still queued, in order. |
| Executor.FifoWithoutReentry | Assets/ConsentManagementProvider/Scripts/observer/BroadcastEventsExecutor.cs:15-17 | Assume actions neither enqueue nor throw, and there is enough fuel. Then exactly the non-null entries are invoked, in queue order, and the queue is left empty. |
| Executor.ReentrantActionRunsInSameUpdate | Assets/ConsentManagementProvider/Scripts/observer/BroadcastEventsExecutor.cs:15-17 | When `Update` empties the queue, the entries the `i`-th invoked action enqueued are invoked in the same `Update`. They run right after the entries queued before the drain and everything the first `i` invoked actions enqueued, and before what the later invoked actions enqueue. |
| Executor.EmptyQueueDoesNothing | Assets/ConsentManagementProvider/Scripts/observer/BroadcastEventsExecutor.cs:15 | An empty queue invokes nothing. |
| Executor.Dispatcher.constructor | Assets/ConsentManagementProvider/Scripts/observer/BroadcastEventsExecutor.cs:15 | A dispatcher holds the given queue and no invocation history. |
| Messenger.Broadcast | Assets/ConsentManagementProvider/Scripts/observer/ConsentMessenger.cs:20-48 | An unknown type name is dropped, and only an unknown one. A dispatch goes to the interface the name selects, addressed to all receivers (null target), with an event of that interface. A failure happens only for a payload interface, and is an index-out-of-range or invalid-cast exception. |
| Messenger.NamesRoundTrip | Assets/ConsentManagementProvider/Scripts/observer/ConsentMessenger.cs:23-46 | The switch's case names and the six interfaces are in one-to-one correspondence. Every other name maps to itself as unknown. |
| Messenger.RecognisedNamesDispatch | Assets/ConsentManagementProvider/Scripts/observer/ConsentMessenger.cs:25-46 | A recognised name dispatches exactly once to its own interface, addressed to all receivers, when `list[0]` has the payload type or is null. The UI interfaces dispatch whatever the list holds. |
| Messenger.PayloadIsFirstArgument | Assets/ConsentManagementProvider/Scripts/observer/ConsentMessenger.cs:25-36 | A payload interface's handler receives `list[0]` itself. The call fails exactly when the list is empty (index out of range) or `list[0]` has another type (invalid cast). |
| Messenger.UiKindsIgnoreArguments | Assets/ConsentManagementProvider/Scripts/observer/ConsentMessenger.cs:37-42 | `IOnConsentUIReady` and `IOnConsentUIFinished` dispatch a handler call without an argument. The result is the same for every argument list and never fails. |
| Messenger.UnknownNamesAreDropped | Assets/ConsentManagementProvider/Scripts/observer/ConsentMessenger.cs:20-48 | A name outside the six cases dispatches nothing and raises nothing, whatever the arguments. |
| Messenger.AddListener | Assets/ConsentManagementProvider/Scripts/observer/ConsentMessenger.cs:10-13 | Registers the given object for the given interface, unchanged. |
| Messenger.RemoveListener | Assets/ConsentManagementProvider/Scripts/observer/ConsentMessenger.cs:15-18 | Unregisters the given object for the given interface, unchanged. |
| Messenger.RemoveUndoesAdd | Assets/ConsentManagementProvider/Scripts/observer/ConsentMessenger.cs:10-18 | `RemoveListener` forwards the inverse of the registration `AddListener` forwards, and the other way round. |
| AndroidCustomConsent.CustomConsentClient.constructor | Assets/ConsentManagementProvider/Scripts/wrapper/Android/CustomConsentClient.cs:10-16 | The client keeps the given callback, starts with a null `customGdprConsent` and has invoked nothing. |
| AndroidCustomConsent.CustomConsentClient.InvokeCallback | Assets/ConsentManagementProvider/Scripts/wrapper/Android/CustomConsentClient.cs:34-40 | `callback?.Invoke(arg)` records one invocation with `arg` when a callback is set. Otherwise it records none. It throws only when the callback throws. |
| AndroidCustomConsent.CustomConsentClient.TransferCustomConsentToUnity | Assets/ConsentManagementProvider/Scripts/wrapper/Android/CustomConsentClient.cs:18-43 | The new field value, the callback invocations and the exit are those of `TransferSpec`, whose cases the lemmas below state. |
| AndroidCustomConsent.NullJsonThrowsFirst | Assets/ConsentManagementProvider/Scripts/wrapper/Android/CustomConsentClient.cs:20 | A null JSON string throws a null-reference exception before the `try`. Nothing is stored and nothing is delivered. |
| AndroidCustomConsent.FailedUnwrapDeliversNull | Assets/ConsentManagementProvider/Scripts/wrapper/Android/CustomConsentClient.cs:22-34 | When the first unwrap throws or returns null, the field is unchanged and the callback, if set, receives null. The method throws if and only if the callback throws. |
| AndroidCustomConsent.SuccessStoresAndDelivers | Assets/ConsentManagementProvider/Scripts/wrapper/Android/CustomConsentClient.cs:35-41 | On success the field becomes the unwrapped `consents`, and the callback, if set, receives exactly that value. Without a callback the method returns normally. |
| AndroidCustomConsent.FailedGdprUnwrapEscapes | Assets/ConsentManagementProvider/Scripts/wrapper/Android/CustomConsentClient.cs:38-39 | When the second unwrap throws or returns null, the exception escapes the `finally`. The field is unchanged and the callback is not invoked. |
| AndroidCustomConsent.ExactlyOnce | Assets/ConsentManagementProvider/Scripts/wrapper/Android/CustomConsentClient.cs:30-42 | For a non-null JSON string, unless the second unwrap fails, a transfer invokes the callback exactly once when one is set. Without a callback it invokes nothing and returns normally. |
| AndroidCustomConsent.FieldChangesOnlyOnSuccess | Assets/ConsentManagementProvider/Scripts/wrapper/Android/CustomConsentClient.cs:11-39 | The field only changes after a successful first unwrap, and then to the value the callback receives. |
| IosListener.ToInt32 | Assets/Scripts/ConsentMessagePlugin/iOS/CMPiOSListenerHelper.cs:56 | `Convert.ToInt32` of a null string is 0. The only exceptions it raises are format and overflow exceptions. |
| IosListener.ShapeParses | Assets/Scripts/ConsentMessagePlugin/iOS/CMPiOSListenerHelper.cs:56 | A text of integer shape (white space, optional `+` or `-`, decimal digits, white space) parses to the value it spells, or overflows when that value is outside the range of `int`. |
| IosListener.ParsedShape | Assets/Scripts/ConsentMessagePlugin/iOS/CMPiOSListenerHelper.cs:56 | Every text that does not raise a format exception has integer shape. |
| IosListener.IntegerTextParses | Assets/Scripts/ConsentMessagePlugin/iOS/CMPiOSListenerHelper.cs:56 | `Convert.ToInt32` returns `n` if and only if the text is white space, an optional sign, digits whose signed value is `n` (leading zeros allowed), and white space. |
| IosListener.IntegerTextOverflows | Assets/Scripts/ConsentMessagePlugin/iOS/CMPiOSListenerHelper.cs:56 | An overflow exception is raised if and only if the text has integer shape and its value is outside the range of `int`. |
| IosListener.OtherTextIsFormatError | Assets/Scripts/ConsentMessagePlugin/iOS/CMPiOSListenerHelper.cs:56 | A format exception is raised if and only if the text does not have integer shape (for example `12abc`, `- 5` or the empty text). |
| IosListener.NatText | Assets/Scripts/ConsentMessagePlugin/iOS/CMPiOSListenerHelper.cs:56 | The decimal text of a number is a non-empty run of digits whose value is that number. |
| IosListener.Int32TextRoundTrip | Assets/Scripts/ConsentMessagePlugin/iOS/CMPiOSListenerHelper.cs:56 | `Convert.ToInt32` reads back the decimal text of every `int`, whatever white space surrounds it. |
| IosListener.NoDigitIsFormatError | Assets/Scripts/ConsentMessagePlugin/iOS/CMPiOSListenerHelper.cs:56 | A message without a decimal digit raises a format exception. |
| IosListener.OnConsentReady | Assets/Scripts/ConsentMessagePlugin/iOS/CMPiOSListenerHelper.cs:39-45 | Broadcasts without arguments; the message is not used. |
| IosListener.OnConsentUIReady | Assets/Scripts/ConsentMessagePlugin/iOS/CMPiOSListenerHelper.cs:47-51 | Broadcasts the message string as the only argument. |
| IosListener.OnConsentAction | Assets/Scripts/ConsentMessagePlugin/iOS/CMPiOSListenerHelper.cs:53-58 | Broadcasts the action type `Convert.ToInt32` reads from the message, if and only if that conversion succeeds. Otherwise the conversion's exception escapes. |
| IosListener.OnConsentUIFinished | Assets/Scripts/ConsentMessagePlugin/iOS/CMPiOSListenerHelper.cs:60-64 | Broadcasts without arguments. |
| IosListener.OnErrorCallback | Assets/Scripts/ConsentMessagePlugin/iOS/CMPiOSListenerHelper.cs:66-71 | Broadcasts one exception object whose message is the JSON error text. |
| IosListener.ActionTypeFromMessage | Assets/Scripts/ConsentMessagePlugin/iOS/CMPiOSListenerHelper.cs:53-58 | A message of integer shape broadcasts the action type its sign and digits spell, or throws an overflow exception when that value is outside the range of `int`. The text of every `int` spells it. A null message is action type 0. Any other message throws a format exception. |
| IosListener.IosEventsAreDropped | Assets/Scripts/ConsentMessagePlugin/iOS/CMPiOSListenerHelper.cs:39-71 | Every broadcast the iOS channel handlers make is dropped by `Broadcast`: no dispatch and no error. |
| IosListener.IosPayloadsUnderKnownNames | Assets/Scripts/ConsentMessagePlugin/iOS/CMPiOSListenerHelper.cs:53-71 | Under the names `Broadcast` knows, the error event would reach the error handlers with the raw message. The action event would fail with an invalid cast. |
| IosListener.ListenerHelper.constructor | Assets/Scripts/ConsentMessagePlugin/iOS/CMPiOSListenerHelper.cs:17 | The helper starts without a success action and with no invocations. |
| IosListener.ListenerHelper.SetCustomConsentsGDPRSuccessAction | Assets/Scripts/ConsentMessagePlugin/iOS/CMPiOSListenerHelper.cs:29-32 | The new action replaces the old one, and nothing is invoked. |
| IosListener.ListenerHelper.InvokeSuccessAction | Assets/Scripts/ConsentMessagePlugin/iOS/CMPiOSListenerHelper.cs:81-94 | Records one invocation of the current action with its argument, and throws only when the action throws. |
| IosListener.ListenerHelper.OnCustomConsentGDPRCallback | Assets/Scripts/ConsentMessagePlugin/iOS/CMPiOSListenerHelper.cs:73-96 | The earlier invocations are kept. The new ones go to the action set at the time, with exactly the arguments of `CustomConsentSpec`, in order. The exit is `CustomConsentSpec`'s. |
| IosListener.NoActionInvokesNothing | Assets/Scripts/ConsentMessagePlugin/iOS/CMPiOSListenerHelper.cs:73-96 | With no success action set, nothing is invoked and even a parser exception is swallowed. |
| IosListener.FailureDeliversNull | Assets/Scripts/ConsentMessagePlugin/iOS/CMPiOSListenerHelper.cs:78-94 | When deserialising returns null, or deserialising or unwrapping throws, the first invocation receives null. |
| IosListener.SuccessDeliversUnwrapped | Assets/Scripts/ConsentMessagePlugin/iOS/CMPiOSListenerHelper.cs:85-86 | On success the action receives the unwrapped consent, once, and the callback returns normally. |
| IosListener.ThrowingActionIsCalledAgainWithNull | Assets/Scripts/ConsentMessagePlugin/iOS/CMPiOSListenerHelper.cs:81-94 | An action that throws inside the `try` is invoked a second time, with null, by the `catch`. Only an exception from that second call escapes. |
| IosListener.AtMostTwice | Assets/Scripts/ConsentMessagePlugin/iOS/CMPiOSListenerHelper.cs:76-95 | With an action set, every callback invokes it once or twice. A second invocation always carries null and follows a throw. The callback throws exactly when the last invocation threw. |
| GdprConsentModel.ToFullString | Assets/ConsentManagementProvider/Scripts/model/common/GdprConsent.cs:17-58 | The text is `Lines` of the consent, each line followed by a newline. |
| GdprConsentModel.AppendLine | Assets/ConsentManagementProvider/Scripts/model/common/GdprConsent.cs:21 | `AppendLine` extends the builder's lines by one. |
| GdprConsentModel.AppendHeader | Assets/ConsentManagementProvider/Scripts/model/common/GdprConsent.cs:21-24 | The builder holds the four header lines. |
| GdprConsentModel.AppendTcData | Assets/ConsentManagementProvider/Scripts/model/common/GdprConsent.cs:26-31 | The builder's lines are extended by the TCData section. |
| GdprConsentModel.AppendGrants | Assets/ConsentManagementProvider/Scripts/model/common/GdprConsent.cs:33-48 | The builder's lines are extended by the Grants section, vendor by vendor. |
| GdprConsentModel.AppendVendors | Assets/ConsentManagementProvider/Scripts/model/common/GdprConsent.cs:36-47 | The `foreach` over the grants appends each vendor's lines, in dictionary order. |
| GdprConsentModel.AppendVendor | Assets/ConsentManagementProvider/Scripts/model/common/GdprConsent.cs:38-46 | One vendor appends its two lines and, when its purpose grants are not null, its purpose block. |
| GdprConsentModel.AppendPurposes | Assets/ConsentManagementProvider/Scripts/model/common/GdprConsent.cs:44-45 | One line is appended per purpose, in dictionary order. |
| GdprConsentModel.AppendAcceptedCategories | Assets/ConsentManagementProvider/Scripts/model/common/GdprConsent.cs:50-55 | The builder's lines are extended by the Accepted Categories section. |
| GdprConsentModel.AppendCategories | Assets/ConsentManagementProvider/Scripts/model/common/GdprConsent.cs:53-54 | One indented line is appended per category, in list order. |
| GdprConsentModel.HeaderComesFirst | Assets/ConsentManagementProvider/Scripts/model/common/GdprConsent.cs:21-24 | The text starts with the UUID, EUConsent, Applies and WebConsentPayload lines, in this order. Null strings print as nothing and the boolean as `True` or `False`. |
| GdprConsentModel.SectionHeaders | Assets/ConsentManagementProvider/Scripts/model/common/GdprConsent.cs:26-55 | `TCData:`, `Grants:` and `Accepted Categories:` each appear if and only if their field is not null. The TCData section is its header alone. |
| GdprConsentModel.VendorLinesInOrder | Assets/ConsentManagementProvider/Scripts/model/common/GdprConsent.cs:36-39 | The lines of vendor `k` come first with `Vendor:` and `VendorGrant:`. They sit intact between the lines of the vendors before it and those of the vendors after it. |
| GdprConsentModel.PurposeBlockShape | Assets/ConsentManagementProvider/Scripts/model/common/GdprConsent.cs:38-46 | A vendor's `Purpose Grants:` block is present if and only if its purpose grants are not null. The block holds one `key: value` line per purpose, in dictionary order. Without it the vendor has two lines. |
| GdprConsentModel.CategoriesShape | Assets/ConsentManagementProvider/Scripts/model/common/GdprConsent.cs:50-55 | `Accepted Categories:` is followed by exactly one indented line per category, in list order. |
| GdprConsentModel.LineCount | Assets/ConsentManagementProvider/Scripts/model/common/GdprConsent.cs:17-58 | The number of lines is 4, plus 1 for TCData, plus 1 and the vendor lines for Grants, plus 1 and one line per category. |
| GdprConsentModel.VendorLinesIndented | Assets/ConsentManagementProvider/Scripts/model/common/GdprConsent.cs:38-45 | Every vendor line is indented, so none can be taken for a section header. |
| GdprConsentModel.SplitJoin | Assets/ConsentManagementProvider/Scripts/model/common/GdprConsent.cs:57 | Joining newline-free lines and splitting the text at its newlines gives back exactly those lines. |
| GdprConsentModel.FullStringSplitsIntoLines | Assets/ConsentManagementProvider/Scripts/model/common/GdprConsent.cs:17-58 | When no field holds a newline, the rendered text splits back into exactly `Lines` of the consent. |
| Common.WrapInt64 | Assets/ConsentManagementProvider/Scripts/facade/CMP.cs:47 | A `long` result equals the exact result when it is in range, and is otherwise congruent to it modulo 2^64. |
| Facade.IsEditor | Assets/ConsentManagementProvider/Scripts/facade/CMP.cs:14-16 | The editor platforms are neither Android nor the iPhone, so no editor run passes a device branch. |
| Facade.Binding | Assets/ConsentManagementProvider/Scripts/facade/CMP.cs:31-61 | The Android wrapper is reached if and only if the Android build runs on Android. The iOS wrapper is reached if and only if the iOS build runs on an iPhone. |
| Facade.IsSpCampaignsValid | Assets/ConsentManagementProvider/Scripts/facade/CMP.cs:209-224 | Valid if and only if there is at least one campaign and the game is not running in the editor. |
| Facade.OnlyIos14 | Assets/ConsentManagementProvider/Scripts/facade/CMP.cs:198 | Every campaign the `Where` keeps is an IOS14 campaign. |
| Facade.WithoutIos14 | Assets/ConsentManagementProvider/Scripts/facade/CMP.cs:196-207 | No kept campaign is an IOS14 campaign, and nothing is added. |
| Facade.IndexOf | Assets/ConsentManagementProvider/Scripts/facade/CMP.cs:204 | Returns the position of the first element equal to `x`; no earlier element equals it. |
| Facade.RemoveFirst | Assets/ConsentManagementProvider/Scripts/facade/CMP.cs:204 | `List.Remove` removes exactly the first element equal to `x`, and the elements before and after it keep their order. When the list does not hold `x` it is left alone. |
| Facade.CampaignList.Remove | Assets/ConsentManagementProvider/Scripts/facade/CMP.cs:204 | The list loses its first element equal to `x`. The call reports whether there was one. |
| Facade.RemoveIos14SpCampaign | Assets/ConsentManagementProvider/Scripts/facade/CMP.cs:196-207 | The caller's list afterwards is the original list without its IOS14 campaigns, the others in their original order. |
| Facade.RemoveFirstIos14 | Assets/ConsentManagementProvider/Scripts/facade/CMP.cs:202-205 | Removing the first remaining IOS14 campaign keeps every other campaign, and the remaining IOS14 campaigns stay in order. |
| Facade.WithoutIos14Unchanged | Assets/ConsentManagementProvider/Scripts/facade/CMP.cs:196-207 | A list without IOS14 campaigns is left as it is. |
| Facade.WithoutIos14Empty | Assets/ConsentManagementProvider/Scripts/facade/CMP.cs:36-40 | The filtered list is empty if and only if every campaign is an IOS14 campaign. |
| Facade.WithoutIos14Partitions | Assets/ConsentManagementProvider/Scripts/facade/CMP.cs:196-207 | The kept campaigns and the IOS14 campaigns together are, as a multiset, exactly the original list. |
| Facade.WithoutIos14Append | Assets/ConsentManagementProvider/Scripts/facade/CMP.cs:196-207 | The filter distributes over concatenation, so it keeps relative order. |
| Facade.Cmp.constructor | Assets/ConsentManagementProvider/Scripts/facade/CMP.cs:13 | No executor object exists and no call has been made. |
| Facade.Cmp.CreateBroadcastExecutorGO | Assets/ConsentManagementProvider/Scripts/facade/CMP.cs:189-194 | Afterwards the executor object exists. It is created only if there was none, so at most one is ever created. |
| Facade.Cmp.Initialize | Assets/ConsentManagementProvider/Scripts/facade/CMP.cs:18-62 | The caller's list, the executor reference and the calls made are those of `InitializeSpec`. At most one executor object ever exists. |
| Facade.Cmp.InitializeAndroid | Assets/ConsentManagementProvider/Scripts/facade/CMP.cs:32-48 | On Android the executor object is ensured and the list loses its IOS14 campaigns. If any campaign remains, the library is initialised with them and with the timeout times 1000, as a `long`. |
| Facade.EmptyListDoesNothing | Assets/ConsentManagementProvider/Scripts/facade/CMP.cs:27-30 | An empty campaign list returns at once. There is no executor object and no call, and the list is untouched. |
| Facade.EditorMakesNoCall | Assets/ConsentManagementProvider/Scripts/facade/CMP.cs:14-92 | In the editor, validation fails, and `Initialize`, `LoadMessage` and `LoadPrivacyManager` make no call. |
| Facade.AndroidWithOnlyIos14 | Assets/ConsentManagementProvider/Scripts/facade/CMP.cs:32-40 | On Android, a list of only IOS14 campaigns is emptied and no library call follows, but the executor object has been created. |
| Facade.AndroidInitializeArguments | Assets/ConsentManagementProvider/Scripts/facade/CMP.cs:32-48 | On Android, when a non-IOS14 campaign exists, the library receives the filtered list and the timeout in milliseconds. |
| Facade.IosInitializeArguments | Assets/ConsentManagementProvider/Scripts/facade/CMP.cs:50-60 | On iOS the library receives the list as given and the timeout in seconds. |
| Facade.DefaultTimeout | Assets/ConsentManagementProvider/Scripts/facade/CMP.cs:25-47 | With the default of 3 seconds, Android receives 3000 milliseconds. |
| Facade.IosPrivacyManagerMapping | Assets/ConsentManagementProvider/Scripts/facade/CMP.cs:101-114 | On iOS, GDPR opens the GDPR privacy manager and CCPA the CCPA one. Any other campaign type makes no call. |
| Facade.LoadMessage | Assets/ConsentManagementProvider/Scripts/facade/CMP.cs:64-83 | At most one call is made. A call is made if and only if a wrapper is bound, and it is that wrapper's `LoadMessage` with the given `authId`. In the editor no call is made. |
| Facade.LoadPrivacyManager | Assets/ConsentManagementProvider/Scripts/facade/CMP.cs:85-116 | At most one call is made, to the bound wrapper. A call is made if and only if the Android wrapper is bound, or the iOS wrapper is bound and the campaign type is GDPR or CCPA. Android receives the campaign type, id and tab unchanged. In the editor no call is made. |
| Facade.CustomConsentGDPR | Assets/ConsentManagementProvider/Scripts/facade/CMP.cs:118-137 | At most one call is made. A call is made if and only if a wrapper is bound, and it passes all four arguments unchanged to that wrapper. |
| Facade.Dispose | Assets/ConsentManagementProvider/Scripts/facade/CMP.cs:173-186 | At most one call is made. A call is made if and only if a wrapper is bound, and it is that wrapper's `Dispose`. |
| Facade.GetSpConsents | Assets/ConsentManagementProvider/Scripts/facade/CMP.cs:139-154 | With no wrapper bound it returns null and makes no call. Otherwise it makes one call to the bound wrapper and returns exactly its value. |
| Facade.GetCustomConsent | Assets/ConsentManagementProvider/Scripts/facade/CMP.cs:156-171 | With no wrapper bound it returns null and makes no call. Otherwise it makes one call to the bound wrapper and returns exactly its value. |
| Facade.ForwardsReachTheBoundWrapper | Assets/ConsentManagementProvider/Scripts/facade/CMP.cs:64-186 | Each of `LoadMessage`, `LoadPrivacyManager`, `CustomConsentGDPR`, `Dispose`, `GetSpConsents` and `GetCustomConsent` makes at most one call, separately. Every call they make goes only to the wrapper the build target and the runtime platform select. |
| Facade.GettersOffPlatform | Assets/ConsentManagementProvider/Scripts/facade/CMP.cs:139-171 | Off platform, `GetSpConsents` and `GetCustomConsent` return null without a call. On platform they return exactly the wrapper's value. |
| Facade.EditorIsNeverBound | Assets/ConsentManagementProvider/Scripts/facade/CMP.cs:14-92 | No editor platform passes a runtime platform check, so the editor checks never change a forward's result. |

## Left out

- The JSON deserialiser and the unwrappers (`JsonSerializer.Deserialize`, `JsonUnwrapper.*`) are not part of this model. Each is a function parameter that throws, returns null or returns a value.
- `BroadcastReceivers`, the receiver registry, is not modelled: `AddListener` and `RemoveListener` are modelled as the registration call they forward. `BroadcastEventDispatcher.Execute` is not modelled either: `Broadcast` is modelled as the `Execute` call it makes. Which receivers a dispatch reaches is outside the model.
- The native wrappers (`ConsentWrapperAndroid`, `ConsentWrapperIOS`) are recorded as calls in a trace. What they do is not part of this model.
- A delegate's behaviour is a parameter: whether it throws is given by `callbackThrows` (Android) or `throwsAt` (iOS). What an action enqueued on the dispatcher does is given by `behaviour`.
- Executor.Update: the source loop only stops when the queue is empty, so an action that keeps re-enqueueing would never stop it. The model bounds the invocations by `fuel`, and `OutOfFuel` marks a drain the bound, not the source, stopped.
- Logging (`CmpDebugUtil`, `Debug.Log*`) and the iOS callback registration in `Awake` are left out. These are I/O only, with no effect on the modelled state.
- The Unity object lifecycle is left out: `DontDestroyOnLoad`, game object names, and the destruction of the executor object, which the overloaded `== null` of Unity objects would make visible to `CreateBroadcastExecutorGO`.
- Concurrency is left out. The dispatcher queue is not synchronised in the source, and the model treats each call as atomic.
- A `null` campaign list passed to `Initialize`, and a null element inside it, are not modelled (a null-reference exception in `Count` or in the `Where` filter). The list is always a list of campaigns.
- SpCampaign: only the campaign type is read by the core, so the campaign's other fields are not modelled. Campaigns compare by identity.
- SpAction: its fields are not part of this model. Its definition is not part of this model either; it is taken to be a class, so a boxed `CONSENT_ACTION_TYPE` cannot be cast to it. If it were an `int`-backed enum, the cast would succeed.
- GdprConsentModel.ToFullString: a null value inside `grants` (a null-reference exception at GdprConsent.cs:39) is not modelled. The TCData values are never rendered, because the source comments those lines out.
- GdprConsentModel.GdprConsent: `acceptedCategories` holds non-null strings. A null element of the source's `List<string>` is not represented; it would print as `"    "`, the same line the model gives for `""`.
- GdprConsentModel.Join: `AppendLine` is modelled with `"\n"`. `Environment.NewLine` is `"\r\n"` on Windows.
- IosListener.ToInt32: the culture's sign symbols, and trailing NUL characters (which `Int32.Parse` also accepts), are not modelled. The invariant culture's `+` and `-` and the white space U+0009 to U+000D and U+0020 are what the model accepts.
- The casts to `CONSENT_ACTION_TYPE` are unchecked in C#, so the boxed value is the raw `int`; no enumeration range check is modelled.
- IosListener.ListenerHelper.OnCustomConsentGDPRCallback: a success action that reassigns `onCustomConsentsGDPRSuccessAction` while it runs is not modelled. The `catch` block re-reads the field, so the second invocation could reach another action or none; the model keeps the action fixed for the whole call.
- The lifecycle states Uninitialized, Initialized and Disposed are not modelled, because `CMP` keeps no such state.
