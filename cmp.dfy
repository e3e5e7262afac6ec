/** The static facade `CMP`: campaign validation and filtering, idempotent
    creation of the main-thread executor object, and forwarding of each
    operation to the native wrapper of the platform the game runs on.

    The build target (the `#if UNITY_ANDROID` / `#elif UNITY_IOS &&
    !UNITY_EDITOR_OSX` branch compiled in) and the runtime platform are
    fixed parameters. Calls into the native wrappers and the creation of
    the executor object are recorded as `Call` values. */
module Facade {
  import opened Common
  import opened GdprConsentModel
  import opened ConsentData

  // ---------------------------------------------------------------------
  // Platforms and campaigns

  /** `Application.platform`, as far as the facade distinguishes it. */
  datatype RuntimePlatform = Android | IPhonePlayer | LinuxEditor | WindowsEditor | OSXEditor | OtherPlatform(ordinal: nat)

  /** The branch of the conditional compilation that is compiled in:
      `IosBuild` is `UNITY_IOS && !UNITY_EDITOR_OSX` without `UNITY_ANDROID`. */
  datatype BuildTarget = AndroidBuild | IosBuild | OtherBuild

  /** The native wrapper a call goes to. */
  datatype Native = AndroidWrapper | IosWrapper

  /** `CMP.IsEditor`: the game runs in the Unity editor, never on a device. */
  predicate IsEditor(p: RuntimePlatform)
    ensures IsEditor(p) ==> p != Android && p != IPhonePlayer
  {
    p == LinuxEditor || p == WindowsEditor || p == OSXEditor
  }

  /** The wrapper reached by the `#if` branch compiled in and its runtime
      platform check, if any. */
  function Binding(p: RuntimePlatform, t: BuildTarget): (n: Option<Native>)
    ensures n == Some(AndroidWrapper) <==> t == AndroidBuild && p == Android
    ensures n == Some(IosWrapper) <==> t == IosBuild && p == IPhonePlayer
  {
    if t == AndroidBuild && p == Android then Some(AndroidWrapper)
    else if t == IosBuild && p == IPhonePlayer then Some(IosWrapper)
    else None
  }

  datatype CampaignType = GDPR | CCPA | IOS14

  /** An `SpCampaign`, by identity; only its type is read here. */
  datatype SpCampaign = SpCampaign(id: nat, campaignType: CampaignType)

  datatype Language = Language(ordinal: nat)
  datatype CampaignEnv = CampaignEnv(ordinal: nat)
  datatype PrivacyManagerTab = PrivacyManagerTab(ordinal: nat)

  /** The arguments of `Initialize` that are passed on unchanged. */
  datatype Property = Property(accountId: int32, propertyId: int32, propertyName: Option<string>,
                               language: Language, campaignsEnvironment: CampaignEnv)

  /** A `string[]` argument. */
  type StringArray = Option<seq<Option<string>>>

  /** The default of `Initialize`'s `messageTimeoutInSeconds`. */
  const DefaultMessageTimeoutInSeconds: int64 := 3

  /** What the facade does outside its own code. */
  datatype Call =
    | CreateExecutorObject    // `new GameObject()` with a `BroadcastEventsExecutor`
    | InitializeLib(wrapper: Native, campaigns: seq<SpCampaign>, property: Property, messageTimeout: int64)
    | LoadMessageCall(wrapper: Native, authId: Option<string>)
    | LoadPrivacyManagerCall(campaignType: CampaignType, pmId: Option<string>, tab: PrivacyManagerTab)  // Android
    | LoadGdprPrivacyManager(pmId: Option<string>, tab: PrivacyManagerTab)                            // iOS
    | LoadCcpaPrivacyManager(pmId: Option<string>, tab: PrivacyManagerTab)                            // iOS
    | CustomConsentGdprCall(wrapper: Native, vendors: StringArray, categories: StringArray,
                            legIntCategories: StringArray, onSuccessDelegate: Option<CallbackRef>)
    | GetSpConsentsCall(wrapper: Native)
    | GetCustomGdprConsentCall(wrapper: Native)
    | DisposeCall(wrapper: Native)

  /** The wrapper a native call goes to; `None` for the executor object. */
  function Target(c: Call): Option<Native> {
    match c
    case CreateExecutorObject => None
    case InitializeLib(w, _, _, _) => Some(w)
    case LoadMessageCall(w, _) => Some(w)
    case LoadPrivacyManagerCall(_, _, _) => Some(AndroidWrapper)
    case LoadGdprPrivacyManager(_, _) => Some(IosWrapper)
    case LoadCcpaPrivacyManager(_, _) => Some(IosWrapper)
    case CustomConsentGdprCall(w, _, _, _, _) => Some(w)
    case GetSpConsentsCall(w) => Some(w)
    case GetCustomGdprConsentCall(w) => Some(w)
    case DisposeCall(w) => Some(w)
  }

  // ---------------------------------------------------------------------
  // Campaign lists

  predicate IsIos14(c: SpCampaign) {
    c.campaignType == IOS14
  }

  /** `spCampaigns.Where(campaign => campaign.CampaignType == IOS14).ToList()`. */
  function OnlyIos14(cs: seq<SpCampaign>): (r: seq<SpCampaign>)
    ensures forall i | 0 <= i < |r| :: IsIos14(r[i])
    decreases |cs|
  {
    if cs == [] then [] else (if IsIos14(cs[0]) then [cs[0]] else []) + OnlyIos14(cs[1..])
  }

  /** The campaigns that are not IOS14 campaigns, in their original order. */
  function WithoutIos14(cs: seq<SpCampaign>): (r: seq<SpCampaign>)
    ensures forall i | 0 <= i < |r| :: !IsIos14(r[i])
    ensures |r| <= |cs|
    decreases |cs|
  {
    if cs == [] then [] else (if IsIos14(cs[0]) then [] else [cs[0]]) + WithoutIos14(cs[1..])
  }

  /** The position of the first element equal to `x`. */
  function IndexOf(cs: seq<SpCampaign>, x: SpCampaign): (i: nat)
    requires x in cs
    ensures i < |cs| && cs[i] == x
    ensures x !in cs[..i]
    decreases |cs|
  {
    if cs[0] == x then 0
    else
      var j := IndexOf(cs[1..], x);
      assert cs[..j + 1] == [cs[0]] + cs[1..][..j];
      j + 1
  }

  /** `List<T>.Remove(x)`: the first element equal to `x` is removed and
      the others keep their order. */
  function RemoveFirst(cs: seq<SpCampaign>, x: SpCampaign): (r: seq<SpCampaign>)
    ensures x in cs ==> |r| == |cs| - 1
    ensures x in cs ==> r == cs[..IndexOf(cs, x)] + cs[IndexOf(cs, x) + 1..]
    ensures x !in cs ==> r == cs
    decreases |cs|
  {
    if cs == [] then []
    else if cs[0] == x then cs[1..]
    else
      var rest := RemoveFirst(cs[1..], x);
      RemoveFirstStep(cs, x, rest);
      [cs[0]] + rest
  }

  /** The recursive case of `RemoveFirst`: keeping a head that differs
      from `x` in front of the tail's result. */
  lemma RemoveFirstStep(cs: seq<SpCampaign>, x: SpCampaign, rest: seq<SpCampaign>)
    requires |cs| > 0 && cs[0] != x
    requires x in cs[1..] ==> rest == cs[1..][..IndexOf(cs[1..], x)] + cs[1..][IndexOf(cs[1..], x) + 1..]
    requires x !in cs[1..] ==> rest == cs[1..]
    ensures x in cs ==> [cs[0]] + rest == cs[..IndexOf(cs, x)] + cs[IndexOf(cs, x) + 1..]
    ensures x !in cs ==> [cs[0]] + rest == cs
  {
    assert cs == [cs[0]] + cs[1..];
    if x in cs[1..] {
      var j := IndexOf(cs[1..], x);
      assert IndexOf(cs, x) == j + 1;
      assert cs[..j + 1] == [cs[0]] + cs[1..][..j];
      assert cs[j + 2..] == cs[1..][j + 1..];
    }
  }

  /** `List<SpCampaign>`, which `RemoveIos14SpCampaign` changes in place:
      the caller of `Initialize` sees the removals in its own list. */
  class CampaignList {
    var items: seq<SpCampaign>

    constructor(items: seq<SpCampaign>)
      ensures this.items == items
    {
      this.items := items;
    }

    /** `List<T>.Remove`. */
    method Remove(x: SpCampaign) returns (removed: bool)
      modifies this
      ensures items == RemoveFirst(old(items), x)
      ensures removed <==> x in old(items)
    {
      removed := x in items;
      items := RemoveFirst(items, x);
    }
  }

  /** `CMP.IsSpCampaignsValid`: at least one campaign, and not in the
      editor. */
  function IsSpCampaignsValid(cs: seq<SpCampaign>, p: RuntimePlatform): (r: bool)
    ensures r <==> |cs| > 0 && !IsEditor(p)
  {
    if |cs| == 0 then false
    else if IsEditor(p) then false
    else true
  }

  /** `CMP.RemoveIos14SpCampaign`: each IOS14 campaign found is removed
      from the list, one `Remove` at a time. */
  method RemoveIos14SpCampaign(campaigns: CampaignList)
    modifies campaigns
    ensures campaigns.items == WithoutIos14(old(campaigns.items))
  {
    var ios14 := OnlyIos14(campaigns.items);
    if |ios14| > 0 {
      var i := 0;
      while i < |ios14|
        invariant 0 <= i <= |ios14|
        invariant WithoutIos14(campaigns.items) == WithoutIos14(old(campaigns.items))
        invariant OnlyIos14(campaigns.items) == ios14[i..]
      {
        RemoveFirstIos14(campaigns.items, ios14[i]);
        var _ := campaigns.Remove(ios14[i]);
        i := i + 1;
      }
    }
    OnlyOthersLeft(campaigns.items);
  }

  // ---------------------------------------------------------------------
  // Properties of the campaign operations

  /** Removing the first remaining IOS14 campaign keeps every other
      campaign and the order of the remaining IOS14 ones. */
  lemma {:induction false} RemoveFirstIos14(cs: seq<SpCampaign>, x: SpCampaign)
    requires OnlyIos14(cs) != [] && OnlyIos14(cs)[0] == x
    ensures WithoutIos14(RemoveFirst(cs, x)) == WithoutIos14(cs)
    ensures OnlyIos14(RemoveFirst(cs, x)) == OnlyIos14(cs)[1..]
    decreases |cs|
  {
    assert IsIos14(x);
    if cs[0] == x {
    } else {
      assert !IsIos14(cs[0]);
      RemoveFirstIos14(cs[1..], x);
      assert ([cs[0]] + RemoveFirst(cs[1..], x))[1..] == RemoveFirst(cs[1..], x);
    }
  }

  /** A list without IOS14 campaigns is its own filtered list. */
  lemma {:induction false} OnlyOthersLeft(cs: seq<SpCampaign>)
    requires OnlyIos14(cs) == []
    ensures WithoutIos14(cs) == cs
    decreases |cs|
  {
    if cs != [] {
      assert !IsIos14(cs[0]);
      OnlyOthersLeft(cs[1..]);
    }
  }

  /** A list without IOS14 campaigns is left as it is. */
  lemma {:induction false} WithoutIos14Unchanged(cs: seq<SpCampaign>)
    requires forall i | 0 <= i < |cs| :: !IsIos14(cs[i])
    ensures WithoutIos14(cs) == cs
    decreases |cs|
  {
    if cs != [] {
      WithoutIos14Unchanged(cs[1..]);
    }
  }

  /** The filter empties the list exactly when every campaign is an IOS14
      campaign. */
  lemma {:induction false} WithoutIos14Empty(cs: seq<SpCampaign>)
    ensures WithoutIos14(cs) == [] <==> forall i | 0 <= i < |cs| :: IsIos14(cs[i])
    decreases |cs|
  {
    if cs != [] {
      WithoutIos14Empty(cs[1..]);
      if forall i | 0 <= i < |cs| :: IsIos14(cs[i]) {
        assert forall i | 0 <= i < |cs[1..]| :: IsIos14(cs[1..][i]) by {
          forall i | 0 <= i < |cs[1..]| ensures IsIos14(cs[1..][i]) {
            assert cs[1..][i] == cs[i + 1];
          }
        }
      } else if IsIos14(cs[0]) {
        var k :| 0 <= k < |cs| && !IsIos14(cs[k]);
        assert k > 0 && cs[1..][k - 1] == cs[k];
      }
    }
  }

  /** The campaigns kept and the IOS14 campaigns removed together make up
      exactly the original list. */
  lemma {:induction false} WithoutIos14Partitions(cs: seq<SpCampaign>)
    ensures multiset(WithoutIos14(cs)) + multiset(OnlyIos14(cs)) == multiset(cs)
    decreases |cs|
  {
    if cs != [] {
      WithoutIos14Partitions(cs[1..]);
      assert cs == [cs[0]] + cs[1..];
    }
  }

  /** The filter keeps the relative order of the campaigns it keeps: it
      distributes over concatenation. */
  lemma {:induction false} WithoutIos14Append(a: seq<SpCampaign>, b: seq<SpCampaign>)
    ensures WithoutIos14(a + b) == WithoutIos14(a) + WithoutIos14(b)
    decreases |a|
  {
    if a == [] {
      assert a + b == b;
    } else {
      assert (a + b)[0] == a[0];
      assert (a + b)[1..] == a[1..] + b;
      WithoutIos14Append(a[1..], b);
    }
  }

  // ---------------------------------------------------------------------
  // Initialize

  /** What `Initialize` does: whether it asks for the executor object, the
      caller's campaign list afterwards, and the native call it makes. */
  datatype InitEffect = InitEffect(createsExecutor: bool, campaigns: seq<SpCampaign>, native: Option<Call>)

  /** `CMP.Initialize(campaigns, ..., messageTimeoutInSeconds)`. */
  function InitializeSpec(p: RuntimePlatform, t: BuildTarget, cs: seq<SpCampaign>, property: Property,
    messageTimeoutInSeconds: int64): InitEffect
  {
    if !IsSpCampaignsValid(cs, p) then InitEffect(false, cs, None)
    else match Binding(p, t)
      case None => InitEffect(false, cs, None)
      case Some(AndroidWrapper) =>
        var kept := WithoutIos14(cs);
        InitEffect(true, kept,
          if IsSpCampaignsValid(kept, p)
          then Some(InitializeLib(AndroidWrapper, kept, property, WrapInt64(messageTimeoutInSeconds as int * 1000)))
          else None)
      case Some(IosWrapper) =>
        InitEffect(true, cs, Some(InitializeLib(IosWrapper, cs, property, messageTimeoutInSeconds)))
  }

  /** The number of executor objects created in a trace. */
  function Creations(trace: seq<Call>): nat
    decreases |trace|
  {
    if trace == [] then 0 else (if trace[|trace| - 1] == CreateExecutorObject then 1 else 0) + Creations(trace[..|trace| - 1])
  }

  lemma CreationsAppend(trace: seq<Call>, c: Call)
    ensures Creations(trace + [c]) == Creations(trace) + (if c == CreateExecutorObject then 1 else 0)
  {
    assert (trace + [c])[..|trace|] == trace;
  }

  /** The static state of `CMP` on one platform and build. */
  class Cmp {
    const platform: RuntimePlatform
    const target: BuildTarget
    /** `mainThreadBroadcastEventsExecutor != null`. */
    var executorCreated: bool
    /** The calls made so far, in order. */
    var trace: seq<Call>

    /** At most one executor object ever exists, and it exists once it has
        been created. */
    ghost predicate Valid()
      reads this
    {
      Creations(trace) == (if executorCreated then 1 else 0)
    }

    constructor(platform: RuntimePlatform, target: BuildTarget)
      ensures this.platform == platform && this.target == target
      ensures !executorCreated && trace == []
      ensures Valid()
    {
      this.platform := platform;
      this.target := target;
      executorCreated := false;
      trace := [];
    }

    /** `CMP.CreateBroadcastExecutorGO`: creates the executor object only
        if there is none yet. */
    method CreateBroadcastExecutorGO()
      requires Valid()
      modifies this
      ensures Valid()
      ensures executorCreated
      ensures trace == old(trace) + (if old(executorCreated) then [] else [CreateExecutorObject])
    {
      if executorCreated {
        return;
      }
      CreationsAppend(trace, CreateExecutorObject);
      executorCreated := true;
      trace := trace + [CreateExecutorObject];
    }

    /** Record a native call. */
    method Record(c: Call)
      requires Valid() && c != CreateExecutorObject
      modifies this
      ensures Valid()
      ensures executorCreated == old(executorCreated)
      ensures trace == old(trace) + [c]
    {
      CreationsAppend(trace, c);
      trace := trace + [c];
    }

    /** `CMP.Initialize`. */
    method Initialize(campaigns: CampaignList, property: Property, messageTimeoutInSeconds: int64)
      requires Valid()
      modifies this, campaigns
      ensures Valid()
      ensures var e := InitializeSpec(platform, target, old(campaigns.items), property, messageTimeoutInSeconds);
        && campaigns.items == e.campaigns
        && executorCreated == (old(executorCreated) || e.createsExecutor)
        && trace == old(trace)
                    + (if e.createsExecutor && !old(executorCreated) then [CreateExecutorObject] else [])
                    + (if e.native.Some? then [e.native.value] else [])
    {
      if !IsSpCampaignsValid(campaigns.items, platform) {
        return;
      }
      if target == AndroidBuild {
        if platform == Android {
          InitializeAndroid(campaigns, property, messageTimeoutInSeconds);
        }
      } else if target == IosBuild {
        if platform == IPhonePlayer {
          CreateBroadcastExecutorGO();
          Record(InitializeLib(IosWrapper, campaigns.items, property, messageTimeoutInSeconds));
        }
      }
    }

    /** The Android branch of `Initialize`, after the first validation. */
    method InitializeAndroid(campaigns: CampaignList, property: Property, messageTimeoutInSeconds: int64)
      requires Valid() && platform == Android
      modifies this, campaigns
      ensures Valid()
      ensures campaigns.items == WithoutIos14(old(campaigns.items))
      ensures executorCreated
      ensures trace == old(trace)
                    + (if old(executorCreated) then [] else [CreateExecutorObject])
                    + (if campaigns.items != []
                       then [InitializeLib(AndroidWrapper, campaigns.items, property, WrapInt64(messageTimeoutInSeconds as int * 1000))]
                       else [])
    {
      CreateBroadcastExecutorGO();
      RemoveIos14SpCampaign(campaigns);
      if !IsSpCampaignsValid(campaigns.items, platform) {
        return;
      }
      Record(InitializeLib(AndroidWrapper, campaigns.items, property, WrapInt64(messageTimeoutInSeconds as int * 1000)));
    }
  }

  // ---------------------------------------------------------------------
  // Forwards

  /** `CMP.LoadMessage(authId)`. */
  function LoadMessage(p: RuntimePlatform, t: BuildTarget, authId: Option<string>): (calls: seq<Call>)
    ensures |calls| <= 1
    ensures calls != [] <==> Binding(p, t).Some?
    ensures calls != [] ==> calls[0] == LoadMessageCall(Binding(p, t).value, authId)
    ensures IsEditor(p) ==> calls == []
  {
    if IsEditor(p) then []
    else match Binding(p, t)
      case None => []
      case Some(w) => [LoadMessageCall(w, authId)]
  }

  /** `CMP.LoadPrivacyManager(campaignType, pmId, tab)`. */
  function LoadPrivacyManager(p: RuntimePlatform, t: BuildTarget, campaignType: CampaignType,
    pmId: Option<string>, tab: PrivacyManagerTab): (calls: seq<Call>)
    ensures |calls| <= 1
    ensures forall i | 0 <= i < |calls| :: Target(calls[i]) == Binding(p, t)
    ensures calls != [] <==> Binding(p, t) == Some(AndroidWrapper) || (Binding(p, t) == Some(IosWrapper) && campaignType != IOS14)
    ensures Binding(p, t) == Some(AndroidWrapper) ==> calls == [LoadPrivacyManagerCall(campaignType, pmId, tab)]
    ensures IsEditor(p) ==> calls == []
  {
    if IsEditor(p) then []
    else match Binding(p, t)
      case None => []
      case Some(AndroidWrapper) => [LoadPrivacyManagerCall(campaignType, pmId, tab)]
      case Some(IosWrapper) =>
        match campaignType {
          case GDPR => [LoadGdprPrivacyManager(pmId, tab)]
          case CCPA => [LoadCcpaPrivacyManager(pmId, tab)]
          case IOS14 => []
        }
  }

  /** `CMP.CustomConsentGDPR(vendors, categories, legIntCategories, onSuccessDelegate)`. */
  function CustomConsentGDPR(p: RuntimePlatform, t: BuildTarget, vendors: StringArray, categories: StringArray,
    legIntCategories: StringArray, onSuccessDelegate: Option<CallbackRef>): (calls: seq<Call>)
    ensures |calls| <= 1
    ensures calls != [] <==> Binding(p, t).Some?
    ensures calls != [] ==>
      calls[0] == CustomConsentGdprCall(Binding(p, t).value, vendors, categories, legIntCategories, onSuccessDelegate)
  {
    match Binding(p, t)
    case None => []
    case Some(w) => [CustomConsentGdprCall(w, vendors, categories, legIntCategories, onSuccessDelegate)]
  }

  /** `CMP.Dispose()`. */
  function Dispose(p: RuntimePlatform, t: BuildTarget): (calls: seq<Call>)
    ensures |calls| <= 1
    ensures calls != [] <==> Binding(p, t).Some?
    ensures calls != [] ==> calls[0] == DisposeCall(Binding(p, t).value)
  {
    match Binding(p, t)
    case None => []
    case Some(w) => [DisposeCall(w)]
  }

  /** The calls a getter makes and the value it returns. */
  datatype Fetch<T> = Fetch(calls: seq<Call>, value: Option<T>)

  /** `CMP.GetSpConsents()`, when the wrapper reached would return
      `fromWrapper`. */
  function GetSpConsents(p: RuntimePlatform, t: BuildTarget, fromWrapper: Option<SpConsents>): (f: Fetch<SpConsents>)
    ensures Binding(p, t).None? ==> f == Fetch([], None)
    ensures Binding(p, t).Some? ==> f == Fetch([GetSpConsentsCall(Binding(p, t).value)], fromWrapper)
  {
    match Binding(p, t)
    case None => Fetch([], None)
    case Some(w) => Fetch([GetSpConsentsCall(w)], fromWrapper)
  }

  /** `CMP.GetCustomConsent()`, when the wrapper reached would return
      `fromWrapper`. */
  function GetCustomConsent(p: RuntimePlatform, t: BuildTarget, fromWrapper: Option<GdprConsent>): (f: Fetch<GdprConsent>)
    ensures Binding(p, t).None? ==> f == Fetch([], None)
    ensures Binding(p, t).Some? ==> f == Fetch([GetCustomGdprConsentCall(Binding(p, t).value)], fromWrapper)
  {
    match Binding(p, t)
    case None => Fetch([], None)
    case Some(w) => Fetch([GetCustomGdprConsentCall(w)], fromWrapper)
  }

  // ---------------------------------------------------------------------
  // Properties of the facade

  /** An empty campaign list makes `Initialize` return at once: no
      executor object, no native call, the list untouched. */
  lemma EmptyListDoesNothing(p: RuntimePlatform, t: BuildTarget, property: Property, timeout: int64)
    ensures InitializeSpec(p, t, [], property, timeout) == InitEffect(false, [], None)
  {
  }

  /** In the editor, validation fails and none of `Initialize`,
      `LoadMessage` and `LoadPrivacyManager` reaches a wrapper. */
  lemma EditorMakesNoCall(p: RuntimePlatform, t: BuildTarget, cs: seq<SpCampaign>, property: Property, timeout: int64,
    authId: Option<string>, campaignType: CampaignType, pmId: Option<string>, tab: PrivacyManagerTab)
    requires IsEditor(p)
    ensures !IsSpCampaignsValid(cs, p)
    ensures InitializeSpec(p, t, cs, property, timeout) == InitEffect(false, cs, None)
    ensures LoadMessage(p, t, authId) == []
    ensures LoadPrivacyManager(p, t, campaignType, pmId, tab) == []
  {
  }

  /** On Android, a list of only IOS14 campaigns is emptied and no library
      call follows, although the executor object has been asked for. */
  lemma AndroidWithOnlyIos14(cs: seq<SpCampaign>, property: Property, timeout: int64)
    requires |cs| > 0 && forall i | 0 <= i < |cs| :: IsIos14(cs[i])
    ensures InitializeSpec(Android, AndroidBuild, cs, property, timeout) == InitEffect(true, [], None)
  {
    WithoutIos14Empty(cs);
  }

  /** On Android the library receives the campaigns without the IOS14
      ones and the timeout in milliseconds. */
  lemma AndroidInitializeArguments(cs: seq<SpCampaign>, property: Property, seconds: int64)
    requires exists i | 0 <= i < |cs| :: !IsIos14(cs[i])
    requires -9_223_372_036_854_775 <= seconds as int <= 9_223_372_036_854_775
    ensures InitializeSpec(Android, AndroidBuild, cs, property, seconds)
         == InitEffect(true, WithoutIos14(cs), Some(InitializeLib(AndroidWrapper, WithoutIos14(cs), property, (seconds as int * 1000) as int64)))
  {
    WithoutIos14Empty(cs);
    var ms := seconds as int * 1000;
    assert MinInt64 <= ms <= MaxInt64;
    assert WrapInt64(ms) as int == ms;
  }

  /** On iOS the library receives the list as given and the timeout in
      seconds. */
  lemma IosInitializeArguments(cs: seq<SpCampaign>, property: Property, seconds: int64)
    requires |cs| > 0
    ensures InitializeSpec(IPhonePlayer, IosBuild, cs, property, seconds)
         == InitEffect(true, cs, Some(InitializeLib(IosWrapper, cs, property, seconds)))
  {
  }

  /** With the default timeout of 3 seconds, Android receives 3000
      milliseconds. */
  lemma DefaultTimeout(cs: seq<SpCampaign>, property: Property)
    requires exists i | 0 <= i < |cs| :: !IsIos14(cs[i])
    ensures InitializeSpec(Android, AndroidBuild, cs, property, DefaultMessageTimeoutInSeconds).native
         == Some(InitializeLib(AndroidWrapper, WithoutIos14(cs), property, 3000))
  {
    AndroidInitializeArguments(cs, property, DefaultMessageTimeoutInSeconds);
  }

  /** On iOS `LoadPrivacyManager` opens the GDPR manager for GDPR and the
      CCPA manager for CCPA, and makes no call for any other type. */
  lemma IosPrivacyManagerMapping(campaignType: CampaignType, pmId: Option<string>, tab: PrivacyManagerTab)
    ensures LoadPrivacyManager(IPhonePlayer, IosBuild, campaignType, pmId, tab)
         == (match campaignType
             case GDPR => [LoadGdprPrivacyManager(pmId, tab)]
             case CCPA => [LoadCcpaPrivacyManager(pmId, tab)]
             case IOS14 => [])
  {
  }

  /** Every forward makes at most one call, and only to the wrapper that
      the build target and the runtime platform select. */
  lemma ForwardsReachTheBoundWrapper(p: RuntimePlatform, t: BuildTarget, authId: Option<string>,
    campaignType: CampaignType, pmId: Option<string>, tab: PrivacyManagerTab,
    vendors: StringArray, categories: StringArray, legIntCategories: StringArray,
    onSuccess: Option<CallbackRef>, consents: Option<SpConsents>, custom: Option<GdprConsent>)
    ensures |LoadMessage(p, t, authId)| <= 1
    ensures |LoadPrivacyManager(p, t, campaignType, pmId, tab)| <= 1
    ensures |CustomConsentGDPR(p, t, vendors, categories, legIntCategories, onSuccess)| <= 1
    ensures |Dispose(p, t)| <= 1
    ensures |GetSpConsents(p, t, consents).calls| <= 1
    ensures |GetCustomConsent(p, t, custom).calls| <= 1
    ensures forall c | c in LoadMessage(p, t, authId) :: Target(c) == Binding(p, t)
    ensures forall c | c in LoadPrivacyManager(p, t, campaignType, pmId, tab) :: Target(c) == Binding(p, t)
    ensures forall c | c in CustomConsentGDPR(p, t, vendors, categories, legIntCategories, onSuccess) :: Target(c) == Binding(p, t)
    ensures forall c | c in Dispose(p, t) :: Target(c) == Binding(p, t)
    ensures forall c | c in GetSpConsents(p, t, consents).calls :: Target(c) == Binding(p, t)
    ensures forall c | c in GetCustomConsent(p, t, custom).calls :: Target(c) == Binding(p, t)
  {
  }

  /** `GetSpConsents` and `GetCustomConsent` return null and call nothing
      when the runtime platform does not match the build target, and
      return exactly the wrapper's value when it does. */
  lemma GettersOffPlatform(p: RuntimePlatform, t: BuildTarget, consents: Option<SpConsents>, custom: Option<GdprConsent>)
    ensures Binding(p, t).None? ==> GetSpConsents(p, t, consents) == Fetch([], None)
    ensures Binding(p, t).None? ==> GetCustomConsent(p, t, custom) == Fetch([], None)
    ensures Binding(p, t).Some? ==> GetSpConsents(p, t, consents).value == consents
    ensures Binding(p, t).Some? ==> GetCustomConsent(p, t, custom).value == custom
  {
  }

  /** The editor checks in `LoadMessage` and `LoadPrivacyManager` never
      change a result: no editor platform passes a runtime platform check. */
  lemma EditorIsNeverBound(p: RuntimePlatform, t: BuildTarget)
    requires IsEditor(p)
    ensures Binding(p, t) == None
  {
  }
}
