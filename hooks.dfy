/** The decisions the tracking engine makes without touching state: which
    hooks the start-tracking options install, which lifecycle selector a
    state-tracking method names, which screens are never reported, and when a
    match or a crash log turns into a post on the notification centre. */
module Hooks {
  import opened Events

  datatype TrackingType = Automatic | Manual

  datatype StateTrackingMethod =
    OnViewWillAppear | OnViewWillDisappear | OnViewDidAppear | OnViewDidDisappear | OnNothing

  datatype StateType = State | Event

  /** The question put to the configuration parser. */
  datatype LookupKey = LookupKey(aClass: Option<string>, selector: Option<string>,
                                 stateType: StateType, appSpecificKeyword: Option<string>)

  /** `ATTConfigParser.findConfigurationForClass`, which is not part of this model. */
  type Matcher = LookupKey -> Option<seq<Dict>>

  /** Options of `configureSwizzling` that install the lifecycle hook; a missing
      method is not `OnNothing`. */
  predicate InstallsLifecycleHook(stateTracking: Option<TrackingType>, stateTrackingMethod: Option<StateTrackingMethod>)
    ensures InstallsLifecycleHook(stateTracking, stateTrackingMethod) <==>
              stateTracking == Some(Automatic)
              && (stateTrackingMethod.None? || LifecycleSelector(stateTrackingMethod.value).Some?)
  {
    stateTracking == Some(Automatic) && stateTrackingMethod != Some(OnNothing)
  }

  /** Options of `configureSwizzling` that install the command hook. */
  predicate InstallsCommandHook(methodTracking: Option<TrackingType>)
    ensures InstallsCommandHook(methodTracking) <==> methodTracking.Some? && !methodTracking.value.Manual?
  {
    methodTracking == Some(Automatic)
  }

  const VIEW_WILL_APPEAR: string := "viewWillAppear:"
  const VIEW_WILL_DISAPPEAR: string := "viewWillDisappear:"
  const VIEW_DID_APPEAR: string := "viewDidAppear:"
  const VIEW_DID_DISAPPEAR: string := "viewDidDisappear:"

  /** The state-tracking method a lifecycle selector stands for. */
  function MethodOfSelector(selector: string): Option<StateTrackingMethod> {
    if selector == VIEW_WILL_APPEAR then Some(OnViewWillAppear)
    else if selector == VIEW_WILL_DISAPPEAR then Some(OnViewWillDisappear)
    else if selector == VIEW_DID_APPEAR then Some(OnViewDidAppear)
    else if selector == VIEW_DID_DISAPPEAR then Some(OnViewDidDisappear)
    else None
  }

  /** The lifecycle selector a state-tracking method names: exactly one per
      method, none for `OnNothing`. */
  function LifecycleSelector(m: StateTrackingMethod): (r: Option<string>)
    ensures r.None? <==> m == OnNothing
    ensures r.Some? ==> MethodOfSelector(r.value) == Some(m)
  {
    match m
    case OnViewWillAppear => Some(VIEW_WILL_APPEAR)
    case OnViewWillDisappear => Some(VIEW_WILL_DISAPPEAR)
    case OnViewDidAppear => Some(VIEW_DID_APPEAR)
    case OnViewDidDisappear => Some(VIEW_DID_DISAPPEAR)
    case OnNothing => None
  }

  /** The selector after `swizzileLifecycleMethodImplementation` has looked at
      the stored method: replaced when the method names one, kept otherwise. */
  function ChosenSelector(m: Option<StateTrackingMethod>, current: Option<string>): (r: Option<string>)
    ensures m.Some? && m.value != OnNothing ==> r.Some? && MethodOfSelector(r.value) == m
    ensures m.None? || m == Some(OnNothing) ==> r == current
  {
    if m.Some? && m.value != OnNothing then LifecycleSelector(m.value) else current
  }

  /** The selector is never chosen from two different methods. */
  lemma LifecycleSelectorInjective(m1: StateTrackingMethod, m2: StateTrackingMethod)
    ensures LifecycleSelector(m1) == LifecycleSelector(m2) <==> m1 == m2
  {
    if LifecycleSelector(m1) == LifecycleSelector(m2) && LifecycleSelector(m1).Some? {
      assert MethodOfSelector(LifecycleSelector(m1).value) == Some(m1);
      assert MethodOfSelector(LifecycleSelector(m2).value) == Some(m2);
    }
  }

  const CONTAINER_CLASSES: set<string> := {"UINavigationController", "UITabBarController", "UIInputWindowController"}

  /** The denylist of `trackScreenChange`: screens of these container classes are never reported. */
  predicate ReportsScreenChange(className: string)
    ensures ReportsScreenChange(className) <==>
              className != "UINavigationController" && className != "UITabBarController"
              && className != "UIInputWindowController"
  {
    className !in CONTAINER_CLASSES
  }

  /** What `trackConfigurationForClass` posts for a parser result: one tracking
      event carrying the result, the custom arguments and the app info when the
      result is present and non-empty, nothing otherwise. */
  function TrackingPost(matched: Option<seq<Dict>>, customArguments: Option<Dict>, info: AppInfo): (r: seq<Posted>)
    ensures |r| <= 1
    ensures |r| == 1 <==> matched.Some? && |matched.value| > 0
    ensures forall p :: p in r ==> p == Tracking(TrackingEvent(matched, customArguments, info))
  {
    if matched.Some? && |matched.value| > 0
    then [Tracking(TrackingEvent(matched, customArguments, info))]
    else []
  }

  const CRASH_LOG_TRACKING: string := "CrashLogTracking"

  /** What `registerForCrashLogging` posts for the text read back: one crash
      event when the text is non-empty, nothing otherwise. */
  function CrashPost(text: string, info: AppInfo): (r: seq<Posted>)
    ensures |r| <= 1
    ensures |r| == 1 <==> |text| > 0
    ensures forall p :: p in r ==> p == Crash(CrashEvent(CRASH_LOG_TRACKING, text, info))
  {
    if |text| > 0 then [Crash(CrashEvent(CRASH_LOG_TRACKING, text, info))] else []
  }
}
