/** The tracking helper object: its start-tracking entry points, the two hooks
    (modelled as "implementations exchanged" flags), manual registration, the
    posts it makes on the notification centre (a ghost log) and the rotation of
    crash-log files in its cache directory (a map from file name to content). */
module Tracking {
  import opened Events
  import opened Hooks
  import opened CrashLog
  import Listener

  /** `configurationDictionary`: the property list stored at the path, when a path is given. */
  function ConfigurationDictionary(plistAt: string -> Option<Dict>, path: Option<string>): (r: Option<Dict>)
    ensures path.None? ==> r.None?
    ensures r.Some? ==> path.Some? && plistAt(path.value) == r
    ensures path.Some? ==> r == plistAt(path.value)
  {
    if path.Some? then plistAt(path.value) else None
  }

  class Analytics {
    /** `NSDictionary(contentsOfFile:)`, which is not part of this model. */
    const plistAt: string -> Option<Dict>
    /** `ATTConfigParser(configurations:)`, which is not part of this model. */
    const parserFor: Option<Dict> -> Matcher
    /** The main bundle's identity, read on every post. */
    const appInfo: AppInfo

    var stateTrackingMethod: Option<StateTrackingMethod>
    var configParser: Option<Matcher>
    /** Whether a notification listener is currently registered as observer. */
    var listenerActive: bool
    var configurationFilePath: Option<string>
    var stateChangeTrackingSelector: Option<string>
    /** Whether the chosen lifecycle method and `trackScreenChange` have exchanged implementations. */
    var lifecycleExchanged: bool
    /** Whether `sendAction(_:to:from:for:)` and `trackIBActionInvocation` have exchanged implementations. */
    var actionExchanged: bool
    /** The cache directory. */
    var files: FileSystem
    /** Every post on the notification centre, in order. */
    ghost var posted: seq<Posted>
    /** Every call of the host's `sendAction`, with the command hook's exchange flag at that moment. */
    ghost var originalSends: seq<(string, bool)>

    constructor (plistAt: string -> Option<Dict>, parserFor: Option<Dict> -> Matcher, appInfo: AppInfo, files: FileSystem)
      ensures this.plistAt == plistAt && this.parserFor == parserFor && this.appInfo == appInfo
      ensures this.files == files
      ensures stateTrackingMethod == None && configParser == None && !listenerActive
      ensures configurationFilePath == None && stateChangeTrackingSelector == None
      ensures !lifecycleExchanged && !actionExchanged
      ensures posted == [] && originalSends == []
    {
      this.plistAt := plistAt;
      this.parserFor := parserFor;
      this.appInfo := appInfo;
      this.files := files;
      stateTrackingMethod := None;
      configParser := None;
      listenerActive := false;
      configurationFilePath := None;
      stateChangeTrackingSelector := None;
      lifecycleExchanged := false;
      actionExchanged := false;
      posted := [];
      originalSends := [];
    }

    // ---------------------------------------------------------------- start tracking

    /** The one-argument file entry point: manual tracking only, so no hook is touched. */
    method StartTrackingWithConfigurationFile(pathForFile: Option<string>)
      modifies this`configurationFilePath, this`stateTrackingMethod, this`configParser, this`listenerActive,
               this`stateChangeTrackingSelector, this`lifecycleExchanged, this`actionExchanged
      ensures configurationFilePath == pathForFile
      ensures this.stateTrackingMethod == Some(OnNothing)
      ensures configParser == Some(parserFor(ConfigurationDictionary(plistAt, pathForFile)))
      ensures listenerActive
      ensures lifecycleExchanged == old(lifecycleExchanged) && actionExchanged == old(actionExchanged)
      ensures stateChangeTrackingSelector == old(stateChangeTrackingSelector)
    {
      StartTrackingWithConfigurationFileOptions(pathForFile, Some(Manual), Some(OnNothing), Some(Manual));
    }

    method StartTrackingWithConfigurationFileOptions(pathForFile: Option<string>, stateTracking: Option<TrackingType>,
                                                     stateTrackingMethod: Option<StateTrackingMethod>,
                                                     methodTracking: Option<TrackingType>)
      requires InstallsLifecycleHook(stateTracking, stateTrackingMethod) ==>
                 ChosenSelector(stateTrackingMethod, stateChangeTrackingSelector).Some?
      modifies this`configurationFilePath, this`stateTrackingMethod, this`configParser, this`listenerActive,
               this`stateChangeTrackingSelector, this`lifecycleExchanged, this`actionExchanged
      ensures configurationFilePath == pathForFile
      ensures this.stateTrackingMethod == stateTrackingMethod
      ensures configParser == Some(parserFor(ConfigurationDictionary(plistAt, pathForFile)))
      ensures listenerActive
      ensures lifecycleExchanged == (old(lifecycleExchanged) != InstallsLifecycleHook(stateTracking, stateTrackingMethod))
      ensures actionExchanged == (old(actionExchanged) != InstallsCommandHook(methodTracking))
      ensures stateChangeTrackingSelector ==
                if InstallsLifecycleHook(stateTracking, stateTrackingMethod)
                then ChosenSelector(stateTrackingMethod, old(stateChangeTrackingSelector))
                else old(stateChangeTrackingSelector)
    {
      configurationFilePath := pathForFile;
      this.stateTrackingMethod := stateTrackingMethod;
      CreateConfigParser(ConfigurationDictionary(plistAt, configurationFilePath));
      CreateNotificationListener();
      ConfigureSwizzling(stateTracking, stateTrackingMethod, methodTracking);
    }

    /** The one-argument dictionary entry point: manual tracking only, so no hook is touched. */
    method StartTrackingWithConfiguration(configuration: Option<Dict>)
      modifies this`stateTrackingMethod, this`configParser, this`listenerActive,
               this`stateChangeTrackingSelector, this`lifecycleExchanged, this`actionExchanged
      ensures this.stateTrackingMethod == Some(OnNothing)
      ensures configParser == Some(parserFor(configuration))
      ensures listenerActive
      ensures lifecycleExchanged == old(lifecycleExchanged) && actionExchanged == old(actionExchanged)
      ensures stateChangeTrackingSelector == old(stateChangeTrackingSelector)
    {
      StartTrackingWithConfigurationOptions(configuration, Some(Manual), Some(OnNothing), Some(Manual));
    }

    /** Unlike the file entry point, this one leaves the stored file path alone. */
    method StartTrackingWithConfigurationOptions(configuration: Option<Dict>, stateTracking: Option<TrackingType>,
                                                 stateTrackingMethod: Option<StateTrackingMethod>,
                                                 methodTracking: Option<TrackingType>)
      requires InstallsLifecycleHook(stateTracking, stateTrackingMethod) ==>
                 ChosenSelector(stateTrackingMethod, stateChangeTrackingSelector).Some?
      modifies this`stateTrackingMethod, this`configParser, this`listenerActive,
               this`stateChangeTrackingSelector, this`lifecycleExchanged, this`actionExchanged
      ensures this.stateTrackingMethod == stateTrackingMethod
      ensures configParser == Some(parserFor(configuration))
      ensures listenerActive
      ensures lifecycleExchanged == (old(lifecycleExchanged) != InstallsLifecycleHook(stateTracking, stateTrackingMethod))
      ensures actionExchanged == (old(actionExchanged) != InstallsCommandHook(methodTracking))
      ensures stateChangeTrackingSelector ==
                if InstallsLifecycleHook(stateTracking, stateTrackingMethod)
                then ChosenSelector(stateTrackingMethod, old(stateChangeTrackingSelector))
                else old(stateChangeTrackingSelector)
    {
      this.stateTrackingMethod := stateTrackingMethod;
      CreateConfigParser(configuration);
      CreateNotificationListener();
      ConfigureSwizzling(stateTracking, stateTrackingMethod, methodTracking);
    }

    method CreateConfigParser(configurations: Option<Dict>)
      modifies this`configParser
      ensures configParser == Some(parserFor(configurations))
    {
      configParser := None;
      configParser := Some(parserFor(configurations));
    }

    /** The previous listener, if any, stops observing; a new one starts. */
    method CreateNotificationListener()
      modifies this`listenerActive
      ensures listenerActive
    {
      listenerActive := false;
      listenerActive := true;
    }

    // ---------------------------------------------------------------- hook installation

    /** Each hook is exchanged once when its option asks for it. A second
        exchange with the same selector undoes the first, so installation must
        happen only once. */
    method ConfigureSwizzling(stateTracking: Option<TrackingType>, stateTrackingMethod: Option<StateTrackingMethod>,
                              methodTracking: Option<TrackingType>)
      requires InstallsLifecycleHook(stateTracking, stateTrackingMethod) ==>
                 ChosenSelector(this.stateTrackingMethod, stateChangeTrackingSelector).Some?
      modifies this`stateChangeTrackingSelector, this`lifecycleExchanged, this`actionExchanged
      ensures lifecycleExchanged == (old(lifecycleExchanged) != InstallsLifecycleHook(stateTracking, stateTrackingMethod))
      ensures actionExchanged == (old(actionExchanged) != InstallsCommandHook(methodTracking))
      ensures stateChangeTrackingSelector ==
                if InstallsLifecycleHook(stateTracking, stateTrackingMethod)
                then ChosenSelector(this.stateTrackingMethod, old(stateChangeTrackingSelector))
                else old(stateChangeTrackingSelector)
    {
      if stateTracking == Some(Automatic) && stateTrackingMethod != Some(OnNothing) {
        SwizzileLifeCycleMethods();
      }
      if methodTracking == Some(Automatic) {
        SwizzileCustomMethods();
      }
    }

    method SwizzileLifeCycleMethods()
      requires ChosenSelector(stateTrackingMethod, stateChangeTrackingSelector).Some?
      modifies this`stateChangeTrackingSelector, this`lifecycleExchanged
      ensures stateChangeTrackingSelector == ChosenSelector(stateTrackingMethod, old(stateChangeTrackingSelector))
      ensures lifecycleExchanged == !old(lifecycleExchanged)
    {
      SwizzileLifecycleMethodImplementation();
    }

    /** The selector is set from the stored method, then the lifecycle method
        named by it is exchanged with `trackScreenChange`. A selector that is
        still missing would trap, hence the precondition. */
    method SwizzileLifecycleMethodImplementation()
      requires ChosenSelector(stateTrackingMethod, stateChangeTrackingSelector).Some?
      modifies this`stateChangeTrackingSelector, this`lifecycleExchanged
      ensures stateChangeTrackingSelector == ChosenSelector(stateTrackingMethod, old(stateChangeTrackingSelector))
      ensures stateChangeTrackingSelector.Some?
      ensures lifecycleExchanged == !old(lifecycleExchanged)
    {
      if stateTrackingMethod == Some(OnViewWillAppear) {
        stateChangeTrackingSelector := Some(VIEW_WILL_APPEAR);
      }
      if stateTrackingMethod == Some(OnViewWillDisappear) {
        stateChangeTrackingSelector := Some(VIEW_WILL_DISAPPEAR);
      }
      if stateTrackingMethod == Some(OnViewDidAppear) {
        stateChangeTrackingSelector := Some(VIEW_DID_APPEAR);
      }
      if stateTrackingMethod == Some(OnViewDidDisappear) {
        stateChangeTrackingSelector := Some(VIEW_DID_DISAPPEAR);
      }
      lifecycleExchanged := !lifecycleExchanged;
    }

    /** Exchanging `sendAction(_:to:from:for:)` with `trackIBActionInvocation`:
        its own inverse. */
    method SwizzileCustomMethods()
      modifies this`actionExchanged
      ensures actionExchanged == !old(actionExchanged)
    {
      actionExchanged := !actionExchanged;
    }

    // ---------------------------------------------------------------- hooks firing

    /** The lifecycle hook: screens of container classes are not reported; any
        other screen is looked up as a state of its class under the chosen selector. */
    method TrackScreenChange(className: string)
      requires configParser.Some?
      modifies this`posted
      ensures posted == old(posted) +
                if ReportsScreenChange(className)
                then TrackingPost(configParser.value(LookupKey(Some(className), stateChangeTrackingSelector, State, None)),
                                  None, appInfo)
                else []
    {
      if className != "UINavigationController"
         && className != "UITabBarController"
         && className != "UIInputWindowController" {
        // autoTrackScreenChanges, then triggerEventForTheVisibleViewController(viewController:)
        TrackConfigurationForClass(Some(className), stateChangeTrackingSelector, State, None, None);
      }
    }

    /** The command hook: a target that is an object is looked up as an event
        of its class under the action (no denylist here); then the exchange is
        undone, the host's original `sendAction` runs, and the exchange is redone. */
    method TrackIBActionInvocation(action: string, target: Option<string>)
      requires configParser.Some?
      modifies this`posted, this`actionExchanged, this`originalSends
      ensures actionExchanged == old(actionExchanged)
      ensures originalSends == old(originalSends) + [(action, !old(actionExchanged))]
      ensures posted == old(posted) +
                if target.Some?
                then TrackingPost(configParser.value(LookupKey(target, Some(action), Event, None)), None, appInfo)
                else []
    {
      if target.Some? {
        // autoTrackMethodInvocationForClass, then triggerEventForTheVisibleViewController(originalClass:selector:)
        TrackConfigurationForClass(target, Some(action), Event, None, None);
      }
      SwizzileCustomMethods();
      originalSends := originalSends + [(action, actionExchanged)];
      SwizzileCustomMethods();
    }

    // ---------------------------------------------------------------- matching and posting

    /** Manual registration: looked up by keyword alone as an event, and the
        caller's custom arguments are passed through. */
    method RegisterForTracking(appSpecificKeyword: Option<string>, customArguments: Option<Dict>)
      requires configParser.Some?
      modifies this`posted
      ensures posted == old(posted) +
                TrackingPost(configParser.value(LookupKey(None, None, Event, appSpecificKeyword)),
                             customArguments, appInfo)
    {
      TrackConfigurationForClass(None, None, Event, appSpecificKeyword, customArguments);
    }

    /** The parser is asked once; a present, non-empty answer is posted. */
    method TrackConfigurationForClass(aClass: Option<string>, selector: Option<string>, stateType: StateType,
                                      appSpecificKeyword: Option<string>, customArguments: Option<Dict>)
      requires configParser.Some?
      modifies this`posted
      ensures posted == old(posted) +
                TrackingPost(configParser.value(LookupKey(aClass, selector, stateType, appSpecificKeyword)),
                             customArguments, appInfo)
    {
      var paramters := configParser.value(LookupKey(aClass, selector, stateType, appSpecificKeyword));
      if paramters.Some? && |paramters.value| > 0 {
        RegisteredAnEvent(paramters, customArguments);
      }
    }

    method RegisteredAnEvent(configuration: Option<seq<Dict>>, customArguments: Option<Dict>)
      modifies this`posted
      ensures posted == old(posted) + [Tracking(TrackingEvent(configuration, customArguments, appInfo))]
    {
      posted := posted + [Tracking(TrackingEvent(configuration, customArguments, appInfo))];
    }

    // ---------------------------------------------------------------- crash logs

    /** Rotates the crash logs and posts a crash event for a non-empty read-back. */
    method RegisterForCrashLogging(today: Date, yesterday: Date)
      requires ValidDate(today) && ValidDate(yesterday)
      modifies this`files, this`posted
      ensures files == RotatedFiles(old(files), today, yesterday)
      ensures posted == old(posted) + CrashPost(SavedLog(old(files), today, yesterday), appInfo)
    {
      var crashLogData := ReadLastSavedCrashLog(today, yesterday);
      if |crashLogData| > 0 {
        posted := posted + [Crash(CrashEvent(CRASH_LOG_TRACKING, crashLogData, appInfo))];
      }
    }

    /** Yesterday's file is removed, today's is read (empty when absent), removed
        and reopened as the capture file. */
    method ReadLastSavedCrashLog(today: Date, yesterday: Date) returns (dataString: string)
      requires ValidDate(today) && ValidDate(yesterday)
      modifies this`files
      ensures files == RotatedFiles(old(files), today, yesterday)
      ensures dataString == SavedLog(old(files), today, yesterday)
    {
      var fileName := FileName(today);
      dataString := "";
      ClearYesterdaysCrashLog(yesterday);
      if fileName in files {
        dataString := files[fileName];
      }
      RemoveCrashLogOn(today);
      CreateCrashLogFile(fileName);
    }

    method ClearYesterdaysCrashLog(yesterday: Date)
      requires ValidDate(yesterday)
      modifies this`files
      ensures files == old(files) - {FileName(yesterday)}
    {
      RemoveCrashLogOn(yesterday);
    }

    /** Removing a file that is not there changes nothing (the failure is swallowed). */
    method RemoveCrashLogOn(onDate: Date)
      requires ValidDate(onDate)
      modifies this`files
      ensures files == old(files) - {FileName(onDate)}
    {
      files := files - {FileName(onDate)};
    }

    /** Reopening the diagnostic stream in append mode creates the file when it is absent. */
    method CreateCrashLogFile(atPath: string)
      modifies this`files
      ensures files == if atPath in old(files) then old(files) else old(files)[atPath := ""]
    {
      if atPath !in files {
        files := files[atPath := ""];
      }
    }
  }

  // ---------------------------------------------------------------- properties across components

  /** A posted match reaches the listener with its whole matched list: the
      backends invoked are exactly the list's Google Analytics entries, in order. */
  lemma PostedMatchReachesBackends(matched: Option<seq<Dict>>, customArguments: Option<Dict>, info: AppInfo,
                                   agentNameKey: string, googleAnalytics: string, helperPresent: bool)
    requires matched.Some? && |matched.value| > 0
    ensures |TrackingPost(matched, customArguments, info)| == 1
    ensures Listener.Invocations(Some(TrackingPost(matched, customArguments, info)[0].tracking),
                                 agentNameKey, googleAnalytics, helperPresent)
         == if helperPresent then Listener.GoogleEntries(matched.value, agentNameKey, googleAnalytics) else []
  {
    assert TrackingPost(matched, customArguments, info)[0] in TrackingPost(matched, customArguments, info);
  }

  /** Registering for crash logging twice in a row, with nothing written in
      between, posts nothing the second time. */
  lemma SecondCrashRegistrationPostsNothing(fs: FileSystem, today: Date, yesterday: Date, info: AppInfo)
    requires ValidDate(today) && ValidDate(yesterday)
    ensures CrashPost(SavedLog(RotatedFiles(fs, today, yesterday), today, yesterday), info) == []
  {
    SecondRotationReadsNothing(fs, today, yesterday);
  }

  /** A hooked command leaves the command hook installed and runs the host's
      original action with the exchange undone; a container target is still reported. */
  method CommandHookScenario(parser: Matcher, info: AppInfo, entry: Dict)
    requires parser(LookupKey(Some("UINavigationController"), Some("done:"), Event, None)) == Some([entry])
  {
    var helper := new Analytics((path: string) => None, (c: Option<Dict>) => parser, info, map[]);
    helper.StartTrackingWithConfigurationOptions(None, Some(Manual), Some(OnNothing), Some(Automatic));
    assert helper.actionExchanged && !helper.lifecycleExchanged;
    helper.TrackIBActionInvocation("done:", Some("UINavigationController"));
    assert helper.actionExchanged;
    assert helper.originalSends == [("done:", false)];
    assert helper.posted == [Tracking(TrackingEvent(Some([entry]), None, info))];
  }

  /** Two crash-logging registrations in a row: the second posts nothing, and
      the file of the day before yesterday is still there afterwards. */
  method CrashLoggingScenario(info: AppInfo, parser: Matcher, today: Date, yesterday: Date, older: Date, log: string)
    requires ValidDate(today) && ValidDate(yesterday) && ValidDate(older)
    requires today != yesterday && older != today && older != yesterday
    requires |log| > 0
  {
    FileNameInjective(today, older);
    var stale := map[FileName(today) := log, FileName(older) := "old crash"];
    var helper := new Analytics((path: string) => None, (c: Option<Dict>) => parser, info, stale);
    RotationOutcome(stale, today, yesterday);
    helper.RegisterForCrashLogging(today, yesterday);
    assert helper.posted == [Crash(CrashEvent(CRASH_LOG_TRACKING, log, info))];
    SecondCrashRegistrationPostsNothing(helper.files, today, yesterday, info);
    helper.RegisterForCrashLogging(today, yesterday);
    assert helper.posted == [Crash(CrashEvent(CRASH_LOG_TRACKING, log, info))];
    OtherDatesUntouched(stale, today, yesterday, older);
    OtherDatesUntouched(RotatedFiles(stale, today, yesterday), today, yesterday, older);
    assert helper.files[FileName(older)] == "old crash";
  }

  /** Starting automatic tracking twice with the same lifecycle method
      exchanges each hook twice, which leaves the host methods as they were
      before the first start. */
  method DoubleStartScenario(info: AppInfo, parser: Matcher)
  {
    var helper := new Analytics((path: string) => None, (c: Option<Dict>) => parser, info, map[]);
    helper.StartTrackingWithConfigurationOptions(None, Some(Automatic), Some(OnViewDidAppear), Some(Automatic));
    assert helper.lifecycleExchanged && helper.actionExchanged;
    assert helper.stateChangeTrackingSelector == Some(VIEW_DID_APPEAR);
    helper.StartTrackingWithConfigurationOptions(None, Some(Automatic), Some(OnViewDidAppear), Some(Automatic));
    assert !helper.lifecycleExchanged && !helper.actionExchanged;
  }
}
