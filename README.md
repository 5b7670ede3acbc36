# ATTAnalytics tracking engine — a Dafny model

ATTAnalytics is an iOS instrumentation library. It hooks two host extension points by exchanging method implementations:

- the view controllers' lifecycle method (`viewWillAppear:` and so on);
- `UIApplication`'s `sendAction(_:to:from:for:)`.

Each occurrence becomes a lookup key, and the key is matched against the configuration. A non-empty match is posted on the notification centre as a tracking event. The library's notification listener then hands every matched entry whose agent name normalises to the Google Analytics name to the Google Analytics helper. At startup the library also rotates its per-day crash-log files and posts the last captured log as a crash event.

The model has six modules:

- `Events` (events.dfy): optional values, the loosely typed dictionaries, app info and the two notification payloads.
- `AgentNames` (agent_names.dfy): `hiphenRemovedLowercaseString`, with an independent one-pass reading (`Skeleton`) it is proved equal to.
- `Listener` (listener.dfy): the loop of `trackAnEvent`. It returns the log of backend invocations and is proved equal to a filter, `GoogleEntries`.
- `CrashLog` (crash_log.dfy): the `CrashlogAsOn-dd-MM-yyyy.log` names and the rotation. The rotation is written as functions on a map from file name to content.
- `Hooks` (hooks.dfy): the pure decisions. These are which options install which hook, the lifecycle selector per state-tracking method, the screen denylist, and when a match or a crash log is posted.
- `Tracking` (tracking.dfy): the class `Analytics`. It holds the helper object's fields, and its methods change them step by step as the source does.

How collaborators are modelled:

- Each hook is a boolean "implementations exchanged" flag that every exchange toggles.
- The notification centre is the ghost sequence `posted`.
- Calls of the host's original `sendAction` are the ghost sequence `originalSends`. Each call is recorded with the exchange flag at that moment.
- The configuration parser and the property-list reader are functions given to the constructor.
- The dates "today" and "yesterday", the backend key and constant names, and whether the helper class exists are parameters.

Three client methods show the contracts in use:

- `Tracking.CommandHookScenario`: a command aimed at a container class is still reported. The original action runs with the exchange undone.
- `Tracking.CrashLoggingScenario`: a second crash-logging registration posts nothing, and an older day's file survives.
- `Tracking.DoubleStartScenario`: starting automatic tracking twice with the same lifecycle method undoes both hooks. This is why the installation must happen only once.

On these points the model follows the code, which may surprise a reader:

- The container denylist (UINavigationController, UITabBarController, UIInputWindowController) is applied by the screen-change hook `trackScreenChange`. The command hook `trackIBActionInvocation` has no denylist.
- `readLastSavedCrashLog` removes yesterday's file before it reads today's. The order matters only when the two dates coincide.
- `readLastSavedCrashLog` removes yesterday's file without reading it, so a log captured the day before is lost when the next start falls on the following day (`CrashLog.YesterdaysLogDiscarded`).
- The listener hands the Google Analytics helper only the configuration entry itself. A tracking event's custom arguments and app info never reach a backend (`Listener.EventExtrasNotForwarded`).
- When `stateTrackingMethod` is nil, the source neither skips the lifecycle hook nor picks a selector. It exchanges whatever selector was stored before, and traps if there is none. The model makes that trap a precondition.

## Model

| member | source | states |
|---|---|---|
| `AgentNames.Normalize` | ATTAnalytics/ATTNotificationListener.swift:69-76 | the result is missing exactly when the name is missing; a present result has no `_`, no `-` and no upper-case letter |
| `AgentNames.Removing` | ATTAnalytics/ATTNotificationListener.swift:71-72 | the removed character is gone and every other character is kept |
| `AgentNames.RemovingMultiset` | ATTAnalytics/ATTNotificationListener.swift:71-72 | removing a character keeps every occurrence of every other character: the multiset loses exactly that character |
| `AgentNames.RemovingAppend` | ATTAnalytics/ATTNotificationListener.swift:71-72 | removing from a concatenation is removing from each part, so the kept characters stay in their order |
| `AgentNames.Lowercased` | ATTAnalytics/ATTNotificationListener.swift:72 | same length, every character case-folded in place |
| `AgentNames.Cleaned` | ATTAnalytics/ATTNotificationListener.swift:71-72 | the chained replacements leave no separator and no upper-case letter |
| `AgentNames.CleanedIsSkeleton` | ATTAnalytics/ATTNotificationListener.swift:71-72 | the two-pass replacement chain equals the one-pass "drop separators, fold case" reading on every string |
| `AgentNames.NormalizeIdempotent` | ATTAnalytics/ATTNotificationListener.swift:71-72 | normalising twice equals normalising once |
| `AgentNames.NormalFormIsFixed` | ATTAnalytics/ATTNotificationListener.swift:71-72 | a lowercase name without separators normalises to itself |
| `AgentNames.NormalizeEqualIff` | ATTAnalytics/ATTNotificationListener.swift:71-72 | two names normalise equally if and only if their skeletons agree |
| `AgentNames.SeparatorInsensitive` | ATTAnalytics/ATTNotificationListener.swift:71-72 | inserting a `_` or `-` anywhere leaves the normalised name unchanged |
| `AgentNames.CaseInsensitive` | ATTAnalytics/ATTNotificationListener.swift:72 | names differing only in letter case normalise equally |
| `AgentNames.GoogleAnalyticsSpellings` | ATTAnalytics/ATTNotificationListener.swift:69-76 | "Google-Analytics", "google_analytics" and "GoogleAnalytics" all normalise to "googleanalytics" |
| `Listener.AgentName` | ATTAnalytics/ATTNotificationListener.swift:40 | the agent name is present exactly when the entry holds a string under the agent-name key, and it is that string |
| `Listener.Invocations` | ATTAnalytics/ATTNotificationListener.swift:33-60 | no invocation without a notification, a configuration list and the helper class; every invocation is an entry of the list that routes to Google Analytics |
| `Listener.GoogleEntries` | ATTAnalytics/ATTNotificationListener.swift:39-52 | reference filter: no more entries than given, each of them given and routing to Google Analytics |
| `Listener.TrackAnEvent` | ATTAnalytics/ATTNotificationListener.swift:33-60 | the invocation log is exactly the Google Analytics entries, in list order and each as its own dictionary, when the helper exists; it is empty for a missing notification, a missing or empty configuration list, or a missing helper |
| `Listener.GoogleEntriesAppend` | ATTAnalytics/ATTNotificationListener.swift:39-57 | dispatch over two lists is dispatch over the first followed by dispatch over the second, so list order is kept |
| `Listener.GoogleEntriesMembership` | ATTAnalytics/ATTNotificationListener.swift:39-52 | an entry is invoked if and only if it is in the list and its normalised name is the Google Analytics constant |
| `Listener.EventExtrasNotForwarded` | ATTAnalytics/ATTNotificationListener.swift:49-50 | the invocations do not depend on the event's custom arguments or app info: only the entry itself is handed over |
| `Listener.OtherEntrySkipped` | ATTAnalytics/ATTNotificationListener.swift:39-57 | an entry with any other name is skipped without changing the invocations of the rest |
| `Listener.AllEntriesInvoked` | ATTAnalytics/ATTNotificationListener.swift:39-52 | there are as many invocations as entries if and only if every entry routes to Google Analytics |
| `Listener.UncleanConstantMatchesNothing` | ATTAnalytics/ATTNotificationListener.swift:41-43 | a Google Analytics constant containing a separator or an upper-case letter can never be matched |
| `CrashLog.Digits` | ATTAnalytics/ATTAnalytics.swift:309-314 | exactly the given width, every character a decimal digit, and its decimal reading is the number (so it is zero-padded) |
| `CrashLog.FileName` | ATTAnalytics/ATTAnalytics.swift:309-314 | 27 characters: "CrashlogAsOn-", a two-character day field, "-", a two-character month field, "-", a four-character year field, ".log" |
| `CrashLog.FileNameFields` | ATTAnalytics/ATTAnalytics.swift:309-314 | the day, month and year fields of the name are all decimal digits ("dd-MM-yyyy", zero-padded), and each reads back as that date's day, month and year |
| `CrashLog.FileNameInjective` | ATTAnalytics/ATTAnalytics.swift:309-314 | two valid dates have the same file name if and only if they are the same date |
| `CrashLog.RotatedFiles` | ATTAnalytics/ATTAnalytics.swift:275-286 | after the rotation today's file exists and is empty |
| `CrashLog.SavedLog` | ATTAnalytics/ATTAnalytics.swift:275-281 | the text read is today's prior content, or "" when it was absent; it is "" when today and yesterday coincide, since yesterday's file is removed first |
| `CrashLog.RotationOutcome` | ATTAnalytics/ATTAnalytics.swift:270-307 | after a rotation yesterday's file is absent and today's exists and is empty; the text read is today's prior content or ""; every other file is unchanged |
| `CrashLog.OtherDatesUntouched` | ATTAnalytics/ATTAnalytics.swift:293-298 | the file of any third date keeps its presence and content (the retention gap) |
| `CrashLog.YesterdaysLogDiscarded` | ATTAnalytics/ATTAnalytics.swift:275-281 | with no file for today, the text read is "" and yesterday's file is gone, so yesterday's log is never reported |
| `CrashLog.SecondRotationReadsNothing` | ATTAnalytics/ATTAnalytics.swift:283-287 | a rotation right after a rotation reads back the empty string |
| `Hooks.InstallsLifecycleHook` | ATTAnalytics/ATTAnalytics.swift:161 | the lifecycle hook is asked for exactly when state tracking is automatic and the method is missing or names a lifecycle selector |
| `Hooks.InstallsCommandHook` | ATTAnalytics/ATTAnalytics.swift:165 | the command hook is asked for exactly when method tracking is present and not manual |
| `Hooks.ChosenSelector` | ATTAnalytics/ATTAnalytics.swift:327-341 | a method other than `OnNothing` replaces the selector with the one naming that method; a missing method or `OnNothing` keeps the stored selector |
| `Hooks.ReportsScreenChange` | ATTAnalytics/ATTAnalytics.swift:351-353 | a screen is reported exactly when its class is none of UINavigationController, UITabBarController and UIInputWindowController |
| `Hooks.LifecycleSelector` | ATTAnalytics/ATTAnalytics.swift:327-341 | exactly one lifecycle selector per state-tracking method, none for `OnNothing`, and the selector names its method back |
| `Hooks.LifecycleSelectorInjective` | ATTAnalytics/ATTAnalytics.swift:327-341 | two methods choose the same selector if and only if they are the same method |
| `Hooks.TrackingPost` | ATTAnalytics/ATTAnalytics.swift:200-203 | at most one post; one if and only if the parser's answer is present and non-empty; it carries that answer, the custom arguments and the app info |
| `Hooks.CrashPost` | ATTAnalytics/ATTAnalytics.swift:133-142 | at most one post; one if and only if the text read is non-empty; it has type "CrashLogTracking", the text and the app info |
| `Tracking.ConfigurationDictionary` | ATTAnalytics/ATTAnalytics.swift:207-218 | no dictionary without a path; with a path, the property list read at that path |
| `Tracking.PostedMatchReachesBackends` | ATTAnalytics/ATTNotificationListener.swift:35-57 | the tracking event posted for a non-empty match makes the listener invoke exactly that match's Google Analytics entries |
| `Tracking.SecondCrashRegistrationPostsNothing` | ATTAnalytics/ATTAnalytics.swift:130-144 | registering for crash logging right after a registration posts no crash event |
| `Tracking.Analytics.constructor` | ATTAnalytics/ATTAnalytics.swift:34-48 | a new helper has no parser, no listener, no stored method, path or selector, no exchanged hook and no posts |
| `Tracking.Analytics.StartTrackingWithConfigurationFile` | ATTAnalytics/ATTAnalytics.swift:73-78 | stores the path and `OnNothing`, creates parser and listener, and installs no hook |
| `Tracking.Analytics.StartTrackingWithConfigurationFileOptions` | ATTAnalytics/ATTAnalytics.swift:80-93 | stores path and method; the parser is built from the property list at the path; each hook is exchanged exactly when its option asks for it; the selector is the chosen one |
| `Tracking.Analytics.StartTrackingWithConfiguration` | ATTAnalytics/ATTAnalytics.swift:95-100 | creates parser and listener from the dictionary, stores `OnNothing`, and installs no hook |
| `Tracking.Analytics.StartTrackingWithConfigurationOptions` | ATTAnalytics/ATTAnalytics.swift:102-114 | like the file variant, but builds the parser from the given dictionary and leaves the stored path alone |
| `Tracking.Analytics.CreateConfigParser` | ATTAnalytics/ATTAnalytics.swift:147-150 | the parser is the one built from the given configurations |
| `Tracking.Analytics.CreateNotificationListener` | ATTAnalytics/ATTAnalytics.swift:152-155 | a listener is registered afterwards |
| `Tracking.Analytics.ConfigureSwizzling` | ATTAnalytics/ATTAnalytics.swift:157-168 | the lifecycle hook toggles if and only if state tracking is automatic and the method is not `OnNothing` (a nil method counts); the command hook toggles if and only if method tracking is automatic; nothing else changes |
| `Tracking.Analytics.SwizzileLifeCycleMethods` | ATTAnalytics/ATTAnalytics.swift:318-320 | sets the chosen selector and toggles the lifecycle exchange |
| `Tracking.Analytics.SwizzileLifecycleMethodImplementation` | ATTAnalytics/ATTAnalytics.swift:322-346 | the selector becomes the one named by the stored method (kept when none is named), is present afterwards, and the lifecycle exchange toggles |
| `Tracking.Analytics.SwizzileCustomMethods` | ATTAnalytics/ATTAnalytics.swift:367-377 | the command exchange toggles |
| `Tracking.Analytics.TrackScreenChange` | ATTAnalytics/ATTAnalytics.swift:349-357 | posts nothing for the three container classes; otherwise posts what the parser answers for (class, chosen selector, State) with no custom arguments |
| `Tracking.Analytics.TrackIBActionInvocation` | ATTAnalytics/ATTAnalytics.swift:380-390 | posts what the parser answers for (target class, action, Event) when the target is an object, with no denylist and no custom arguments; the original action runs once with the exchange undone; the hook ends as it started |
| `Tracking.Analytics.RegisterForTracking` | ATTAnalytics/ATTAnalytics.swift:118-126 | the lookup has no class, no selector and kind Event; the caller's custom arguments are posted unchanged |
| `Tracking.Analytics.TrackConfigurationForClass` | ATTAnalytics/ATTAnalytics.swift:189-204 | the parser is asked with the given key, and its answer is posted as `TrackingPost` describes |
| `Tracking.Analytics.RegisteredAnEvent` | ATTAnalytics/ATTAnalytics.swift:239-250 | exactly one tracking event is appended, with the configuration, custom arguments and app info |
| `Tracking.Analytics.RegisterForCrashLogging` | ATTAnalytics/ATTAnalytics.swift:130-144 | the cache directory is rotated and a crash event is posted if and only if the text read back is non-empty |
| `Tracking.Analytics.ReadLastSavedCrashLog` | ATTAnalytics/ATTAnalytics.swift:270-288 | the cache directory becomes its rotation and the text returned is today's file as found after yesterday's was removed |
| `Tracking.Analytics.ClearYesterdaysCrashLog` | ATTAnalytics/ATTAnalytics.swift:293-298 | only yesterday's file is removed |
| `Tracking.Analytics.RemoveCrashLogOn` | ATTAnalytics/ATTAnalytics.swift:304-307 | only that date's file is removed; removing an absent file changes nothing |
| `Tracking.Analytics.CreateCrashLogFile` | ATTAnalytics/ATTAnalytics.swift:300-302 | the file exists afterwards, empty when it was absent and unchanged otherwise |

## Left out

- Objective-C method exchange and the UIKit lifecycle. Each exchange is a toggle of one flag.
- Tracking.Analytics.ConfigureSwizzling: the single lifecycle flag is exact only while the selector stays the same between exchanges. A second start with a different lifecycle method exchanges a second host method with `trackScreenChange`, which then holds the first host method's implementation. The model shows that as "no hook", while the host would have one method still hooked and another running the wrong implementation. The host's original lifecycle method is not part of this model; `trackScreenChange` does not call it, and the model records nothing for it.
- Notification-centre delivery and observer bookkeeping. Posts are a ghost log, and a registered listener is one flag. `Tracking.PostedMatchReachesBackends` connects a post to the listener's dispatch instead of modelling delivery.
- `ATTConfigParser.findConfigurationForClass` and `ATTConfigConstants` are not part of this model. The parser is an abstract function from lookup key to an optional list of entries. The state/event key strings are represented by the `StateType` value itself. The agent-name key and the Google Analytics constant are parameters.
- Tracking.Analytics.TrackConfigurationForClass: requires a parser to be present, because the optional chain at ATTAnalytics/ATTAnalytics.swift:231-234 is force-unwrapped. The nil test at line 200 never fires in the source: a nil answer, if the parser can give one, traps at lines 231-234. The model posts nothing for a nil answer instead of trapping.
- Tracking.Analytics.SwizzileLifecycleMethodImplementation: requires a selector to be available, because the nil selector at ATTAnalytics/ATTAnalytics.swift:343 is force-unwrapped.
- The `stateType` argument is optional in the source, but every caller passes a value, so it is not optional in the model.
- `Bundle.main` app info (ATTAnalytics/ATTAnalytics.swift:252-267) is a constant given to the constructor.
- Reading the property list (ATTAnalytics/ATTAnalytics.swift:207-218) is an abstract function of the path.
- `FileManager`, `NSData` and the `freopen` redirection of stderr are replaced by the map from file name to content.
- Tracking.Analytics.ReadLastSavedCrashLog: assumes today's file, when present, can be read and decoded as UTF-8. Its content is returned as it is.
- Tracking.Analytics.ReadLastSavedCrashLog: uses one "today" for reading, removing and recreating. The source asks for the current date three times, and a rotation across midnight is left out.
- The writes of the diagnostic stream into the capture file are not modelled.
- CrashLog.FileName: defined for dates with day 1-31, month 1-12 and year 1-9999. The formatter's output for other years and its locale/calendar handling are left out. Real dates always fall in this range.
- `DateFormatter`/`Calendar` date arithmetic: "today" and "yesterday" come from the caller.
- AgentNames.Lowercased: lowercases ASCII letters only. Swift's `lowercased()` is Unicode-aware.
- `NSClassFromString`/`perform` reflection is a "helper present" flag, and each invocation is one entry of the returned log.
- The empty Firebase branch (ATTAnalytics/ATTNotificationListener.swift:54-56) is left out, since it does nothing.
- `trackACrash` (ATTAnalytics/ATTNotificationListener.swift:62-67) is left out, since it only prints.
- `print` calls and `deinit` are left out.
