/** Values shared by the tracking engine and its notification listener: optional
    values, the loosely typed dictionaries that configurations and custom
    arguments are made of, and the two payloads posted on the notification centre. */
module Events {

  datatype Option<+T> = None | Some(value: T)

  /** A dictionary value (`AnyObject` in the source), reduced to what the core
      inspects of it: whether it is a string. */
  datatype Value = Text(text: string) | Number(number: int) | Flag(flag: bool)

  /** `Dictionary<String, AnyObject>`: one configuration entry, or the custom arguments. */
  type Dict = map<string, Value>

  /** Host application identity, as read from the main bundle on every post. */
  datatype AppInfo = AppInfo(version: Option<string>, build: Option<string>,
                             bundleID: Option<string>, appName: Option<string>)

  /** Payload of the tracking notification: the keys "configuration",
      "custom_arguments" and "app_info"; an absent key is `None`. */
  datatype TrackingEvent = TrackingEvent(configuration: Option<seq<Dict>>,
                                         customArguments: Option<Dict>,
                                         appInfo: AppInfo)

  /** Payload of the crash notification: the keys "type", "crash_report" and "app_info". */
  datatype CrashEvent = CrashEvent(kind: string, crashReport: string, appInfo: AppInfo)

  /** One post on the notification centre, under the tracking or the crash notification name. */
  datatype Posted = Tracking(tracking: TrackingEvent) | Crash(crash: CrashEvent)
}
