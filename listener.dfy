/** The notification listener's handling of a tracking notification: every
    configuration entry whose normalised agent name is the Google Analytics
    name is handed, as it is, to the Google Analytics helper, provided that
    helper class exists in the host. The names of the "agent name" key, the
    Google Analytics constant and the presence of the helper class are
    parameters; each handed-over entry is one element of the invocation log. */
module Listener {
  import opened Events
  import opened AgentNames

  /** `eachConfig[agentNameKey] as? String`. */
  function AgentName(entry: Dict, agentNameKey: string): (r: Option<string>)
    ensures r.Some? <==> agentNameKey in entry && entry[agentNameKey].Text?
    ensures r.Some? ==> entry[agentNameKey] == Text(r.value)
  {
    if agentNameKey in entry && entry[agentNameKey].Text? then Some(entry[agentNameKey].text) else None
  }

  predicate RoutesToGoogle(entry: Dict, agentNameKey: string, googleAnalytics: string) {
    Normalize(AgentName(entry, agentNameKey)) == Some(googleAnalytics)
  }

  /** Reference definition: the entries that route to Google Analytics, in list order. */
  function GoogleEntries(configs: seq<Dict>, agentNameKey: string, googleAnalytics: string): (r: seq<Dict>)
    ensures |r| <= |configs|
    ensures forall e :: e in r ==> e in configs && RoutesToGoogle(e, agentNameKey, googleAnalytics)
  {
    if configs == [] then []
    else (if RoutesToGoogle(configs[0], agentNameKey, googleAnalytics) then [configs[0]] else [])
         + GoogleEntries(configs[1..], agentNameKey, googleAnalytics)
  }

  /** The backend invocations a tracking notification causes. */
  function Invocations(notification: Option<TrackingEvent>, agentNameKey: string,
                       googleAnalytics: string, helperPresent: bool): (r: seq<Dict>)
    ensures r != [] ==> helperPresent && notification.Some? && notification.value.configuration.Some?
    ensures r != [] ==> |r| <= |notification.value.configuration.value|
    ensures r != [] ==> forall e :: e in r ==>
              e in notification.value.configuration.value && RoutesToGoogle(e, agentNameKey, googleAnalytics)
  {
    if notification.Some? && notification.value.configuration.Some? && helperPresent
    then GoogleEntries(notification.value.configuration.value, agentNameKey, googleAnalytics)
    else []
  }

  lemma {:induction false} GoogleEntriesAppend(a: seq<Dict>, b: seq<Dict>, agentNameKey: string, googleAnalytics: string)
    ensures GoogleEntries(a + b, agentNameKey, googleAnalytics)
         == GoogleEntries(a, agentNameKey, googleAnalytics) + GoogleEntries(b, agentNameKey, googleAnalytics)
  {
    if a == [] {
      assert a + b == b;
    } else {
      assert (a + b)[0] == a[0];
      assert (a + b)[1..] == a[1..] + b;
      GoogleEntriesAppend(a[1..], b, agentNameKey, googleAnalytics);
    }
  }

  /** `trackAnEvent`: one invocation per Google Analytics entry, each with that entry's own dictionary. */
  method TrackAnEvent(notification: Option<TrackingEvent>, agentNameKey: string,
                      googleAnalytics: string, helperPresent: bool)
    returns (invocations: seq<Dict>)
    ensures invocations == Invocations(notification, agentNameKey, googleAnalytics, helperPresent)
  {
    invocations := [];
    if notification.Some? {
      var configurations := notification.value.configuration;
      if configurations.Some? && |configurations.value| > 0 {
        var list := configurations.value;
        for i := 0 to |list|
          invariant invocations == if helperPresent then GoogleEntries(list[..i], agentNameKey, googleAnalytics) else []
        {
          var cleanString := Normalize(AgentName(list[i], agentNameKey));
          if cleanString == Some(googleAnalytics) {
            if helperPresent {
              invocations := invocations + [list[i]];
            }
          }
          assert list[..i + 1] == list[..i] + [list[i]];
          GoogleEntriesAppend(list[..i], [list[i]], agentNameKey, googleAnalytics);
        }
        assert list[..|list|] == list;
      }
    }
  }

  /** An entry is invoked exactly when it is in the list and routes to Google Analytics. */
  lemma {:induction false} GoogleEntriesMembership(configs: seq<Dict>, e: Dict, agentNameKey: string, googleAnalytics: string)
    ensures e in GoogleEntries(configs, agentNameKey, googleAnalytics)
        <==> e in configs && RoutesToGoogle(e, agentNameKey, googleAnalytics)
  {
    if configs != [] {
      GoogleEntriesMembership(configs[1..], e, agentNameKey, googleAnalytics);
      assert configs == [configs[0]] + configs[1..];
    }
  }

  /** An entry with any other name is skipped without affecting the others. */
  lemma OtherEntrySkipped(a: seq<Dict>, e: Dict, b: seq<Dict>, agentNameKey: string, googleAnalytics: string)
    requires !RoutesToGoogle(e, agentNameKey, googleAnalytics)
    ensures GoogleEntries(a + [e] + b, agentNameKey, googleAnalytics) == GoogleEntries(a + b, agentNameKey, googleAnalytics)
  {
    assert GoogleEntries([e], agentNameKey, googleAnalytics) == [] by {
      assert [e][1..] == [];
    }
    calc {
      GoogleEntries(a + [e] + b, agentNameKey, googleAnalytics);
      { GoogleEntriesAppend(a + [e], b, agentNameKey, googleAnalytics); }
      GoogleEntries(a + [e], agentNameKey, googleAnalytics) + GoogleEntries(b, agentNameKey, googleAnalytics);
      { GoogleEntriesAppend(a, [e], agentNameKey, googleAnalytics); }
      GoogleEntries(a, agentNameKey, googleAnalytics) + GoogleEntries(b, agentNameKey, googleAnalytics);
      { GoogleEntriesAppend(a, b, agentNameKey, googleAnalytics); }
      GoogleEntries(a + b, agentNameKey, googleAnalytics);
    }
  }

  /** Every entry causes an invocation exactly when every entry routes to Google Analytics. */
  lemma {:induction false} AllEntriesInvoked(configs: seq<Dict>, agentNameKey: string, googleAnalytics: string)
    ensures |GoogleEntries(configs, agentNameKey, googleAnalytics)| == |configs|
        <==> forall e :: e in configs ==> RoutesToGoogle(e, agentNameKey, googleAnalytics)
  {
    if configs != [] {
      AllEntriesInvoked(configs[1..], agentNameKey, googleAnalytics);
      assert configs == [configs[0]] + configs[1..];
      assert |GoogleEntries(configs[1..], agentNameKey, googleAnalytics)| <= |configs[1..]|;
    }
  }

  /** The helper is handed only the entry itself: the event's custom arguments
      and app info never reach a backend. */
  lemma EventExtrasNotForwarded(configuration: Option<seq<Dict>>, args1: Option<Dict>, info1: AppInfo,
                                args2: Option<Dict>, info2: AppInfo, agentNameKey: string,
                                googleAnalytics: string, helperPresent: bool)
    ensures Invocations(Some(TrackingEvent(configuration, args1, info1)), agentNameKey, googleAnalytics, helperPresent)
         == Invocations(Some(TrackingEvent(configuration, args2, info2)), agentNameKey, googleAnalytics, helperPresent)
  {
  }

  /** A Google Analytics constant that is not itself in normal form matches no entry at all. */
  lemma {:induction false} UncleanConstantMatchesNothing(configs: seq<Dict>, agentNameKey: string, googleAnalytics: string)
    requires '_' in googleAnalytics || '-' in googleAnalytics || !IsLowercase(googleAnalytics)
    ensures GoogleEntries(configs, agentNameKey, googleAnalytics) == []
  {
    if configs != [] {
      var cleaned := Normalize(AgentName(configs[0], agentNameKey));
      assert cleaned.Some? ==> '_' !in cleaned.value && '-' !in cleaned.value && IsLowercase(cleaned.value);
      assert !RoutesToGoogle(configs[0], agentNameKey, googleAnalytics);
      UncleanConstantMatchesNothing(configs[1..], agentNameKey, googleAnalytics);
    }
  }
}
