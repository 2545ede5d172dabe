/**
 * `st.session_state` as an object whose map of entries the app updates in place:
 * initialization, the reset of `go_to_main`, `process_main_prompt`, and one script
 * run (initialize, then pick a renderer).
 */
module SessionStore {
  import opened Wrappers
  import opened Intents
  import opened Cluster
  import opened K8sService
  import opened State
  import opened Views
  import opened MainView

  class Session {
    var entries: map<string, Value>

    /** The store as Streamlit hands it to the script, possibly already holding widget keys. */
    constructor (existing: map<string, Value>)
      ensures entries == existing
    {
      entries := existing;
    }

    /** The invariant every reachable session keeps. */
    predicate Valid(layout: Layout)
      reads this
    {
      Consistent(layout, entries)
    }

    /** `initialize_session_state` of the package: a loop over the defaults dict writing missing keys. */
    method Init()
      modifies this
      ensures entries == Initialized(old(entries))
    {
      ghost var start := entries;
      assert forall j :: 0 <= j < |Defaults| ==> Defaults[j].1 == DefaultOf(Defaults[j].0);
      for n := 0 to |Defaults|
        invariant entries.Keys <= start.Keys + DefaultKeys()
        invariant start.Keys <= entries.Keys
        invariant forall j :: 0 <= j < n ==> Defaults[j].0 in entries
        invariant forall k :: k in entries ==> entries[k] == if k in start then start[k] else DefaultOf(k)
      {
        var key := Defaults[n].0;
        if key !in entries {
          entries := entries[key := Defaults[n].1];
        }
      }
      assert DefaultKeys() <= entries.Keys by {
        assert Defaults[0].0 in entries && Defaults[1].0 in entries;
        assert Defaults[2].0 in entries && Defaults[3].0 in entries;
      }
    }

    /** `initialize_session_state` of the single-file app: one test per key. */
    method InitEachKey()
      modifies this
      ensures entries == Initialized(old(entries))
    {
      if CurrentView !in entries {
        entries := entries[CurrentView := Str(HomeView)];
      }
      if Service !in entries {
        entries := entries[Service := NoneV];
      }
      if Logs !in entries {
        entries := entries[Logs := NoneV];
      }
      if ResponseJson !in entries {
        entries := entries[ResponseJson := NoneV];
      }
    }

    /** `go_to_main`: back to the home screen with nothing in focus. */
    method Reset(layout: Layout)
      modifies this
      ensures entries == ResetState(old(entries))
      ensures Valid(layout)
    {
      entries := entries[CurrentView := Str(HomeView)];
      entries := entries[Service := NoneV];
      entries := entries[Logs := NoneV];
      entries := entries[ResponseJson := NoneV];
      ResetShowsMain(layout, old(entries));
    }

    /** `process_main_prompt`, given the intent its extraction step produced. */
    method ProcessPrompt(layout: Layout, intent: Option<Intent>, cluster: Cluster) returns (outcome: Outcome)
      modifies this
      ensures Step(entries, outcome) == Dispatch(layout, old(entries), intent, cluster)
      ensures old(Valid(layout)) ==> Valid(layout)
    {
      if Consistent(layout, entries) {
        DispatchPreservesConsistent(layout, entries, intent, cluster);
      }
      if intent.None? || IsEmpty(intent.value) {
        return Finished(None, layout == Monolith);
      }
      var i := intent.value;
      entries := entries[ResponseJson := IntentV(i)];
      var action := Get(i.action);
      var service := Get(i.service);
      if action == Some("logs") {
        entries := entries[Service := ServiceValue(service)];
        var fetched := GetLogs(service, GetOr(i.namespace, "default"), TailLines, cluster);
        if fetched.Failure? {
          return Crashed(fetched.error);
        }
        entries := entries[Logs := Str(fetched.value)];
        entries := entries[CurrentView := Str("logs_view")];
      } else if action == Some("scale") {
        entries := entries[CurrentView := Str("scale_view")];
      } else if action == Some("status") {
        entries := entries[CurrentView := Str("status_view")];
      } else if layout == Monolith && action == Some("irrelevant") {
        entries := entries[CurrentView := Str("irrelevant_view")];
      } else {
        return Finished(Some(UnknownAction), true);
      }
      return Finished(None, true);
    }

    /** One script run: initialize the session, then select at most one renderer from the view. */
    method Run(layout: Layout) returns (screen: Option<Screen>)
      modifies this
      ensures entries == Initialized(old(entries))
      ensures screen == Route(layout, entries[CurrentView])
      ensures old(Valid(layout)) ==> entries == old(entries) && screen.Some?
      ensures (forall k :: k in DefaultKeys() ==> k !in old(entries)) ==> screen == Some(MainScreen) && Valid(layout)
    {
      if layout == Monolith {
        InitEachKey();
      } else {
        Init();
      }
      if Consistent(layout, old(entries)) {
        ConsistentSessionIsRendered(layout, old(entries));
      }
      if forall k :: k in DefaultKeys() ==> k !in old(entries) {
        FreshSessionShowsMain(layout, old(entries));
      }
      screen := Route(layout, entries[CurrentView]);
    }
  }
}
