/**
 * The Streamlit session store as a map from key to value, and the two operations of
 * `app/utils/state.py` (duplicated in the single-file app) on it:
 * filling in missing defaults, and resetting to the home screen.
 */
module State {
  import opened Intents

  /** A value held in the session store. `Opaque` stands for any other Python object (widget state). */
  datatype Value = NoneV | Str(s: string) | IntentV(intent: Intent) | Opaque(id: int)

  const CurrentView: string := "current_view"
  const Service: string := "service"
  const Logs: string := "logs"
  const ResponseJson: string := "response_json"

  /** The view name of the home screen. */
  const HomeView: string := "main"

  function DefaultKeys(): set<string> {
    {CurrentView, Service, Logs, ResponseJson}
  }

  /** The value `initialize_session_state` gives a key it finds missing. */
  function DefaultOf(k: string): Value {
    if k == CurrentView then Str(HomeView) else NoneV
  }

  /** The defaults dict of `initialize_session_state`, in its iteration order. */
  const Defaults: seq<(string, Value)> :=
    [(CurrentView, Str(HomeView)), (Service, NoneV), (Logs, NoneV), (ResponseJson, NoneV)]

  /** The session after `initialize_session_state`: missing defaults added, everything present kept. */
  function Initialized(m: map<string, Value>): (r: map<string, Value>)
    ensures r.Keys == m.Keys + DefaultKeys()
    ensures forall k :: k in m ==> r[k] == m[k]
    ensures forall k :: k in DefaultKeys() && k !in m ==> r[k] == DefaultOf(k)
  {
    map k | k in m.Keys + DefaultKeys() :: if k in m then m[k] else DefaultOf(k)
  }

  /** The session after `go_to_main`: the four keys get their initial values, other keys are kept. */
  function ResetState(m: map<string, Value>): (r: map<string, Value>)
    ensures r.Keys == m.Keys + DefaultKeys()
    ensures forall k :: k in DefaultKeys() ==> r[k] == DefaultOf(k)
    ensures forall k :: k in m && k !in DefaultKeys() ==> r[k] == m[k]
  {
    m[CurrentView := Str(HomeView)][Service := NoneV][Logs := NoneV][ResponseJson := NoneV]
  }

  /** Initializing twice is the same as initializing once. */
  lemma InitIdempotent(m: map<string, Value>)
    ensures Initialized(Initialized(m)) == Initialized(m)
  {
    var once := Initialized(m);
    assert Initialized(once).Keys == once.Keys;
  }

  /** Once the four keys exist, initializing changes nothing. */
  lemma InitKeepsPresentSession(m: map<string, Value>)
    requires DefaultKeys() <= m.Keys
    ensures Initialized(m) == m
  {
    assert Initialized(m).Keys == m.Keys;
  }

  /** A reset session holds, on the four keys, exactly what a initial session gets from initializing. */
  lemma ResetIsFreshSession(m: map<string, Value>)
    ensures forall k :: k in DefaultKeys() ==> ResetState(m)[k] == Initialized(map[])[k]
    ensures ResetState(m) == Initialized(map[]) + (m - DefaultKeys())
  {
    var r, initial := ResetState(m), Initialized(map[]);
    var other := m - DefaultKeys();
    assert (initial + other).Keys == r.Keys;
    forall k | k in r.Keys
      ensures r[k] == (initial + other)[k]
    {
      if k in DefaultKeys() {
        assert k !in other;
      }
    }
  }

  /** Reset forgets the history: two sessions that agree off the four keys are equal after a reset. */
  lemma ResetForgetsHistory(m1: map<string, Value>, m2: map<string, Value>)
    requires m1 - DefaultKeys() == m2 - DefaultKeys()
    ensures ResetState(m1) == ResetState(m2)
  {
    ResetIsFreshSession(m1);
    ResetIsFreshSession(m2);
  }

  /** Initializing after a reset changes nothing. */
  lemma InitAfterReset(m: map<string, Value>)
    ensures Initialized(ResetState(m)) == ResetState(m)
  {
    InitKeepsPresentSession(ResetState(m));
  }
}
