/**
 The whole server as a state machine: each HTTP request is routed to one of the
 eight handlers, all of which act on the one shared relay registry. Both API
 surfaces therefore observe each other's effects; the lemmas here state that
 the myStrom emulation is the relay API applied to relay `DefRelay + 1`.
 */
module Server {
  import opened Wrappers
  import opened Registry
  import opened Http
  import RelayApi
  import MyStromApi

  /** The routes the server registers. */
  datatype Request =
    | LegacySet(state: Option<string>)   // GET /relay?state=
    | LegacyToggle                       // GET /toggle
    | LegacyReport                       // GET /report
    | List                               // GET /relays
    | Read(relay: string)                // GET /relays/<relay>
    | Toggle(relay: string)              // PUT /relays/<relay>/toggle
    | On(relay: string)                  // PUT /relays/<relay>/on
    | Off(relay: string)                 // PUT /relays/<relay>/off

  /**
   Requests the server answers with the 404 page: a per-relay route whose relay
   number names no relay, or a set-state whose value is neither "1" nor "0".
   */
  predicate Rejects(req: Request, count: nat) {
    match req
    case LegacySet(state) => state != Some("1") && state != Some("0")
    case Read(relay) => !ValidId(relay, count)
    case Toggle(relay) => !ValidId(relay, count)
    case On(relay) => !ValidId(relay, count)
    case Off(relay) => !ValidId(relay, count)
    case _ => false
  }

  /** Requests whose handler only reads the registry. */
  predicate ReadOnly(req: Request) {
    req.LegacyReport? || req.List? || req.Read?
  }

  /** Routes a request to its handler. */
  function Dispatch(req: Request, s: Relays): (r: Reply)
    requires DefRelay < |s|
    ensures |r.relays| == |s|
    ensures ReadOnly(req) ==> r.relays == s
    ensures r.response.NotFound? ==> r.relays == s
    ensures exists i :: 0 <= i < |s| && OnlyChanged(s, r.relays, i)
  {
    assert OnlyChanged(s, s, DefRelay);
    match req
    case LegacySet(state) => MyStromApi.SetState(state, s)
    case LegacyToggle => MyStromApi.Toggle(s)
    case LegacyReport => MyStromApi.Report(s)
    case List => RelayApi.GetOverview(s)
    case Read(relay) => RelayApi.GetRelayState(relay, s)
    case Toggle(relay) => RelayApi.ToggleRelay(relay, s)
    case On(relay) => RelayApi.SwitchOn(relay, s)
    case Off(relay) => RelayApi.SwitchOff(relay, s)
  }

  /** The responses to a run of requests and the registry they leave behind. */
  datatype Trace = Trace(responses: seq<Response>, relays: Relays)

  /** Serves `reqs` one after another, starting from registry `s`. */
  function Serve(reqs: seq<Request>, s: Relays): (t: Trace)
    requires DefRelay < |s|
    ensures |t.responses| == |reqs|
    ensures |t.relays| == |s|
    ensures (forall k :: 0 <= k < |reqs| ==> ReadOnly(reqs[k])) ==> t.relays == s
    ensures (forall k :: 0 <= k < |t.responses| ==> t.responses[k].NotFound?) ==> t.relays == s
    decreases |reqs|
  {
    if |reqs| == 0 then Trace([], s)
    else
      var r := Dispatch(reqs[0], s);
      var rest := Serve(reqs[1..], r.relays);
      assert forall k :: 0 <= k < |reqs| - 1 ==> reqs[1..][k] == reqs[k + 1];
      assert forall k :: 0 <= k < |rest.responses| ==> ([r.response] + rest.responses)[k + 1] == rest.responses[k];
      assert ([r.response] + rest.responses)[0] == r.response;
      Trace([r.response] + rest.responses, rest.relays)
  }

  /**
   There is exactly one error: both surfaces answer status 404 precisely for the
   requests in `Rejects`, and status 200 for every other request.
   */
  lemma OneErrorKind(req: Request, s: Relays)
    requires DefRelay < |s|
    ensures Status(Dispatch(req, s).response) == 404 <==> Rejects(req, |s|)
    ensures !Rejects(req, |s|) ==> Status(Dispatch(req, s).response) == 200
  {
  }

  // ---------------------------------------------------------------------------
  // Cross-API consistency
  // ---------------------------------------------------------------------------

  /** The relay number under which the relay API addresses the default relay. */
  lemma DefaultRelayNumber()
    ensures Decimal(DefRelay + 1) == "3"
    ensures GetDevice("3", |PinRelays|) == Some(DefRelay)
  {
  }

  /**
   Set-state "1"/"0" is `PUT /relays/3/on`/`off`, reply and all; the legacy
   toggle leaves the same registry as `PUT /relays/3/toggle`; `report` answers
   as `GET /relays/3` does. Any other set-state value is a 404 that changes nothing.
   */
  lemma LegacyIsRelayApiOnDefault(state: Option<string>, s: Relays)
    requires DefRelay < |s|
    ensures state == Some("1") ==> MyStromApi.SetState(state, s) == RelayApi.SwitchOn("3", s)
    ensures state == Some("0") ==> MyStromApi.SetState(state, s) == RelayApi.SwitchOff("3", s)
    ensures state != Some("1") && state != Some("0") ==>
              MyStromApi.SetState(state, s) == RelayApi.GetRelayState("0", s) == Reply(NotFound, s)
    ensures MyStromApi.Toggle(s).relays == RelayApi.ToggleRelay("3", s).relays
    ensures RelayApi.ToggleRelay("3", s).response == RelayState(MyStromApi.Toggle(s).relays[DefRelay])
    ensures MyStromApi.Report(s) == RelayApi.GetRelayState("3", s)
  {
  }

  /** A request that names another relay number is invisible to `report`. */
  lemma OtherRelaysInvisibleToReport(req: Request, s: Relays)
    requires DefRelay < |s|
    requires req.Toggle? || req.On? || req.Off?
    requires GetDevice(req.relay, |s|) != Some(DefRelay)
    ensures MyStromApi.Report(Dispatch(req, s).relays) == Reply(RelayState(s[DefRelay]), Dispatch(req, s).relays)
  {
  }

  // ---------------------------------------------------------------------------
  // Example runs from a freshly started server
  // ---------------------------------------------------------------------------

  /** Relay 2 on, then toggled; relay 5 does not exist; the overview shows all off. */
  lemma RelayApiScenario()
    ensures DefRelay < |Initial|
    ensures Serve([On("2")], Initial).relays == [false, true, false, false]
    ensures Serve([On("2"), Toggle("2"), Read("5"), List], Initial)
            == Trace([Empty, RelayState(false), NotFound,
                      Overview([(1, false), (2, false), (3, false), (4, false)])],
                     [false, false, false, false])
  {
    assert DecimalValue("2") == 2;
    assert DecimalValue("5") == 5;
    var s0 := Initial;
    assert s0 == [false, false, false, false];
    var s1 := [false, true, false, false];
    assert Dispatch(On("2"), s0) == Reply(Empty, s1);
    assert Dispatch(Toggle("2"), s1) == Reply(RelayState(false), s0);
    assert Dispatch(Read("5"), s0) == Reply(NotFound, s0);
    assert Dispatch(List, s0) == Reply(Overview([(1, false), (2, false), (3, false), (4, false)]), s0);
    var reqs := [On("2"), Toggle("2"), Read("5"), List];
    assert reqs[1..] == [Toggle("2"), Read("5"), List];
    assert reqs[1..][1..] == [Read("5"), List];
    assert reqs[1..][1..][1..] == [List];
  }

  /** The myStrom set-state and the relay API's `off` are seen by the same `report`. */
  lemma CrossApiScenario()
    ensures Serve([LegacySet(Some("1")), LegacyReport, Off("3"), LegacyReport], Initial).responses
            == [Empty, RelayState(true), Empty, RelayState(false)]
  {
    assert DecimalValue("3") == 3;
    var s0 := Initial;
    assert s0 == [false, false, false, false];
    var s1 := [false, false, true, false];
    assert Dispatch(LegacySet(Some("1")), s0) == Reply(Empty, s1);
    assert Dispatch(LegacyReport, s1) == Reply(RelayState(true), s1);
    assert Dispatch(Off("3"), s1) == Reply(Empty, s0);
    assert Dispatch(LegacyReport, s0) == Reply(RelayState(false), s0);
    var reqs := [LegacySet(Some("1")), LegacyReport, Off("3"), LegacyReport];
    assert reqs[1..] == [LegacyReport, Off("3"), LegacyReport];
    assert reqs[1..][1..] == [Off("3"), LegacyReport];
    assert reqs[1..][1..][1..] == [LegacyReport];
  }
}
