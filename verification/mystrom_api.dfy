/**
 Emulation of the myStrom WiFi Switch REST API (`GET /relay?state=`,
 `GET /toggle`, `GET /report`). It takes no relay number: every call acts on
 the fixed default relay `DefRelay`, which must be an index of the registry.
 */
module MyStromApi {
  import opened Wrappers
  import opened Registry
  import opened Http

  /** Bottle's `request.query.state`: the query value, or "" when the key is absent. */
  function QueryState(state: Option<string>): string {
    match state
    case Some(v) => v
    case None => ""
  }

  /**
   `GET /relay?state=`: exactly "1" switches the default relay on and exactly
   "0" switches it off; every other value, and a missing one, is the 404 page.
   */
  function SetState(state: Option<string>, s: Relays): (r: Reply)
    requires DefRelay < |s|
    ensures state == Some("1") ==>
              r.response == Empty && OnlyChanged(s, r.relays, DefRelay) && r.relays[DefRelay]
    ensures state == Some("0") ==>
              r.response == Empty && OnlyChanged(s, r.relays, DefRelay) && !r.relays[DefRelay]
    ensures state != Some("1") && state != Some("0") ==> r == Reply(NotFound, s)
  {
    var value := QueryState(state);
    if value == "1" then Reply(Empty, TurnOn(s, DefRelay))
    else if value == "0" then Reply(Empty, TurnOff(s, DefRelay))
    else Rejected(s)
  }

  /** `GET /toggle`: flips the default relay, nothing else; no body. */
  function Toggle(s: Relays): (r: Reply)
    requires DefRelay < |s|
    ensures r.response == Empty
    ensures OnlyChanged(s, r.relays, DefRelay) && r.relays[DefRelay] == !s[DefRelay]
  {
    Reply(Empty, Flip(s, DefRelay))
  }

  /** `GET /report`: the default relay's state, read-only. */
  function Report(s: Relays): (r: Reply)
    requires DefRelay < |s|
    ensures r.relays == s
    ensures r.response.RelayState? && r.response.relay == s[DefRelay]
  {
    Reply(RelayState(s[DefRelay]), s)
  }

  // ---------------------------------------------------------------------------
  // Properties
  // ---------------------------------------------------------------------------

  /** Values the vendor protocol does not know, including none at all, leave everything as it was. */
  lemma UnknownStateRejected(s: Relays, v: string)
    requires DefRelay < |s|
    requires v != "1" && v != "0"
    ensures SetState(None, s) == Reply(NotFound, s)
    ensures SetState(Some(""), s) == Reply(NotFound, s)
    ensures SetState(Some("2"), s) == Reply(NotFound, s)
    ensures SetState(Some("abc"), s) == Reply(NotFound, s)
    ensures SetState(Some(v), s) == Reply(NotFound, s)
    ensures Status(SetState(Some(v), s).response) == 404
  {
  }

  /** A missing `state` parameter is handled exactly as an empty one. */
  lemma MissingStateIsEmpty(s: Relays)
    requires DefRelay < |s|
    ensures SetState(None, s) == SetState(Some(""), s)
  {
  }

  /** Setting the same state twice is the same as setting it once. */
  lemma SetStateIdempotent(state: Option<string>, s: Relays)
    requires DefRelay < |s|
    ensures SetState(state, SetState(state, s).relays) == SetState(state, s)
  {
  }

  /** Toggling twice restores the registry. */
  lemma ToggleInvolution(s: Relays)
    requires DefRelay < |s|
    ensures Toggle(Toggle(s).relays).relays == s
  {
  }

  /** `report` shows what the preceding set-state or toggle promised. */
  lemma ReportAfterWrite(s: Relays)
    requires DefRelay < |s|
    ensures Report(SetState(Some("1"), s).relays).response == RelayState(true)
    ensures Report(SetState(Some("0"), s).relays).response == RelayState(false)
    ensures Report(Toggle(s).relays).response == RelayState(!s[DefRelay])
  {
  }
}
