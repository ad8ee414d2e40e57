/**
 The generic relay resource API: `GET /relays`, `GET /relays/<relay>` and
 `PUT /relays/<relay>/{toggle,on,off}`. Each handler resolves the relay number
 with `GetDevice` and answers 404 without touching any relay when that fails.
 */
module RelayApi {
  import opened Wrappers
  import opened Registry
  import opened Http

  /** The loop of `getOverview`: entries `{from+1: s[from]}`, `{from+2: ...}`, ... in order. */
  function Enumerate(s: Relays, from: nat): (es: seq<(nat, bool)>)
    requires from <= |s|
    ensures |es| == |s| - from
    ensures forall j :: 0 <= j < |es| ==> es[j] == (from + j + 1, s[from + j])
    decreases |s| - from
  {
    if from == |s| then [] else [(from + 1, s[from])] + Enumerate(s, from + 1)
  }

  /** `GET /relays`: never fails, changes nothing, lists every relay by number in order. */
  function GetOverview(s: Relays): (r: Reply)
    ensures r.relays == s
    ensures r.response.Overview?
    ensures |r.response.relays| == |s|
    ensures forall i :: 0 <= i < |s| ==> r.response.relays[i] == (i + 1, s[i])
  {
    Reply(Overview(Enumerate(s, 0)), s)
  }

  /** `GET /relays/<relay>`: the state of the named relay, read-only. */
  function GetRelayState(relay: string, s: Relays): (r: Reply)
    ensures r.relays == s
    ensures !ValidId(relay, |s|) ==> r.response == NotFound
    ensures ValidId(relay, |s|) ==> r.response == RelayState(s[DecimalValue(relay) - 1])
  {
    match GetDevice(relay, |s|)
    case None => Rejected(s)
    case Some(i) => Reply(RelayState(s[i]), s)
  }

  /**
   `PUT /relays/<relay>/toggle`: flips the named relay, then answers with the
   relay's state read afresh, so the response is the post-toggle value.
   */
  function ToggleRelay(relay: string, s: Relays): (r: Reply)
    ensures |r.relays| == |s|
    ensures !ValidId(relay, |s|) ==> r == Reply(NotFound, s)
    ensures ValidId(relay, |s|) ==>
              var i := DecimalValue(relay) - 1;
              && OnlyChanged(s, r.relays, i)
              && r.relays[i] == !s[i]
              && r.response == RelayState(!s[i])
  {
    match GetDevice(relay, |s|)
    case None => Rejected(s)
    case Some(i) => GetRelayState(relay, Flip(s, i))
  }

  /** `PUT /relays/<relay>/on`: switches the named relay on, nothing else. */
  function SwitchOn(relay: string, s: Relays): (r: Reply)
    ensures |r.relays| == |s|
    ensures !ValidId(relay, |s|) ==> r == Reply(NotFound, s)
    ensures ValidId(relay, |s|) ==>
              var i := DecimalValue(relay) - 1;
              r.response == Empty && OnlyChanged(s, r.relays, i) && r.relays[i]
  {
    match GetDevice(relay, |s|)
    case None => Rejected(s)
    case Some(i) => Reply(Empty, TurnOn(s, i))
  }

  /** `PUT /relays/<relay>/off`: switches the named relay off, nothing else. */
  function SwitchOff(relay: string, s: Relays): (r: Reply)
    ensures |r.relays| == |s|
    ensures !ValidId(relay, |s|) ==> r == Reply(NotFound, s)
    ensures ValidId(relay, |s|) ==>
              var i := DecimalValue(relay) - 1;
              r.response == Empty && OnlyChanged(s, r.relays, i) && !r.relays[i]
  {
    match GetDevice(relay, |s|)
    case None => Rejected(s)
    case Some(i) => Reply(Empty, TurnOff(s, i))
  }

  // ---------------------------------------------------------------------------
  // Properties
  // ---------------------------------------------------------------------------

  /** Every per-relay operation given an unknown relay number answers 404 and changes nothing. */
  lemma InvalidIdRejected(relay: string, s: Relays)
    requires GetDevice(relay, |s|).None?
    ensures GetRelayState(relay, s) == Reply(NotFound, s)
    ensures ToggleRelay(relay, s) == Reply(NotFound, s)
    ensures SwitchOn(relay, s) == Reply(NotFound, s)
    ensures SwitchOff(relay, s) == Reply(NotFound, s)
  {
  }

  /** Switching on twice is switching on once; likewise off. */
  lemma SwitchIdempotent(relay: string, s: Relays)
    ensures SwitchOn(relay, SwitchOn(relay, s).relays) == SwitchOn(relay, s)
    ensures SwitchOff(relay, SwitchOff(relay, s).relays) == SwitchOff(relay, s)
  {
  }

  /** The final state of a switch does not depend on the relay's state before it. */
  lemma SwitchOverrides(relay: string, s: Relays)
    ensures SwitchOn(relay, SwitchOff(relay, s).relays) == SwitchOn(relay, s)
    ensures SwitchOff(relay, SwitchOn(relay, s).relays) == SwitchOff(relay, s)
  {
  }

  /** Toggling a relay twice restores the whole registry; the two answers are opposite. */
  lemma ToggleInvolution(relay: string, s: Relays)
    ensures ToggleRelay(relay, ToggleRelay(relay, s).relays).relays == s
    ensures ValidId(relay, |s|) ==>
              && ToggleRelay(relay, s).response.RelayState?
              && ToggleRelay(relay, ToggleRelay(relay, s).relays).response
                 == RelayState(!ToggleRelay(relay, s).response.relay)
  {
  }

  /** After any mutating request the read endpoint reports what that request promised. */
  lemma ReadAfterWrite(relay: string, s: Relays)
    requires ValidId(relay, |s|)
    ensures GetRelayState(relay, SwitchOn(relay, s).relays).response == RelayState(true)
    ensures GetRelayState(relay, SwitchOff(relay, s).relays).response == RelayState(false)
    ensures GetRelayState(relay, ToggleRelay(relay, s).relays).response
            == ToggleRelay(relay, s).response
  {
  }

  /** The overview and the per-relay read agree on every relay number. */
  lemma OverviewAgreesWithRead(s: Relays, i: nat)
    requires i < |s|
    ensures GetOverview(s).response.relays[i].0 == i + 1
    ensures GetRelayState(Decimal(i + 1), s).response == RelayState(GetOverview(s).response.relays[i].1)
  {
    DecimalRoundTrip(i + 1);
  }
}
