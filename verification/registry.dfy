/**
 The relay registry of the power switch: one boolean per configured GPIO pin,
 addressed 1-based from the outside and 0-based inside, and the parsing of an
 external relay number into an internal index (`getDevice`).
 */
module Registry {
  import opened Wrappers

  /** BCM pin numbers the relay board is wired to, one relay per pin. */
  const PinRelays: seq<nat> := [6, 13, 19, 26]

  /** Internal index of the relay that the myStrom emulation always drives. */
  const DefRelay: nat := 2

  /** On/off state of every relay; entry `i` belongs to external relay `i + 1`. */
  type Relays = seq<bool>

  /** The registry right after startup: one relay per pin, all off. */
  const Initial: Relays := seq(|PinRelays|, _ => false)

  /** The default relay is a valid index of the registry built at startup. */
  lemma DefRelayInRange()
    ensures DefRelay < |Initial| == |PinRelays| == 4
    ensures forall i :: 0 <= i < |Initial| ==> !Initial[i]
  {
  }

  // ---------------------------------------------------------------------------
  // Decimal relay numbers
  // ---------------------------------------------------------------------------

  predicate IsDigit(c: char) {
    '0' <= c <= '9'
  }

  /** Every character is an ASCII decimal digit (the empty string qualifies). */
  predicate AllDigits(s: string) {
    forall k :: 0 <= k < |s| ==> IsDigit(s[k])
  }

  /** `str.isdigit`, restricted to ASCII: non-empty and digits only. */
  predicate IsDigits(s: string) {
    |s| > 0 && AllDigits(s)
  }

  function DigitValue(c: char): (d: nat)
    requires IsDigit(c)
    ensures d < 10
  {
    (c as int) - ('0' as int)
  }

  function DigitChar(d: nat): (c: char)
    requires d < 10
    ensures IsDigit(c) && DigitValue(c) == d
  {
    (('0' as int) + d) as char
  }

  /** `int(s)` for a string of decimal digits, read most significant digit first. */
  function DecimalValue(s: string): nat
    requires AllDigits(s)
    decreases |s|
  {
    if |s| == 0 then 0
    else 10 * DecimalValue(s[..|s| - 1]) + DigitValue(s[|s| - 1])
  }

  /** The canonical decimal spelling of `n`: digits only, no leading zero. */
  function Decimal(n: nat): (s: string)
    ensures IsDigits(s)
    ensures s[0] == '0' ==> n == 0 && |s| == 1
    decreases n
  {
    if n < 10 then [DigitChar(n)] else Decimal(n / 10) + [DigitChar(n % 10)]
  }

  /** Decimal spellings without a superfluous leading zero. */
  predicate Canonical(s: string) {
    IsDigits(s) && (s[0] == '0' ==> |s| == 1)
  }

  /** The relay number `id` names a relay of a registry with `count` entries. */
  predicate ValidId(id: string, count: nat) {
    IsDigits(id) && 1 <= DecimalValue(id) <= count
  }

  /** `getDevice`: the internal index named by `relayNumber`, or None for "not found". */
  function GetDevice(relayNumber: string, count: nat): (r: Option<nat>)
    ensures r.Some? <==> ValidId(relayNumber, count)
    ensures r.Some? ==> r.value < count && r.value + 1 == DecimalValue(relayNumber)
  {
    if IsDigits(relayNumber) then
      var index := DecimalValue(relayNumber) - 1;
      if 0 <= index < count then Some(index) else None
    else
      None
  }

  // ---------------------------------------------------------------------------
  // Driver commands on one relay
  // ---------------------------------------------------------------------------

  /** `s'` differs from `s` at most at index `i`. */
  predicate OnlyChanged(s: Relays, s': Relays, i: nat) {
    |s'| == |s| && forall j :: 0 <= j < |s| && j != i ==> s'[j] == s[j]
  }

  /** `OutputDevice.on()` */
  function TurnOn(s: Relays, i: nat): (s': Relays)
    requires i < |s|
    ensures OnlyChanged(s, s', i) && s'[i]
  {
    s[i := true]
  }

  /** `OutputDevice.off()` */
  function TurnOff(s: Relays, i: nat): (s': Relays)
    requires i < |s|
    ensures OnlyChanged(s, s', i) && !s'[i]
  {
    s[i := false]
  }

  /** `OutputDevice.toggle()` */
  function Flip(s: Relays, i: nat): (s': Relays)
    requires i < |s|
    ensures OnlyChanged(s, s', i) && s'[i] == !s[i]
  {
    s[i := !s[i]]
  }

  // ---------------------------------------------------------------------------
  // Properties of relay-number parsing
  // ---------------------------------------------------------------------------

  lemma DecimalValueOfPrefix(s: string, d: char)
    requires AllDigits(s) && IsDigit(d)
    ensures AllDigits(s + [d])
    ensures DecimalValue(s + [d]) == 10 * DecimalValue(s) + DigitValue(d)
  {
  }

  /** Reading back the canonical spelling of `n` gives `n`. */
  lemma {:induction false} DecimalRoundTrip(n: nat)
    ensures DecimalValue(Decimal(n)) == n
    decreases n
  {
    if n < 10 {
      assert DecimalValue(Decimal(n)) == 10 * DecimalValue([]) + n;
    } else {
      DecimalRoundTrip(n / 10);
      DecimalValueOfPrefix(Decimal(n / 10), DigitChar(n % 10));
    }
  }

  /** A digit string of value zero consists of zeros only. */
  lemma {:induction false} ZeroValueAllZeros(s: string)
    requires AllDigits(s) && DecimalValue(s) == 0
    ensures forall k :: 0 <= k < |s| ==> s[k] == '0'
    decreases |s|
  {
    if |s| > 0 {
      var p := s[..|s| - 1];
      assert AllDigits(p);
      ZeroValueAllZeros(p);
      forall k | 0 <= k < |s| ensures s[k] == '0' {
        if k < |s| - 1 {
          assert s[k] == p[k];
        }
      }
    }
  }

  /** Canonical spellings are exactly the images of `Decimal`. */
  lemma {:induction false} CanonicalRoundTrip(s: string)
    requires Canonical(s)
    ensures Decimal(DecimalValue(s)) == s
    decreases |s|
  {
    var p, d := s[..|s| - 1], s[|s| - 1];
    assert AllDigits(p);
    if |s| == 1 {
      assert DecimalValue(s) == DigitValue(d);
      assert Decimal(DecimalValue(s)) == [DigitChar(DigitValue(d))];
    } else {
      assert p[0] == s[0] != '0';
      if DecimalValue(p) == 0 {
        ZeroValueAllZeros(p);
        assert false;
      }
      assert Canonical(p);
      CanonicalRoundTrip(p);
      var v := DecimalValue(s);
      assert v == 10 * DecimalValue(p) + DigitValue(d);
      assert v / 10 == DecimalValue(p) && v % 10 == DigitValue(d);
      assert DigitChar(DigitValue(d)) == d;
      assert s == p + [d];
    }
  }

  /**
   A leading zero never changes which relay, if any, a string addresses:
   `int("03") == 3`, and a string with a non-digit stays rejected.
   */
  lemma LeadingZeroIgnored(id: string, count: nat)
    ensures GetDevice("0" + id, count) == GetDevice(id, count)
  {
    if AllDigits(id) {
      LeadingZeroValue(id);
    } else {
      var k :| 0 <= k < |id| && !IsDigit(id[k]);
      assert ("0" + id)[k + 1] == id[k];
    }
  }

  lemma {:induction false} LeadingZeroValue(s: string)
    requires AllDigits(s)
    ensures AllDigits("0" + s)
    ensures DecimalValue("0" + s) == DecimalValue(s)
    decreases |s|
  {
    if |s| > 0 {
      var p, d := s[..|s| - 1], s[|s| - 1];
      assert AllDigits(p);
      LeadingZeroValue(p);
      assert "0" + s == ("0" + p) + [d];
      DecimalValueOfPrefix("0" + p, d);
      DecimalValueOfPrefix(p, d);
      assert p + [d] == s;
    }
  }

  /**
   The external-number/internal-index correspondence: relay number `r` in
   1..count (spelled canonically) selects index `r - 1`, so every index is
   selected by the number one above it. The other half of the bijection is
   `DistinctNumbersDistinctRelays`.
   */
  lemma GetDeviceBijection(count: nat)
    ensures forall r: nat :: 1 <= r <= count ==> GetDevice(Decimal(r), count) == Some(r - 1)
  {
    forall r: nat | 1 <= r <= count ensures GetDevice(Decimal(r), count) == Some(r - 1) {
      DecimalRoundTrip(r);
    }
  }

  /** Two different canonical relay numbers never select the same relay. */
  lemma DistinctNumbersDistinctRelays(id: string, id': string, count: nat)
    requires Canonical(id) && Canonical(id') && id != id'
    ensures GetDevice(id, count).None? || GetDevice(id, count) != GetDevice(id', count)
  {
    CanonicalRoundTrip(id);
    CanonicalRoundTrip(id');
  }

  /**
   The inputs `getDevice` turns away: zero, numbers past the last relay, the
   empty string, and anything holding a sign, a space or another non-digit.
   */
  lemma GetDeviceRejects(id: string, count: nat)
    ensures GetDevice("", count).None?
    ensures GetDevice("0", count).None?
    ensures GetDevice(Decimal(count + 1), count).None?
    ensures (exists k :: 0 <= k < |id| && !IsDigit(id[k])) ==> GetDevice(id, count).None?
    ensures GetDevice("+" + id, count).None? && GetDevice("-" + id, count).None?
    ensures GetDevice(" " + id, count).None? && GetDevice(id + " ", count).None?
  {
    assert DecimalValue("0") == 0;
    DecimalRoundTrip(count + 1);
    assert !IsDigit(("+" + id)[0]) && !IsDigit(("-" + id)[0]);
    assert !IsDigit((" " + id)[0]) && !IsDigit((id + " ")[|id|]);
  }
}
