/**
 * Connectivity gate ("kiosk connection"): two persisted flags, the simulator
 * switch and the simulated state, and one probed flag, the real state. The
 * effective value is the simulated state while the simulator is on and the
 * real state otherwise. The real state is true only on a connected Wi-Fi
 * network whose lower-cased SSID contains "ecole", "school" or "kiosk".
 */
module ConnectionSimulatorContext {
  import opened Wrappers
  import opened KeyValue
  import AppConstants

  /** ASCII upper-case letters, and the Kelvin sign (whose lower case is 'k'), as `toLowerCase` maps them. */
  function LowerChar(c: char): (r: char)
    ensures 'A' <= c <= 'Z' ==> r as int == c as int + 32
    ensures 'a' <= r <= 'z' ==> 'a' <= c <= 'z' || 'A' <= c <= 'Z' || c == 'K'
  {
    if 'A' <= c <= 'Z' then (c as int + 32) as char
    else if c == 'K' then 'k'
    else c
  }

  function Lower(s: string): (r: string)
    ensures |r| == |s|
    ensures forall i :: 0 <= i < |s| ==> r[i] == LowerChar(s[i])
  {
    if s == [] then [] else [LowerChar(s[0])] + Lower(s[1..])
  }

  /** `t` occurs in `s` at position `i`. */
  predicate OccursAt(s: string, t: string, i: int) {
    0 <= i <= |s| - |t| && s[i..i + |t|] == t
  }

  /** JavaScript's `includes`: `t` occurs in `s` at some position. */
  function Includes(s: string, t: string): (r: bool)
    ensures r <==> exists i :: OccursAt(s, t, i)
    decreases |s|
  {
    if OccursAt(s, t, 0) then
      true
    else if s == [] then
      false
    else
      OccursAfterFirst(s, t);
      Includes(s[1..], t)
  }

  /** When `t` does not start `s`, it occurs in `s` iff it occurs in `s[1..]`. */
  lemma OccursAfterFirst(s: string, t: string)
    requires s != [] && !OccursAt(s, t, 0)
    ensures (exists i :: OccursAt(s, t, i)) <==> (exists j :: OccursAt(s[1..], t, j))
  {
    if exists i :: OccursAt(s, t, i) {
      var i :| OccursAt(s, t, i);
      assert s[1..][i - 1..i - 1 + |t|] == s[i..i + |t|];
      assert OccursAt(s[1..], t, i - 1);
    }
    if exists j :: OccursAt(s[1..], t, j) {
      var j :| OccursAt(s[1..], t, j);
      assert s[j + 1..j + 1 + |t|] == s[1..][j..j + |t|];
      assert OccursAt(s, t, j + 1);
    }
  }

  /** The SSID names a kiosk: its lower-cased text contains one of the keywords. */
  function IsKioskSsid(ssid: string): (r: bool)
    ensures r <==> exists k :: 0 <= k < |AppConstants.KioskSsidKeywords| && Includes(Lower(ssid), AppConstants.KioskSsidKeywords[k])
    ensures r ==> ssid != []
  {
    var lowered := Lower(ssid);
    var keywords := AppConstants.KioskSsidKeywords;
    assert keywords[0] == "ecole" && keywords[1] == "school" && keywords[2] == "kiosk";
    Includes(lowered, "ecole") || Includes(lowered, "school") || Includes(lowered, "kiosk")
  }

  /** Lower-casing twice is lower-casing once. */
  lemma {:induction false} LowerIdempotent(s: string)
    ensures Lower(Lower(s)) == Lower(s)
  {
    if s != [] {
      LowerIdempotent(s[1..]);
      assert Lower(s)[1..] == Lower(s[1..]);
    }
  }

  /** The keyword test ignores case: an SSID and its lower-cased text are judged alike. */
  lemma KioskSsidIgnoresCase(ssid: string)
    ensures IsKioskSsid(Lower(ssid)) == IsKioskSsid(ssid)
  {
    LowerIdempotent(ssid);
  }

  datatype ConnectionType = Wifi | Cellular | Ethernet | Bluetooth | Wimax | Vpn | Other | Unknown | NoConnection

  /** What a network probe answers: the interface type, whether it is connected (may be unknown) and the SSID if reported; or an error. */
  datatype NetProbe = ProbeError | NetState(connectionType: ConnectionType, isConnected: Option<bool>, ssid: Option<string>)

  /** The real state a probe leads to. */
  function ProbeVerdict(probe: NetProbe): (r: bool)
    ensures r <==> && probe.NetState?
                   && probe.connectionType == Wifi
                   && probe.isConnected == Some(true)
                   && probe.ssid.Some?
                   && IsKioskSsid(probe.ssid.value)
  {
    match probe
    case ProbeError => false
    case NetState(connectionType, isConnected, ssid) =>
      if connectionType == Wifi && isConnected == Some(true) then
        if ssid.Some? && ssid.value != "" then IsKioskSsid(ssid.value)
        else
          assert ssid.Some? ==> !IsKioskSsid(ssid.value);
          false
      else false
  }

  /** A flag as persisted: `String(flag)`. */
  function FlagText(flag: bool): (t: string)
    ensures t == "true" <==> flag
  {
    if flag then "true" else "false"
  }

  /** A flag as loaded: a stored value replaces `current` when present, and is true iff it is exactly "true". */
  function LoadedFlag(stored: Option<Value>, current: bool): (r: bool)
    ensures stored.None? ==> r == current
    ensures stored.Some? ==> (r <==> AsText(stored.value) == "true")
  {
    if stored.Some? then AsText(stored.value) == "true" else current
  }

  /** Persisting a flag and loading it back yields the flag, whatever was held before. */
  lemma FlagRoundTrip(flag: bool, current: bool)
    ensures LoadedFlag(Some(Text(FlagText(flag))), current) == flag
  {
  }

  class ConnectionSimulator {
    var isSimulatorEnabled: bool
    var simulatedConnectionState: bool
    var realConnectionState: bool

    /** All three flags start false. */
    constructor ()
      ensures !isSimulatorEnabled && !simulatedConnectionState && !realConnectionState
    {
      isSimulatorEnabled := false;
      simulatedConnectionState := false;
      realConnectionState := false;
    }

    /** `isConnectedToKiosk`: the simulated state while simulating, the real one otherwise. */
    function IsConnectedToKiosk(): (r: bool)
      reads this
      ensures isSimulatorEnabled ==> r == simulatedConnectionState
      ensures !isSimulatorEnabled ==> r == realConnectionState
    {
      if isSimulatorEnabled then simulatedConnectionState else realConnectionState
    }

    /** `loadSimulatorSettings`: each stored flag replaces the current one; nothing changes when the store rejects. */
    method LoadSimulatorSettings(store: Store)
      modifies this`isSimulatorEnabled, this`simulatedConnectionState
      ensures isSimulatorEnabled == if store.healthy
        then LoadedFlag(Get(store.entries, AppConstants.SimulatorEnabledKey), old(isSimulatorEnabled))
        else old(isSimulatorEnabled)
      ensures simulatedConnectionState == if store.healthy
        then LoadedFlag(Get(store.entries, AppConstants.SimulatedStateKey), old(simulatedConnectionState))
        else old(simulatedConnectionState)
    {
      var enabledValue := store.GetItem(AppConstants.SimulatorEnabledKey);
      var stateValue := store.GetItem(AppConstants.SimulatedStateKey);
      if enabledValue.Failure? || stateValue.Failure? {
        return;
      }
      if enabledValue.value.Some? {
        isSimulatorEnabled := AsText(enabledValue.value.value) == "true";
      }
      if stateValue.value.Some? {
        simulatedConnectionState := AsText(stateValue.value.value) == "true";
      }
    }

    /** `checkRealKioskConnection`: the probe's verdict becomes the real state. */
    method CheckRealKioskConnection(probe: NetProbe)
      modifies this`realConnectionState
      ensures realConnectionState == ProbeVerdict(probe)
      ensures isSimulatorEnabled ==> IsConnectedToKiosk() == old(IsConnectedToKiosk())
    {
      match probe
      case ProbeError =>
        realConnectionState := false;
      case NetState(connectionType, isConnected, ssid) =>
        if connectionType == Wifi && isConnected == Some(true) {
          var isKiosk := if ssid.Some? && ssid.value != "" then IsKioskSsid(ssid.value) else false;
          realConnectionState := isKiosk;
        } else {
          realConnectionState := false;
        }
    }

    /** `toggleSimulator`: flips the switch and persists it; a rejected write is ignored. */
    method ToggleSimulator(store: Store)
      modifies this`isSimulatorEnabled, store`entries
      ensures isSimulatorEnabled == !old(isSimulatorEnabled)
      ensures store.entries == if store.healthy
        then old(store.entries)[AppConstants.SimulatorEnabledKey := Text(FlagText(isSimulatorEnabled))]
        else old(store.entries)
      ensures store.healthy ==> LoadedFlag(Get(store.entries, AppConstants.SimulatorEnabledKey), false) == isSimulatorEnabled
    {
      var newState := !isSimulatorEnabled;
      isSimulatorEnabled := newState;
      var _ := store.SetItem(AppConstants.SimulatorEnabledKey, Text(FlagText(newState)));
    }

    /** `setSimulatedConnectionState`: sets and persists the simulated state only. */
    method SetSimulatedConnectionState(store: Store, state: bool)
      modifies this`simulatedConnectionState, store`entries
      ensures simulatedConnectionState == state
      ensures store.entries == if store.healthy
        then old(store.entries)[AppConstants.SimulatedStateKey := Text(FlagText(state))]
        else old(store.entries)
      ensures store.healthy ==> LoadedFlag(Get(store.entries, AppConstants.SimulatedStateKey), false) == state
    {
      simulatedConnectionState := state;
      var _ := store.SetItem(AppConstants.SimulatedStateKey, Text(FlagText(state)));
    }
  }
}
