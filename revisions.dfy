/** How the two plugin revisions relate. domekt.py reads registers 2..4 and
    920..946 where plugin.py reads 0..10 and 900..946, so both see the same
    absolute registers for ECO, Auto, the mode and the energy and climate
    block, and show them alike except for the room temperature. */
module Revisions {
  import opened Modbus
  import opened Codec
  import opened Decimal
  import opened Devices
  import opened Channels
  import Plugin
  import Domekt

  /** Registers 2..4 give ECO, Auto and Mode the same calls in both
      revisions (plugin.py also makes an On/Off call before them). */
  lemma SameSwitchReadings(r: seq<Word>)
    requires |r| == 11
    ensures Domekt.CoreUpdates(r[2..5]) == Plugin.SwitchCalls([], r)[1..]
  {
    var d := r[2..5];
    assert d[0] == r[2] && d[1] == r[3] && d[2] == r[4];
  }

  /** Registers 920..946 are words 20..46 of plugin.py's monitoring block:
      the kWh devices, exchange efficiency, energy saving and humidity get the
      same calls in both revisions, the counters decoded from the same
      registers. The room temperature agrees exactly when its word is below
      0x8000: plugin.py reads it signed, domekt.py unsigned. */
  lemma SameMonitoringReadings(m: seq<Word>)
    requires |m| == 47
    ensures var dm := Domekt.MonitoringUpdates(m[20..]);
            var climate := Plugin.ClimateCalls([], m);
            && dm[..3] == Plugin.EnergyCalls([], m)
            && dm[3] == climate[0] && dm[4] == climate[1] && dm[6] == climate[3]
            && (dm[5] == climate[2] <==> m[45] < 0x8000)
  {
    var w := m[20..];
    assert w[0] == m[20] && w[1] == m[21] && w[2] == m[22] && w[3] == m[23] && w[4] == m[24];
    assert w[10] == m[30] && w[11] == m[31] && w[16] == m[36] && w[17] == m[37];
    assert w[22] == m[42] && w[23] == m[43] && w[25] == m[45] && w[26] == m[46];
    TenthsToStringInjective(m[45], ConvertToTenths(m[45]));
  }

  /** ECO and Auto switch commands, and Mode Set Level commands, do the
      same in both revisions. */
  lemma SameCommands(unit: int, command: string, level: int)
    requires ((unit == ECO || unit == Auto) && command != "Set Level") || (unit == Mode && command == "Set Level")
    ensures Domekt.CommandReaction(unit, command, level) == Plugin.CommandReaction(unit, command, level)
  {
  }

  /** A Set Level for ECO or Auto: plugin.py connects, closes and returns,
      domekt.py falls through to the On/Off path and raises on `nVal`. */
  lemma SetLevelForSwitchDiffers(unit: int, level: int)
    requires unit == ECO || unit == Auto
    ensures Plugin.CommandReaction(unit, "Set Level", level) == Plugin.Reaction([Connect, Close], [], Plugin.Returned)
    ensures Domekt.CommandReaction(unit, "Set Level", level) == Plugin.Reaction([Connect], [], Plugin.Raised("nVal"))
  {
  }
}
