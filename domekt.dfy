/** The older DOMEKT revision of the plugin (domekt.py): ECO, Auto and the
    ventilation mode at registers 2..4, an energy and climate block of 27
    registers at 920, and no clock, dimmers or temperature control type.
    It shares the command outcome vocabulary of module Plugin. */
module Domekt {
  import opened Modbus
  import opened Codec
  import opened Decimal
  import opened Devices
  import opened Payload
  import opened Channels
  import Plugin

  // =====================================================================
  // onHeartbeat

  /** The calls after a successful read of registers 2..4 following the
      calls in `log`: ECO and Auto as read, the mode as `reg * 10`. */
  function CoreCalls(log: seq<DeviceUpdate>, r: seq<Word>): seq<DeviceUpdate>
    requires |r| == 3
  {
    log
    + [Reading(ECO, r[0], IntToString(r[0]))]
    + [Reading(Auto, r[1], IntToString(r[1]))]
    + [Reading(Mode, ModeLevel(r[2]), IntToString(ModeLevel(r[2])))]
  }

  /** The calls after a successful read of registers 920..946 following the
      calls in `log`: the three kWh devices (current power from words 0..2,
      counters from the word pairs (10, 11), (16, 17) and (22, 23)), exchange
      efficiency and energy saving (words 3, 4), the room temperature of word
      25 as unsigned tenths and the humidity of word 26. */
  function MonitoringCalls(log: seq<DeviceUpdate>, m: seq<Word>): seq<DeviceUpdate>
    requires |m| == 27
  {
    log
    + [Reading(TotalEnergyConsumtion, 0, EnergyText(m[0], Uint32FromWords(m[10], m[11])))]
    + [Reading(TotalHeaterConsumtion, 0, EnergyText(m[1], Uint32FromWords(m[16], m[17])))]
    + [Reading(TotalEnergyRecovered, 0, EnergyText(m[2], Uint32FromWords(m[22], m[23])))]
    + [Reading(CurrentExchangeEfficiency, 0, IntToString(m[3]))]
    + [Reading(CurrentEnergySaving, 0, IntToString(m[4]))]
    + [Reading(Temp, 0, TenthsToString(m[25]))]
    + [Reading(Hum, m[26], IntToString(m[26]))]
  }

  /** The calls of one heartbeat following the calls in `log`. */
  function HeartbeatCalls(log: seq<DeviceUpdate>, core: ReadResult, monitoring: ReadResult): seq<DeviceUpdate>
    requires Answers(core, 3) && Answers(monitoring, 27)
  {
    var afterCore := if core.isError then log else CoreCalls(log, core.registers);
    if monitoring.isError then afterCore else MonitoringCalls(afterCore, monitoring.registers)
  }

  function CoreUpdates(r: seq<Word>): seq<DeviceUpdate>
    requires |r| == 3
  {
    CoreCalls([], r)
  }

  function MonitoringUpdates(m: seq<Word>): seq<DeviceUpdate>
    requires |m| == 27
  {
    MonitoringCalls([], m)
  }

  /** All `UpdateDevice` calls of one heartbeat, in order: the core block's
      when its read succeeded, then the monitoring block's when that read
      succeeded. */
  function HeartbeatUpdates(core: ReadResult, monitoring: ReadResult): seq<DeviceUpdate>
    requires Answers(core, 3) && Answers(monitoring, 27)
  {
    (if core.isError then [] else CoreUpdates(core.registers))
    + (if monitoring.isError then [] else MonitoringUpdates(monitoring.registers))
  }

  /** The client operations of every heartbeat. */
  const HeartbeatBus: seq<BusOp> :=
    [Connect] + [ReadHoldingRegisters(2, 3)] + [ReadHoldingRegisters(920, 27)] + [Close]

  lemma CoreCallsAppend(log: seq<DeviceUpdate>, r: seq<Word>)
    requires |r| == 3
    ensures CoreCalls(log, r) == log + CoreUpdates(r)
  {
  }

  lemma MonitoringCallsAppend(log: seq<DeviceUpdate>, m: seq<Word>)
    requires |m| == 27
    ensures MonitoringCalls(log, m) == log + MonitoringUpdates(m)
  {
  }

  lemma HeartbeatCallsAppend(log: seq<DeviceUpdate>, core: ReadResult, monitoring: ReadResult)
    requires Answers(core, 3) && Answers(monitoring, 27)
    ensures HeartbeatCalls(log, core, monitoring) == log + HeartbeatUpdates(core, monitoring)
  {
    var cu := if core.isError then [] else CoreUpdates(core.registers);
    var mu := if monitoring.isError then [] else MonitoringUpdates(monitoring.registers);
    if !core.isError {
      CoreCallsAppend(log, core.registers);
    }
    if !monitoring.isError {
      MonitoringCallsAppend(log + cu, monitoring.registers);
    }
    AppendAssoc(log, cu, mu);
  }

  /** domekt.py:157-166 on a successful read. */
  method UpdateCore(table: DeviceTable, r: seq<Word>)
    requires |r| == 3
    requires table.Valid()
    modifies table
    ensures table.Valid() && table.initial == old(table.initial)
    ensures table.calls == CoreCalls(old(table.calls), r)
  {
    var eco := r[0];
    var auto := r[1];
    var mode := (r[2] as int) * 10;

    table.UpdateDevice(ECO, eco, StrValue(IntToString(eco)), 0);
    table.UpdateDevice(Auto, auto, StrValue(IntToString(auto)), 0);
    table.UpdateDevice(Mode, mode, StrValue(IntToString(mode)), 0);
  }

  /** domekt.py:168-197 on a successful read. The cursor ends at byte 48 of
      the block's 54. */
  method UpdateMonitoring(table: DeviceTable, m: seq<Word>)
    requires |m| == 27
    requires table.Valid()
    modifies table
    ensures table.Valid() && table.initial == old(table.initial)
    ensures table.calls == MonitoringCalls(old(table.calls), m)
  {
    var currentPowerConsumption := m[0];
    var currentHeaterPower := m[1];
    var currentHeatRecovery := m[2];
    var currentExchangeEfficiency := m[3];
    var currentEnergySaving := m[4];

    var decoder := new PayloadDecoder.FromRegisters(m);
    UpdateCounter(table, decoder, 20, TotalEnergyConsumtion, currentPowerConsumption, m, 10);
    UpdateCounter(table, decoder, 8, TotalHeaterConsumtion, currentHeaterPower, m, 16);
    UpdateCounter(table, decoder, 8, TotalEnergyRecovered, currentHeatRecovery, m, 22);
    assert decoder.cursor == 48 && decoder.cursor + 6 == 2 * |m|;

    var temperature := m[25];
    var humidity := m[26];

    table.UpdateDevice(CurrentExchangeEfficiency, 0, StrValue(IntToString(currentExchangeEfficiency)), 0);
    table.UpdateDevice(CurrentEnergySaving, 0, StrValue(IntToString(currentEnergySaving)), 0);

    table.UpdateDevice(Temp, 0, StrValue(TenthsToString(temperature)), 0);
    table.UpdateDevice(Hum, humidity, StrValue(IntToString(humidity)), 0);
  }

  /** `onHeartbeat`: the client operations it issues, and the `UpdateDevice`
      calls it makes with what they do to the table. */
  method OnHeartbeat(table: DeviceTable, core: ReadResult, monitoring: ReadResult)
    returns (bus: seq<BusOp>)
    requires table.Valid()
    requires Answers(core, 3) && Answers(monitoring, 27)
    modifies table
    ensures bus == HeartbeatBus
    ensures table.Valid() && table.initial == old(table.initial)
    ensures table.calls == old(table.calls) + HeartbeatUpdates(core, monitoring)
    ensures table.devices == ApplyAll(old(table.devices), HeartbeatUpdates(core, monitoring))
    ensures table.updates == old(table.updates) + EmittedBy(old(table.devices), HeartbeatUpdates(core, monitoring))
  {
    bus := [Connect];

    bus := bus + [ReadHoldingRegisters(2, 3)];
    if !core.isError {
      UpdateCore(table, core.registers);
    }

    bus := bus + [ReadHoldingRegisters(920, 27)];
    if !monitoring.isError {
      UpdateMonitoring(table, monitoring.registers);
    }

    bus := bus + [Close];
    HeartbeatCallsAppend(old(table.calls), core, monitoring);
    ApplyAllAppend(table.initial, old(table.calls), HeartbeatUpdates(core, monitoring));
  }

  // =====================================================================
  // onCommand

  /** The register a switch unit writes, if any (`rAddr`). */
  function SwitchRegister(unit: int): (a: int)
  {
    if unit == ECO then 2 else if unit == Auto then 3 else -1
  }

  /** The On/Off path (domekt.py:132-144) once the operations `bus` have
      been issued; `rAddr` is looked up before `nVal`. */
  function SwitchReaction(bus: seq<BusOp>, unit: int, command: string): (x: Plugin.Reaction)
    ensures |bus| <= |x.bus| && x.bus[..|bus|] == bus && |x.updates| <= 1
    ensures x.outcome == Plugin.Returned <==> x.updates != []
    ensures x.outcome == Plugin.Returned ==> |x.bus| == |bus| + 2 && x.bus[|x.bus| - 1] == Close
    ensures x.outcome != Plugin.Returned ==> x.bus == bus
  {
    var rAddr, nVal := SwitchRegister(unit), Plugin.SwitchValue(command);
    if rAddr < 0 then Plugin.Reaction(bus, [], Plugin.Raised("rAddr"))
    else if nVal < 0 then Plugin.Reaction(bus, [], Plugin.Raised("nVal"))
    else Plugin.Reaction(bus + [WriteRegister(rAddr, nVal)] + [Close],
                         [DeviceUpdate(unit, nVal, StrValue(command), 0)], Plugin.Returned)
  }

  /** `onCommand(Unit, Command, Level, Hue)` as a value: only a Set Level
      for the Mode selector takes the level path; every other command,
      a Set Level for another unit included, takes the On/Off path. */
  function CommandReaction(unit: int, command: string, level: int): (x: Plugin.Reaction)
    ensures |x.bus| == 1 + (if x.outcome == Plugin.Returned then 1 + |x.updates| else 0)
    ensures x.bus[0] == Connect && forall i :: 0 < i < |x.bus| - 1 ==> x.bus[i].WriteRegister?
  {
    if unit == Mode && command == "Set Level" then
      if level in AvailableLevels
      then Plugin.Reaction([Connect] + [WriteRegister(4, ModeRegister(level))] + [Close],
                           [Plugin.LevelUpdate(Mode, level)], Plugin.Returned)
      else Plugin.Reaction([Connect] + [Close], [], Plugin.Returned)
    else SwitchReaction([Connect], unit, command)
  }

  /** `onCommand` */
  method OnCommand(table: DeviceTable, unit: int, command: string, level: int)
    returns (bus: seq<BusOp>, outcome: Plugin.Outcome)
    requires table.Valid()
    modifies table
    ensures bus == CommandReaction(unit, command, level).bus
    ensures outcome == CommandReaction(unit, command, level).outcome
    ensures table.Valid() && table.initial == old(table.initial)
    ensures table.calls == old(table.calls) + CommandReaction(unit, command, level).updates
    ensures table.devices == ApplyAll(old(table.devices), CommandReaction(unit, command, level).updates)
    ensures table.updates == old(table.updates) + EmittedBy(old(table.devices), CommandReaction(unit, command, level).updates)
  {
    AppendAssoc(old(table.calls), [], []);
    bus := [Connect];

    if unit == Mode && command == "Set Level" {
      if level in AvailableLevels {
        bus := bus + [WriteRegister(4, level / 10)];
        table.UpdateDevice(unit, level, IntValue(level), 0);
      }
      bus := bus + [Close];
      outcome := Plugin.Returned;
    } else {
      var nVal, nValBound := 0, false;
      if command == "Off" {
        nVal, nValBound := 0, true;
      } else if command == "On" {
        nVal, nValBound := 1, true;
      }

      var rAddr, rAddrBound := 0, false;
      if unit == ECO {
        rAddr, rAddrBound := 2, true;
      } else if unit == Auto {
        rAddr, rAddrBound := 3, true;
      }

      if !rAddrBound {
        outcome := Plugin.Raised("rAddr");
      } else if !nValBound {
        outcome := Plugin.Raised("nVal");
      } else {
        bus := bus + [WriteRegister(rAddr, nVal)];
        table.UpdateDevice(unit, nVal, StrValue(command), 0);
        bus := bus + [Close];
        outcome := Plugin.Returned;
      }
    }
    ApplyAllAppend(table.initial, old(table.calls), CommandReaction(unit, command, level).updates);
  }
}
