/** plugin.py: the Komfovent C6 revision of the plugin. One heartbeat reads
    the core status block (11 registers from 0), optionally the clock block
    (3 registers from 28) and the monitoring block (47 registers from 900),
    decodes them and pushes the readings through `UpdateDevice`; one command
    writes one register and updates the commanded device optimistically.

    Each callback is a method on the device table that returns the
    operations it issued on the Modbus client; the reads' answers and the
    clock sample are its inputs. The methods are proved against the
    functions `HeartbeatBus`, `HeartbeatUpdates` and `CommandReaction`;
    module PluginProperties states what those functions guarantee. */
module Plugin {
  import opened Modbus
  import opened Codec
  import opened Decimal
  import opened Devices
  import opened Payload
  import opened Channels

  /** A sample of `datetime.datetime.now()`. */
  datatype Clock = Clock(year: int, month: int, day: int, hour: int, minute: int)

  /** The ranges Python's `datetime` guarantees. */
  predicate ValidClock(c: Clock)
  {
    && 1 <= c.year <= 9999 && 1 <= c.month <= 12 && 1 <= c.day <= 31
    && 0 <= c.hour < 24 && 0 <= c.minute < 60
  }

  /** `ConvertToFloat(data, reg)` rendered with `str`. */
  function SignedTenthsText(w: Word): string
  {
    TenthsToString(ConvertToTenths(w))
  }

  // =====================================================================
  // onHeartbeat
  //
  // The `...Calls(log, ...)` functions give the log of `UpdateDevice` calls
  // once a stretch of `onHeartbeat` has run after the calls in `log`: one
  // `+ [call]` per call the stretch makes, in program order. The calls of a
  // stretch on their own are `...Calls([], ...)`; the `...Append` lemmas say
  // that running a stretch after `log` appends exactly those calls.

  /** The Kitchen and Fireplace dimmers follow the decoded mode. */
  function FollowerCalls(log: seq<DeviceUpdate>, mode: int): seq<DeviceUpdate>
  {
    if mode == 50 then log + [Reading(Kitchen, 5, IntToString(5))]
    else if mode == 60 then log + [Reading(Fireplace, 5, IntToString(5))]
    else log + [Reading(Kitchen, 0, IntToString(0))] + [Reading(Fireplace, 0, IntToString(0))]
  }

  /** The On/Off, ECO, Auto and Mode devices (words 0, 2, 3, 4). */
  function SwitchCalls(log: seq<DeviceUpdate>, r: seq<Word>): seq<DeviceUpdate>
    requires |r| == 11
  {
    log
    + [Reading(OnOff, r[0], IntToString(r[0]))]
    + [Reading(ECO, r[2], IntToString(r[2]))]
    + [Reading(Auto, r[3], IntToString(r[3]))]
    + [Reading(Mode, ModeLevel(r[4]), IntToString(ModeLevel(r[4])))]
  }

  /** The calls made from a successful read of registers 0..10: the switches,
      the dimmers that follow the mode, and the temperature control type
      (word 10). */
  function CoreCalls(log: seq<DeviceUpdate>, r: seq<Word>): seq<DeviceUpdate>
    requires |r| == 11
  {
    var tempControl := TempControlLevel(r[10]);
    FollowerCalls(SwitchCalls(log, r), ModeLevel(r[4]))
    + [Reading(TempControlType, tempControl, IntToString(tempControl))]
  }

  /** The outdoor, supply, extract and water temperatures (words 3, 1, 2, 4). */
  function TemperatureCalls(log: seq<DeviceUpdate>, m: seq<Word>): seq<DeviceUpdate>
    requires |m| == 47
  {
    log
    + [Reading(OutdoorTemp, 0, SignedTenthsText(m[3]))]
    + [Reading(SupplyTemp, 0, SignedTenthsText(m[1]))]
    + [Reading(ExtractTemp, 0, SignedTenthsText(m[2]))]
    + [Reading(WaterTemp, 0, SignedTenthsText(m[4]))]
  }

  /** The fan and actuator levels of words 9..15, read as signed tenths, and
      the filter impurity of word 16, taken as it is. */
  function LevelCalls(log: seq<DeviceUpdate>, m: seq<Word>): seq<DeviceUpdate>
    requires |m| == 47
  {
    log
    + [Reading(SupplyFanIntensivity, 0, SignedTenthsText(m[9]))]
    + [Reading(ExtractFanIntensivity, 0, SignedTenthsText(m[10]))]
    + [Reading(HeatExchanger, 0, SignedTenthsText(m[11]))]
    + [Reading(ElectricHeater, 0, SignedTenthsText(m[12]))]
    + [Reading(WaterHeater, 0, SignedTenthsText(m[13]))]
    + [Reading(WaterCooler, 0, SignedTenthsText(m[14]))]
    + [Reading(DXUnit, 0, SignedTenthsText(m[15]))]
    + [Reading(FiltersImupurity, 0, TenthsToString((m[16] as int) * 10))]
  }

  /** The three kWh devices: current power from words 20..22, counters from
      the word pairs (30, 31), (36, 37) and (42, 43). */
  function EnergyCalls(log: seq<DeviceUpdate>, m: seq<Word>): seq<DeviceUpdate>
    requires |m| == 47
  {
    log
    + [Reading(TotalEnergyConsumtion, 0, EnergyText(m[20], Uint32FromWords(m[30], m[31])))]
    + [Reading(TotalHeaterConsumtion, 0, EnergyText(m[21], Uint32FromWords(m[36], m[37])))]
    + [Reading(TotalEnergyRecovered, 0, EnergyText(m[22], Uint32FromWords(m[42], m[43])))]
  }

  /** Exchange efficiency and energy saving (words 23, 24), room temperature
      (word 45, signed tenths) and humidity (word 46). */
  function ClimateCalls(log: seq<DeviceUpdate>, m: seq<Word>): seq<DeviceUpdate>
    requires |m| == 47
  {
    log
    + [Reading(CurrentExchangeEfficiency, 0, IntToString(m[23]))]
    + [Reading(CurrentEnergySaving, 0, IntToString(m[24]))]
    + [Reading(Temp, 0, SignedTenthsText(m[45]))]
    + [Reading(Hum, m[46], IntToString(m[46]))]
  }

  /** The calls made from a successful read of registers 900..946. */
  function MonitoringCalls(log: seq<DeviceUpdate>, m: seq<Word>): seq<DeviceUpdate>
    requires |m| == 47
  {
    ClimateCalls(EnergyCalls(LevelCalls(TemperatureCalls(log, m), m), m), m)
  }

  /** The calls of one heartbeat: the core block's when its read succeeded,
      then the monitoring block's when that read succeeded. */
  function HeartbeatCalls(log: seq<DeviceUpdate>, core: ReadResult, monitoring: ReadResult): seq<DeviceUpdate>
    requires Answers(core, 11) && Answers(monitoring, 47)
  {
    var afterCore := if core.isError then log else CoreCalls(log, core.registers);
    if monitoring.isError then afterCore else MonitoringCalls(afterCore, monitoring.registers)
  }

  function CoreUpdates(r: seq<Word>): seq<DeviceUpdate>
    requires |r| == 11
  {
    CoreCalls([], r)
  }

  function MonitoringUpdates(m: seq<Word>): seq<DeviceUpdate>
    requires |m| == 47
  {
    MonitoringCalls([], m)
  }

  /** All `UpdateDevice` calls of one heartbeat, in order: the core block's
      when its read succeeded, then the monitoring block's when that read
      succeeded; a failed core read does not stop the monitoring readings. */
  function HeartbeatUpdates(core: ReadResult, monitoring: ReadResult): seq<DeviceUpdate>
    requires Answers(core, 11) && Answers(monitoring, 47)
  {
    (if core.isError then [] else CoreUpdates(core.registers))
    + (if monitoring.isError then [] else MonitoringUpdates(monitoring.registers))
  }

  lemma FollowerCallsAppend(log: seq<DeviceUpdate>, mode: int)
    ensures FollowerCalls(log, mode) == log + FollowerCalls([], mode)
  {
  }

  lemma SwitchCallsAppend(log: seq<DeviceUpdate>, r: seq<Word>)
    requires |r| == 11
    ensures SwitchCalls(log, r) == log + SwitchCalls([], r)
  {
  }

  lemma CoreCallsAppend(log: seq<DeviceUpdate>, r: seq<Word>)
    requires |r| == 11
    ensures CoreCalls(log, r) == log + CoreUpdates(r)
  {
    var mode := ModeLevel(r[4]);
    var s, f := SwitchCalls([], r), FollowerCalls([], mode);
    var last := [Reading(TempControlType, TempControlLevel(r[10]), IntToString(TempControlLevel(r[10])))];
    SwitchCallsAppend(log, r);
    FollowerCallsAppend(log + s, mode);
    FollowerCallsAppend(s, mode);
    AppendAssoc(log, s, f);
    AppendAssoc(log, s + f, last);
  }

  lemma TemperatureCallsAppend(log: seq<DeviceUpdate>, m: seq<Word>)
    requires |m| == 47
    ensures TemperatureCalls(log, m) == log + TemperatureCalls([], m)
  {
  }

  lemma LevelCallsAppend(log: seq<DeviceUpdate>, m: seq<Word>)
    requires |m| == 47
    ensures LevelCalls(log, m) == log + LevelCalls([], m)
  {
  }

  lemma EnergyCallsAppend(log: seq<DeviceUpdate>, m: seq<Word>)
    requires |m| == 47
    ensures EnergyCalls(log, m) == log + EnergyCalls([], m)
  {
  }

  lemma ClimateCallsAppend(log: seq<DeviceUpdate>, m: seq<Word>)
    requires |m| == 47
    ensures ClimateCalls(log, m) == log + ClimateCalls([], m)
  {
  }

  lemma MonitoringCallsAppend(log: seq<DeviceUpdate>, m: seq<Word>)
    requires |m| == 47
    ensures MonitoringCalls(log, m) == log + MonitoringUpdates(m)
  {
    var t, l, e, c := TemperatureCalls([], m), LevelCalls([], m), EnergyCalls([], m), ClimateCalls([], m);
    TemperatureCallsAppend(log, m);
    LevelCallsAppend(log + t, m);
    LevelCallsAppend(t, m);
    AppendAssoc(log, t, l);
    EnergyCallsAppend(log + (t + l), m);
    EnergyCallsAppend(t + l, m);
    AppendAssoc(log, t + l, e);
    ClimateCallsAppend(log + (t + l + e), m);
    ClimateCallsAppend(t + l + e, m);
    AppendAssoc(log, t + l + e, c);
  }

  lemma HeartbeatCallsAppend(log: seq<DeviceUpdate>, core: ReadResult, monitoring: ReadResult)
    requires Answers(core, 11) && Answers(monitoring, 47)
    ensures HeartbeatCalls(log, core, monitoring) == log + HeartbeatUpdates(core, monitoring)
  {
    var cu := if core.isError then [] else CoreUpdates(core.registers);
    var mu := if monitoring.isError then [] else MonitoringUpdates(monitoring.registers);
    if !core.isError {
      CoreCallsAppend(log, core.registers);
    }
    if !monitoring.isError {
      MonitoringCallsAppend(log + cu, monitoring.registers);
    }
    AppendAssoc(log, cu, mu);
  }

  /** The client operations after the clock check (plugin.py:276-295) has
      run on a successful read of registers 28..30 (hour<<8|minute, year,
      month<<8|day) following the operations in `bus`: a corrective write per
      field that differs from the clock sample. */
  function ClockOps(bus: seq<BusOp>, r: seq<Word>, now: Clock): (ops: seq<BusOp>)
    requires |r| == 3 && ValidClock(now)
    ensures |bus| <= |ops| <= |bus| + 3 && ops[..|bus|] == bus
    ensures forall i :: |bus| <= i < |ops| ==> ops[i].WriteRegister? && 28 <= ops[i].address <= 30
  {
    var hour, minute := HighByte(r[0]), LowByte(r[0]);
    var year := r[1];
    var month, day := HighByte(r[2]), LowByte(r[2]);
    var afterTime :=
      if now.hour != hour || now.minute != minute then bus + [WriteRegister(28, PackBytes(now.hour, now.minute))] else bus;
    var afterYear := if now.year != year then afterTime + [WriteRegister(29, year)] else afterTime;
    if now.month != month || now.day != day then afterYear + [WriteRegister(30, PackBytes(now.month, now.day))]
    else afterYear
  }

  /** The corrective writes on their own. */
  function ClockWrites(r: seq<Word>, now: Clock): seq<BusOp>
    requires |r| == 3 && ValidClock(now)
  {
    ClockOps([], r, now)
  }

  lemma ClockOpsAppend(bus: seq<BusOp>, r: seq<Word>, now: Clock)
    requires |r| == 3 && ValidClock(now)
    ensures ClockOps(bus, r, now) == bus + ClockWrites(r, now)
  {
  }

  /** All client operations of one heartbeat, in order. */
  function HeartbeatBus(syncTime: bool, clockRead: ReadResult, now: Clock): (ops: seq<BusOp>)
    requires Answers(clockRead, 3) && ValidClock(now)
    ensures |ops| >= 4 && ops[0] == Connect && ops[1] == ReadHoldingRegisters(0, 11)
    ensures ops[|ops| - 2] == ReadHoldingRegisters(900, 47) && ops[|ops| - 1] == Close
  {
    var connected := [Connect] + [ReadHoldingRegisters(0, 11)];
    var synced :=
      if !syncTime then connected
      else if clockRead.isError then connected + [ReadHoldingRegisters(28, 3)]
      else ClockOps(connected + [ReadHoldingRegisters(28, 3)], clockRead.registers, now);
    synced + [ReadHoldingRegisters(900, 47)] + [Close]
  }

  /** The core status block (plugin.py:254-274) on a successful read. */
  method UpdateCore(table: DeviceTable, r: seq<Word>)
    requires |r| == 11
    requires table.Valid()
    modifies table
    ensures table.Valid() && table.initial == old(table.initial)
    ensures table.calls == CoreCalls(old(table.calls), r)
  {
    var onOff := r[0];
    var eco := r[2];
    var auto := r[3];
    var mode := (r[4] as int) * 10;
    var tempControl := (r[10] as int) * 10 + 10;

    table.UpdateDevice(OnOff, onOff, StrValue(IntToString(onOff)), 0);
    table.UpdateDevice(ECO, eco, StrValue(IntToString(eco)), 0);
    table.UpdateDevice(Auto, auto, StrValue(IntToString(auto)), 0);
    table.UpdateDevice(Mode, mode, StrValue(IntToString(mode)), 0);
    if mode == 50 {
      table.UpdateDevice(Kitchen, 5, StrValue(IntToString(5)), 0);
    } else if mode == 60 {
      table.UpdateDevice(Fireplace, 5, StrValue(IntToString(5)), 0);
    } else {
      table.UpdateDevice(Kitchen, 0, StrValue(IntToString(0)), 0);
      table.UpdateDevice(Fireplace, 0, StrValue(IntToString(0)), 0);
    }

    table.UpdateDevice(TempControlType, tempControl, StrValue(IntToString(tempControl)), 0);
  }

  /** The clock check (plugin.py:276-295) on a successful read of registers
      28..30: appends the corrective writes to `bus`. */
  method SyncClock(bus: seq<BusOp>, r: seq<Word>, now: Clock) returns (bus': seq<BusOp>)
    requires |r| == 3 && ValidClock(now)
    ensures bus' == ClockOps(bus, r, now)
  {
    bus' := bus;
    var time := r[0];
    var hour, minute := time / 0x100, time % 0x100;
    var year := r[1];
    var date := r[2];
    var month, day := date / 0x100, date % 0x100;
    if now.hour != hour || now.minute != minute {
      time := now.hour * 0x100 + now.minute % 0x100;
      bus' := bus' + [WriteRegister(28, time)];
    }
    if now.year != year {
      bus' := bus' + [WriteRegister(29, year)];
    }
    if now.month != month || now.day != day {
      date := now.month * 0x100 + now.day % 0x100;
      bus' := bus' + [WriteRegister(30, date)];
    }
  }

  // The monitoring block (plugin.py:297-357), one method per group of
  // readings, in the order the source makes the calls. The energy and
  // climate words sit at the source's `registersStartingOffset` of 20.

  /** plugin.py:300-309 */
  method UpdateTemperatures(table: DeviceTable, m: seq<Word>)
    requires |m| == 47
    requires table.Valid()
    modifies table
    ensures table.Valid() && table.initial == old(table.initial)
    ensures table.calls == TemperatureCalls(old(table.calls), m)
  {
    var supplyTemp := ConvertToTenths(m[1]);
    var extractTemp := ConvertToTenths(m[2]);
    var outdoorTemp := ConvertToTenths(m[3]);
    var waterTemp := ConvertToTenths(m[4]);

    table.UpdateDevice(OutdoorTemp, 0, StrValue(TenthsToString(outdoorTemp)), 0);
    table.UpdateDevice(SupplyTemp, 0, StrValue(TenthsToString(supplyTemp)), 0);
    table.UpdateDevice(ExtractTemp, 0, StrValue(TenthsToString(extractTemp)), 0);
    table.UpdateDevice(WaterTemp, 0, StrValue(TenthsToString(waterTemp)), 0);
  }

  /** plugin.py:311-327 */
  method UpdateLevels(table: DeviceTable, m: seq<Word>)
    requires |m| == 47
    requires table.Valid()
    modifies table
    ensures table.Valid() && table.initial == old(table.initial)
    ensures table.calls == LevelCalls(old(table.calls), m)
  {
    var supplyFanIntens := ConvertToTenths(m[9]);
    var extractFanIntens := ConvertToTenths(m[10]);
    var heatExchanger := ConvertToTenths(m[11]);
    var electricHeater := ConvertToTenths(m[12]);
    var waterHeater := ConvertToTenths(m[13]);
    var waterCooling := ConvertToTenths(m[14]);
    var dxUnit := ConvertToTenths(m[15]);
    var filtersImpurity := (m[16] as int) * 10;

    table.UpdateDevice(SupplyFanIntensivity, 0, StrValue(TenthsToString(supplyFanIntens)), 0);
    table.UpdateDevice(ExtractFanIntensivity, 0, StrValue(TenthsToString(extractFanIntens)), 0);
    table.UpdateDevice(HeatExchanger, 0, StrValue(TenthsToString(heatExchanger)), 0);
    table.UpdateDevice(ElectricHeater, 0, StrValue(TenthsToString(electricHeater)), 0);
    table.UpdateDevice(WaterHeater, 0, StrValue(TenthsToString(waterHeater)), 0);
    table.UpdateDevice(WaterCooler, 0, StrValue(TenthsToString(waterCooling)), 0);
    table.UpdateDevice(DXUnit, 0, StrValue(TenthsToString(dxUnit)), 0);
    table.UpdateDevice(FiltersImupurity, 0, StrValue(TenthsToString(filtersImpurity)), 0);
  }

  /** plugin.py:329-331, 335-348: the cursor skips 6 chars, 17 shorts and
      5 ints (60 bytes) onto the first counter, then 8 bytes onto each of the
      next two; it ends at byte 88 of the block's 94. */
  method UpdateEnergy(table: DeviceTable, m: seq<Word>)
    requires |m| == 47
    requires table.Valid()
    modifies table
    ensures table.Valid() && table.initial == old(table.initial)
    ensures table.calls == EnergyCalls(old(table.calls), m)
  {
    var currentPowerConsumption := m[20];
    var currentHeaterPower := m[21];
    var currentHeatRecovery := m[22];

    var decoder := new PayloadDecoder.FromRegisters(m);
    UpdateCounter(table, decoder, 6 + 17 * 2 + 5 * 4, TotalEnergyConsumtion, currentPowerConsumption, m, 30);
    UpdateCounter(table, decoder, 8, TotalHeaterConsumtion, currentHeaterPower, m, 36);
    UpdateCounter(table, decoder, 8, TotalEnergyRecovered, currentHeatRecovery, m, 42);
    assert decoder.cursor == 88 && decoder.cursor + 6 == 2 * |m|;
  }

  /** plugin.py:332-333, 350-357 */
  method UpdateClimate(table: DeviceTable, m: seq<Word>)
    requires |m| == 47
    requires table.Valid()
    modifies table
    ensures table.Valid() && table.initial == old(table.initial)
    ensures table.calls == ClimateCalls(old(table.calls), m)
  {
    var currentExchangeEfficiency := m[23];
    var currentEnergySaving := m[24];
    var temperature := ConvertToTenths(m[45]);
    var humidity := m[46];

    table.UpdateDevice(CurrentExchangeEfficiency, 0, StrValue(IntToString(currentExchangeEfficiency)), 0);
    table.UpdateDevice(CurrentEnergySaving, 0, StrValue(IntToString(currentEnergySaving)), 0);

    table.UpdateDevice(Temp, 0, StrValue(TenthsToString(temperature)), 0);
    table.UpdateDevice(Hum, humidity, StrValue(IntToString(humidity)), 0);
  }

  /** The monitoring block (plugin.py:300-357) on a successful read of
      registers 900..946: temperatures, levels, energy, climate. */
  method UpdateMonitoring(table: DeviceTable, m: seq<Word>)
    requires |m| == 47
    requires table.Valid()
    modifies table
    ensures table.Valid() && table.initial == old(table.initial)
    ensures table.calls == MonitoringCalls(old(table.calls), m)
  {
    UpdateTemperatures(table, m);
    UpdateLevels(table, m);
    UpdateEnergy(table, m);
    UpdateClimate(table, m);
  }

  /** `onHeartbeat`: the client operations it issues, and the `UpdateDevice`
      calls it makes with what they do to the table. */
  method OnHeartbeat(table: DeviceTable, syncTime: bool, core: ReadResult, clockRead: ReadResult,
                     now: Clock, monitoring: ReadResult)
    returns (bus: seq<BusOp>)
    requires table.Valid()
    requires Answers(core, 11) && Answers(clockRead, 3) && Answers(monitoring, 47)
    requires ValidClock(now)
    modifies table
    ensures bus == HeartbeatBus(syncTime, clockRead, now)
    ensures table.Valid() && table.initial == old(table.initial)
    ensures table.calls == old(table.calls) + HeartbeatUpdates(core, monitoring)
    ensures table.devices == ApplyAll(old(table.devices), HeartbeatUpdates(core, monitoring))
    ensures table.updates == old(table.updates) + EmittedBy(old(table.devices), HeartbeatUpdates(core, monitoring))
  {
    bus := [Connect];

    bus := bus + [ReadHoldingRegisters(0, 11)];
    if !core.isError {
      UpdateCore(table, core.registers);
    }

    if syncTime {
      bus := bus + [ReadHoldingRegisters(28, 3)];
      if !clockRead.isError {
        bus := SyncClock(bus, clockRead.registers, now);
      }
    }

    bus := bus + [ReadHoldingRegisters(900, 47)];
    if !monitoring.isError {
      UpdateMonitoring(table, monitoring.registers);
    }

    bus := bus + [Close];
    HeartbeatCallsAppend(old(table.calls), core, monitoring);
    ApplyAllAppend(table.initial, old(table.calls), HeartbeatUpdates(core, monitoring));
  }

  // =====================================================================
  // onCommand

  /** How `onCommand` ends: normally, or with Python's UnboundLocalError
      for the named local (`rAddr` is evaluated before `nVal`). */
  datatype Outcome = Returned | Raised(unbound: string)

  /** Everything one command does: the client operations, the
      `UpdateDevice` calls and how it ends. */
  datatype Reaction = Reaction(bus: seq<BusOp>, updates: seq<DeviceUpdate>, outcome: Outcome)

  /** The optimistic update of a Set Level command: the raw integer level
      as both nValue and sValue. */
  function LevelUpdate(unit: int, level: int): DeviceUpdate
  {
    DeviceUpdate(unit, level, IntValue(level), 0)
  }

  /** The register a switch unit writes, if any (`rAddr`). */
  function SwitchRegister(unit: int): (a: int)
  {
    if unit == OnOff then 0 else if unit == ECO then 2 else if unit == Auto then 3 else -1
  }

  /** The value an On/Off command writes, if any (`nVal`). */
  function SwitchValue(command: string): (v: int)
  {
    if command == "Off" then 0 else if command == "On" then 1 else -1
  }

  /** The Set Level branch (plugin.py:201-227) once the operations `bus`
      have been issued. */
  function LevelReaction(bus: seq<BusOp>, unit: int, level: int): (x: Reaction)
    ensures |x.updates| <= 1 && |x.bus| == |bus| + 1 + |x.updates|
    ensures x.outcome == Returned && x.bus[..|bus|] == bus && x.bus[|x.bus| - 1] == Close
  {
    if unit == Mode then
      if level in AvailableLevels
      then Reaction(bus + [WriteRegister(4, ModeRegister(level))] + [Close], [LevelUpdate(unit, level)], Returned)
      else Reaction(bus + [Close], [], Returned)
    else if unit == TempControlType then
      if level in AvailableLevels
      then Reaction(bus + [WriteRegister(10, TempControlRegister(level))] + [Close], [LevelUpdate(unit, level)], Returned)
      else Reaction(bus + [Close], [], Returned)
    else if unit == Kitchen then
      Reaction(bus + [WriteRegister(5130, level)] + [Close], [LevelUpdate(unit, level)], Returned)
    else if unit == Fireplace then
      Reaction(bus + [WriteRegister(5137, level)] + [Close], [LevelUpdate(unit, level)], Returned)
    else
      Reaction(bus + [Close], [], Returned)
  }

  /** The On/Off branch (plugin.py:229-243) once the operations `bus` have
      been issued: `rAddr` is looked up first, so an unknown unit is
      reported before an unknown command, and nothing after the failing
      lookup runs. */
  function SwitchReaction(bus: seq<BusOp>, unit: int, command: string): (x: Reaction)
    ensures |bus| <= |x.bus| && x.bus[..|bus|] == bus && |x.updates| <= 1
    ensures x.outcome == Returned <==> x.updates != []
    ensures x.outcome == Returned ==> |x.bus| == |bus| + 2 && x.bus[|x.bus| - 1] == Close
    ensures x.outcome != Returned ==> x.bus == bus
  {
    var rAddr, nVal := SwitchRegister(unit), SwitchValue(command);
    if rAddr < 0 then Reaction(bus, [], Raised("rAddr"))
    else if nVal < 0 then Reaction(bus, [], Raised("nVal"))
    else Reaction(bus + [WriteRegister(rAddr, nVal)] + [Close], [DeviceUpdate(unit, nVal, StrValue(command), 0)], Returned)
  }

  /** `onCommand(Unit, Command, Level, Hue)` as a value. */
  function CommandReaction(unit: int, command: string, level: int): (x: Reaction)
    ensures |x.bus| == 1 + (if x.outcome == Returned then 1 + |x.updates| else 0)
    ensures x.bus[0] == Connect && forall i :: 0 < i < |x.bus| - 1 ==> x.bus[i].WriteRegister?
  {
    if command == "Set Level" then LevelReaction([Connect], unit, level)
    else SwitchReaction([Connect], unit, command)
  }

  /** The Set Level branch of `onCommand`. */
  method SetLevel(table: DeviceTable, bus: seq<BusOp>, unit: int, level: int) returns (bus': seq<BusOp>)
    requires table.Valid()
    modifies table
    ensures bus' == LevelReaction(bus, unit, level).bus
    ensures table.Valid() && table.initial == old(table.initial)
    ensures table.calls == old(table.calls) + LevelReaction(bus, unit, level).updates
  {
    bus' := bus;
    if unit == Mode {
      if level in AvailableLevels {
        bus' := bus' + [WriteRegister(4, level / 10)];
        table.UpdateDevice(unit, level, IntValue(level), 0);
      }
    } else if unit == TempControlType {
      if level in AvailableLevels {
        bus' := bus' + [WriteRegister(10, (level - 10) / 10)];
        table.UpdateDevice(unit, level, IntValue(level), 0);
      }
    } else if unit == Kitchen {
      bus' := bus' + [WriteRegister(5130, level)];
      table.UpdateDevice(unit, level, IntValue(level), 0);
    } else if unit == Fireplace {
      bus' := bus' + [WriteRegister(5137, level)];
      table.UpdateDevice(unit, level, IntValue(level), 0);
    }
    bus' := bus' + [Close];
    AppendAssoc(old(table.calls), [], []);
  }

  /** The On/Off branch of `onCommand`. */
  method Switch(table: DeviceTable, bus: seq<BusOp>, unit: int, command: string)
    returns (bus': seq<BusOp>, outcome: Outcome)
    requires table.Valid()
    modifies table
    ensures bus' == SwitchReaction(bus, unit, command).bus
    ensures outcome == SwitchReaction(bus, unit, command).outcome
    ensures table.Valid() && table.initial == old(table.initial)
    ensures table.calls == old(table.calls) + SwitchReaction(bus, unit, command).updates
  {
    bus' := bus;
    AppendAssoc(old(table.calls), [], []);
    var nVal, nValBound := 0, false;
    if command == "Off" {
      nVal, nValBound := 0, true;
    } else if command == "On" {
      nVal, nValBound := 1, true;
    }

    var rAddr, rAddrBound := 0, false;
    if unit == OnOff {
      rAddr, rAddrBound := 0, true;
    } else if unit == ECO {
      rAddr, rAddrBound := 2, true;
    } else if unit == Auto {
      rAddr, rAddrBound := 3, true;
    }

    if !rAddrBound {
      return bus', Raised("rAddr");
    }
    if !nValBound {
      return bus', Raised("nVal");
    }
    bus' := bus' + [WriteRegister(rAddr, nVal)];
    table.UpdateDevice(unit, nVal, StrValue(command), 0);
    bus' := bus' + [Close];
    outcome := Returned;
  }

  /** `onCommand` */
  method OnCommand(table: DeviceTable, unit: int, command: string, level: int)
    returns (bus: seq<BusOp>, outcome: Outcome)
    requires table.Valid()
    modifies table
    ensures bus == CommandReaction(unit, command, level).bus
    ensures outcome == CommandReaction(unit, command, level).outcome
    ensures table.Valid() && table.initial == old(table.initial)
    ensures table.calls == old(table.calls) + CommandReaction(unit, command, level).updates
    ensures table.devices == ApplyAll(old(table.devices), CommandReaction(unit, command, level).updates)
    ensures table.updates == old(table.updates) + EmittedBy(old(table.devices), CommandReaction(unit, command, level).updates)
  {
    bus := [Connect];
    if command == "Set Level" {
      bus := SetLevel(table, bus, unit, level);
      outcome := Returned;
    } else {
      bus, outcome := Switch(table, bus, unit, command);
    }
    ApplyAllAppend(table.initial, old(table.calls), CommandReaction(unit, command, level).updates);
  }
}
