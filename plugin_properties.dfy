/** What plugin.py's callbacks guarantee, stated over the functions the
    methods of module Plugin are proved against. */
module PluginProperties {
  import opened Modbus
  import opened Codec
  import opened Decimal
  import opened Devices
  import opened Channels
  import opened Plugin

  // =====================================================================
  // onCommand

  /** A Mode Set Level for an accepted level writes `level / 10`, a value
      1..4, to register 4; the heartbeat reading that register back shows
      the same level, and the optimistic update stores exactly what that
      reading stores. */
  lemma ModeCommandRoundTrip(level: int, r: seq<Word>)
    requires level in AvailableLevels && |r| == 11
    ensures 1 <= ModeRegister(level) <= 4
    ensures CommandReaction(Mode, "Set Level", level)
            == Reaction([Connect, WriteRegister(4, ModeRegister(level)), Close], [LevelUpdate(Mode, level)], Returned)
    ensures CoreUpdates(r[4 := ModeRegister(level)])[3] == Reading(Mode, level, IntToString(level))
    ensures Stored(LevelUpdate(Mode, level)) == Stored(CoreUpdates(r[4 := ModeRegister(level)])[3])
  {
    ModeRoundTrip(level);
    var polled := r[4 := ModeRegister(level)];
    CoreBlocks(polled);
    assert CoreUpdates(polled)[3] == SwitchCalls([], polled)[3];
  }

  /** The same for TempControlType: `(level - 10) / 10`, a value 0..3, goes
      to register 10, whose reading `reg * 10 + 10` is the last call of the
      core block. */
  lemma TempControlCommandRoundTrip(level: int, r: seq<Word>)
    requires level in AvailableLevels && |r| == 11
    ensures 0 <= TempControlRegister(level) <= 3
    ensures CommandReaction(TempControlType, "Set Level", level)
            == Reaction([Connect, WriteRegister(10, TempControlRegister(level)), Close],
                        [LevelUpdate(TempControlType, level)], Returned)
    ensures var polled := CoreUpdates(r[10 := TempControlRegister(level)]);
            polled[|polled| - 1] == Reading(TempControlType, level, IntToString(level))
            && Stored(LevelUpdate(TempControlType, level)) == Stored(polled[|polled| - 1])
  {
    TempControlRoundTrip(level);
    TempControlPolled(r[10 := TempControlRegister(level)]);
    TempControlCommand(level);
  }

  lemma TempControlCommand(level: int)
    requires level in AvailableLevels
    ensures CommandReaction(TempControlType, "Set Level", level)
            == Reaction([Connect, WriteRegister(10, TempControlRegister(level)), Close],
                        [LevelUpdate(TempControlType, level)], Returned)
  {
  }

  /** The last call of the core block reads the temperature control type
      from word 10. */
  lemma TempControlPolled(r: seq<Word>)
    requires |r| == 11
    ensures var polled := CoreUpdates(r);
            var level := TempControlLevel(r[10]);
            polled[|polled| - 1] == Reading(TempControlType, level, IntToString(level))
  {
    CoreBlocks(r);
  }

  /** A Set Level with a level the selectors do not offer connects, closes
      and does nothing else. */
  lemma InvalidLevelIgnored(unit: int, level: int)
    requires unit == Mode || unit == TempControlType
    requires level !in AvailableLevels
    ensures CommandReaction(unit, "Set Level", level) == Reaction([Connect, Close], [], Returned)
  {
  }

  /** The Kitchen and Fireplace dimmers write the raw level, whatever it is,
      to registers 5130 and 5137. */
  lemma DimmerLevelWrittenRaw(unit: int, level: int)
    requires unit == Kitchen || unit == Fireplace
    ensures CommandReaction(unit, "Set Level", level)
            == Reaction([Connect, WriteRegister(if unit == Kitchen then 5130 else 5137, level), Close],
                        [LevelUpdate(unit, level)], Returned)
  {
  }

  /** A Set Level for any other unit only connects and closes. */
  lemma OtherSetLevelIgnored(unit: int, level: int)
    requires unit != Mode && unit != TempControlType && unit != Kitchen && unit != Fireplace
    ensures CommandReaction(unit, "Set Level", level) == Reaction([Connect, Close], [], Returned)
  {
  }

  /** Any other command is an On/Off switch: 'Off' writes 0 and 'On' writes
      1, to register 0, 2 or 3 for OnOff, ECO or Auto, and the optimistic
      update carries the command string. Any other unit raises on `rAddr`,
      whatever the command; a known unit with any other command raises on
      `nVal`. A raised command has connected and done nothing else. */
  lemma SwitchCommand(unit: int, command: string, level: int)
    requires command != "Set Level"
    ensures var x := CommandReaction(unit, command, level);
            var known := unit == OnOff || unit == ECO || unit == Auto;
            var value := if command == "On" then 1 else 0;
            && (x.outcome == Raised("rAddr") <==> !known)
            && (x.outcome == Raised("nVal") <==> known && command != "On" && command != "Off")
            && (x.outcome == Returned <==> known && (command == "On" || command == "Off"))
            && (x.outcome == Returned ==>
                  && x.bus == [Connect, WriteRegister(if unit == OnOff then 0 else if unit == ECO then 2 else 3, value), Close]
                  && x.updates == [DeviceUpdate(unit, value, StrValue(command), 0)])
            && (x.outcome != Returned ==> x.bus == [Connect] && x.updates == [])
  {
  }

  /** Every command connects first; it closes the client exactly when it
      returns normally, as its last operation, and makes at most one
      `UpdateDevice` call. */
  lemma CloseOnlyOnReturn(unit: int, command: string, level: int)
    ensures var x := CommandReaction(unit, command, level);
            && |x.bus| >= 1 && x.bus[0] == Connect
            && (Close in x.bus <==> x.outcome == Returned)
            && (x.outcome == Returned ==> x.bus[|x.bus| - 1] == Close)
            && |x.updates| <= 1
  {
  }

  // =====================================================================
  // onHeartbeat: the UpdateDevice calls

  /** The core block's calls: the switches (OnOff, ECO, Auto, Mode), the
      dimmers that follow the mode, then the temperature control type. */
  lemma CoreBlocks(r: seq<Word>)
    requires |r| == 11
    ensures CoreUpdates(r)
            == SwitchCalls([], r) + FollowerCalls([], ModeLevel(r[4]))
               + [Reading(TempControlType, TempControlLevel(r[10]), IntToString(TempControlLevel(r[10])))]
  {
    FollowerCallsAppend(SwitchCalls([], r), ModeLevel(r[4]));
  }

  /** The dimmers follow the decoded mode: 50 sets Kitchen to 5 and never
      touches Fireplace, 60 sets Fireplace to 5 and never touches Kitchen,
      any other mode sets both to 0. */
  lemma ModeFollowers(r: seq<Word>)
    requires |r| == 11
    ensures var cu := CoreUpdates(r);
            var mode := ModeLevel(r[4]);
            && (mode == 50 ==> Reading(Kitchen, 5, "5") in cu && forall i :: 0 <= i < |cu| ==> cu[i].unit != Fireplace)
            && (mode == 60 ==> Reading(Fireplace, 5, "5") in cu && forall i :: 0 <= i < |cu| ==> cu[i].unit != Kitchen)
            && (mode != 50 && mode != 60 ==> Reading(Kitchen, 0, "0") in cu && Reading(Fireplace, 0, "0") in cu)
  {
    CoreBlocks(r);
    SwitchBlock(r);
    FollowersAmong(SwitchCalls([], r), ModeLevel(r[4]), TempControlLevel(r[10]));
  }

  /** The dimmer calls of a mode, between the switch calls and the
      temperature control type. */
  lemma FollowersAmong(s: seq<DeviceUpdate>, mode: int, level: int)
    requires Block(s, SwitchUnits)
    ensures var cu := s + FollowerCalls([], mode) + [Reading(TempControlType, level, IntToString(level))];
            && (mode == 50 ==> Reading(Kitchen, 5, "5") in cu && forall i :: 0 <= i < |cu| ==> cu[i].unit != Fireplace)
            && (mode == 60 ==> Reading(Fireplace, 5, "5") in cu && forall i :: 0 <= i < |cu| ==> cu[i].unit != Kitchen)
            && (mode != 50 && mode != 60 ==> Reading(Kitchen, 0, "0") in cu && Reading(Fireplace, 0, "0") in cu)
  {
    var f, t := FollowerCalls([], mode), [Reading(TempControlType, level, IntToString(level))];
    assert IntToString(5) == "5" && IntToString(0) == "0";
    var cu := s + f + t;
    assert cu[|s|] == f[0] && cu[|s| + |f| - 1] == f[|f| - 1];
    if mode == 50 {
      UnitAbsent(s, f, t, Fireplace);
    } else if mode == 60 {
      UnitAbsent(s, f, t, Kitchen);
    }
  }

  /** A unit that none of three stretches of calls addresses is not
      addressed by them together. */
  lemma UnitAbsent(s: seq<DeviceUpdate>, f: seq<DeviceUpdate>, t: seq<DeviceUpdate>, x: int)
    requires forall i :: 0 <= i < |s| ==> s[i].unit != x
    requires forall i :: 0 <= i < |f| ==> f[i].unit != x
    requires forall i :: 0 <= i < |t| ==> t[i].unit != x
    ensures forall i :: 0 <= i < |s + f + t| ==> (s + f + t)[i].unit != x
  {
  }

  /** 65486 is -50 tenths and shows as "-5.0"; 215 shows as "21.5". */
  lemma SignedTenthsExamples()
    ensures SignedTenthsText(65486) == "-5.0"
    ensures SignedTenthsText(215) == "21.5"
  {
    ConvertToTenthsExample();
    assert NatToString(5) == "5";
    assert NatToString(21) == NatToString(2) + ['1'];
  }

  /** The monitoring block's calls: temperatures, levels, energy, climate. */
  lemma MonitoringBlocks(m: seq<Word>)
    requires |m| == 47
    ensures MonitoringUpdates(m)
            == TemperatureCalls([], m) + LevelCalls([], m) + EnergyCalls([], m) + ClimateCalls([], m)
  {
    MonitoringCallsAppend([], m);
    var t, l, e := TemperatureCalls([], m), LevelCalls([], m), EnergyCalls([], m);
    LevelCallsAppend(t, m);
    EnergyCallsAppend(t + l, m);
    ClimateCallsAppend(t + l + e, m);
  }

  /** Registers 909..915 are read as signed tenths, register 916 (filter
      impurity) as an unsigned whole number: "N.0". A filter word of 0x8000
      or more is shown as a large positive value where the signed reading
      would be negative. */
  lemma FilterTakenRaw(m: seq<Word>)
    requires |m| == 47
    ensures var levels := LevelCalls([], m);
            && levels[0] == Reading(SupplyFanIntensivity, 0, SignedTenthsText(m[9]))
            && levels[7] == Reading(FiltersImupurity, 0, TenthsToString((m[16] as int) * 10))
            && (m[16] >= 0x8000 ==> levels[7].sValue != StrValue(SignedTenthsText(m[16])))
  {
    if m[16] >= 0x8000 {
      TenthsToStringInjective((m[16] as int) * 10, ConvertToTenths(m[16]));
    }
  }

  /** Each kWh device receives the 32-bit counter held in its word pair,
      high word first, exactly: any counter value below 2^32 placed there
      is the total its sValue shows after the current power. */
  lemma EnergyCountersShown(m: seq<Word>, consumption: nat, heater: nat, recovered: nat)
    requires |m| == 47
    requires consumption < 0x1_0000_0000 && heater < 0x1_0000_0000 && recovered < 0x1_0000_0000
    requires m[30] == HighWord(consumption) && m[31] == LowWord(consumption)
    requires m[36] == HighWord(heater) && m[37] == LowWord(heater)
    requires m[42] == HighWord(recovered) && m[43] == LowWord(recovered)
    ensures EnergyCalls([], m)
            == [Reading(TotalEnergyConsumtion, 0, EnergyText(m[20], consumption)),
                Reading(TotalHeaterConsumtion, 0, EnergyText(m[21], heater)),
                Reading(TotalEnergyRecovered, 0, EnergyText(m[22], recovered))]
  {
    Uint32RoundTrip(consumption, m[30], m[31]);
    Uint32RoundTrip(heater, m[36], m[37]);
    Uint32RoundTrip(recovered, m[42], m[43]);
  }

  // =====================================================================
  // onHeartbeat: the client operations

  /** Every heartbeat connects, reads the core block, reads the monitoring
      block whatever became of the core read, and closes. Without
      `sync_time` it does nothing else; with it, it reads the clock block
      right after the core block. */
  lemma HeartbeatOperations(syncTime: bool, clockRead: ReadResult, now: Clock)
    requires Answers(clockRead, 3) && ValidClock(now)
    ensures var bus := HeartbeatBus(syncTime, clockRead, now);
            && |bus| >= 4
            && bus[0] == Connect && bus[1] == ReadHoldingRegisters(0, 11)
            && bus[|bus| - 2] == ReadHoldingRegisters(900, 47) && bus[|bus| - 1] == Close
            && (!syncTime ==> bus == [Connect, ReadHoldingRegisters(0, 11), ReadHoldingRegisters(900, 47), Close])
            && (syncTime ==> bus[2] == ReadHoldingRegisters(28, 3))
  {
    HeartbeatBusBlocks(syncTime, clockRead, now);
  }

  /** A heartbeat's only writes are the clock corrections, and only with
      `sync_time` and a successful clock read. */
  lemma HeartbeatWrites(syncTime: bool, clockRead: ReadResult, now: Clock)
    requires Answers(clockRead, 3) && ValidClock(now)
    ensures Writes(HeartbeatBus(syncTime, clockRead, now))
            == if syncTime && !clockRead.isError then ClockWrites(clockRead.registers, now) else []
  {
    var connected := [Connect] + [ReadHoldingRegisters(0, 11)];
    var clock := if syncTime then [ReadHoldingRegisters(28, 3)] else [];
    var writes := if syncTime && !clockRead.isError then ClockWrites(clockRead.registers, now) else [];
    var tail := [ReadHoldingRegisters(900, 47)] + [Close];
    HeartbeatBusBlocks(syncTime, clockRead, now);
    assert Writes(connected) == [] && Writes(clock) == [] && Writes(tail) == [];
    WritesAppend(connected, clock);
    WritesAppend(connected + clock, writes);
    WritesAppend(connected + clock + writes, tail);
    ClockWritesAreWrites(clockRead, now, writes);
  }

  /** The heartbeat's operations, block by block. */
  lemma HeartbeatBusBlocks(syncTime: bool, clockRead: ReadResult, now: Clock)
    requires Answers(clockRead, 3) && ValidClock(now)
    ensures HeartbeatBus(syncTime, clockRead, now)
            == [Connect] + [ReadHoldingRegisters(0, 11)]
               + (if syncTime then [ReadHoldingRegisters(28, 3)] else [])
               + (if syncTime && !clockRead.isError then ClockWrites(clockRead.registers, now) else [])
               + ([ReadHoldingRegisters(900, 47)] + [Close])
  {
    if syncTime && !clockRead.isError {
      ClockOpsAppend([Connect] + [ReadHoldingRegisters(0, 11)] + [ReadHoldingRegisters(28, 3)], clockRead.registers, now);
    }
  }

  lemma ClockWritesAreWrites(clockRead: ReadResult, now: Clock, writes: seq<BusOp>)
    requires Answers(clockRead, 3) && ValidClock(now)
    requires writes == [] || (!clockRead.isError && writes == ClockWrites(clockRead.registers, now))
    ensures Writes(writes) == writes
  {
    if writes != [] {
      var w := writes;
      assert forall i :: 0 <= i < |w| ==> w[i].WriteRegister?;
      AllWrites(w);
    }
  }

  lemma {:induction false} AllWrites(w: seq<BusOp>)
    requires forall i :: 0 <= i < |w| ==> w[i].WriteRegister?
    ensures Writes(w) == w
    decreases |w|
  {
    if w != [] {
      AllWrites(w[1..]);
    }
  }

  // =====================================================================
  // onHeartbeat: the clock check

  /** A field group is corrected exactly when it differs from the clock
      sample: register 28 gets `hour << 8 | minute`, register 30 gets
      `month << 8 | day`, and register 29 gets the year the device already
      holds. Nothing else is written, and no register twice. */
  lemma ClockSyncWrites(r: seq<Word>, now: Clock)
    requires |r| == 3 && ValidClock(now)
    ensures var w := ClockWrites(r, now);
            && (WriteRegister(28, PackBytes(now.hour, now.minute)) in w <==>
                  (now.hour != HighByte(r[0]) || now.minute != LowByte(r[0])))
            && (WriteRegister(29, r[1]) in w <==> now.year != r[1])
            && (WriteRegister(30, PackBytes(now.month, now.day)) in w <==>
                  (now.month != HighByte(r[2]) || now.day != LowByte(r[2])))
            && (forall op :: op in w ==> op.WriteRegister? && 28 <= op.address <= 30)
            && (forall op :: op in w ==>
                  || op == WriteRegister(28, PackBytes(now.hour, now.minute))
                  || op == WriteRegister(29, r[1])
                  || op == WriteRegister(30, PackBytes(now.month, now.day)))
            && (forall i, j :: 0 <= i < j < |w| ==> w[i].address < w[j].address)
  {
  }

  /** Registers 28..30 once the writes among `ops` have taken effect. */
  function ClockRegistersAfter(r: seq<Word>, ops: seq<BusOp>): (r': seq<Word>)
    requires |r| == 3
    ensures |r'| == 3
    decreases |ops|
  {
    if ops == [] then r
    else
      var op := ops[0];
      var r1 :=
        if op.WriteRegister? && 28 <= op.address <= 30 && 0 <= op.value < 0x1_0000
        then r[op.address - 28 := op.value] else r;
      ClockRegistersAfter(r1, ops[1..])
  }

  /** Once the corrections have taken effect, time and date agree with the
      sample, but the year write has stored the device's own year again: the
      next check at the same moment writes nothing but that same year write,
      so a wrong year is never corrected. */
  lemma ClockCorrectionSettles(r: seq<Word>, now: Clock)
    requires |r| == 3 && ValidClock(now)
    ensures var r' := ClockRegistersAfter(r, ClockWrites(r, now));
            && HighByte(r'[0]) == now.hour && LowByte(r'[0]) == now.minute
            && r'[1] == r[1]
            && HighByte(r'[2]) == now.month && LowByte(r'[2]) == now.day
            && ClockWrites(r', now) == if now.year != r[1] then [WriteRegister(29, r[1])] else []
  {
    var fixTime := now.hour != HighByte(r[0]) || now.minute != LowByte(r[0]);
    var fixDate := now.month != HighByte(r[2]) || now.day != LowByte(r[2]);
    var hm, md := PackBytes(now.hour, now.minute), PackBytes(now.month, now.day);
    CorrectedRegisters(r, now);
    var r' := [if fixTime then hm else r[0], r[1], if fixDate then md else r[2]];
    PackUnpack(now.hour, now.minute);
    PackUnpack(now.month, now.day);
    if !fixTime {
      UnpackPack(r[0]);
    }
    if !fixDate {
      UnpackPack(r[2]);
    }
    SynchronisedClockWrites(r', now);
  }

  /** The clock registers once the corrections have taken effect: the
      corrected time and date words, and the year register as it was. */
  lemma CorrectedRegisters(r: seq<Word>, now: Clock)
    requires |r| == 3 && ValidClock(now)
    ensures ClockRegistersAfter(r, ClockWrites(r, now))
            == [if now.hour != HighByte(r[0]) || now.minute != LowByte(r[0]) then PackBytes(now.hour, now.minute) else r[0],
                r[1],
                if now.month != HighByte(r[2]) || now.day != LowByte(r[2]) then PackBytes(now.month, now.day) else r[2]]
  {
    var fixTime := now.hour != HighByte(r[0]) || now.minute != LowByte(r[0]);
    var fixDate := now.month != HighByte(r[2]) || now.day != LowByte(r[2]);
    var hm, md := PackBytes(now.hour, now.minute), PackBytes(now.month, now.day);
    ClockWritesBlocks(r, now);
    AfterThree(r, if fixTime then [WriteRegister(28, hm)] else [], hm,
               if now.year != r[1] then [WriteRegister(29, r[1])] else [], r[1],
               if fixDate then [WriteRegister(30, md)] else [], md);
  }

  /** At most one write to each of registers 28, 29 and 30, in that order. */
  lemma AfterThree(r: seq<Word>, wt: seq<BusOp>, t: Word, wy: seq<BusOp>, y: Word, wd: seq<BusOp>, d: Word)
    requires |r| == 3
    requires wt == [] || wt == [WriteRegister(28, t)]
    requires wy == [] || wy == [WriteRegister(29, y)]
    requires wd == [] || wd == [WriteRegister(30, d)]
    ensures ClockRegistersAfter(r, wt + (wy + wd))
            == [if wt == [] then r[0] else t, if wy == [] then r[1] else y, if wd == [] then r[2] else d]
  {
    AfterAppend(r, wt, wy + wd);
    var r0 := ClockRegistersAfter(r, wt);
    AfterAppend(r0, wy, wd);
    AfterSingle(r, wt);
    var r1 := ClockRegistersAfter(r0, wy);
    AfterSingle(r0, wy);
    AfterSingle(r1, wd);
  }

  /** The corrections, one field group at a time. */
  lemma ClockWritesBlocks(r: seq<Word>, now: Clock)
    requires |r| == 3 && ValidClock(now)
    ensures ClockWrites(r, now)
            == (if now.hour != HighByte(r[0]) || now.minute != LowByte(r[0])
                then [WriteRegister(28, PackBytes(now.hour, now.minute))] else [])
               + ((if now.year != r[1] then [WriteRegister(29, r[1])] else [])
                  + (if now.month != HighByte(r[2]) || now.day != LowByte(r[2])
                     then [WriteRegister(30, PackBytes(now.month, now.day))] else []))
  {
  }

  /** One write, or none, to a clock register. */
  lemma AfterSingle(r: seq<Word>, ops: seq<BusOp>)
    requires |r| == 3
    requires ops == [] || (|ops| == 1 && ops[0].WriteRegister? && 28 <= ops[0].address <= 30
                           && 0 <= ops[0].value < 0x1_0000)
    ensures ops == [] ==> ClockRegistersAfter(r, ops) == r
    ensures ops != [] ==> ClockRegistersAfter(r, ops) == r[ops[0].address - 28 := ops[0].value]
  {
    if ops != [] {
      assert ops[1..] == [];
    }
  }

  /** With time and date in agreement, the only correction left is the year. */
  lemma SynchronisedClockWrites(r: seq<Word>, now: Clock)
    requires |r| == 3 && ValidClock(now)
    requires HighByte(r[0]) == now.hour && LowByte(r[0]) == now.minute
    requires HighByte(r[2]) == now.month && LowByte(r[2]) == now.day
    ensures ClockWrites(r, now) == if now.year != r[1] then [WriteRegister(29, r[1])] else []
  {
  }

  lemma {:induction false} AfterAppend(r: seq<Word>, a: seq<BusOp>, b: seq<BusOp>)
    requires |r| == 3
    ensures ClockRegistersAfter(r, a + b) == ClockRegistersAfter(ClockRegistersAfter(r, a), b)
    decreases |a|
  {
    if a == [] {
      assert a + b == b;
    } else {
      assert (a + b)[0] == a[0];
      assert (a + b)[1..] == a[1..] + b;
      var op := a[0];
      var r1 :=
        if op.WriteRegister? && 28 <= op.address <= 30 && 0 <= op.value < 0x1_0000
        then r[op.address - 28 := op.value] else r;
      AfterAppend(r1, a[1..], b);
    }
  }

  // =====================================================================
  // Change suppression over a whole heartbeat

  const SwitchUnits: set<int> := {OnOff, ECO, Auto, Mode}
  const FollowerUnits: set<int> := {Kitchen, Fireplace}
  const CoreUnits: set<int> := SwitchUnits + FollowerUnits + {TempControlType}
  const TemperatureUnits: set<int> := {OutdoorTemp, SupplyTemp, ExtractTemp, WaterTemp}
  const LevelUnits: set<int> :=
    {SupplyFanIntensivity, ExtractFanIntensivity, HeatExchanger, ElectricHeater,
     WaterHeater, WaterCooler, DXUnit, FiltersImupurity}
  const EnergyUnits: set<int> := {TotalEnergyConsumtion, TotalHeaterConsumtion, TotalEnergyRecovered}
  const ClimateUnits: set<int> := {CurrentExchangeEfficiency, CurrentEnergySaving, Temp, Hum}
  const MonitoringUnits: set<int> := TemperatureUnits + LevelUnits + EnergyUnits + ClimateUnits

  // Each block's units, proved on arbitrary values and texts; the block
  // lemmas instantiate them with the decoded readings.

  lemma SwitchReadings(on: int, eco: int, auto: int, mode: int, a: string, b: string, c: string, d: string)
    ensures Block([] + [Reading(OnOff, on, a)] + [Reading(ECO, eco, b)] + [Reading(Auto, auto, c)]
                  + [Reading(Mode, mode, d)], SwitchUnits)
  {
  }

  lemma TemperatureReadings(a: string, b: string, c: string, d: string)
    ensures Block([] + [Reading(OutdoorTemp, 0, a)] + [Reading(SupplyTemp, 0, b)] + [Reading(ExtractTemp, 0, c)]
                  + [Reading(WaterTemp, 0, d)], TemperatureUnits)
  {
  }

  lemma LevelReadings(a: string, b: string, c: string, d: string, e: string, f: string, g: string, h: string)
    ensures Block([] + [Reading(SupplyFanIntensivity, 0, a)] + [Reading(ExtractFanIntensivity, 0, b)]
                  + [Reading(HeatExchanger, 0, c)] + [Reading(ElectricHeater, 0, d)]
                  + [Reading(WaterHeater, 0, e)] + [Reading(WaterCooler, 0, f)]
                  + [Reading(DXUnit, 0, g)] + [Reading(FiltersImupurity, 0, h)], LevelUnits)
  {
  }

  lemma EnergyReadings(a: string, b: string, c: string)
    ensures Block([] + [Reading(TotalEnergyConsumtion, 0, a)] + [Reading(TotalHeaterConsumtion, 0, b)]
                  + [Reading(TotalEnergyRecovered, 0, c)], EnergyUnits)
  {
  }

  lemma ClimateReadings(humidity: int, a: string, b: string, c: string, d: string)
    ensures Block([] + [Reading(CurrentExchangeEfficiency, 0, a)] + [Reading(CurrentEnergySaving, 0, b)]
                  + [Reading(Temp, 0, c)] + [Reading(Hum, humidity, d)], ClimateUnits)
  {
  }

  lemma CoreBlock(r: seq<Word>)
    requires |r| == 11
    ensures Block(CoreUpdates(r), CoreUnits)
  {
    var mode := ModeLevel(r[4]);
    var s, f := SwitchCalls([], r), FollowerCalls([], mode);
    var t := [Reading(TempControlType, TempControlLevel(r[10]), IntToString(TempControlLevel(r[10])))];
    CoreBlocks(r);
    SwitchBlock(r);
    FollowerBlock(mode);
    TempControlBlock(TempControlLevel(r[10]));
    CoreUnitsDisjoint();
    JoinThree(s, SwitchUnits, f, FollowerUnits, t, {TempControlType});
  }

  lemma SwitchBlock(r: seq<Word>)
    requires |r| == 11
    ensures Block(SwitchCalls([], r), SwitchUnits)
  {
    var mode := ModeLevel(r[4]);
    SwitchReadings(r[0], r[2], r[3], mode, IntToString(r[0]), IntToString(r[2]), IntToString(r[3]), IntToString(mode));
  }

  lemma FollowerBlock(mode: int)
    ensures Block(FollowerCalls([], mode), FollowerUnits)
  {
  }

  lemma TempControlBlock(level: int)
    ensures Block([Reading(TempControlType, level, IntToString(level))], {TempControlType})
  {
  }

  lemma CoreUnitsDisjoint()
    ensures SwitchUnits !! FollowerUnits && SwitchUnits !! {TempControlType} && FollowerUnits !! {TempControlType}
  {
  }

  lemma MonitoringBlock(m: seq<Word>)
    requires |m| == 47
    ensures Block(MonitoringUpdates(m), MonitoringUnits)
  {
    MonitoringBlocks(m);
    TemperatureReadings(SignedTenthsText(m[3]), SignedTenthsText(m[1]), SignedTenthsText(m[2]), SignedTenthsText(m[4]));
    LevelReadings(SignedTenthsText(m[9]), SignedTenthsText(m[10]), SignedTenthsText(m[11]), SignedTenthsText(m[12]),
                  SignedTenthsText(m[13]), SignedTenthsText(m[14]), SignedTenthsText(m[15]),
                  TenthsToString((m[16] as int) * 10));
    EnergyReadings(EnergyText(m[20], Uint32FromWords(m[30], m[31])), EnergyText(m[21], Uint32FromWords(m[36], m[37])),
                   EnergyText(m[22], Uint32FromWords(m[42], m[43])));
    ClimateReadings(m[46], IntToString(m[23]), IntToString(m[24]), SignedTenthsText(m[45]), IntToString(m[46]));
    JoinMonitoring(TemperatureCalls([], m), LevelCalls([], m), EnergyCalls([], m), ClimateCalls([], m));
  }

  lemma JoinMonitoring(t: seq<DeviceUpdate>, l: seq<DeviceUpdate>, e: seq<DeviceUpdate>, c: seq<DeviceUpdate>)
    requires Block(t, TemperatureUnits) && Block(l, LevelUnits) && Block(e, EnergyUnits) && Block(c, ClimateUnits)
    ensures Block(t + l + e + c, MonitoringUnits)
  {
    JoinThree(t, TemperatureUnits, l, LevelUnits, e, EnergyUnits);
    JoinBlocks(t + l + e, TemperatureUnits + LevelUnits + EnergyUnits, c, ClimateUnits);
  }

  /** The core and the monitoring block address different devices. */
  lemma UnitsDisjoint()
    ensures CoreUnits !! MonitoringUnits
  {
  }

  /** A failed read of registers 900..946 leaves every monitoring device as
      it was and makes no `Update` for it; the core block still runs. */
  lemma FailedMonitoringKeepsState(d: Table, core: ReadResult, monitoring: ReadResult, x: int)
    requires Answers(core, 11) && Answers(monitoring, 47) && monitoring.isError
    requires x in MonitoringUnits
    ensures var us := HeartbeatUpdates(core, monitoring);
            && (x in d ==> ApplyAll(d, us)[x] == d[x])
            && forall i :: 0 <= i < |EmittedBy(d, us)| ==> EmittedBy(d, us)[i].0 != x
  {
    var us := HeartbeatUpdates(core, monitoring);
    UnitsDisjoint();
    if !core.isError {
      CoreBlock(core.registers);
      assert us == CoreUpdates(core.registers) + [];
    }
    Untouched(d, us, x);
  }

  /** A failed read of registers 0..10 leaves every core device as it was
      and makes no `Update` for it; the monitoring block still runs. */
  lemma FailedCoreKeepsState(d: Table, core: ReadResult, monitoring: ReadResult, x: int)
    requires Answers(core, 11) && Answers(monitoring, 47) && core.isError
    requires x in CoreUnits
    ensures var us := HeartbeatUpdates(core, monitoring);
            && (x in d ==> ApplyAll(d, us)[x] == d[x])
            && forall i :: 0 <= i < |EmittedBy(d, us)| ==> EmittedBy(d, us)[i].0 != x
  {
    var us := HeartbeatUpdates(core, monitoring);
    UnitsDisjoint();
    if !monitoring.isError {
      MonitoringBlock(monitoring.registers);
      assert us == [] + MonitoringUpdates(monitoring.registers);
    }
    Untouched(d, us, x);
  }

  /** Every heartbeat call goes to its own unit and passes a string. */
  lemma HeartbeatBlock(core: ReadResult, monitoring: ReadResult)
    requires Answers(core, 11) && Answers(monitoring, 47)
    ensures Block(HeartbeatUpdates(core, monitoring), CoreUnits + MonitoringUnits)
  {
    var cu := if core.isError then [] else CoreUpdates(core.registers);
    var mu := if monitoring.isError then [] else MonitoringUpdates(monitoring.registers);
    if !core.isError {
      CoreBlock(core.registers);
    }
    if !monitoring.isError {
      MonitoringBlock(monitoring.registers);
    }
    UnitsDisjoint();
    JoinBlocks(cu, CoreUnits, mu, MonitoringUnits);
  }

  /** A second heartbeat that reads the same registers makes no `Update`
      call and leaves the devices as the first one left them: every reading
      goes to its own unit and passes a string. */
  lemma SecondHeartbeatQuiet(d: Table, core: ReadResult, monitoring: ReadResult)
    requires Answers(core, 11) && Answers(monitoring, 47)
    ensures var us := HeartbeatUpdates(core, monitoring);
            ApplyAll(ApplyAll(d, us), us) == ApplyAll(d, us) && EmittedBy(ApplyAll(d, us), us) == []
  {
    HeartbeatBlock(core, monitoring);
    SecondRunSuppressed(d, HeartbeatUpdates(core, monitoring));
  }
}
