/** What domekt.py's callbacks guarantee, stated over the functions the
    methods of module Domekt are proved against. */
module DomektProperties {
  import opened Modbus
  import opened Codec
  import opened Decimal
  import opened Devices
  import opened Channels
  import opened Domekt
  import Plugin

  // =====================================================================
  // onCommand

  /** A Mode Set Level for an accepted level writes `level / 10`, a value
      1..4, to register 4; the heartbeat reading that register back (word 2
      of the core block) shows the same level, and the optimistic update
      stores exactly what that reading stores. */
  lemma ModeCommandRoundTrip(level: int, r: seq<Word>)
    requires level in AvailableLevels && |r| == 3
    ensures 1 <= ModeRegister(level) <= 4
    ensures CommandReaction(Mode, "Set Level", level)
            == Plugin.Reaction([Connect, WriteRegister(4, ModeRegister(level)), Close],
                               [Plugin.LevelUpdate(Mode, level)], Plugin.Returned)
    ensures CoreUpdates(r[2 := ModeRegister(level)])[2] == Reading(Mode, level, IntToString(level))
    ensures Stored(Plugin.LevelUpdate(Mode, level)) == Stored(CoreUpdates(r[2 := ModeRegister(level)])[2])
  {
    ModeRoundTrip(level);
  }

  /** A Mode Set Level with a level the selector does not offer connects,
      closes and does nothing else. */
  lemma InvalidLevelIgnored(level: int)
    requires level !in AvailableLevels
    ensures CommandReaction(Mode, "Set Level", level) == Plugin.Reaction([Connect, Close], [], Plugin.Returned)
  {
  }

  /** A Set Level for any other unit falls through to the On/Off path,
      where its command binds no `nVal`: ECO and Auto raise on `nVal`, any
      other unit on `rAddr`. Nothing is written and the client stays open. */
  lemma OtherSetLevelRaises(unit: int, level: int)
    requires unit != Mode
    ensures CommandReaction(unit, "Set Level", level)
            == Plugin.Reaction([Connect], [], Plugin.Raised(if unit == ECO || unit == Auto then "nVal" else "rAddr"))
  {
  }

  /** The On/Off path: 'Off' writes 0 and 'On' writes 1, to register 2 or 3
      for ECO or Auto, and the optimistic update carries the command string.
      Any other unit raises on `rAddr`, whatever the command; ECO or Auto
      with any other command raises on `nVal`. A raised command has connected
      and done nothing else. */
  lemma SwitchCommand(unit: int, command: string, level: int)
    requires unit != Mode || command != "Set Level"
    ensures var x := CommandReaction(unit, command, level);
            var known := unit == ECO || unit == Auto;
            var value := if command == "On" then 1 else 0;
            && (x.outcome == Plugin.Raised("rAddr") <==> !known)
            && (x.outcome == Plugin.Raised("nVal") <==> known && command != "On" && command != "Off")
            && (x.outcome == Plugin.Returned <==> known && (command == "On" || command == "Off"))
            && (x.outcome == Plugin.Returned ==>
                  && x.bus == [Connect, WriteRegister(if unit == ECO then 2 else 3, value), Close]
                  && x.updates == [DeviceUpdate(unit, value, StrValue(command), 0)])
            && (x.outcome != Plugin.Returned ==> x.bus == [Connect] && x.updates == [])
  {
  }

  /** Every command connects first; it closes the client exactly when it
      returns normally, as its last operation, and makes at most one
      `UpdateDevice` call. */
  lemma CloseOnlyOnReturn(unit: int, command: string, level: int)
    ensures var x := CommandReaction(unit, command, level);
            && |x.bus| >= 1 && x.bus[0] == Connect
            && (Close in x.bus <==> x.outcome == Plugin.Returned)
            && (x.outcome == Plugin.Returned ==> x.bus[|x.bus| - 1] == Close)
            && |x.updates| <= 1
  {
  }

  // =====================================================================
  // onHeartbeat

  /** The room temperature of word 25 is shown as unsigned tenths: its text
      reads back as the word itself, so 0x8000 and above show as large
      positive temperatures. */
  lemma TemperatureUnsigned(m: seq<Word>)
    requires |m| == 27
    ensures MonitoringUpdates(m)[5] == Reading(Temp, 0, TenthsToString(m[25]))
    ensures TenthsToString(m[25])[0] != '-'
    ensures ParseTenths(TenthsToString(m[25])) == m[25]
  {
    TenthsRoundTrip(m[25]);
  }

  /** Each kWh device receives the 32-bit counter held in its word pair,
      high word first, exactly. */
  lemma EnergyCountersShown(m: seq<Word>, consumption: nat, heater: nat, recovered: nat)
    requires |m| == 27
    requires consumption < 0x1_0000_0000 && heater < 0x1_0000_0000 && recovered < 0x1_0000_0000
    requires m[10] == HighWord(consumption) && m[11] == LowWord(consumption)
    requires m[16] == HighWord(heater) && m[17] == LowWord(heater)
    requires m[22] == HighWord(recovered) && m[23] == LowWord(recovered)
    ensures MonitoringUpdates(m)[0] == Reading(TotalEnergyConsumtion, 0, EnergyText(m[0], consumption))
    ensures MonitoringUpdates(m)[1] == Reading(TotalHeaterConsumtion, 0, EnergyText(m[1], heater))
    ensures MonitoringUpdates(m)[2] == Reading(TotalEnergyRecovered, 0, EnergyText(m[2], recovered))
  {
    Uint32RoundTrip(consumption, m[10], m[11]);
    Uint32RoundTrip(heater, m[16], m[17]);
    Uint32RoundTrip(recovered, m[22], m[23]);
  }

  const CoreUnits: set<int> := {ECO, Auto, Mode}
  const MonitoringUnits: set<int> :=
    {TotalEnergyConsumtion, TotalHeaterConsumtion, TotalEnergyRecovered,
     CurrentExchangeEfficiency, CurrentEnergySaving, Temp, Hum}

  lemma CoreReadings(eco: int, auto: int, mode: int, a: string, b: string, c: string)
    ensures Block([] + [Reading(ECO, eco, a)] + [Reading(Auto, auto, b)] + [Reading(Mode, mode, c)], CoreUnits)
  {
  }

  lemma MonitoringReadings(humidity: int, a: string, b: string, c: string, d: string, e: string, f: string, g: string)
    ensures Block([] + [Reading(TotalEnergyConsumtion, 0, a)] + [Reading(TotalHeaterConsumtion, 0, b)]
                  + [Reading(TotalEnergyRecovered, 0, c)] + [Reading(CurrentExchangeEfficiency, 0, d)]
                  + [Reading(CurrentEnergySaving, 0, e)] + [Reading(Temp, 0, f)] + [Reading(Hum, humidity, g)],
                  MonitoringUnits)
  {
  }

  lemma UnitsDisjoint()
    ensures CoreUnits !! MonitoringUnits
  {
  }

  lemma CoreBlock(r: seq<Word>)
    requires |r| == 3
    ensures Block(CoreUpdates(r), CoreUnits)
  {
    CoreReadings(r[0], r[1], ModeLevel(r[2]), IntToString(r[0]), IntToString(r[1]), IntToString(ModeLevel(r[2])));
  }

  lemma MonitoringBlock(m: seq<Word>)
    requires |m| == 27
    ensures Block(MonitoringUpdates(m), MonitoringUnits)
  {
    MonitoringReadings(m[26], EnergyText(m[0], Uint32FromWords(m[10], m[11])),
                       EnergyText(m[1], Uint32FromWords(m[16], m[17])),
                       EnergyText(m[2], Uint32FromWords(m[22], m[23])),
                       IntToString(m[3]), IntToString(m[4]), TenthsToString(m[25]), IntToString(m[26]));
  }

  /** Every heartbeat call goes to its own unit and passes a string. */
  lemma HeartbeatBlock(core: ReadResult, monitoring: ReadResult)
    requires Answers(core, 3) && Answers(monitoring, 27)
    ensures Block(HeartbeatUpdates(core, monitoring), CoreUnits + MonitoringUnits)
  {
    var cu := if core.isError then [] else CoreUpdates(core.registers);
    var mu := if monitoring.isError then [] else MonitoringUpdates(monitoring.registers);
    if !core.isError {
      CoreBlock(core.registers);
    }
    if !monitoring.isError {
      MonitoringBlock(monitoring.registers);
    }
    UnitsDisjoint();
    JoinBlocks(cu, CoreUnits, mu, MonitoringUnits);
  }

  /** A failed read of registers 920..946 leaves every monitoring device as
      it was and makes no `Update` for it. */
  lemma FailedMonitoringKeepsState(d: Table, core: ReadResult, monitoring: ReadResult, x: int)
    requires Answers(core, 3) && Answers(monitoring, 27) && monitoring.isError
    requires x in MonitoringUnits
    ensures var us := HeartbeatUpdates(core, monitoring);
            && (x in d ==> ApplyAll(d, us)[x] == d[x])
            && forall i :: 0 <= i < |EmittedBy(d, us)| ==> EmittedBy(d, us)[i].0 != x
  {
    var us := HeartbeatUpdates(core, monitoring);
    UnitsDisjoint();
    if !core.isError {
      CoreBlock(core.registers);
      assert us == CoreUpdates(core.registers) + [];
    }
    Untouched(d, us, x);
  }

  /** A failed read of registers 2..4 leaves the ECO, Auto and Mode devices
      as they were and makes no `Update` for them. */
  lemma FailedCoreKeepsState(d: Table, core: ReadResult, monitoring: ReadResult, x: int)
    requires Answers(core, 3) && Answers(monitoring, 27) && core.isError
    requires x in CoreUnits
    ensures var us := HeartbeatUpdates(core, monitoring);
            && (x in d ==> ApplyAll(d, us)[x] == d[x])
            && forall i :: 0 <= i < |EmittedBy(d, us)| ==> EmittedBy(d, us)[i].0 != x
  {
    var us := HeartbeatUpdates(core, monitoring);
    UnitsDisjoint();
    if !monitoring.isError {
      MonitoringBlock(monitoring.registers);
      assert us == [] + MonitoringUpdates(monitoring.registers);
    }
    Untouched(d, us, x);
  }

  /** This revision has no clock check: a heartbeat never writes a
      register. */
  lemma HeartbeatWrites()
    ensures Writes(HeartbeatBus) == []
  {
  }

/** A second heartbeat that reads the same registers makes no `Update`
      call and leaves the devices as the first one left them. */
  lemma SecondHeartbeatQuiet(d: Table, core: ReadResult, monitoring: ReadResult)
    requires Answers(core, 3) && Answers(monitoring, 27)
    ensures var us := HeartbeatUpdates(core, monitoring);
            ApplyAll(ApplyAll(d, us), us) == ApplyAll(d, us) && EmittedBy(ApplyAll(d, us), us) == []
  {
    HeartbeatBlock(core, monitoring);
    SecondRunSuppressed(d, HeartbeatUpdates(core, monitoring));
  }
}
