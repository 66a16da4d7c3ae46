# Komfovent C6 / DOMEKT Domoticz plugin, modelled in Dafny

The plugin connects a Domoticz home-automation server to a Komfovent C6
(or older DOMEKT) ventilation controller over Modbus TCP. On every
heartbeat it reads holding-register blocks from the controller. It
decodes them (signed tenths, packed clock bytes, 32-bit counters read
through pymodbus's `BinaryPayloadDecoder`) and pushes each reading to a
Domoticz device through `UpdateDevice`. That helper touches a device only
when one of its values differs. On a command from Domoticz the plugin
writes one register and updates the commanded device optimistically.

Two revisions are modelled: `plugin.py` (module `Plugin`, the C6 revision)
and `domekt.py` (module `Domekt`, the older revision).

- `Modbus` holds register words and the operations a callback issues on
  the client: connect, holding-register reads, single-register writes and
  close.
- `Codec` holds the numeric codecs: `ConvertToFloat`'s `c_short`
  reinterpretation, the mode and temperature-control selectors, the packed
  clock words and the 32-bit counters.
- `Decimal` gives Python's `str` of the integers and tenths the devices
  show, with parsers as round-trip partners.
- `Payload` is the decoder's cursor as a class.
- `Devices` is the Domoticz device table, as a class with change
  suppression. A pure left fold (`ApplyAll`, `EmittedBy`) specifies it.
- `Channels` holds the device units.
- `PluginProperties`, `DomektProperties` and `Revisions` hold the lemmas
  about the callbacks.

Each callback is a module-level method that takes the device table as a
parameter. The reads' answers, the `sync_time` setting and the clock
sample are its inputs. It returns the operations it issued on the
client, in order. Each method is proved against a function of its
inputs:

- `HeartbeatBus` and `HeartbeatUpdates` for `onHeartbeat`;
- `CommandReaction` for `onCommand`, which also gives how the command
  ends: normal return, or Python's `UnboundLocalError` for `rAddr` or
  `nVal`.

The table's ghost log of calls ties the state after each call to the fold.

What the code does at the points a reader may not expect:

- The year correction writes back the year the controller already holds,
  so a wrong year is never corrected (`PluginProperties.ClockCorrectionSettles`).
- Register 916 (filter impurity) is taken unsigned, unlike registers
  909..915.
- `close` runs only when a command returns normally. On the On/Off path
  an unknown unit or command raises before the write, and the client
  stays open. A Set Level command always closes and returns.
- A Set Level with a level the selectors do not offer connects, closes
  and returns without writing.
- A failed core read does not stop the clock check or the monitoring read.
- The energy counters are located by the decoder arithmetic: words 30/31,
  36/37 and 42/43 of the 900 block. The `reg[11-12] from byte[21]`
  comments in the source give other positions and are not followed.
- domekt.py reads the room temperature unsigned and sends a Set Level for
  any unit other than Mode down the On/Off path, where it raises.

## Model

| member | source | states |
|---|---|---|
| Devices.DeviceTable.UpdateDevice | plugin.py:435-441 | the call is logged; the device changes to the stored `(nValue, str(sValue), TimedOut)` exactly when the unit exists and a value differs, and one `Update` is recorded exactly then |
| Devices.DeviceTable.constructor | plugin.py:435-441 | a fresh table holds the host's devices and has made no call |
| Devices.Apply | plugin.py:435-441 | an `UpdateDevice` call never adds or removes a device |
| Devices.ApplyAll | plugin.py:435-441 | a sequence of calls never adds or removes a device |
| Devices.Emits | plugin.py:438 | the guard holds iff the unit exists and the stored device differs from what the call would store, or the sValue is an integer |
| Devices.Stored | plugin.py:439 | the device keeps nValue and TimedOut, and its stored text compares unequal to the sValue argument exactly when that argument is an integer |
| Devices.Untouched | plugin.py:435-441 | calls none of which addresses a unit leave that device as it was and make no `Update` for it |
| Devices.UpdateRule | plugin.py:437-440 | on every table, a call updates iff the unit exists and the stored device differs from what it would store (or the sValue is an integer); the addressed device then holds the stored values, and every other device is unchanged |
| Devices.RepeatedStringCallSuppressed | plugin.py:438-439 | repeating a string-valued call makes no second update |
| Devices.IntegerCallAlwaysUpdates | plugin.py:438-439 | an integer sValue (the optimistic Set Level update) never compares equal to the stored string, so it updates every time |
| Devices.MissingUnitIgnored | plugin.py:437 | a call for a deleted unit changes nothing |
| Devices.ApplyAllAppend | plugin.py:435-441 | running two stretches of calls is running one after the other, for the table and for the recorded updates |
| Devices.SettledCallsChangeNothing | plugin.py:438-439 | calls whose devices already hold their values make no update |
| Devices.DistinctCallsSettle | plugin.py:438-439 | after calls for distinct units each device holds what its call stored |
| Devices.SecondRunSuppressed | plugin.py:438-439 | repeating string-valued calls for distinct units makes no update and leaves the table unchanged |
| Codec.ToSigned16 | plugin.py:445 | the result is the 16-bit two's-complement value of the word |
| Codec.ConvertToTenths | plugin.py:444-445 | the tenths lie in -32768..32767 and are the two's-complement reading of the word: they re-encode to it |
| Codec.SignedRoundTrip | plugin.py:445 | reinterpreting signed and back gives the word again, and conversely |
| Codec.ConvertToTenthsExample | plugin.py:445 | 65486 is -50 tenths |
| Codec.ModeLevel | plugin.py:259 | `reg * 10` is a multiple of ten whose `int(level / 10)` is the register again |
| Codec.ModeRegister | plugin.py:204 | `int(Level / 10)` of an accepted level is 1..4 and ten times it is the level |
| Codec.TempControlLevel | plugin.py:260 | `reg * 10 + 10` is a multiple of ten from 10 whose `int((level - 10) / 10)` is the register again |
| Codec.TempControlRegister | plugin.py:212 | `int((Level - 10) / 10)` of an accepted level is 0..3 and maps back to the level |
| Codec.ModeRoundTrip | plugin.py:204 | an accepted level is written as a register value 1..4 that reads back (times 10) as the same level |
| Codec.ModeLevelAccepted | plugin.py:259 | a mode register reads as an accepted level iff it is 1..4, and re-encoding gives the register back |
| Codec.TempControlRoundTrip | plugin.py:212 | an accepted level is written as 0..3 and reads back (times 10 plus 10) as the same level |
| Codec.TempControlLevelAccepted | plugin.py:260 | a temperature-control register reads as an accepted level iff it is at most 3, and re-encoding gives it back |
| Codec.HighByte | plugin.py:280 | `w >> 8` is the byte whose multiple of 256 lies within 256 below the word |
| Codec.LowByte | plugin.py:280 | `w & 0xFF` is what remains of the word after its high byte times 256 |
| Codec.PackBytes | plugin.py:287 | packing `hi` shifted left by 8 with `lo & 0xFF` has `hi` as its high byte and the low byte of `lo` as its low byte |
| Codec.PackUnpack | plugin.py:287 | a packed hour/minute (month/day) word unpacks into the same two bytes |
| Codec.UnpackPack | plugin.py:280 | unpacking a word and packing the two bytes gives the word |
| Codec.Uint32FromWords | plugin.py:339 | the big-endian 32-bit value of two words is below 2^32 and gives back the high word and the low word |
| Codec.Uint32RoundTrip | plugin.py:339 | every counter below 2^32 is the value of its high and low word, and the words are recovered from the value |
| Decimal.NatRoundTrip | plugin.py:262 | `str` of a non-negative integer parses back to it |
| Decimal.IntRoundTrip | plugin.py:262 | `str` of any integer parses back to it |
| Decimal.TenthsRoundTrip | plugin.py:306 | `str` of a float of whole tenths parses back to the same count of tenths |
| Decimal.TenthsToStringInjective | plugin.py:306-309 | two readings show the same text iff they are the same number of tenths |
| Decimal.IntToStringInjective | plugin.py:262-265 | two integers show the same text iff they are equal |
| Decimal.NatToString | plugin.py:262 | `str` of a non-negative integer is a non-empty string of decimal digits |
| Decimal.IntToString | plugin.py:262 | `str` of an integer starts with a minus sign iff it is negative, and the rest are digits |
| Decimal.TenthsToString | plugin.py:306 | `str` of a float of whole tenths ends in a point and one digit, and starts with a minus sign iff the value is negative |
| Payload.BytesOfAt | plugin.py:335-336 | word k of a read lands at bytes 2k (high) and 2k+1 (low) of the payload |
| Payload.WordsAsUint32 | plugin.py:339 | a 32-bit big-endian decode at byte 2k is the counter held in words k and k+1 |
| Payload.BytesOf | plugin.py:335-336 | the payload of n registers is 2n bytes |
| Payload.Uint32At | plugin.py:339 | a 32-bit big-endian decode is below 2^32, its high 16 bits are the first two bytes and its low 16 bits the last two |
| Payload.PayloadDecoder.FromRegisters | plugin.py:335-336 | the payload is the registers high byte first, twice as long, cursor at 0 |
| Payload.PayloadDecoder.SkipBytes | plugin.py:338 | the cursor moves on by n bytes |
| Payload.PayloadDecoder.Decode32BitUint | plugin.py:339 | the result is the big-endian value of the next four bytes, below 2^32, and the cursor moves past them |
| Channels.UpdateCounter | plugin.py:338-340 | after skipping onto words k, k+1 the device gets `current;counter` with that 32-bit counter, and the cursor sits past it |
| Plugin.UpdateCore | plugin.py:254-274 | the core block makes exactly the On/Off, ECO, Auto, Mode, dimmer and temperature-control calls of `CoreCalls`, in order |
| Plugin.SyncClock | plugin.py:276-295 | the clock check issues exactly the corrective writes of `ClockOps` |
| Plugin.ClockOps | plugin.py:276-295 | the clock check keeps the operations issued so far and appends at most three writes, all to registers 28..30 |
| Plugin.UpdateTemperatures | plugin.py:300-309 | outdoor, supply, extract and water temperature calls with signed tenths of words 3, 1, 2, 4 |
| Plugin.UpdateLevels | plugin.py:311-327 | the seven signed level calls of words 9..15 and the raw filter call of word 16 |
| Plugin.UpdateEnergy | plugin.py:329-348 | the three kWh calls with the currents of words 20..22 and the counters decoded at bytes 60, 72, 84 |
| Plugin.UpdateClimate | plugin.py:350-357 | efficiency, saving, room temperature (signed) and humidity calls |
| Plugin.UpdateMonitoring | plugin.py:300-357 | the monitoring block makes exactly the temperature, level, energy and climate calls of `MonitoringCalls`, in order |
| Plugin.OnHeartbeat | plugin.py:251-372 | the operations are `HeartbeatBus`, the calls are `HeartbeatUpdates`, and devices and updates are what those calls do from the old table |
| Plugin.HeartbeatBus | plugin.py:251-372 | every heartbeat connects, reads registers 0..10 first, reads 900..946 last and closes |
| Plugin.SetLevel | plugin.py:201-227 | the Set Level branch issues `LevelReaction`'s operations and calls |
| Plugin.Switch | plugin.py:229-243 | the On/Off branch issues `SwitchReaction`'s operations, calls and outcome |
| Plugin.LevelReaction | plugin.py:201-227 | a Set Level always closes and returns, makes at most one optimistic update, and writes a register exactly when it makes one |
| Plugin.SwitchReaction | plugin.py:229-243 | the On/Off path keeps the operations issued so far; it returns iff it makes its update, and then writes once and closes; otherwise it adds no operation |
| Plugin.CommandReaction | plugin.py:196-243 | every command connects first, issues only register writes after that, and one write per optimistic update, closing iff it returns |
| Plugin.OnCommand | plugin.py:196-243 | operations, outcome and calls are `CommandReaction`'s, and devices and updates are what those calls do |
| PluginProperties.ModeCommandRoundTrip | plugin.py:202-205 | a Mode Set Level writes level/10 (1..4) to register 4 and closes; polling that register shows the level, and the optimistic update stores what the poll stores |
| PluginProperties.TempControlCommandRoundTrip | plugin.py:210-213 | the same for register 10 with (level-10)/10 (0..3) |
| PluginProperties.InvalidLevelIgnored | plugin.py:206-217 | a level outside {10,20,30,40} for Mode or TempControlType only connects and closes |
| PluginProperties.DimmerLevelWrittenRaw | plugin.py:218-224 | Kitchen and Fireplace write the raw level to 5130 and 5137 and update optimistically |
| PluginProperties.OtherSetLevelIgnored | plugin.py:201-227 | a Set Level for any other unit only connects and closes |
| PluginProperties.SwitchCommand | plugin.py:229-243 | returns iff unit is OnOff/ECO/Auto and command On/Off, writing 0/1 to register 0/2/3 and updating with the command; raises on rAddr iff the unit is unknown, on nVal iff the unit is known and the command not On/Off; a raised command only connected |
| PluginProperties.CloseOnlyOnReturn | plugin.py:199-243 | every command connects first, closes iff it returns normally (as its last operation), and makes at most one call |
| PluginProperties.CoreBlocks | plugin.py:262-274 | the core calls are the switches, then the mode followers, then the temperature control type |
| PluginProperties.ModeFollowers | plugin.py:266-272 | mode 50 sets Kitchen to 5 and never touches Fireplace, 60 the converse, any other mode sets both to 0 |
| PluginProperties.SignedTenthsExamples | plugin.py:444-445 | word 65486 shows as "-5.0" and 215 as "21.5" |
| PluginProperties.MonitoringBlocks | plugin.py:305-357 | the monitoring calls are temperatures, levels, energy, climate in that order |
| PluginProperties.FilterTakenRaw | plugin.py:317 | the filter shows word 16 unsigned as "N.0"; from 0x8000 this differs from the signed reading |
| PluginProperties.EnergyCountersShown | plugin.py:338-348 | each kWh device shows exactly the 32-bit counter held in its word pair |
| PluginProperties.HeartbeatOperations | plugin.py:251-298 | every heartbeat connects, reads 0..10, reads 900..946 and closes last; without sync_time nothing else; with it the clock block is read third |
| PluginProperties.HeartbeatWrites | plugin.py:276-295 | a heartbeat writes only the clock corrections, and only with sync_time and a successful clock read |
| PluginProperties.ClockSyncWrites | plugin.py:286-295 | register 28 (30) is written with the packed sample iff time (date) differs; register 29 is written with the device's own year iff the year differs; every write is one of those three, and no register is written twice |
| PluginProperties.ClockCorrectionSettles | plugin.py:286-295 | after the corrections time and date agree with the sample, the year register is unchanged, and the next check writes only that same year again |
| PluginProperties.UnitsDisjoint | plugin.py:54-83 | the core and monitoring blocks address different units |
| PluginProperties.HeartbeatBlock | plugin.py:262-357 | every heartbeat call addresses its own unit and passes a string |
| PluginProperties.SecondHeartbeatQuiet | plugin.py:251-372 | a second heartbeat with the same reads makes no `Update` and leaves the table as it was |
| PluginProperties.FailedMonitoringKeepsState | plugin.py:298-357 | a failed read of registers 900..946 leaves every monitoring device as it was and makes no `Update` for it |
| PluginProperties.FailedCoreKeepsState | plugin.py:254-274 | a failed read of registers 0..10 leaves every core device as it was and makes no `Update` for it |
| Domekt.UpdateCore | domekt.py:157-166 | the ECO, Auto and Mode (reg*10) calls of registers 2..4 |
| Domekt.UpdateMonitoring | domekt.py:168-197 | the kWh calls with counters decoded at bytes 20, 32, 44 (interleaved with the decodes), then efficiency, saving, unsigned temperature and humidity |
| Domekt.OnHeartbeat | domekt.py:154-199 | the operations are connect, read 2..4, read 920..946, close; the calls are `HeartbeatUpdates` with their effect on the table |
| Domekt.OnCommand | domekt.py:116-144 | operations, outcome and calls are `CommandReaction`'s with their effect on the table |
| Domekt.SwitchReaction | domekt.py:132-144 | the On/Off path keeps the operations issued so far; it returns iff it makes its update, and then writes once and closes; otherwise it adds no operation |
| Domekt.CommandReaction | domekt.py:116-144 | every command connects first, issues only register writes after that, and one write per optimistic update, closing iff it returns |
| DomektProperties.ModeCommandRoundTrip | domekt.py:121-124 | a Mode Set Level writes level/10 to register 4; the poll of that word shows the level as the optimistic update stored it |
| DomektProperties.InvalidLevelIgnored | domekt.py:126-130 | an unaccepted level only connects and closes |
| DomektProperties.OtherSetLevelRaises | domekt.py:132-142 | a Set Level for another unit takes the On/Off path and raises on nVal (ECO, Auto) or rAddr (others) without closing |
| DomektProperties.SwitchCommand | domekt.py:132-144 | returns iff unit is ECO/Auto and command On/Off, writing 0/1 to register 2/3; raises on rAddr iff the unit is unknown, on nVal iff known with another command |
| DomektProperties.CloseOnlyOnReturn | domekt.py:119-144 | every command connects first and closes iff it returns normally |
| DomektProperties.TemperatureUnsigned | domekt.py:190 | the room temperature is word 25 as unsigned tenths: its text never starts with a minus sign and reads back as that word |
| DomektProperties.EnergyCountersShown | domekt.py:176-188 | each kWh device shows exactly the 32-bit counter of its word pair |
| DomektProperties.UnitsDisjoint | domekt.py:48-59 | the core and monitoring blocks address different units |
| DomektProperties.HeartbeatBlock | domekt.py:163-197 | every heartbeat call addresses its own unit and passes a string |
| DomektProperties.SecondHeartbeatQuiet | domekt.py:154-199 | a second heartbeat with the same reads makes no `Update` |
| DomektProperties.FailedMonitoringKeepsState | domekt.py:168-197 | a failed read of registers 920..946 leaves every monitoring device as it was and makes no `Update` for it |
| DomektProperties.FailedCoreKeepsState | domekt.py:157-166 | a failed read of registers 2..4 leaves ECO, Auto and Mode as they were and makes no `Update` for them |
| DomektProperties.HeartbeatWrites | domekt.py:154-199 | a heartbeat of this revision writes no register |
| Revisions.SameSwitchReadings | domekt.py:157-165 | ECO, Auto and Mode get the same calls from the same absolute registers in both revisions |
| Revisions.SameMonitoringReadings | domekt.py:168-197 | registers 920..946 give the same energy, efficiency, saving and humidity calls as plugin.py's words 20..46; the temperature agrees iff its word is below 0x8000 |
| Revisions.SameCommands | domekt.py:116-144 | ECO/Auto switch commands and Mode Set Level commands do the same in both revisions |
| Revisions.SetLevelForSwitchDiffers | domekt.py:121-142 | a Set Level for ECO or Auto returns quietly in plugin.py but raises on nVal in domekt.py |

## Left out

- onStart: device creation, parameter parsing and client construction are host set-up. The table's initial devices are an input.
- onStop, onConnect, onMessage, onNotification, onDisconnect and DumpConfigToLog only log. The module-level wrappers only forward to `_plugin`.
- Logging (`Domoticz.Log`, the `debug` branches, domekt.py's dead `if False:` block) has no effect on state.
- The `Hue` argument of onCommand is only logged, so it is dropped.
- The pymodbus transport is out of scope. Connection failures and exceptions raised by `connect`, `read_holding_registers` or `write_register` are not modelled. Each read's answer (error response or words) is an input, and a successful read is assumed to carry the requested number of words.
- `datetime.datetime.now()` is an input (`Plugin.Clock`), restricted to the ranges `datetime` guarantees. The `sync_time` setting is an input `bool`.
- Python floats: `str(float)` is modelled for values that are a whole number of tenths. For all values the registers can produce it is that number's integer part, a point and one digit.
- Register ranges: `write_register` of a value outside 0..65535 (a raw Kitchen or Fireplace level) is modelled as issued. pymodbus's own range check is not modelled.
- Devices deleted by the host between calls: the table's set of units is fixed during a callback.
