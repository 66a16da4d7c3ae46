/** The device units both plugin revisions create (the `UNITS` tables; the
    older domekt.py revision has a subset of them, under the same numbers)
    and the shape of the readings the heartbeat hands to `UpdateDevice`. */
module Channels {
  import opened Modbus
  import opened Codec
  import opened Decimal
  import opened Devices
  import opened Payload

  const ECO := 1
  const Auto := 2
  const Temp := 3
  const Hum := 4
  const Mode := 5
  const OutdoorTemp := 6
  const SupplyTemp := 7
  const ExtractTemp := 8
  const WaterTemp := 9
  const TotalEnergyConsumtion := 11
  const TotalHeaterConsumtion := 12
  const TotalEnergyRecovered := 13
  const CurrentExchangeEfficiency := 14
  const CurrentEnergySaving := 15
  const SupplyFanIntensivity := 20
  const ExtractFanIntensivity := 21
  const HeatExchanger := 22
  const ElectricHeater := 23
  const WaterHeater := 24
  const WaterCooler := 25
  const DXUnit := 26
  const FiltersImupurity := 27
  const TempControlType := 50
  const OnOff := 51
  const Kitchen := 52
  const Fireplace := 53

  /** A heartbeat reading: `UpdateDevice(unit, nValue, text, 0)` with a
      string sValue. */
  function Reading(unit: int, nValue: int, text: string): (u: DeviceUpdate)
    ensures u.sValue.StrValue? && Str(u.sValue) == text && u.timedOut == 0
  {
    DeviceUpdate(unit, nValue, StrValue(text), 0)
  }

  /** The sValue of a kWh device: `str(current) + ';' + str(total)`. */
  function EnergyText(current: int, total: int): string
  {
    IntToString(current) + ";" + IntToString(total)
  }

  /** One kWh device, as both revisions show it: the cursor moves on `skip`
      bytes onto the counter held in words `k` (high) and `k + 1` (low),
      `decode_32bit_uint` reads it, and the device gets the current power
      and that counter. */
  method UpdateCounter(table: DeviceTable, decoder: PayloadDecoder, skip: nat, unit: int, current: int,
                       ghost m: seq<Word>, ghost k: nat)
    requires k + 1 < |m| && decoder.payload == BytesOf(m) && decoder.cursor + skip == 2 * k
    requires table.Valid()
    modifies table, decoder
    ensures decoder.cursor == 2 * k + 4
    ensures table.Valid() && table.initial == old(table.initial)
    ensures table.calls == old(table.calls) + [Reading(unit, 0, EnergyText(current, Uint32FromWords(m[k], m[k + 1])))]
  {
    decoder.SkipBytes(skip);
    WordsAsUint32(m, k);
    var total := decoder.Decode32BitUint();
    table.UpdateDevice(unit, 0, StrValue(EnergyText(current, total)), 0);
  }
}
