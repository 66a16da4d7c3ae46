/** The Domoticz device table both plugins write through their module-level
    `UpdateDevice(Unit, nValue, sValue, TimedOut)`: a device is updated only
    when its unit exists and one of the three values differs from what it
    holds. The comparison is made against the raw sValue argument while the
    stored value is `str(sValue)`, so an integer sValue never compares equal
    to the stored string. */
module Devices {
  import opened Decimal

  /** The sValue argument as the callers pass it: a string, or an integer
      (the optimistic Set Level updates pass `Level` itself). */
  datatype SValue = StrValue(s: string) | IntValue(i: int)

  /** `str(sValue)` */
  function Str(v: SValue): string
  {
    match v
    case StrValue(s) => s
    case IntValue(i) => IntToString(i)
  }

  /** What a Domoticz device holds. */
  datatype Device = Device(nValue: int, sValue: string, timedOut: int)

  /** One call `UpdateDevice(unit, nValue, sValue, timedOut)`. */
  datatype DeviceUpdate = DeviceUpdate(unit: int, nValue: int, sValue: SValue, timedOut: int)

  type Table = map<int, Device>

  /** Python's `Devices[Unit].sValue != sValue`: a string never equals an
      integer. */
  predicate SValueDiffers(stored: string, v: SValue)
  {
    match v
    case StrValue(s) => stored != s
    case IntValue(_) => true
  }

  /** The guard of `UpdateDevice`. */
  function Emits(d: Table, u: DeviceUpdate): (b: bool)
    ensures b <==> u.unit in d && (d[u.unit] != Stored(u) || u.sValue.IntValue?)
  {
    && u.unit in d
    && (|| d[u.unit].nValue != u.nValue
        || SValueDiffers(d[u.unit].sValue, u.sValue)
        || d[u.unit].timedOut != u.timedOut)
  }

  /** What `Devices[Unit].Update(nValue=..., sValue=str(sValue), TimedOut=...)`
      stores. */
  function Stored(u: DeviceUpdate): (dev: Device)
    ensures dev.nValue == u.nValue && dev.timedOut == u.timedOut
    ensures SValueDiffers(dev.sValue, u.sValue) <==> u.sValue.IntValue?
  {
    Device(u.nValue, Str(u.sValue), u.timedOut)
  }

  /** The table after one `UpdateDevice` call. */
  function Apply(d: Table, u: DeviceUpdate): (d': Table)
    ensures d'.Keys == d.Keys
  {
    if Emits(d, u) then d[u.unit := Stored(u)] else d
  }

  /** The table after a sequence of `UpdateDevice` calls, in order. */
  function ApplyAll(d: Table, us: seq<DeviceUpdate>): (d': Table)
    ensures d'.Keys == d.Keys
  {
    if us == [] then d else Apply(ApplyAll(d, us[..|us| - 1]), us[|us| - 1])
  }

  /** The `Update` call one `UpdateDevice` call makes, if any. */
  function Emitted(d: Table, u: DeviceUpdate): seq<(int, Device)>
  {
    if Emits(d, u) then [(u.unit, Stored(u))] else []
  }

  /** The `Update` calls a sequence of `UpdateDevice` calls makes, in
      order. */
  function EmittedBy(d: Table, us: seq<DeviceUpdate>): seq<(int, Device)>
  {
    if us == [] then []
    else EmittedBy(d, us[..|us| - 1]) + Emitted(ApplyAll(d, us[..|us| - 1]), us[|us| - 1])
  }

  // ---------------------------------------------------------------------
  // Change suppression for one call

  /** A call updates exactly when the unit exists and a value differs, and
      only the addressed device changes. */
  lemma UpdateRule(d: Table, u: DeviceUpdate)
    ensures Emits(d, u) <==> u.unit in d && (d[u.unit] != Stored(u) || u.sValue.IntValue?)
    ensures Emits(d, u) ==> Apply(d, u)[u.unit] == Stored(u)
    ensures !Emits(d, u) ==> Apply(d, u) == d
    ensures forall other :: other in d && other != u.unit ==> Apply(d, u)[other] == d[other]
  {
  }

  /** Repeating a call with a string sValue makes no second update. */
  lemma RepeatedStringCallSuppressed(d: Table, u: DeviceUpdate)
    requires u.sValue.StrValue?
    ensures !Emits(Apply(d, u), u)
    ensures Apply(Apply(d, u), u) == Apply(d, u)
    ensures EmittedBy(d, [u, u]) == EmittedBy(d, [u])
  {
    assert [u, u][..1] == [u];
  }

  /** A call with an integer sValue updates an existing device every time. */
  lemma IntegerCallAlwaysUpdates(d: Table, u: DeviceUpdate)
    requires u.sValue.IntValue? && u.unit in d
    ensures Emits(d, u) && Emits(Apply(d, u), u)
    ensures EmittedBy(d, [u, u]) == [(u.unit, Stored(u)), (u.unit, Stored(u))]
  {
    assert [u, u][..1] == [u];
    assert [u][..0] == [];
    assert EmittedBy(d, [u]) == [(u.unit, Stored(u))];
  }

  /** A call for a unit the table does not have changes nothing. */
  lemma MissingUnitIgnored(d: Table, u: DeviceUpdate)
    requires u.unit !in d
    ensures Apply(d, u) == d && EmittedBy(d, [u]) == []
  {
  }

  // ---------------------------------------------------------------------
  // Sequences of calls

  lemma AppendAssoc<T>(a: seq<T>, b: seq<T>, c: seq<T>)
    ensures a + b + c == a + (b + c)
    ensures a + [] == a
  {
  }

  lemma {:induction false} ApplyAllAppend(d: Table, us: seq<DeviceUpdate>, vs: seq<DeviceUpdate>)
    ensures ApplyAll(d, us + vs) == ApplyAll(ApplyAll(d, us), vs)
    ensures EmittedBy(d, us + vs) == EmittedBy(d, us) + EmittedBy(ApplyAll(d, us), vs)
    decreases |vs|
  {
    if vs == [] {
      assert us + vs == us;
    } else {
      var front, last := vs[..|vs| - 1], vs[|vs| - 1];
      assert (us + vs)[..|us + vs| - 1] == us + front;
      assert (us + vs)[|us + vs| - 1] == last;
      ApplyAllAppend(d, us, front);
    }
  }

  /** No two calls address the same unit. */
  predicate DistinctUnits(us: seq<DeviceUpdate>)
  {
    forall i, j :: 0 <= i < j < |us| ==> us[i].unit != us[j].unit
  }

  /** Calls none of which addresses unit `x` leave that device as it was
      and make no `Update` for it. */
  lemma {:induction false} Untouched(d: Table, us: seq<DeviceUpdate>, x: int)
    requires forall i :: 0 <= i < |us| ==> us[i].unit != x
    ensures x in d ==> ApplyAll(d, us)[x] == d[x]
    ensures forall i :: 0 <= i < |EmittedBy(d, us)| ==> EmittedBy(d, us)[i].0 != x
  {
    if us != [] {
      var front, last := us[..|us| - 1], us[|us| - 1];
      assert forall i :: 0 <= i < |front| ==> front[i].unit != x by {
        forall i | 0 <= i < |front| ensures front[i] == us[i] { }
      }
      Untouched(d, front, x);
      assert last.unit != x;
    }
  }

  /** Every call passes a string sValue. */
  predicate StringValues(us: seq<DeviceUpdate>)
  {
    forall i :: 0 <= i < |us| ==> us[i].sValue.StrValue?
  }

  /** Calls for distinct units, followed by calls for distinct units none of
      which the first calls addressed, address distinct units. */
  lemma DistinctAppend(us: seq<DeviceUpdate>, vs: seq<DeviceUpdate>)
    requires DistinctUnits(us) && DistinctUnits(vs)
    requires forall i, j :: 0 <= i < |us| && 0 <= j < |vs| ==> us[i].unit != vs[j].unit
    ensures DistinctUnits(us + vs)
  {
    var w := us + vs;
    forall i, j | 0 <= i < j < |w| ensures w[i].unit != w[j].unit {
      if j < |us| {
        assert w[i] == us[i] && w[j] == us[j];
      } else if i >= |us| {
        assert w[i] == vs[i - |us|] && w[j] == vs[j - |us|];
      } else {
        assert w[i] == us[i] && w[j] == vs[j - |us|];
      }
    }
  }

  lemma StringAppend(us: seq<DeviceUpdate>, vs: seq<DeviceUpdate>)
    requires StringValues(us) && StringValues(vs)
    ensures StringValues(us + vs)
  {
    var w := us + vs;
    forall i | 0 <= i < |w| ensures w[i].sValue.StrValue? {
      if i < |us| {
        assert w[i] == us[i];
      } else {
        assert w[i] == vs[i - |us|];
      }
    }
  }

  /** A block of heartbeat calls: each addresses a unit of `units`, no two
      the same, and all pass strings. */
  predicate Block(us: seq<DeviceUpdate>, units: set<int>)
  {
    && DistinctUnits(us) && StringValues(us)
    && forall i :: 0 <= i < |us| ==> us[i].unit in units
  }

  lemma JoinBlocks(us: seq<DeviceUpdate>, a: set<int>, vs: seq<DeviceUpdate>, b: set<int>)
    requires Block(us, a) && Block(vs, b) && a !! b
    ensures Block(us + vs, a + b)
  {
    DistinctAppend(us, vs);
    StringAppend(us, vs);
    var w := us + vs;
    assert forall i :: 0 <= i < |w| ==> w[i] in us || w[i] in vs;
  }

  lemma JoinThree(us: seq<DeviceUpdate>, a: set<int>, vs: seq<DeviceUpdate>, b: set<int>,
                  ws: seq<DeviceUpdate>, c: set<int>)
    requires Block(us, a) && Block(vs, b) && Block(ws, c) && a !! b && a !! c && b !! c
    ensures Block(us + vs + ws, a + b + c)
  {
    JoinBlocks(us, a, vs, b);
    JoinBlocks(us + vs, a + b, ws, c);
  }

  /** Every existing device addressed by a call already holds what that call
      would store. */
  predicate Settled(d: Table, us: seq<DeviceUpdate>)
  {
    forall i :: 0 <= i < |us| && us[i].unit in d ==> d[us[i].unit] == Stored(us[i])
  }

  lemma {:induction false} SettledCallsChangeNothing(d: Table, us: seq<DeviceUpdate>)
    requires StringValues(us) && Settled(d, us)
    ensures ApplyAll(d, us) == d
    ensures EmittedBy(d, us) == []
  {
    if us != [] {
      var front := us[..|us| - 1];
      assert StringValues(front) && Settled(d, front) by {
        forall i | 0 <= i < |front| ensures front[i] == us[i] { }
      }
      SettledCallsChangeNothing(d, front);
    }
  }

  lemma {:induction false} DistinctCallsSettle(d: Table, us: seq<DeviceUpdate>)
    requires DistinctUnits(us)
    ensures Settled(ApplyAll(d, us), us)
  {
    if us != [] {
      var front, last := us[..|us| - 1], us[|us| - 1];
      assert DistinctUnits(front) by {
        forall i | 0 <= i < |front| ensures front[i] == us[i] { }
      }
      DistinctCallsSettle(d, front);
      var before := ApplyAll(d, front);
      var after := ApplyAll(d, us);
      assert after == Apply(before, last);
      forall i | 0 <= i < |us| && us[i].unit in after
        ensures after[us[i].unit] == Stored(us[i])
      {
        if i < |us| - 1 {
          assert front[i] == us[i];
          assert us[i].unit != last.unit;
        } else if !Emits(before, last) {
          assert last.sValue.StrValue?;
        }
      }
    }
  }

  /** Running the same string-valued calls for distinct units a second time
      makes no update and leaves the table as the first run left it. */
  lemma SecondRunSuppressed(d: Table, us: seq<DeviceUpdate>)
    requires DistinctUnits(us) && StringValues(us)
    ensures ApplyAll(ApplyAll(d, us), us) == ApplyAll(d, us)
    ensures EmittedBy(ApplyAll(d, us), us) == []
  {
    DistinctCallsSettle(d, us);
    SettledCallsChangeNothing(ApplyAll(d, us), us);
  }

  // ---------------------------------------------------------------------
  // The table itself

  /** `Devices`: the devices the host created, updated in place by
      `UpdateDevice`. `updates` records every `Device.Update` call the
      plugin makes, in order; the ghost `calls` records every `UpdateDevice`
      call since the table held `initial`. */
  class DeviceTable {
    var devices: Table
    var updates: seq<(int, Device)>
    ghost var initial: Table
    ghost var calls: seq<DeviceUpdate>

    /** The table and the `Update` calls are those the recorded calls lead
        to from `initial`. */
    ghost predicate Valid()
      reads this
    {
      devices == ApplyAll(initial, calls) && updates == EmittedBy(initial, calls)
    }

    constructor (existing: Table)
      ensures Valid() && initial == existing && calls == []
      ensures devices == existing && updates == []
    {
      devices := existing;
      updates := [];
      initial := existing;
      calls := [];
    }

    /** `UpdateDevice(Unit, nValue, sValue, TimedOut)` */
    method UpdateDevice(unit: int, nValue: int, sValue: SValue, timedOut: int)
      requires Valid()
      modifies this
      ensures Valid() && initial == old(initial)
      ensures calls == old(calls) + [DeviceUpdate(unit, nValue, sValue, timedOut)]
      ensures devices == Apply(old(devices), DeviceUpdate(unit, nValue, sValue, timedOut))
      ensures updates == old(updates) + Emitted(old(devices), DeviceUpdate(unit, nValue, sValue, timedOut))
    {
      calls := calls + [DeviceUpdate(unit, nValue, sValue, timedOut)];
      assert calls[..|calls| - 1] == old(calls);
      if unit in devices {
        if devices[unit].nValue != nValue || SValueDiffers(devices[unit].sValue, sValue) || devices[unit].timedOut != timedOut {
          devices := devices[unit := Device(nValue, Str(sValue), timedOut)];
          updates := updates + [(unit, Device(nValue, Str(sValue), timedOut))];
        }
      }
    }
  }
}
