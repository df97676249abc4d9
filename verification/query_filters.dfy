/**
  * The query builder: folds the configured `filter` entries into the three
  * optional string parameters of the remote list call.
  */
module QueryFilters {
  import opened Outcomes
  import opened Ports

  /** One `{name, value}` entry of the `filter` block. */
  datatype FilterEntry = FilterEntry(name: string, value: string)

  /** The parameter slots a filter can set. */
  datatype Slot = DeviceIdSlot | DeviceSlot | NameSlot

  /** The list call's parameters; an unset slot places no constraint on the query. */
  datatype Params = Params(deviceId: Option<string>, device: Option<string>, name: Option<string>)

  /** Freshly created parameters: every slot unset. */
  const NoParams: Params := Params(None, None, None)

  /** The filter name that addresses each slot. */
  function SlotKey(s: Slot): string
  {
    match s
    case DeviceIdSlot => "device_id"
    case DeviceSlot => "device_name"
    case NameSlot => "name"
  }

  predicate IsSupported(name: string)
  {
    name == "device_id" || name == "device_name" || name == "name"
  }

  predicate AllSupported(fs: seq<FilterEntry>)
  {
    forall i | 0 <= i < |fs| :: IsSupported(fs[i].name)
  }

  /** Dispatch on a filter name; `None` is the default arm of the switch. */
  function ParseKey(name: string): (r: Option<Slot>)
    ensures r.Some? <==> IsSupported(name)
    ensures r.Some? ==> SlotKey(r.value) == name
  {
    if name == "device_id" then Some(DeviceIdSlot)
    else if name == "device_name" then Some(DeviceSlot)
    else if name == "name" then Some(NameSlot)
    else None
  }

  /** Every slot's key parses back to that slot. */
  lemma ParseSlotKey(s: Slot)
    ensures ParseKey(SlotKey(s)) == Some(s)
  {
  }

  function GetSlot(p: Params, s: Slot): Option<string>
  {
    match s
    case DeviceIdSlot => p.deviceId
    case DeviceSlot => p.device
    case NameSlot => p.name
  }

  /** Store `v` in slot `s`; the other two slots are left alone. */
  function SetSlot(p: Params, s: Slot, v: string): (q: Params)
    ensures GetSlot(q, s) == Some(v)
    ensures forall t: Slot :: t != s ==> GetSlot(q, t) == GetSlot(p, t)
  {
    match s
    case DeviceIdSlot => p.(deviceId := Some(v))
    case DeviceSlot => p.(device := Some(v))
    case NameSlot => p.(name := Some(v))
  }

  /** `b` if it is set, otherwise `a`: the effect of a later assignment over an earlier one. */
  function Override(a: Option<string>, b: Option<string>): Option<string>
  {
    if b.Some? then b else a
  }

  /**
    * One iteration of the loop over the entries: a recognised name overwrites
    * its own slot with the value verbatim; any other name ends the read.
    */
  function ApplyFilter(p: Params, f: FilterEntry): (r: Result<Params, Error>)
    ensures r.Failure? <==> !IsSupported(f.name)
    ensures r.Failure? ==> r.error == UnsupportedFilter(f.name)
    ensures r.Success? ==>
              forall s: Slot :: GetSlot(r.value, s) == if SlotKey(s) == f.name then Some(f.value) else GetSlot(p, s)
  {
    match ParseKey(f.name)
    case None => Failure(UnsupportedFilter(f.name))
    case Some(s) => Success(SetSlot(p, s, f.value))
  }

  /**
    * Reference definition of "last one wins": the value of the last entry named
    * `key`, found by scanning from the end, or `None` if no entry has that name.
    */
  function LastValue(fs: seq<FilterEntry>, key: string): (r: Option<string>)
    ensures r.None? <==> forall i | 0 <= i < |fs| :: fs[i].name != key
    ensures r.Some? ==>
              exists i | 0 <= i < |fs| ::
                && fs[i] == FilterEntry(key, r.value)
                && forall j | i < j < |fs| :: fs[j].name != key
    decreases |fs|
  {
    if |fs| == 0 then None
    else if fs[|fs| - 1].name == key then Some(fs[|fs| - 1].value)
    else
      var init := fs[..|fs| - 1];
      var r := LastValue(init, key);
      assert forall i | 0 <= i < |init| :: init[i] == fs[i];
      if r.Some? then
        var i :| 0 <= i < |init| && init[i] == FilterEntry(key, r.value)
                 && forall j | i < j < |init| :: init[j].name != key;
        assert forall j | i < j < |fs| :: fs[j].name != key;
        r
      else
        r
  }

  /** Peeling the first entry off: a later entry for the same key overrides the first. */
  lemma {:induction false} LastValueCons(f: FilterEntry, rest: seq<FilterEntry>, key: string)
    ensures LastValue([f] + rest, key) ==
            Override(if f.name == key then Some(f.value) else None, LastValue(rest, key))
    decreases |rest|
  {
    var fs := [f] + rest;
    if |rest| == 0 {
      assert fs == [f];
    } else if rest[|rest| - 1].name == key {
      assert fs[|fs| - 1] == rest[|rest| - 1];
    } else {
      assert fs[|fs| - 1] == rest[|rest| - 1];
      assert fs[..|fs| - 1] == [f] + rest[..|rest| - 1];
      LastValueCons(f, rest[..|rest| - 1], key);
    }
  }

  /**
    * The loop of the read, from parameters `p` over the remaining entries `fs`:
    * it succeeds exactly when every name is recognised, and otherwise fails on
    * the first unrecognised one.
    */
  function BuildParamsFrom(p: Params, fs: seq<FilterEntry>): (r: Result<Params, Error>)
    ensures r.Success? <==> AllSupported(fs)
    ensures r.Failure? ==>
              exists j | 0 <= j < |fs| ::
                && !IsSupported(fs[j].name)
                && AllSupported(fs[..j])
                && r.error == UnsupportedFilter(fs[j].name)
    decreases |fs|
  {
    if |fs| == 0 then Success(p)
    else
      match ApplyFilter(p, fs[0])
      case Failure(e) =>
        assert AllSupported(fs[..0]);
        Failure(e)
      case Success(q) =>
        var r := BuildParamsFrom(q, fs[1..]);
        assert forall i | 1 <= i < |fs| :: fs[i] == fs[1..][i - 1];
        if r.Failure? then
          var j :| 0 <= j < |fs[1..]| && !IsSupported(fs[1..][j].name) && AllSupported(fs[1..][..j])
                   && r.error == UnsupportedFilter(fs[1..][j].name);
          assert fs[..j + 1] == [fs[0]] + fs[1..][..j];
          r
        else
          r
  }

  /**
    * The query builder of the read: the fold from fresh parameters over all
    * entries. It fails on the first unsupported entry; otherwise every slot
    * holds the last value given for its key.
    */
  function BuildParams(fs: seq<FilterEntry>): (r: Result<Params, Error>)
    ensures r.Success? <==> AllSupported(fs)
    ensures r.Failure? ==>
              exists j | 0 <= j < |fs| ::
                && !IsSupported(fs[j].name)
                && AllSupported(fs[..j])
                && r.error == UnsupportedFilter(fs[j].name)
    ensures r.Success? ==> forall s: Slot :: GetSlot(r.value, s) == LastValue(fs, SlotKey(s))
  {
    if AllSupported(fs) then
      BuildParamsFromAllSlots(NoParams, fs);
      BuildParamsFrom(NoParams, fs)
    else
      BuildParamsFrom(NoParams, fs)
  }

  /** `BuildParamsFromSlots` for every slot at once. */
  lemma BuildParamsFromAllSlots(p: Params, fs: seq<FilterEntry>)
    requires AllSupported(fs)
    ensures forall s: Slot ::
              GetSlot(BuildParamsFrom(p, fs).value, s) == Override(GetSlot(p, s), LastValue(fs, SlotKey(s)))
  {
    forall s: Slot
      ensures GetSlot(BuildParamsFrom(p, fs).value, s) == Override(GetSlot(p, s), LastValue(fs, SlotKey(s)))
    {
      BuildParamsFromSlots(p, fs, s);
    }
  }

  /** Each slot ends up as the earlier value overridden by the last entry for its key. */
  lemma {:induction false} BuildParamsFromSlots(p: Params, fs: seq<FilterEntry>, s: Slot)
    requires AllSupported(fs)
    ensures GetSlot(BuildParamsFrom(p, fs).value, s) == Override(GetSlot(p, s), LastValue(fs, SlotKey(s)))
    decreases |fs|
  {
    if |fs| > 0 {
      var q := ApplyFilter(p, fs[0]).value;
      assert AllSupported(fs[1..]) by {
        assert forall i | 0 <= i < |fs[1..]| :: fs[1..][i] == fs[i + 1];
      }
      BuildParamsFromSlots(q, fs[1..], s);
      assert fs == [fs[0]] + fs[1..];
      LastValueCons(fs[0], fs[1..], SlotKey(s));
    }
  }

  /**
    * With only recognised names, every slot holds exactly the value of the last
    * entry for its key, copied verbatim, and a slot whose key never appears stays unset.
    */
  lemma BuildParamsLastWins(fs: seq<FilterEntry>)
    requires AllSupported(fs)
    ensures BuildParams(fs).Success?
    ensures forall s: Slot :: GetSlot(BuildParams(fs).value, s) == LastValue(fs, SlotKey(s))
    ensures forall s: Slot :: GetSlot(BuildParams(fs).value, s).None? <==>
              forall i | 0 <= i < |fs| :: fs[i].name != SlotKey(s)
  {
  }
}
