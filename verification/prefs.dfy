/**
  The app's persistent preferences (`BVC_PersistentPrefs`): eight typed
  fields over a generic string-keyed value map. Each getter reads the value
  stored under its key and falls back to a fixed default when the key is
  absent or holds a value of another type; each setter writes under its own
  key. The scan criteria handed to the BLE driver are built from the three
  ID-list fields.
 */
module Prefs {
  import opened Options
  import opened PrefKeys

  /** A value in the backend's heterogeneous map (Swift `Any`), by the type a getter casts it to. */
  datatype Value =
    | BoolValue(b: bool)
    | IntValue(n: int)
    | StringListValue(ids: seq<string>)
    | OtherValue

  /** The preference record: its `values` map, held in memory. */
  datatype Prefs = Prefs(values: map<string, Value>)

  /** The value stored under a key's raw string, if any. */
  function Stored(p: Prefs, k: Key): Option<Value> {
    if RawValue(k) in p.values then Some(p.values[RawValue(k)]) else None
  }

  /** The RSSI floor used when none is stored, in dBm. */
  const DefaultMinimumRSSILevel: int := -100

  // ---------------------------------------------------------------------
  // Typed getters: `values[key] as? T ?? default`
  // ---------------------------------------------------------------------

  /** `values[key] as? Bool ?? false`. */
  function ReadFlag(p: Prefs, k: Key): (r: bool)
    ensures r <==> Stored(p, k) == Some(BoolValue(true))
  {
    match Stored(p, k)
    case Some(BoolValue(b)) => b
    case _ => false
  }

  /** `values[key] as? Int ?? -100`. */
  function ReadLevel(p: Prefs, k: Key): (r: int)
    ensures Stored(p, k).Some? && Stored(p, k).value.IntValue? ==> r == Stored(p, k).value.n
    ensures Stored(p, k).None? || !Stored(p, k).value.IntValue? ==> r == DefaultMinimumRSSILevel
  {
    match Stored(p, k)
    case Some(IntValue(n)) => n
    case _ => DefaultMinimumRSSILevel
  }

  /** `values[key] as? [String] ?? []`. */
  function ReadIds(p: Prefs, k: Key): (r: seq<string>)
    ensures Stored(p, k).Some? && Stored(p, k).value.StringListValue? ==> r == Stored(p, k).value.ids
    ensures Stored(p, k).None? || !Stored(p, k).value.StringListValue? ==> r == []
  {
    match Stored(p, k)
    case Some(StringListValue(ids)) => ids
    case _ => []
  }

  /** True only when `true` is stored; absent or non-Bool reads as false. */
  function ContinuouslyUpdatePeripherals(p: Prefs): (r: bool)
    ensures r <==> Stored(p, Key.ContinuouslyUpdatePeripherals) == Some(BoolValue(true))
  {
    ReadFlag(p, Key.ContinuouslyUpdatePeripherals)
  }

  /** True only when `true` is stored; absent or non-Bool reads as false. */
  function DiscoverOnlyConnectableDevices(p: Prefs): (r: bool)
    ensures r <==> Stored(p, Key.DiscoverOnlyConnectableDevices) == Some(BoolValue(true))
  {
    ReadFlag(p, Key.DiscoverOnlyConnectableDevices)
  }

  /** True only when `true` is stored; absent or non-Bool reads as false. */
  function AllowEmptyNames(p: Prefs): (r: bool)
    ensures r <==> Stored(p, Key.AllowEmptyNames) == Some(BoolValue(true))
  {
    ReadFlag(p, Key.AllowEmptyNames)
  }

  /** True only when `true` is stored; absent or non-Bool reads as false. */
  function AlwaysUseCRLF(p: Prefs): (r: bool)
    ensures r <==> Stored(p, Key.AlwaysUseCRLF) == Some(BoolValue(true))
  {
    ReadFlag(p, Key.AlwaysUseCRLF)
  }

  /** The stored Int, or -100 when absent or non-Int. */
  function MinimumRSSILevel(p: Prefs): (r: int)
    ensures Stored(p, Key.MinimumRSSILevel).Some? && Stored(p, Key.MinimumRSSILevel).value.IntValue? ==>
      r == Stored(p, Key.MinimumRSSILevel).value.n
    ensures Stored(p, Key.MinimumRSSILevel).None? || !Stored(p, Key.MinimumRSSILevel).value.IntValue? ==>
      r == -100
  {
    ReadLevel(p, Key.MinimumRSSILevel)
  }

  /** The stored string list, or empty when absent or of another type. */
  function PeripheralFilterIDArray(p: Prefs): (r: seq<string>)
    ensures Stored(p, Key.PeripheralFilterIDArray).Some? && Stored(p, Key.PeripheralFilterIDArray).value.StringListValue? ==>
      r == Stored(p, Key.PeripheralFilterIDArray).value.ids
    ensures Stored(p, Key.PeripheralFilterIDArray).None? || !Stored(p, Key.PeripheralFilterIDArray).value.StringListValue? ==>
      r == []
  {
    ReadIds(p, Key.PeripheralFilterIDArray)
  }

  /** The stored string list, or empty when absent or of another type. */
  function ServiceFilterIDArray(p: Prefs): (r: seq<string>)
    ensures Stored(p, Key.ServiceFilterIDArray).Some? && Stored(p, Key.ServiceFilterIDArray).value.StringListValue? ==>
      r == Stored(p, Key.ServiceFilterIDArray).value.ids
    ensures Stored(p, Key.ServiceFilterIDArray).None? || !Stored(p, Key.ServiceFilterIDArray).value.StringListValue? ==>
      r == []
  {
    ReadIds(p, Key.ServiceFilterIDArray)
  }

  /** The stored string list, or empty when absent or of another type. */
  function CharacteristicFilterIDArray(p: Prefs): (r: seq<string>)
    ensures Stored(p, Key.CharacteristicFilterIDArray).Some? && Stored(p, Key.CharacteristicFilterIDArray).value.StringListValue? ==>
      r == Stored(p, Key.CharacteristicFilterIDArray).value.ids
    ensures Stored(p, Key.CharacteristicFilterIDArray).None? || !Stored(p, Key.CharacteristicFilterIDArray).value.StringListValue? ==>
      r == []
  {
    ReadIds(p, Key.CharacteristicFilterIDArray)
  }

  /** `keys`: the record's key list is exactly `Keys.allKeys`, one raw string per field. */
  function KeyList(p: Prefs): (r: seq<string>)
    ensures |r| == |Declared|
    ensures forall i :: 0 <= i < |r| ==> r[i] == RawValue(Declared[i])
  {
    AllKeys()
  }

  // ---------------------------------------------------------------------
  // Fields viewed uniformly
  // ---------------------------------------------------------------------

  /** What a typed getter returns, tagged by its type. */
  datatype Setting = Flag(on: bool) | Level(dBm: int) | IdList(ids: seq<string>)

  /** The getter of each key, as a `Setting`. */
  function Field(p: Prefs, k: Key): Setting {
    match k
    case ContinuouslyUpdatePeripherals => Flag(ContinuouslyUpdatePeripherals(p))
    case PeripheralFilterIDArray => IdList(PeripheralFilterIDArray(p))
    case ServiceFilterIDArray => IdList(ServiceFilterIDArray(p))
    case CharacteristicFilterIDArray => IdList(CharacteristicFilterIDArray(p))
    case MinimumRSSILevel => Level(MinimumRSSILevel(p))
    case DiscoverOnlyConnectableDevices => Flag(DiscoverOnlyConnectableDevices(p))
    case AllowEmptyNames => Flag(AllowEmptyNames(p))
    case AlwaysUseCRLF => Flag(AlwaysUseCRLF(p))
  }

  /** The setting a key's getter falls back to, as documented per field. */
  function Default(k: Key): Setting {
    match k
    case MinimumRSSILevel => Level(-100)
    case PeripheralFilterIDArray | ServiceFilterIDArray | CharacteristicFilterIDArray => IdList([])
    case _ => Flag(false)
  }

  /** The stored value has the type the key's getter casts it to. */
  predicate HasFieldType(k: Key, v: Value) {
    match Default(k)
    case Flag(_) => v.BoolValue?
    case Level(_) => v.IntValue?
    case IdList(_) => v.StringListValue?
  }

  /** The value a setter stores for a setting. */
  function Encode(s: Setting): Value {
    match s
    case Flag(b) => BoolValue(b)
    case Level(n) => IntValue(n)
    case IdList(ids) => StringListValue(ids)
  }

  /** The setting has the type the key's accessor is declared with. */
  predicate Fits(k: Key, s: Setting) {
    HasFieldType(k, Encode(s))
  }

  /**
    Every getter returns the stored value when it has the getter's type, and
    its default when the key is absent or holds a value of another type.
   */
  lemma FieldReadsStoredOrDefault(p: Prefs, k: Key)
    ensures Stored(p, k).Some? && HasFieldType(k, Stored(p, k).value) ==>
      Encode(Field(p, k)) == Stored(p, k).value
    ensures Stored(p, k).None? || !HasFieldType(k, Stored(p, k).value) ==>
      Field(p, k) == Default(k)
  {
  }

  /**
    Writes a setting under its key. The key's getter then returns that
    setting, and every other getter returns what it returned before, since
    the raw key strings are pairwise distinct.
   */
  function Put(p: Prefs, k: Key, s: Setting): (r: Prefs)
    requires Fits(k, s)
    ensures Field(r, k) == s
    ensures forall k2 :: k2 != k ==> Field(r, k2) == Field(p, k2)
  {
    var r := Prefs(p.values[RawValue(k) := Encode(s)]);
    assert forall k2 :: k2 != k ==> Stored(r, k2) == Stored(p, k2) by {
      forall k2 | k2 != k ensures Stored(r, k2) == Stored(p, k2) {
        RawValueInjective(k, k2);
      }
    }
    assert forall k2 :: k2 != k ==> Field(r, k2) == Field(p, k2) by {
      forall k2 | k2 != k ensures Field(r, k2) == Field(p, k2) {
        assert Stored(r, k2) == Stored(p, k2);
      }
    }
    r
  }

  // ---------------------------------------------------------------------
  // Typed setters: `values[key] = newValue`
  // ---------------------------------------------------------------------

  function SetContinuouslyUpdatePeripherals(p: Prefs, b: bool): (r: Prefs)
    ensures ContinuouslyUpdatePeripherals(r) == b
    ensures forall k :: k != Key.ContinuouslyUpdatePeripherals ==> Field(r, k) == Field(p, k)
  {
    Put(p, Key.ContinuouslyUpdatePeripherals, Flag(b))
  }

  function SetDiscoverOnlyConnectableDevices(p: Prefs, b: bool): (r: Prefs)
    ensures DiscoverOnlyConnectableDevices(r) == b
    ensures forall k :: k != Key.DiscoverOnlyConnectableDevices ==> Field(r, k) == Field(p, k)
  {
    Put(p, Key.DiscoverOnlyConnectableDevices, Flag(b))
  }

  function SetAllowEmptyNames(p: Prefs, b: bool): (r: Prefs)
    ensures AllowEmptyNames(r) == b
    ensures forall k :: k != Key.AllowEmptyNames ==> Field(r, k) == Field(p, k)
  {
    Put(p, Key.AllowEmptyNames, Flag(b))
  }

  function SetAlwaysUseCRLF(p: Prefs, b: bool): (r: Prefs)
    ensures AlwaysUseCRLF(r) == b
    ensures forall k :: k != Key.AlwaysUseCRLF ==> Field(r, k) == Field(p, k)
  {
    Put(p, Key.AlwaysUseCRLF, Flag(b))
  }

  function SetMinimumRSSILevel(p: Prefs, n: int): (r: Prefs)
    ensures MinimumRSSILevel(r) == n
    ensures forall k :: k != Key.MinimumRSSILevel ==> Field(r, k) == Field(p, k)
  {
    Put(p, Key.MinimumRSSILevel, Level(n))
  }

  function SetPeripheralFilterIDArray(p: Prefs, ids: seq<string>): (r: Prefs)
    ensures PeripheralFilterIDArray(r) == ids
    ensures forall k :: k != Key.PeripheralFilterIDArray ==> Field(r, k) == Field(p, k)
  {
    Put(p, Key.PeripheralFilterIDArray, IdList(ids))
  }

  function SetServiceFilterIDArray(p: Prefs, ids: seq<string>): (r: Prefs)
    ensures ServiceFilterIDArray(r) == ids
    ensures forall k :: k != Key.ServiceFilterIDArray ==> Field(r, k) == Field(p, k)
  {
    Put(p, Key.ServiceFilterIDArray, IdList(ids))
  }

  function SetCharacteristicFilterIDArray(p: Prefs, ids: seq<string>): (r: Prefs)
    ensures CharacteristicFilterIDArray(r) == ids
    ensures forall k :: k != Key.CharacteristicFilterIDArray ==> Field(r, k) == Field(p, k)
  {
    Put(p, Key.CharacteristicFilterIDArray, IdList(ids))
  }

  // ---------------------------------------------------------------------
  // Scan criteria
  // ---------------------------------------------------------------------

  /** The driver's filter struct: peripheral, service and characteristic ID allow-lists. */
  datatype ScanCriteria = ScanCriteria(peripherals: seq<string>, services: seq<string>, characteristics: seq<string>)

  /** `scanCriteria`: the three ID lists copied, in that order, into the driver's struct. */
  function ScanCriteriaOf(p: Prefs): (c: ScanCriteria)
    ensures Field(p, Key.PeripheralFilterIDArray) == IdList(c.peripherals)
    ensures Field(p, Key.ServiceFilterIDArray) == IdList(c.services)
    ensures Field(p, Key.CharacteristicFilterIDArray) == IdList(c.characteristics)
  {
    ScanCriteria(PeripheralFilterIDArray(p), ServiceFilterIDArray(p), CharacteristicFilterIDArray(p))
  }

  /** A fresh record yields criteria with all three lists empty. */
  lemma EmptyPrefsScanCriteria()
    ensures ScanCriteriaOf(Prefs(map[])) == ScanCriteria([], [], [])
  {
  }

  /** Writing an ID list shows up in exactly its slot of the criteria; writing any other field leaves them as they were. */
  lemma ScanCriteriaAfterPut(p: Prefs, k: Key, s: Setting)
    requires Fits(k, s)
    ensures k == Key.PeripheralFilterIDArray ==> ScanCriteriaOf(Put(p, k, s)) == ScanCriteriaOf(p).(peripherals := s.ids)
    ensures k == Key.ServiceFilterIDArray ==> ScanCriteriaOf(Put(p, k, s)) == ScanCriteriaOf(p).(services := s.ids)
    ensures k == Key.CharacteristicFilterIDArray ==> ScanCriteriaOf(Put(p, k, s)) == ScanCriteriaOf(p).(characteristics := s.ids)
    ensures k !in {Key.PeripheralFilterIDArray, Key.ServiceFilterIDArray, Key.CharacteristicFilterIDArray} ==>
      ScanCriteriaOf(Put(p, k, s)) == ScanCriteriaOf(p)
  {
  }
}
