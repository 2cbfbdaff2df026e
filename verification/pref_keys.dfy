/**
  The preference keys of the app's persistent settings (the `Keys` enum of
  `BVC_PersistentPrefs`): eight cases, each with the raw string the value is
  stored under.
 */
module PrefKeys {

  datatype Key =
    | ContinuouslyUpdatePeripherals
    | PeripheralFilterIDArray
    | ServiceFilterIDArray
    | CharacteristicFilterIDArray
    | MinimumRSSILevel
    | DiscoverOnlyConnectableDevices
    | AllowEmptyNames
    | AlwaysUseCRLF

  /** The raw string each key is stored under. */
  function RawValue(k: Key): string {
    match k
    case ContinuouslyUpdatePeripherals => "kUpdatePeripherals"
    case PeripheralFilterIDArray => "kPeripheralIDs"
    case ServiceFilterIDArray => "kServiceIDs"
    case CharacteristicFilterIDArray => "kCharacteristicIDs"
    case MinimumRSSILevel => "kMinimumRSSILevel"
    case DiscoverOnlyConnectableDevices => "kOnlyConnectables"
    case AllowEmptyNames => "kAllowEmptyNames"
    case AlwaysUseCRLF => "kAlwaysUseCRLF"
  }

  /** No two keys share a raw string, so every field has a storage slot of its own. */
  lemma RawValueInjective(k1: Key, k2: Key)
    ensures RawValue(k1) == RawValue(k2) ==> k1 == k2
  {
  }

  /** The keys in declaration order. */
  const Declared: seq<Key> := [
    ContinuouslyUpdatePeripherals,
    PeripheralFilterIDArray,
    ServiceFilterIDArray,
    CharacteristicFilterIDArray,
    MinimumRSSILevel,
    DiscoverOnlyConnectableDevices,
    AllowEmptyNames,
    AlwaysUseCRLF
  ]

  /** `Keys.allKeys`: the raw strings of all eight keys, in declaration order, each once. */
  function AllKeys(): (r: seq<string>)
    ensures |r| == |Declared| == 8
    ensures forall i :: 0 <= i < |r| ==> r[i] == RawValue(Declared[i])
    ensures forall i, j :: 0 <= i < j < |r| ==> r[i] != r[j]
    ensures forall k: Key :: RawValue(k) in r
  {
    var r := [
      RawValue(ContinuouslyUpdatePeripherals),
      RawValue(PeripheralFilterIDArray),
      RawValue(ServiceFilterIDArray),
      RawValue(CharacteristicFilterIDArray),
      RawValue(MinimumRSSILevel),
      RawValue(DiscoverOnlyConnectableDevices),
      RawValue(AllowEmptyNames),
      RawValue(AlwaysUseCRLF)
    ];
    assert forall i, j :: 0 <= i < j < |r| ==> r[i] != r[j] by {
      forall i, j | 0 <= i < j < |r| ensures r[i] != r[j] {
        RawValueInjective(Declared[i], Declared[j]);
      }
    }
    r
  }
}
