/**
  The id-keyed screen registry of the watch extension: an `Array` of live
  interface controllers that is read and written like a dictionary keyed by
  each controller's `id` (the `subscript(_ inIDString:)` extension), plus the
  "main" and "top" accessors that read its two ends.
 */
module Registry {
  import opened Options

  /**
    The id the main discovery screen always registers under: the constant of
    src/WatchOS/Extension/InterfaceControllers/Push/CGA_WatchOS_MainInterfaceController.swift:38,
    assigned to the controller's `id` at line 121 of that file.
   */
  const MainId: string := "MAIN"

  /**
    A live screen controller, reduced to what the registry looks at: its key,
    and whether its dynamic class is the main (discovery) interface controller.
   */
  datatype Controller = Controller(id: string, isMain: bool)

  /** Some element of `a` is registered under `k`. */
  predicate HasKey(a: seq<Controller>, k: string) {
    exists i :: 0 <= i < |a| && a[i].id == k
  }

  /** `i` is the position of the first element of `a` registered under `k`. */
  ghost predicate IsFirstIndex(a: seq<Controller>, k: string, i: int) {
    && 0 <= i < |a|
    && a[i].id == k
    && forall j :: 0 <= j < i ==> a[j].id != k
  }

  /** No two elements of `a` share an id. */
  ghost predicate UniqueIds(a: seq<Controller>) {
    forall i, j :: 0 <= i < j < |a| ==> a[i].id != a[j].id
  }

  /** The first position at or after `start` registered under `k`. */
  function FindFrom(a: seq<Controller>, k: string, start: nat): (r: Option<nat>)
    requires start <= |a|
    requires forall j :: 0 <= j < start ==> a[j].id != k
    ensures r.None? <==> !HasKey(a, k)
    ensures r.Some? ==> IsFirstIndex(a, k, r.value)
    decreases |a| - start
  {
    if start == |a| then None
    else if a[start].id == k then Some(start)
    else FindFrom(a, k, start + 1)
  }

  /** The position of the first element registered under `k`, if any. */
  function FindIndex(a: seq<Controller>, k: string): (r: Option<nat>)
    ensures r.None? <==> !HasKey(a, k)
    ensures r.Some? ==> IsFirstIndex(a, k, r.value)
  {
    FindFrom(a, k, 0)
  }

  /** The first position is unique: any two first positions coincide. */
  lemma FirstIndexUnique(a: seq<Controller>, k: string, i: int, j: int)
    requires IsFirstIndex(a, k, i) && IsFirstIndex(a, k, j)
    ensures i == j
  {
  }

  /** The subscript getter: the first element registered under `k`, or nil. */
  function Get(a: seq<Controller>, k: string): (r: Option<Controller>)
    ensures r.None? <==> !HasKey(a, k)
    ensures forall i :: IsFirstIndex(a, k, i) ==> r == Some(a[i])
  {
    match FindIndex(a, k)
    case None => None
    case Some(i) =>
      assert forall i' :: IsFirstIndex(a, k, i') ==> i' == i by {
        forall i' | IsFirstIndex(a, k, i') { FirstIndexUnique(a, k, i, i'); }
      }
      Some(a[i])
  }

  /** The getter as the source writes it: a scan that stops at the first match. */
  method Lookup(a: seq<Controller>, k: string) returns (r: Option<Controller>)
    ensures r == Get(a, k)
  {
    var i := 0;
    while i < |a|
      invariant 0 <= i <= |a|
      invariant forall j :: 0 <= j < i ==> a[j].id != k
    {
      if a[i].id == k {
        assert IsFirstIndex(a, k, i);
        return Some(a[i]);
      }
      i := i + 1;
    }
    return None;
  }

  /**
    The subscript setter. When some element is registered under `k`, the
    first such element is replaced by `v` (whatever `v`'s own id is) or, when
    `v` is nil, removed; otherwise `v` is appended, and a nil `v` changes
    nothing.
   */
  function Set(a: seq<Controller>, k: string, v: Option<Controller>): (r: seq<Controller>)
    // replace in place: same length, only the first match differs
    ensures forall i :: IsFirstIndex(a, k, i) && v.Some? ==>
      && |r| == |a|
      && r[i] == v.value
      && (forall j :: 0 <= j < |a| && j != i ==> r[j] == a[j])
    // delete: exactly the first match goes, the rest keep their order
    ensures forall i :: IsFirstIndex(a, k, i) && v.None? ==>
      && |r| + 1 == |a|
      && (forall j :: 0 <= j < i ==> r[j] == a[j])
      && (forall j :: i < j < |a| ==> r[j - 1] == a[j])
    // no match: append a value, ignore nil
    ensures !HasKey(a, k) && v.Some? ==> r == a + [v.value]
    ensures !HasKey(a, k) && v.None? ==> r == a
  {
    match FindIndex(a, k)
    case Some(i) =>
      assert forall i' :: IsFirstIndex(a, k, i') ==> i' == i by {
        forall i' | IsFirstIndex(a, k, i') { FirstIndexUnique(a, k, i, i'); }
      }
      (match v
       case Some(nv) => a[i := nv]
       case None => a[..i] + a[i + 1..])
    case None =>
      (match v
       case Some(nv) => a + [nv]
       case None => a)
  }

  /** The setter as the source writes it: a scan that acts on the first match and returns. */
  method Assign(a: seq<Controller>, k: string, v: Option<Controller>) returns (r: seq<Controller>)
    ensures r == Set(a, k, v)
  {
    var i := 0;
    while i < |a|
      invariant 0 <= i <= |a|
      invariant forall j :: 0 <= j < i ==> a[j].id != k
    {
      if k == a[i].id {
        assert IsFirstIndex(a, k, i);
        match v {
          case Some(nv) => r := a[i := nv];
          case None => r := a[..i] + a[i + 1..];
        }
        return;
      }
      i := i + 1;
    }
    match v {
      case Some(nv) => r := a + [nv];
      case None => r := a;
    }
  }

  /** `mainViewController`: the first element, but only when it is the main controller. */
  function MainViewController(a: seq<Controller>): (r: Option<Controller>)
    ensures r.Some? <==> |a| > 0 && a[0].isMain
    ensures r.Some? ==> r.value == a[0]
  {
    if |a| > 0 && a[0].isMain then Some(a[0]) else None
  }

  /** `topViewController`: the last element, or nil for an empty registry. */
  function TopViewController(a: seq<Controller>): (r: Option<Controller>)
    ensures r.None? <==> |a| == 0
    ensures r.Some? ==> r.value == a[|a| - 1]
  {
    if |a| == 0 then None else Some(a[|a| - 1])
  }

  // ---------------------------------------------------------------------
  // Properties relating the getter, the setter and the end accessors
  // ---------------------------------------------------------------------

  /** Round trip: after storing `v` under its own id, reading that id gives `v` back. */
  lemma GetAfterSet(a: seq<Controller>, v: Controller)
    ensures Get(Set(a, v.id, Some(v)), v.id) == Some(v)
  {
    var k := v.id;
    var r := Set(a, k, Some(v));
    match FindIndex(a, k)
    case Some(i) =>
      assert IsFirstIndex(r, k, i);
    case None =>
      assert IsFirstIndex(r, k, |a|);
  }

  /** Writing under `k` does not change what any other key reads, as long as the new value does not carry that key. */
  lemma GetOtherAfterSet(a: seq<Controller>, k: string, v: Option<Controller>, k2: string)
    requires k2 != k
    requires v.Some? ==> v.value.id != k2
    ensures Get(Set(a, k, v), k2) == Get(a, k2)
  {
    var r := Set(a, k, v);
    match FindIndex(a, k)
    case Some(i) => {
      match FindIndex(a, k2)
      case Some(i2) =>
        if v.Some? {
          assert IsFirstIndex(r, k2, i2);
        } else if i2 < i {
          assert IsFirstIndex(r, k2, i2);
        } else {
          assert i2 != i;
          assert IsFirstIndex(r, k2, i2 - 1) by {
            forall j | 0 <= j < i2 - 1 ensures r[j].id != k2 {
              if j < i { assert r[j] == a[j]; } else { assert r[j] == a[j + 1]; }
            }
          }
        }
      case None =>
        assert !HasKey(r, k2) by {
          forall j | 0 <= j < |r| ensures r[j].id != k2 {
            if v.Some? {
              if j != i { assert r[j] == a[j]; }
            } else if j < i {
              assert r[j] == a[j];
            } else {
              assert r[j] == a[j + 1];
            }
          }
        }
    }
    case None =>
      match FindIndex(a, k2)
      case Some(i2) =>
        if v.Some? { assert IsFirstIndex(r, k2, i2); }
      case None =>
        if v.Some? {
          assert !HasKey(r, k2) by {
            forall j | 0 <= j < |r| ensures r[j].id != k2 {
              if j < |a| { assert r[j] == a[j]; }
            }
          }
        }
  }

  /** Storing the same value under its own id twice is the same as storing it once. */
  lemma SetIdempotent(a: seq<Controller>, v: Controller)
    ensures Set(Set(a, v.id, Some(v)), v.id, Some(v)) == Set(a, v.id, Some(v))
  {
    var k := v.id;
    var r := Set(a, k, Some(v));
    match FindIndex(a, k)
    case Some(i) =>
      assert IsFirstIndex(r, k, i);
      assert r[i := v] == r;
    case None =>
      assert IsFirstIndex(r, k, |a|);
      assert r[|a| := v] == r;
  }

  /** Keyed writes keep ids unique, provided a stored value carries the key it is stored under. */
  lemma SetPreservesUniqueIds(a: seq<Controller>, k: string, v: Option<Controller>)
    requires UniqueIds(a)
    requires v.Some? ==> v.value.id == k
    ensures UniqueIds(Set(a, k, v))
  {
  }

  /** With unique ids, deleting a key leaves nothing registered under it. */
  lemma DeleteRemovesKey(a: seq<Controller>, k: string)
    requires UniqueIds(a)
    ensures Get(Set(a, k, None), k) == None
  {
  }

  /** A controller registered under a fresh key becomes the top controller. */
  lemma TopAfterRegister(a: seq<Controller>, v: Controller)
    requires !HasKey(a, v.id)
    ensures TopViewController(Set(a, v.id, Some(v))) == Some(v)
  {
  }

  /** Writes under any key other than the first element's leave the main controller alone. */
  lemma MainSurvivesSet(a: seq<Controller>, k: string, v: Option<Controller>)
    requires |a| > 0 && a[0].id != k
    ensures MainViewController(Set(a, k, v)) == MainViewController(a)
  {
  }

  /** When the main controller sits first under its fixed id, `mainViewController` is the keyed lookup of that id. */
  lemma MainIsKeyedLookup(a: seq<Controller>)
    requires |a| > 0 && a[0].isMain && a[0].id == MainId
    ensures MainViewController(a) == Get(a, MainId)
  {
  }
}
