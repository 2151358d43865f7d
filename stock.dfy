/**
 * The meaning of the inventory's linear scans, stated over the sequence of
 * vehicles and a snapshot of their availability flags. Vehicle ids are
 * constant, so everything here that looks only at ids reads no heap.
 */
module Stock {
  import opened Wrappers
  import opened Vehicles

  /** The position of the first vehicle with the given id, if any. */
  function FirstIndex(cars: seq<Vehicle>, id: string): (r: Option<nat>)
    ensures r.Some? ==> r.value < |cars| && cars[r.value].id == id
    ensures r.Some? ==> forall j :: 0 <= j < r.value ==> cars[j].id != id
    ensures r.None? <==> forall j :: 0 <= j < |cars| ==> cars[j].id != id
  {
    if cars == [] then None
    else if cars[0].id == id then Some(0)
    else match FirstIndex(cars[1..], id)
      case Some(k) => Some(k + 1)
      case None => None
  }

  /** The first vehicle with the given id, if any. */
  function Lookup(cars: seq<Vehicle>, id: string): (r: Option<Vehicle>)
    ensures r.Some? ==> r.value in cars && r.value.id == id
    ensures r.Some? ==> exists k :: 0 <= k < |cars| && cars[k] == r.value && forall j :: 0 <= j < k ==> cars[j].id != id
    ensures r.None? <==> forall v :: v in cars ==> v.id != id
  {
    match FirstIndex(cars, id)
    case Some(k) => Some(cars[k])
    case None => None
  }

  /** No two entries of the list share an id. */
  predicate UniqueIds(cars: seq<Vehicle>)
  {
    forall i, j :: 0 <= i < j < |cars| ==> cars[i].id != cars[j].id
  }

  /** The availability flags of the vehicles, in list order. */
  ghost function Availability(cars: seq<Vehicle>): seq<bool>
    reads cars
  {
    seq(|cars|, i requires 0 <= i < |cars| reads cars => cars[i].isAvailable)
  }

  /**
   * The availability answer for an id: the flag of the first vehicle with
   * that id, and false when no vehicle has it.
   */
  function AvailableOf(avail: seq<bool>, cars: seq<Vehicle>, id: string): bool
    requires |avail| == |cars|
  {
    match FirstIndex(cars, id)
    case Some(k) => avail[k]
    case None => false
  }

  /**
   * The availability flags after setting the flag of EVERY vehicle with the
   * given id to `s`, walking the list from the front.
   */
  function StockAfter(avail: seq<bool>, cars: seq<Vehicle>, id: string, s: bool): (r: seq<bool>)
    requires |avail| == |cars|
    ensures |r| == |cars|
    ensures forall i :: 0 <= i < |cars| && cars[i].id == id ==> r[i] == s
    ensures forall i :: 0 <= i < |cars| && cars[i].id != id ==> r[i] == avail[i]
  {
    if cars == [] then []
    else [if cars[0].id == id then s else avail[0]] + StockAfter(avail[1..], cars[1..], id, s)
  }

  /** Appending a vehicle never changes which entry an id already finds; the new one is found only for a fresh id. */
  lemma {:induction false} FirstIndexAppend(cars: seq<Vehicle>, v: Vehicle, id: string)
    ensures FirstIndex(cars + [v], id) ==
      if FirstIndex(cars, id).Some? then FirstIndex(cars, id)
      else if v.id == id then Some(|cars|)
      else None
  {
    var cs := cars + [v];
    assert forall j :: 0 <= j < |cars| ==> cs[j] == cars[j];
    assert cs[|cars|] == v;
  }

  /** Appending a vehicle whose id is not yet present keeps the ids unique. */
  lemma UniqueIdsAppend(cars: seq<Vehicle>, v: Vehicle)
    requires UniqueIds(cars)
    requires FirstIndex(cars, v.id).None?
    ensures UniqueIds(cars + [v])
  {
  }

  /** Setting the flags of an id twice to the same value is the same as setting them once. */
  lemma StockAfterIdempotent(avail: seq<bool>, cars: seq<Vehicle>, id: string, s: bool)
    requires |avail| == |cars|
    ensures StockAfter(StockAfter(avail, cars, id, s), cars, id, s) == StockAfter(avail, cars, id, s)
  {
  }

  /** An id that no vehicle carries leaves every flag as it was. */
  lemma StockAfterUnknownId(avail: seq<bool>, cars: seq<Vehicle>, id: string, s: bool)
    requires |avail| == |cars|
    requires FirstIndex(cars, id).None?
    ensures StockAfter(avail, cars, id, s) == avail
  {
  }

  /**
   * With unique ids, setting every match is the same as setting the first
   * match: only the flag of the entry the lookups find changes.
   */
  lemma StockAfterUnique(avail: seq<bool>, cars: seq<Vehicle>, id: string, s: bool)
    requires |avail| == |cars|
    requires UniqueIds(cars)
    requires FirstIndex(cars, id).Some?
    ensures StockAfter(avail, cars, id, s) == avail[FirstIndex(cars, id).value := s]
  {
  }

  /** After setting an id's flags to `s`, the availability answer for that id is `s` when the id is present, and false otherwise. */
  lemma QueryAfterStock(avail: seq<bool>, cars: seq<Vehicle>, id: string, s: bool)
    requires |avail| == |cars|
    ensures AvailableOf(StockAfter(avail, cars, id, s), cars, id) == (s && FirstIndex(cars, id).Some?)
  {
  }

  /** Setting the flags of one id leaves the availability answer for every other id as it was. */
  lemma QueryOtherAfterStock(avail: seq<bool>, cars: seq<Vehicle>, id: string, other: string, s: bool)
    requires |avail| == |cars|
    requires other != id
    ensures AvailableOf(StockAfter(avail, cars, id, s), cars, other) == AvailableOf(avail, cars, other)
  {
  }
}
