/**
 * `InventoryManager`: the list of vehicles, appended to in place, scanned by
 * id, and whose availability flags are written in place.
 */
module Inventory {
  import opened Wrappers
  import opened Vehicles
  import opened Stock

  class InventoryManager {
    /** `daftar_mobil`, in insertion order. */
    var cars: seq<Vehicle>

    constructor ()
      ensures cars == []
    {
      cars := [];
    }

    /** `tambah_unit`: append the vehicle; ids are not checked for duplicates. */
    method AddUnit(v: Vehicle)
      modifies this
      ensures cars == old(cars) + [v]
    {
      cars := cars + [v];
    }

    /** `get_all_mobil`: the current sequence of the shared vehicle objects. */
    function AllCars(): seq<Vehicle>
      reads this
    {
      cars
    }

    /**
     * `cek_ketersediaan`: scan the list and answer the availability of the
     * first vehicle with the id, or false when none has it.
     */
    method IsAvailable(id: string) returns (b: bool)
      ensures b == AvailableOf(Availability(cars), cars, id)
      ensures b ==> exists v :: v in cars && v.id == id && v.isAvailable
    {
      var i := 0;
      while i < |cars|
        invariant 0 <= i <= |cars|
        invariant forall j :: 0 <= j < i ==> cars[j].id != id
      {
        if cars[i].id == id {
          return cars[i].isAvailable;
        }
        i := i + 1;
      }
      return false;
    }

    /** `get_mobil_by_id`: scan the list for the first vehicle with the id. */
    method FindById(id: string) returns (r: Option<Vehicle>)
      ensures r == Lookup(cars, id)
      ensures r.Some? ==> r.value in cars && r.value.id == id
      ensures r.None? ==> forall v :: v in cars ==> v.id != id
    {
      var i := 0;
      while i < |cars|
        invariant 0 <= i <= |cars|
        invariant forall j :: 0 <= j < i ==> cars[j].id != id
      {
        if cars[i].id == id {
          return Some(cars[i]);
        }
        i := i + 1;
      }
      return None;
    }

    /**
     * `update_stok`: set the flag of every vehicle with the id. The list and
     * every other vehicle are unchanged; an unknown id changes nothing.
     */
    method SetAvailability(id: string, s: bool)
      modifies cars
      ensures cars == old(cars)
      ensures Availability(cars) == StockAfter(old(Availability(cars)), cars, id, s)
    {
      ghost var before := Availability(cars);
      var i := 0;
      while i < |cars|
        invariant 0 <= i <= |cars|
        invariant forall j :: 0 <= j < |cars| && cars[j].id != id ==> cars[j].isAvailable == before[j]
        invariant forall j :: 0 <= j < i && cars[j].id == id ==> cars[j].isAvailable == s
      {
        if cars[i].id == id {
          cars[i].isAvailable := s;
        }
        i := i + 1;
      }
      assert forall j :: 0 <= j < |cars| ==> Availability(cars)[j] == StockAfter(before, cars, id, s)[j];
    }
  }
}
