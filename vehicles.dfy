/**
 * Rental vehicles. Python's abstract base `Kendaraan` with its three concrete
 * subclasses becomes one class whose variant-specific attribute is a tagged union.
 */
module Vehicles {

  /** The variant of a vehicle and the attribute only that variant carries. */
  datatype Kind =
    | Hatchback(luggageLitres: int)   // kapasitas_bagasi
    | Sedan(comfort: string)          // tingkat_kenyamanan, e.g. "High"
    | SUV(fourWheelDrive: bool)

  /**
   * A vehicle of the inventory. Its identity, make, plate, daily rate and
   * variant never change after construction; only the availability flag is
   * written afterwards, by the inventory manager.
   */
  class Vehicle {
    const id: string
    const make: string
    const plate: string
    const rate: int
    const kind: Kind
    var isAvailable: bool

    /** A new vehicle is available for rent. */
    constructor (id: string, make: string, plate: string, rate: int, kind: Kind)
      ensures this.id == id && this.make == make && this.plate == plate
      ensures this.rate == rate && this.kind == kind
      ensures isAvailable
    {
      this.id := id;
      this.make := make;
      this.plate := plate;
      this.rate := rate;
      this.kind := kind;
      isAvailable := true;
    }

    /** `get_status`: whether the vehicle may be booked now. */
    function IsFree(): bool
      reads this
    {
      isAvailable
    }

    /** `get_harga`: the daily rate. */
    function Price(): int
    {
      rate
    }
  }
}
