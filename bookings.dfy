/** Users, payments and bookings. */
module Bookings {
  import opened Wrappers
  import opened Vehicles

  /** `User`; the password plays no part in any behaviour and is not kept. */
  datatype User = User(id: string, name: string, email: string)

  /** The values `status_booking` takes in this revision. */
  datatype Status = Pending | Confirmed | Cancelled

  /** `Pembayaran`: a payment of a fixed amount whose success flag starts false. */
  class Payment {
    const id: string
    const amount: int
    var success: bool

    constructor (id: string, amount: int)
      ensures this.id == id && this.amount == amount && !success
    {
      this.id := id;
      this.amount := amount;
      success := false;
    }

    /** `verifikasi`: a stub that always marks the payment successful. */
    method Verify() returns (ok: bool)
      modifies this
      ensures ok && success
    {
      success := true;
      ok := true;
    }
  }

  /** The cost of renting at a daily rate for a number of days: exact integer product. */
  function RentalCost(rate: int, days: int): int
  {
    rate * days
  }

  /** `Booking`: one user renting one vehicle for a number of days at a cost fixed at creation. */
  class Booking {
    const id: string
    const user: User
    const vehicle: Vehicle
    const days: int
    const total: int
    var status: Status
    var payment: Option<Payment>

    /**
     * A new booking is Pending, has no payment, and costs the vehicle's
     * daily rate times the number of days (`hitung_total`).
     */
    constructor (id: string, user: User, vehicle: Vehicle, days: int)
      ensures this.id == id && this.user == user && this.vehicle == vehicle && this.days == days
      ensures total == vehicle.rate * days
      ensures status == Pending && payment == None
    {
      this.id := id;
      this.user := user;
      this.vehicle := vehicle;
      this.days := days;
      total := RentalCost(vehicle.Price(), days);
      status := Pending;
      payment := None;
    }

    /** `set_pembayaran`: attach the payment; a successful one confirms the booking. */
    method SetPayment(p: Payment)
      modifies this
      ensures payment == Some(p)
      ensures status == if p.success then Confirmed else old(status)
    {
      payment := Some(p);
      if p.success {
        status := Confirmed;
      }
    }
  }
}
