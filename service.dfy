/**
 * `BookingService`: the facade that creates bookings against the inventory,
 * pays them and cancels them.
 */
module Service {
  import opened Wrappers
  import opened Vehicles
  import opened Stock
  import opened Inventory
  import opened Bookings

  class BookingService {
    const inventory: InventoryManager

    constructor (inventory: InventoryManager)
      ensures this.inventory == inventory
    {
      this.inventory := inventory;
    }

    /**
     * `buat_pesanan`: book the first vehicle with the id if it exists and is
     * available, and mark every vehicle with that id unavailable. Otherwise
     * return nothing and change nothing. The duration is not checked.
     */
    method CreateBooking(user: User, vehicleId: string, days: int, bookingId: string) returns (r: Option<Booking>)
      modifies inventory.cars
      ensures inventory.cars == old(inventory.cars)
      ensures r.Some? <==> AvailableOf(old(Availability(inventory.cars)), inventory.cars, vehicleId)
      ensures r.None? ==> Availability(inventory.cars) == old(Availability(inventory.cars))
      ensures r.Some? ==>
        && fresh(r.value)
        && Lookup(inventory.cars, vehicleId) == Some(r.value.vehicle)
        && r.value.id == bookingId && r.value.user == user && r.value.days == days
        && r.value.total == r.value.vehicle.rate * days
        && r.value.status == Pending && r.value.payment == None
        && Availability(inventory.cars) == StockAfter(old(Availability(inventory.cars)), inventory.cars, vehicleId, false)
        && !r.value.vehicle.isAvailable
        && !AvailableOf(Availability(inventory.cars), inventory.cars, vehicleId)
    {
      var car := inventory.FindById(vehicleId);
      if car.Some? && car.value.IsFree() {
        var booking := new Booking(bookingId, user, car.value, days);
        inventory.SetAvailability(vehicleId, false);
        QueryAfterStock(old(Availability(inventory.cars)), inventory.cars, vehicleId, false);
        r := Some(booking);
      } else {
        r := None;
      }
    }

    /**
     * `proses_pembayaran`: create a payment for the booking's total, verify it
     * (which always succeeds) and attach it, which confirms the booking.
     */
    method ProcessPayment(booking: Booking, paymentId: string) returns (r: Option<Payment>)
      modifies booking
      ensures r.Some? && fresh(r.value)
      ensures r.value.id == paymentId && r.value.amount == booking.total && r.value.success
      ensures booking.payment == r && booking.status == Confirmed
    {
      var payment := new Payment(paymentId, booking.total);
      var ok := payment.Verify();
      if ok {
        booking.SetPayment(payment);
        r := Some(payment);
      } else {
        r := None;
      }
    }

    /**
     * `batalkan_pesanan`: make every vehicle with the booked vehicle's id
     * available again and cancel the booking, whatever its status was.
     */
    method CancelBooking(booking: Booking)
      modifies inventory.cars, booking
      ensures inventory.cars == old(inventory.cars)
      ensures Availability(inventory.cars) == StockAfter(old(Availability(inventory.cars)), inventory.cars, booking.vehicle.id, true)
      ensures booking.status == Cancelled && booking.payment == old(booking.payment)
      ensures booking.vehicle in inventory.cars ==> booking.vehicle.isAvailable
    {
      inventory.SetAvailability(booking.vehicle.id, true);
      booking.status := Cancelled;
    }
  }

  /**
   * Cancelling a booking a second time leaves the state exactly as one
   * cancellation left it: the postcondition is the one of a single call.
   */
  method CancelTwice(service: BookingService, booking: Booking)
    modifies service.inventory.cars, booking
    ensures service.inventory.cars == old(service.inventory.cars)
    ensures Availability(service.inventory.cars) ==
      StockAfter(old(Availability(service.inventory.cars)), service.inventory.cars, booking.vehicle.id, true)
    ensures booking.status == Cancelled && booking.payment == old(booking.payment)
  {
    ghost var before := Availability(service.inventory.cars);
    service.CancelBooking(booking);
    service.CancelBooking(booking);
    StockAfterIdempotent(before, service.inventory.cars, booking.vehicle.id, true);
  }

  /**
   * The seeded Hatchback C01 at 300000 a day: booking it for two days costs
   * 600000; after cancelling, it can be booked again for three days at
   * 900000, and is then unavailable.
   */
  method RebookAfterCancel() returns (first: Booking, second: Booking)
    ensures first.total == 600000 && first.status == Cancelled
    ensures second.total == 900000 && second.status == Pending
    ensures first.vehicle == second.vehicle && !second.vehicle.isAvailable
  {
    var inventory := new InventoryManager();
    var c01 := new Vehicle("C01", "Toyota Yaris", "B 1234 ABC", 300000, Hatchback(250));
    inventory.AddUnit(c01);
    var service := new BookingService(inventory);
    var user := User("U01", "Budi Santoso", "budi@email.com");
    assert inventory.cars[0] == c01;
    var b1 := service.CreateBooking(user, "C01", 2, "B1");
    assert b1.Some?;
    service.CancelBooking(b1.value);
    var b2 := service.CreateBooking(user, "C01", 3, "B2");
    assert b2.Some?;
    first, second := b1.value, b2.value;
  }
}
