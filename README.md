# Car-rental booking model

A Dafny model of the domain layer of a small car-rental application
(`streamlit_app.py`, lines 11-156). It covers:

- the vehicles: `Kendaraan` with its variants `Hatchback`, `Sedan` and `SUV`;
- the inventory manager `InventoryManager`, which owns the list of vehicles;
- the payment record `Pembayaran`, whose verification always succeeds;
- the booking `Booking`, with a cost fixed at creation and a status;
- the facade `BookingService`, which creates, pays and cancels bookings.

The Python objects are mutable and shared. A booking's vehicle is the same
object as the inventory entry. So vehicles, payments, bookings, the inventory
and the service are Dafny classes. The one mutable vehicle field,
`is_available`, is a `var`. Fields the source never reassigns are `const`:
the id, make, plate, daily rate and variant attribute of a vehicle, and the
id, user, vehicle, duration and total of a booking. The three vehicle
subclasses become one class with a `Kind` tagged union for the
variant-specific attribute.

The inventory's linear scans are stated once, over the vehicle list, in
module `Stock`:

- `FirstIndex` and `Lookup` give the first entry with an id;
- `AvailableOf` gives the availability answer for an id;
- `StockAfter` gives the availability flags after `update_stok`.

The inventory's loop methods are proved against these functions. The
lemmas about them state what the source promises:

- an unknown id is a no-op;
- setting a flag twice is the same as setting it once;
- with unique ids, updating every match is the same as updating the first
  match;
- appending a vehicle never changes what an existing id finds.

Modules and files:

- `wrappers.dfy`: `Option`.
- `vehicles.dfy`: `Kind`, `Vehicle`. `IsFree()` is `get_status` and
  `Price()` is `get_harga`.
- `stock.dfy`: the pure specification of the scans and the availability
  update.
- `inventory.dfy`: `InventoryManager`. `AllCars()` is `get_all_mobil`; it
  returns the current sequence of the shared vehicle objects.
- `bookings.dfy`: `User`, `Status`, `Payment`, `RentalCost` (`hitung_total`),
  `Booking`.
- `service.dfy`: `BookingService`. It also holds two clients: one
  cancellation after another, and cancel-then-rebook with the seeded
  vehicle C01.

Status strings `"Pending"`, `"Confirmed"` and `"Cancelled"` are the
constructors of the datatype `Status`. Ids that the source draws from `uuid`
are parameters: `bookingId` and `paymentId`.

What `streamlit_app.py` does, and so what this model does:

- there is no "complete" operation that finishes a rental;
- `batalkan_pesanan` and `proses_pembayaran` have no guard on the booking's
  status (the status check lives in the UI, see "## Left out");
- booking creation does not record the booking in a ledger (the UI appends
  it to a session list).

Four source functions are modelled by members without a contract of their
own, so they have no row in the table below:

- `get_status` (streamlit_app.py:19-20) is `Vehicles.Vehicle.IsFree`, a plain field read;
- `get_harga` (streamlit_app.py:22-23) is `Vehicles.Vehicle.Price`, a plain field read;
- `hitung_total` (streamlit_app.py:91-92) is `Bookings.RentalCost`, the product of rate and days;
- `get_all_mobil` (streamlit_app.py:118-119) is `Inventory.InventoryManager.AllCars`, a plain field read.

## Model

| member | source | states |
|---|---|---|
| Vehicles.Vehicle.constructor | streamlit_app.py:12-17 | a new vehicle keeps the given id, make, plate, rate and variant, and starts available |
| Bookings.Payment.constructor | streamlit_app.py:68-72 | a new payment carries the given id and amount and is not yet successful |
| Bookings.Payment.Verify | streamlit_app.py:74-77 | verification always succeeds: it returns true and marks the payment successful |
| Bookings.Booking.constructor | streamlit_app.py:81-92 | a new booking is Pending with no payment, and its total is the vehicle's daily rate times the duration |
| Bookings.Booking.SetPayment | streamlit_app.py:94-97 | the payment is attached; the status becomes Confirmed exactly when the payment succeeded, else it is unchanged |
| Inventory.InventoryManager.constructor | streamlit_app.py:101-102 | a new inventory is empty |
| Inventory.InventoryManager.AddUnit | streamlit_app.py:104-105 | the list grows by the new vehicle at the end; earlier entries stay, in order |
| Inventory.InventoryManager.IsAvailable | streamlit_app.py:107-111 | the answer is the flag of the first vehicle with the id, false when none has it; true implies an available vehicle with that id is listed |
| Inventory.InventoryManager.SetAvailability | streamlit_app.py:113-116 | the flag of every vehicle with the id becomes the given value; other vehicles and the list are unchanged |
| Inventory.InventoryManager.FindById | streamlit_app.py:121-125 | the result is the first listed vehicle with the id, or None exactly when no vehicle has it |
| Stock.FirstIndex | streamlit_app.py:121-125 | the position found has the id and no earlier position has it; none is found exactly when no entry has the id |
| Stock.Lookup | streamlit_app.py:121-125 | a found vehicle is listed, has the id, and no earlier entry has the id; nothing is found exactly when no listed vehicle has the id |
| Stock.StockAfter | streamlit_app.py:113-116 | after the update, matching entries hold the new value, all others their old one, and the length is the same |
| Stock.FirstIndexAppend | streamlit_app.py:104-105 | after an append, an id that was found is found at the same place; the new vehicle is found only when its id was absent |
| Stock.UniqueIdsAppend | streamlit_app.py:104-105 | appending a vehicle whose id is absent keeps ids unique |
| Stock.StockAfterIdempotent | streamlit_app.py:113-116 | applying the same availability update twice equals applying it once |
| Stock.StockAfterUnknownId | streamlit_app.py:113-116 | an update for an id no vehicle has changes no flag |
| Stock.StockAfterUnique | streamlit_app.py:113-125 | with unique ids, updating every match changes only the entry the lookups return |
| Stock.QueryAfterStock | streamlit_app.py:107-116 | after setting an id's flags, the availability answer for it is the new value if the id is listed, false otherwise |
| Stock.QueryOtherAfterStock | streamlit_app.py:107-116 | setting one id's flags does not change the availability answer for any other id |
| Service.BookingService.constructor | streamlit_app.py:129-130 | the service works on the given inventory |
| Service.BookingService.CreateBooking | streamlit_app.py:132-140 | a booking is made exactly when the id's availability answer was true. On failure no flag changes. On success the booking is fresh and Pending, has no payment, books the vehicle the lookup returns, and costs rate times days. Every vehicle with the id is then unavailable. |
| Service.BookingService.ProcessPayment | streamlit_app.py:142-151 | a fresh successful payment for exactly the booking's total is always returned, attached to the booking, and the booking is Confirmed |
| Service.BookingService.CancelBooking | streamlit_app.py:153-156 | every vehicle with the booked vehicle's id becomes available again, and the booking is Cancelled whatever its prior status; its payment is kept |
| Service.CancelTwice | streamlit_app.py:153-156 | cancelling twice leaves the same availability and status as cancelling once |
| Service.RebookAfterCancel | streamlit_app.py:132-156 | C01 at 300000 a day: a 2-day booking costs 600000; after it is cancelled, a 3-day rebooking succeeds at 900000 and leaves C01 unavailable |

## Left out

- The web interface (`main`) and the session-state seeding are left out. They are view code driven by the UI framework's rerun model.
- The session list of the user's bookings is left out. The UI keeps it, not the domain classes.
- `get_detail_info` and `get_profile` are left out. They only format strings for display.
- The payment date and the rental date are left out. They are clock reads.
- Booking and payment ids are parameters. The source draws them from `uuid`.
- The payment method argument of `proses_pembayaran` is not a parameter. The source ignores it.
- The user's password is not kept. It plays no part in any behaviour.
- Daily rates are exact integers. Python would also accept floats, which are not modelled.
- Service.BookingService.CreateBooking: the duration is not required to be positive. The source does not check it; only the UI's number widget enforces at least one day. For a non-negative rate, a duration of zero or less gives a total of zero or less, as in Python.
- The UI offers Pay and Cancel only for Pending bookings (streamlit_app.py:241-250). That guard is view code and is not modelled, so the model also allows paying or cancelling a Confirmed or Cancelled booking.
- Unique vehicle ids are not an invariant of the inventory. `tambah_unit` does not check for duplicates. Uniqueness appears only as a hypothesis of `StockAfterUnique` and as the conclusion of `UniqueIdsAppend`.
- `Vehicle.IsFree`, `Vehicle.Price` and `RentalCost` are plain field reads or a product. They have no contract of their own; `CreateBooking` and the `Booking` constructor use them and state their effect.
- InventoryManager.AllCars: returns a snapshot of the list. The source returns the list object itself, so its callers see later appends and can append through it; sharing the list object with callers is not modelled.
