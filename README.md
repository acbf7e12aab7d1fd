# Luna salon booking: a Dafny model

This project models the booking flow of the Luna hair-salon site in two parts.

The first part is the five-step booking wizard of the front end:
- services;
- date and time;
- stylist;
- contact details;
- review and confirm.

The wizard is the class `BookingPage.BookingWizard`. Its fields are the page's state variables: `step`, `selectedServices`, `selectedDate`, `selectedTime`, `selectedStylist`, `clientInfo`, `currentWeekStart`, `isSubmitting`, `bookingConfirmed` and `bookingReference`. Each event handler is a method, and each method is proved to keep the invariant `Valid()`. Four modules hold the values those methods work on:
- `BookingDraft` holds the cart operations, the totals, the step gates, the week window and the request body.
- `Text` holds the decimal digits behind `parseInt`.
- `Subsequence` holds the order-preserving sub-list relation.
- `Optional` holds `Option`.

The second part is the booking side of the API server:
- `Reference` covers the base-36 booking reference of `generate_reference`.
- `Server` covers the free-slot filter of `GET /api/timeslots` and the record and response that `POST /api/bookings` builds.
- `Submission` connects the two parts. It shows which branch of `create_booking` a request from the wizard takes, and what comes back.

Some inputs are parameters of the model:
- Days are integers counted from 1970-01-01 (a Thursday), so a Monday is a day `d` with `(d + 3) % 7 == 0`.
- "Today" (midnight of the current day) is the parameter `today`.
- The millisecond clock of `generate_reference` is the parameter `timestamp`.
- The two `datetime.utcnow()` readings of `create_booking` are `createdAt` and `storedAt`.
- The HTTP call of the confirm button is a `SubmitOutcome`: `Success(reference)` or `Failure`.
- The stored bookings that `get_time_slots` queries are the parameter `db`.

Handler preconditions say where the page renders each control:
- the contact inputs appear only on step 4;
- the confirm button only on step 5, before a booking is confirmed;
- the slot grid only once a date is chosen;
- day buttons only for the seven days of the window.

Three behaviours of the code shape the model:
- **The price pattern.** `/\$(\d+)/` (`BookingPage.jsx` line 55) takes the digits after the leftmost `$` that is immediately followed by a digit. For example, `"$$50"` is worth 50 and `"$ 20"` is worth nothing.
- **The empty cart.** The remove buttons of the booking summary panel (`BookingPage.jsx` lines 726-754) are live on every step. A visitor can pass the services gate, go on to the review step and then empty the cart (`BookingPage.EmptyCartAtReview`). The confirm button then sends a request with no services, which the server stores as a booking without any service (`Submission.CartDecidesBookingKind`). For this reason `Valid()` keeps the date, stylist and details gates for the later steps but not the cart gate.
- **No reset.** The draft is never cleared, neither after a confirmed booking nor after a failed one.

## Model

| member | source | states |
|---|---|---|
| BookingPage.BookingWizard.constructor | frontend/src/pages/BookingPage.jsx:29-45 | The page mounts on step 1 with an empty cart, no date, time or stylist, blank contact fields, not submitting and not confirmed. The window starts on the Monday of today's week and contains today. |
| BookingPage.BookingWizard.Totals | frontend/src/pages/BookingPage.jsx:48-62 | The `forEach` accumulation returns exactly the total duration and the total parsed minimum price of the entries in the cart. |
| BookingPage.BookingWizard.HandleClientInfoChange | frontend/src/pages/BookingPage.jsx:72-75 | The named contact field takes the new value. Every other field, and the rest of the wizard, is unchanged. |
| BookingPage.BookingWizard.HandleNextWeek | frontend/src/pages/BookingPage.jsx:77-79 | The window always moves exactly seven days later and stays Monday-aligned. |
| BookingPage.BookingWizard.HandlePrevWeek | frontend/src/pages/BookingPage.jsx:81-86 | The window moves seven days earlier unless it would then start before the Monday of today's week, in which case it is unchanged. It never moves below that Monday once it is at or after it. |
| BookingPage.BookingWizard.AddService | frontend/src/pages/BookingPage.jsx:88-100 | Adds the entry keyed `categoryId-name` at the end when no entry has that key, and otherwise leaves the cart unchanged. Keys stay unique. Afterwards `isServiceSelected` holds for exactly the services selected before plus the added one. |
| BookingPage.BookingWizard.RemoveService | frontend/src/pages/BookingPage.jsx:102-104 | The cart becomes the filter of entries with a different key. No entry with that key remains, and keys stay unique. Afterwards `isServiceSelected` holds for exactly the services selected before whose key is not the removed one. |
| BookingPage.BookingWizard.SelectDay | frontend/src/pages/BookingPage.jsx:417-424 | A day before today leaves the date unchanged. Any other day of the window becomes the date, so a newly set date is never in the past. |
| BookingPage.BookingWizard.SelectTime | frontend/src/pages/BookingPage.jsx:441-451 | Once a date is chosen, a slot button sets the time to that slot. |
| BookingPage.BookingWizard.SelectStylist | frontend/src/pages/BookingPage.jsx:476-479 | A stylist card sets the stylist. |
| BookingPage.BookingWizard.NextStep | frontend/src/pages/BookingPage.jsx:166-170 | Moves one step forward exactly when the current step's gate holds, and otherwise does nothing. No draft field changes, and the step stays within 1..5. |
| BookingPage.BookingWizard.PrevStep | frontend/src/pages/BookingPage.jsx:172-176 | Moves one step back without any check, never below step 1. No draft field changes. |
| BookingPage.BookingWizard.HandleSubmit | frontend/src/pages/BookingPage.jsx:110-149 | The request lists the cart's entries in order as category, name, price and duration, with the totals, `"$" + minPrice + "+"`, the date, time, stylist and contact details. On success the reference is stored and the booking is confirmed. On failure no field changes. Either way `isSubmitting` ends false. |
| BookingPage.ChooseHaircut | frontend/src/pages/BookingPage.jsx:88-100 | Adding one catalogue service to a fresh page and pressing next passes the services gate and reaches step 2, with that single entry in the cart and today still in the window. |
| BookingPage.ReachDetails | frontend/src/pages/BookingPage.jsx:151-176 | One service, today's date, a slot and a stylist pass the first three gates and reach step 4. |
| BookingPage.EmptyCartAtReview | frontend/src/pages/BookingPage.jsx:747-748 | Removing the last service from the summary panel after passing all four gates leaves a valid wizard on the review step with an empty cart, which the step 1 gate would refuse. |
| BookingDraft.ServiceKeyInjective | frontend/src/pages/BookingPage.jsx:92 | Two keys are equal only for the same category id and the same service name. |
| BookingDraft.AddSelectsExactly | frontend/src/pages/BookingPage.jsx:106-108 | After a catalogue service is appended, `isServiceSelected(categoryId, name)` holds exactly when it held before or the pair is that service's category id and name. |
| BookingDraft.HasKeyWithout | frontend/src/pages/BookingPage.jsx:102-108 | After the filter, a key is present exactly when it was present before and is not the removed key. |
| BookingDraft.Without | frontend/src/pages/BookingPage.jsx:103 | An entry survives the filter exactly when it was in the cart with a different key, and the key is absent afterwards. |
| BookingDraft.WithoutIsSubsequence | frontend/src/pages/BookingPage.jsx:103 | The filtered cart keeps the relative order of the remaining entries. |
| BookingDraft.WithoutAbsent | frontend/src/pages/BookingPage.jsx:103 | Removing a key that is not in the cart gives back the same list. |
| BookingDraft.WithoutAppend | frontend/src/pages/BookingPage.jsx:103 | Filtering distributes over concatenation. |
| BookingDraft.AddThenRemove | frontend/src/pages/BookingPage.jsx:88-104 | Adding a service whose key is new and then removing that key restores the original cart. |
| BookingDraft.WithoutKeepsUnique | frontend/src/pages/BookingPage.jsx:95-104 | Removal keeps the keys of the cart unique. |
| BookingDraft.PriceMatch | frontend/src/pages/BookingPage.jsx:55-56 | The pattern finds nothing exactly when no `$` of the label is immediately followed by a digit. |
| BookingDraft.MinPriceOf | frontend/src/pages/BookingPage.jsx:55-58 | A label with no `$` followed by a digit adds 0 to the minimum price. |
| BookingDraft.NoDollarNoPrice | frontend/src/pages/BookingPage.jsx:55-58 | A label with no `$`, such as "Consultation" or "Free", adds nothing to the minimum price. |
| BookingDraft.PriceOfDollarLabel | frontend/src/pages/BookingPage.jsx:55-57 | A label `$<n>` followed by a non-digit, such as "$50+", is worth exactly `n`. |
| BookingDraft.PriceAfterPrefix | frontend/src/pages/BookingPage.jsx:55-57 | Anything before the leftmost `$` followed by a digit is skipped: `p + "$<n>" + rest` is worth exactly `n` when `p` has no `$` followed by a digit and `rest` does not start with a digit. |
| BookingDraft.PriceExamples | frontend/src/pages/BookingPage.jsx:55-58 | "$$50" is worth 50, while "Free" and "$ 20" are worth nothing. |
| BookingDraft.TotalsAppend | frontend/src/pages/BookingPage.jsx:52-59 | Both totals add up over concatenated carts. |
| BookingDraft.TotalsWithout | frontend/src/pages/BookingPage.jsx:48-62 | In a cart with unique keys, removing one entry lowers the duration total by that entry's duration and the minimum price by that entry's price. |
| BookingDraft.TotalsExample | frontend/src/pages/BookingPage.jsx:48-58 | HairCut ("$50+", 45) with Full Color ("$125+", 90) totals 135 minutes from 175. |
| BookingDraft.CanProceed | frontend/src/pages/BookingPage.jsx:151-164 | The gate can hold only on steps 1 to 4. |
| BookingDraft.WithField | frontend/src/pages/BookingPage.jsx:72-75 | The updated contact details differ from the old ones in the named field only. |
| BookingDraft.MondayOf | frontend/src/pages/BookingPage.jsx:35 | `startOfWeek(…, { weekStartsOn: 1 })` is a Monday at most six days before the given day. |
| BookingDraft.MondayOfUnique | frontend/src/pages/BookingPage.jsx:83 | That Monday is the only Monday of the week containing the day. |
| BookingDraft.WindowIsOneWeek | frontend/src/pages/BookingPage.jsx:65-67 | From a Monday, a day is in the window exactly when that Monday starts the day's week. |
| BookingDraft.ToWire | frontend/src/pages/BookingPage.jsx:116-121 | The request's service list has one element per cart entry, in order, with its category, name, price and duration. |
| BookingDraft.TotalPriceLabelRoundTrip | frontend/src/pages/BookingPage.jsx:123 | The label `"$" + minPrice + "+"` parses back to `minPrice` under the same price pattern. |
| Text.DecimalRoundTrip | frontend/src/pages/BookingPage.jsx:57 | `parseInt` of the decimal digits of `n` is `n`. |
| Text.LeadingDigits | frontend/src/pages/BookingPage.jsx:55 | `(\d+)` captures the longest run of digits, which stops at the first non-digit. |
| Reference.ToBase36 | backend/server.py:219-222 | The digits are all 0-9A-Z. They are empty exactly for timestamp 0, and a positive timestamp has no leading '0'. |
| Reference.Base36RoundTrip | backend/server.py:219-222 | The digit string decodes back to the timestamp. |
| Reference.Base36Canonical | backend/server.py:219-222 | Every digit string without a leading '0' is what the loop writes for its value, so encoding and decoding are inverse bijections. |
| Reference.Base36Length | backend/server.py:219-222 | The loop writes more than `k` digits exactly when the timestamp is at least 36^k. |
| Reference.FromBase36Injective | backend/server.py:222 | Two digit strings of the same length and value are equal. |
| Reference.LastN | backend/server.py:223 | `s[-6:]` is all of a string of at most six characters, and exactly the last six characters of a longer one. |
| Reference.Reference | backend/server.py:223 | The reference starts with "LUNA-", which is what `backend_test.py` line 182 checks. At most six base-36 characters follow. |
| Reference.GenerateReference | backend/server.py:215-223 | The `divmod` loop terminates and returns exactly `Reference(timestamp)`. |
| Reference.ReferenceLength | backend/server.py:223 | The reference is 11 characters long exactly when the timestamp is at least 36^5. |
| Reference.ReferenceDigitsValue | backend/server.py:223 | The kept digits spell the timestamp modulo 36^6. |
| Reference.ReferenceCollision | backend/server.py:215-223 | For timestamps of at least 36^5 ms, two references are equal exactly when the timestamps agree modulo 36^6 ms (about 25 days). |
| Server.SlotQuery | backend/server.py:258-260 | The query always filters by date. It filters by stylist exactly when an id is given that is neither 0 nor 4 ("Any Available"), and then by that id. |
| Server.AnyStylistFiltersByDateOnly | backend/server.py:259 | With no id, id 0 or id 4, a booking matches exactly when its date does. |
| Server.Find | backend/server.py:263 | The records found are exactly the stored records the query matches. |
| Server.AvailableSlots | backend/server.py:266 | The free slots are a subsequence of the slot list in its order. A slot is free exactly when it is a slot and is not booked. |
| Server.GetTimeSlots | backend/server.py:251-272 | Echoes the date and stylist id. The slots are a subsequence of `TIME_SLOTS`. A slot is listed exactly when no matching stored booking has that time. |
| Server.BookingRecord | backend/server.py:284-318 | The record has the multi-service shape exactly when `services` is present and non-empty. Otherwise it copies the four legacy fields. Notes become "" when absent, and the status is "confirmed". |
| Server.ResponseOf | backend/server.py:328-348 | The response carries the services and both totals exactly when the record has services, and otherwise the four legacy fields. `client_name` is the first name, one space, then the last name. |
| Server.CreateBooking | backend/server.py:277-350 | The stored record is the mapped record with its `created_at` replaced by the second clock reading. The response reports the reference, the first reading and the matching service details. |
| Submission.ToBookingCreate | frontend/src/pages/BookingPage.jsx:115-135 | A request from the wizard always carries a service list, one item per request entry, and never the legacy fields. |
| Submission.CartDecidesBookingKind | backend/server.py:284-348 | For a request built from a cart, the booking is multi-service exactly when the cart is non-empty. Its items are then the cart's entries in order, and its minimum-price label parses back to the cart's minimum total. An empty cart gives a booking with no service fields. |

## Left out

- The JSX markup, styling, icons, the progress indicator, the collapsible service catalogue and the confirmation screen are presentation only. The model keeps only which handlers a rendered control can call.
- `date-fns` formatting and calendar arithmetic are not modelled. The request carries the chosen day number instead of `format(selectedDate, 'yyyy-MM-dd')`, and `Submission.ToBookingCreate` takes the formatted text as a parameter.
- `SelectedService.duration` and the request's totals are unbounded integers. JavaScript numbers are doubles, so `parseInt` of a price above 2^53 would lose precision. The catalogue's prices are all far below that.
- Submission is sequential. The window while `axios.post` is in flight (where `isSubmitting` is true and the button is disabled) is not a separate state. `HandleSubmit` runs the whole handler as one step, and `isSubmitting` ends false.
- The `alert` and the console logging of the submit handler are not modelled.
- Reference.GenerateReference: takes a natural-number timestamp. For a negative clock reading the Python loop would not terminate; the clock is never negative.
- The database is a list of stored records. The MongoDB projection `{"time": 1}`, `insert_one`, its failure path (HTTP 500) and the uniqueness of references in storage are not modelled.
- `EmailStr` validation of the client's email and the request parsing of FastAPI and pydantic are not modelled. Pydantic would refuse a request with a missing stylist id, which the wizard cannot send.
- `server.py` declares a second `ServiceItem` (without `category`) after `BookingCreate`. Only the first declaration, which `BookingCreate` uses, is modelled.
- `datetime.utcnow()`, `time.time()` and `uuid.uuid4()` are parameters (`createdAt`, `storedAt`, `timestamp`, `id`).
- The contact page, the other pages, routing, the scroll hooks and the other API routes (services, stylists, contact, booking listing) are not part of this model.
