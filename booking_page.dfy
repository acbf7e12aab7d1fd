/**
 * The booking wizard: five steps (services, date and time, stylist, contact
 * details, review) over one mutable draft. Each state variable of the page
 * is a field of `BookingWizard`; each event handler is a method.
 *
 * The page reads the clock through `today` (midnight of the current day) and
 * the network through `SubmitOutcome`; both are parameters here.
 */
module BookingPage {
  import opened Text
  import opened Optional
  import opened BookingDraft

  /** What `axios.post` gives back: a reference in the response body, or a thrown error. */
  datatype SubmitOutcome = Success(reference: string) | Failure

  class BookingWizard {
    var step: int
    var selectedServices: seq<SelectedService>
    var selectedDate: Option<int>
    var selectedTime: Option<string>
    var selectedStylist: Option<Stylist>
    var clientInfo: ClientInfo
    var currentWeekStart: int
    var isSubmitting: bool
    var bookingConfirmed: bool
    var bookingReference: string

    /**
     * Holds between two handler calls. Every step past a gated step was
     * entered through that step's gate, and the date, stylist and details
     * gates stay true because their controls are only on their own step.
     * The services gate is not kept: the cart's remove buttons are live on
     * every step (see EmptyCartAtReview).
     */
    ghost predicate Valid()
      reads this
    {
      && FirstStep <= step <= LastStep
      && UniqueKeys(selectedServices)
      && IsMonday(currentWeekStart)
      && (step > 2 ==> DateTimeChosen(selectedDate, selectedTime))
      && (step > 3 ==> selectedStylist.Some?)
      && (step > 4 ==> ClientComplete(clientInfo))
      && !isSubmitting
    }

    /** The page as it mounts on day `today`. */
    constructor (today: int)
      ensures Valid()
      ensures step == FirstStep && selectedServices == []
      ensures selectedDate == None && selectedTime == None && selectedStylist == None
      ensures clientInfo == ClientInfo("", "", "", "", "")
      ensures currentWeekStart == MondayOf(today) && today in WeekDays(currentWeekStart)
      ensures !isSubmitting && !bookingConfirmed && bookingReference == ""
    {
      step := FirstStep;
      selectedServices := [];
      selectedDate, selectedTime, selectedStylist := None, None, None;
      currentWeekStart := MondayOf(today);
      clientInfo := ClientInfo("", "", "", "", "");
      isSubmitting, bookingConfirmed, bookingReference := false, false, "";
      WindowIsOneWeek(MondayOf(today), today);
    }

    /** The `totals` memo: one pass over the cart adding durations and parsed prices. */
    method Totals() returns (totalDuration: int, minPrice: nat)
      ensures totalDuration == TotalDuration(selectedServices)
      ensures minPrice == MinPriceTotal(selectedServices)
    {
      totalDuration, minPrice := 0, 0;
      var i := 0;
      while i < |selectedServices|
        invariant 0 <= i <= |selectedServices|
        invariant totalDuration == TotalDuration(selectedServices[..i])
        invariant minPrice == MinPriceTotal(selectedServices[..i])
      {
        var service := selectedServices[i];
        assert selectedServices[..i + 1][..i] == selectedServices[..i];
        totalDuration := totalDuration + service.duration;
        var priceMatch := PriceMatch(service.price);
        if priceMatch.Some? {
          minPrice := minPrice + priceMatch.value;
        }
        i := i + 1;
      }
      assert selectedServices[..i] == selectedServices;
    }

    /** `isServiceSelected(categoryId, serviceName)`. */
    predicate IsServiceSelected(categoryId: nat, serviceName: string)
      reads this
    {
      HasKey(selectedServices, ServiceKey(categoryId, serviceName))
    }

    /** `handleClientInfoChange`: one input of the details step changes one field. */
    method HandleClientInfoChange(field: ClientField, value: string)
      requires Valid() && step == 4
      modifies this`clientInfo
      ensures Valid()
      ensures clientInfo == WithField(old(clientInfo), field, value)
    {
      clientInfo := WithField(clientInfo, field, value);
    }

    /** `handleNextWeek`: always moves the window a week later. */
    method HandleNextWeek()
      requires Valid()
      modifies this`currentWeekStart
      ensures Valid()
      ensures currentWeekStart == old(currentWeekStart) + 7
    {
      currentWeekStart := currentWeekStart + 7;
    }

    /** `handlePrevWeek`: a week earlier, unless that starts before this week's Monday. */
    method HandlePrevWeek(today: int)
      requires Valid()
      modifies this`currentWeekStart
      ensures Valid()
      ensures currentWeekStart ==
        if PrevWeekDisabled(old(currentWeekStart), today) then old(currentWeekStart)
        else old(currentWeekStart) - 7
      ensures old(currentWeekStart) >= MondayOf(today) ==> currentWeekStart >= MondayOf(today)
    {
      var newStart := currentWeekStart - 7;
      if !(newStart < MondayOf(today)) {
        currentWeekStart := newStart;
      }
    }

    /** `addService`: append the keyed copy unless an entry with that key is already there. */
    method AddService(category: Category, service: CatalogService)
      requires Valid()
      modifies this`selectedServices
      ensures Valid()
      ensures var entry := WithCategory(category, service);
        selectedServices ==
          if HasKey(old(selectedServices), entry.id) then old(selectedServices)
          else old(selectedServices) + [entry]
      ensures IsServiceSelected(category.id, service.name)
      ensures forall c: nat, n: string :: IsServiceSelected(c, n) <==>
        old(IsServiceSelected(c, n)) || (c == category.id && n == service.name)
    {
      var before := selectedServices;
      var serviceWithCategory := WithCategory(category, service);
      var alreadyAdded := HasKey(selectedServices, serviceWithCategory.id);
      if !alreadyAdded {
        selectedServices := selectedServices + [serviceWithCategory];
      }
      forall c: nat, n: string
        ensures HasKey(selectedServices, ServiceKey(c, n)) <==>
          HasKey(before, ServiceKey(c, n)) || (c == category.id && n == service.name)
      {
        AddSelectsExactly(before, category, service, c, n);
      }
    }

    /** `removeService`: drop every entry with this key, keeping the order of the rest. */
    method RemoveService(serviceId: string)
      requires Valid()
      modifies this`selectedServices
      ensures Valid()
      ensures selectedServices == Without(old(selectedServices), serviceId)
      ensures !HasKey(selectedServices, serviceId)
      ensures forall c: nat, n: string :: IsServiceSelected(c, n) <==>
        old(IsServiceSelected(c, n)) && ServiceKey(c, n) != serviceId
    {
      var before := selectedServices;
      WithoutKeepsUnique(selectedServices, serviceId);
      selectedServices := Without(selectedServices, serviceId);
      forall c: nat, n: string
        ensures HasKey(selectedServices, ServiceKey(c, n)) <==>
          HasKey(before, ServiceKey(c, n)) && ServiceKey(c, n) != serviceId
      {
        HasKeyWithout(before, serviceId, ServiceKey(c, n));
      }
    }

    /** A day button of the date grid: past days are disabled and never become the date. */
    method SelectDay(day: int, today: int)
      requires Valid() && day in WeekDays(currentWeekStart)
      modifies this`selectedDate
      ensures Valid()
      ensures selectedDate == if IsPast(day, today) then old(selectedDate) else Some(day)
      ensures selectedDate != old(selectedDate) ==> selectedDate.value >= today
    {
      var isPast := IsPast(day, today);
      if !isPast {
        selectedDate := Some(day);
      }
    }

    /** A slot button; the slot grid is shown only once a date is chosen. */
    method SelectTime(time: string)
      requires Valid() && selectedDate.Some? && time in TimeSlots
      modifies this`selectedTime
      ensures Valid()
      ensures selectedTime == Some(time)
    {
      selectedTime := Some(time);
    }

    /** A stylist card. */
    method SelectStylist(stylist: Stylist)
      requires Valid()
      modifies this`selectedStylist
      ensures Valid()
      ensures selectedStylist == Some(stylist)
    {
      selectedStylist := Some(stylist);
    }

    /** `nextStep`: one step forward exactly when the current step's gate holds. */
    method NextStep()
      requires Valid()
      modifies this`step
      ensures Valid()
      ensures step ==
        if CanProceed(old(step), selectedServices, selectedDate, selectedTime, selectedStylist, clientInfo)
        then old(step) + 1 else old(step)
    {
      if CanProceed(step, selectedServices, selectedDate, selectedTime, selectedStylist, clientInfo) {
        step := step + 1;
      }
    }

    /** `prevStep`: one step back without any check, never below the first. */
    method PrevStep()
      requires Valid()
      modifies this`step
      ensures Valid()
      ensures step == if old(step) > FirstStep then old(step) - 1 else old(step)
    {
      if step > FirstStep {
        step := step - 1;
      }
    }

    /**
     * `handleSubmit`, reachable from the review step's confirm button while no
     * request is in flight and before a booking is confirmed. Builds the
     * request from the draft, then records the reference on success; on
     * failure nothing at all changes.
     */
    method HandleSubmit(outcome: SubmitOutcome) returns (payload: BookingPayload)
      requires Valid() && step == LastStep && !bookingConfirmed
      modifies this`isSubmitting, this`bookingConfirmed, this`bookingReference
      ensures Valid() && !isSubmitting
      ensures payload.services == ToWire(selectedServices)
      ensures payload.totalDuration == TotalDuration(selectedServices)
      ensures payload.totalPriceMin == TotalPriceLabel(MinPriceTotal(selectedServices))
      ensures Some(payload.date) == selectedDate && Some(payload.time) == selectedTime
      ensures selectedStylist.Some?
      ensures payload.stylistId == selectedStylist.value.id && payload.stylistName == selectedStylist.value.name
      ensures payload.client == ToWireClient(clientInfo)
      ensures outcome.Success? ==> bookingConfirmed && bookingReference == outcome.reference
      ensures outcome.Failure? ==> unchanged(this)
    {
      isSubmitting := true;
      var totalDuration, minPrice := Totals();
      payload := BookingPayload(
        ToWire(selectedServices), totalDuration, TotalPriceLabel(minPrice),
        selectedDate.value, selectedTime.value,
        selectedStylist.value.id, selectedStylist.value.name,
        ToWireClient(clientInfo));
      match outcome {
        case Success(reference) =>
          bookingReference := reference;
          bookingConfirmed := true;
        case Failure =>
      }
      isSubmitting := false;
    }
  }

  /** A run of the page that puts one haircut in the cart and passes the services gate. */
  method ChooseHaircut(today: int) returns (w: BookingWizard)
    ensures fresh(w) && w.Valid() && w.step == 2 && w.clientInfo == ClientInfo("", "", "", "", "")
    ensures w.selectedServices == [WithCategory(Category(1, "Haircuts & Styling", []),
                                                CatalogService("HairCut", "$50+", 45))]
    ensures today in WeekDays(w.currentWeekStart)
  {
    w := new BookingWizard(today);
    w.AddService(Category(1, "Haircuts & Styling", []), CatalogService("HairCut", "$50+", 45));
    w.NextStep();
  }

  /** A run of the page that fills the first three steps and reaches the details step. */
  method ReachDetails(today: int) returns (w: BookingWizard)
    ensures fresh(w) && w.Valid() && w.step == 4 && w.clientInfo == ClientInfo("", "", "", "", "")
    ensures w.selectedServices == [WithCategory(Category(1, "Haircuts & Styling", []),
                                                CatalogService("HairCut", "$50+", 45))]
  {
    w := ChooseHaircut(today);
    w.SelectDay(today, today);
    w.SelectTime("2:00 PM");
    w.NextStep();
    w.SelectStylist(Stylist(2, "Emma Chen", "Cut & Style Expert"));
    w.NextStep();
  }

  /**
   * A run of the page that reaches the review step with an empty cart: pass
   * the four gates, then remove the only service from the cart panel, whose
   * remove buttons are shown on every step.
   */
  method EmptyCartAtReview(today: int) returns (w: BookingWizard)
    ensures w.Valid() && w.step == LastStep && w.selectedServices == []
    ensures !CanProceed(FirstStep, w.selectedServices, w.selectedDate, w.selectedTime,
                        w.selectedStylist, w.clientInfo)
  {
    w := ReachDetails(today);
    w.HandleClientInfoChange(FirstName, "Jane");
    w.HandleClientInfoChange(LastName, "Doe");
    w.HandleClientInfoChange(Email, "jane@x.com");
    w.HandleClientInfoChange(Phone, "6135551234");
    w.NextStep();
    w.RemoveService(ServiceKey(1, "HairCut"));
  }
}
