/**
 * The booking page's request body as the server reads it: the page always
 * sends a `services` array and never the legacy single-service fields, so
 * which branch `create_booking` takes depends on the cart alone.
 */
module Submission {
  import opened Optional
  import opened BookingDraft
  import Server

  /** The JSON body of `POST /api/bookings` parsed into `BookingCreate`; `date` is its formatted day. */
  function ToBookingCreate(p: BookingPayload, date: string): (data: Server.BookingCreate)
    ensures data.services.Some? && |data.services.value| == |p.services|
    ensures forall i :: 0 <= i < |p.services| ==>
      data.services.value[i] == Server.ServiceItem(p.services[i].category, p.services[i].name,
                                                   p.services[i].price, p.services[i].duration)
    ensures data.serviceCategory == None && data.serviceName == None
    ensures data.servicePrice == None && data.serviceDuration == None
  {
    Server.BookingCreate(
      None, None, None, None,
      Some(ToServiceItems(p.services)), Some(p.totalDuration), Some(p.totalPriceMin),
      date, p.time, p.stylistId, p.stylistName,
      Server.ClientInfo(p.client.firstName, p.client.lastName, p.client.email, p.client.phone,
                        Some(p.client.notes)))
  }

  function ToServiceItems(services: seq<WireService>): (items: seq<Server.ServiceItem>)
    ensures |items| == |services|
    ensures forall i :: 0 <= i < |services| ==>
      items[i] == Server.ServiceItem(services[i].category, services[i].name, services[i].price, services[i].duration)
  {
    if services == [] then []
    else [Server.ServiceItem(services[0].category, services[0].name, services[0].price, services[0].duration)]
         + ToServiceItems(services[1..])
  }

  /**
   * For a body built the way the confirm button builds it: the server stores
   * and reports a multi-service booking exactly when the cart was not empty,
   * with one item per cart entry in cart order and a minimum-price label
   * that parses back to the cart's minimum total. An empty cart (reachable,
   * see BookingPage.EmptyCartAtReview) is stored as a booking with no
   * service at all.
   */
  lemma {:induction false} CartDecidesBookingKind(
    cart: seq<SelectedService>, p: BookingPayload, date: string,
    reference: string, id: string, createdAt: int, storedAt: int)
    requires p.services == ToWire(cart)
    requires p.totalPriceMin == TotalPriceLabel(MinPriceTotal(cart))
    ensures var c := Server.CreateBooking(ToBookingCreate(p, date), reference, id, createdAt, storedAt);
      && (c.response.details.MultiService? <==> cart != [])
      && (cart != [] ==>
            && |c.response.details.services| == |cart|
            && (forall i :: 0 <= i < |cart| ==>
                  c.response.details.services[i] ==
                    Server.ServiceItem(cart[i].category, cart[i].name, cart[i].price, cart[i].duration))
            && MinPriceOf(c.response.details.totalPriceMin.value) == MinPriceTotal(cart))
      && (cart == [] ==>
            && c.stored.services == None && c.stored.serviceName == None
            && c.stored.serviceCategory == None && c.stored.totalPriceMin == None)
  {
    var data := ToBookingCreate(p, date);
    assert Server.HasServices(data) <==> cart != [];
    TotalPriceLabelRoundTrip(MinPriceTotal(cart));
  }
}
