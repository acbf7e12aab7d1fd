/**
 * The values the booking page works with, and the pure derivations it makes
 * from them: the cart's composite key and filter, the totals, the per-step
 * gates, the 7-day date window and the request body sent on submit.
 *
 * Calendar days are integers counting days since 1970-01-01, each standing
 * for a midnight; day 0 was a Thursday.
 */
module BookingDraft {
  import opened Text
  import opened Subsequence
  import opened Optional

  /** One item of a catalog category: `{ name, price, duration }`. */
  datatype CatalogService = CatalogService(name: string, price: string, duration: int)

  datatype Category = Category(id: nat, category: string, items: seq<CatalogService>)

  /** A catalog item copied into the cart, with its category name and composite key `id`. */
  datatype SelectedService = SelectedService(
    name: string, price: string, duration: int, category: string, id: string)

  datatype Stylist = Stylist(id: int, name: string, specialty: string)

  datatype ClientInfo = ClientInfo(
    firstName: string, lastName: string, email: string, phone: string, notes: string)

  /** The `name` attribute of the five inputs of the details step. */
  datatype ClientField = FirstName | LastName | Email | Phone | Notes

  /** The time-slot labels offered by the date step. */
  const TimeSlots: seq<string> := [
    "9:00 AM", "9:30 AM", "10:00 AM", "10:30 AM", "11:00 AM", "11:30 AM",
    "12:00 PM", "12:30 PM", "1:00 PM", "1:30 PM", "2:00 PM", "2:30 PM",
    "3:00 PM", "3:30 PM", "4:00 PM", "4:30 PM", "5:00 PM", "5:30 PM",
    "6:00 PM", "6:30 PM", "7:00 PM"
  ]

  const FirstStep := 1
  const LastStep := 5

  // ---------------------------------------------------------------- cart

  /** The template-literal key `${categoryId}-${name}`. */
  function ServiceKey(categoryId: nat, name: string): string {
    Decimal(categoryId) + "-" + name
  }

  /** The key determines the category id and the item name. */
  lemma ServiceKeyInjective(a: nat, n: string, b: nat, m: string)
    requires ServiceKey(a, n) == ServiceKey(b, m)
    ensures a == b && n == m
  {
    var k, da, db := ServiceKey(a, n), Decimal(a), Decimal(b);
    var shorter := if |da| < |db| then |da| else |db|;
    KeyDashAt(a, n, shorter);
    KeyDashAt(b, m, shorter);
    assert |da| == |db|;
    assert da == k[..|da|] == db;
    DecimalInjective(a, b);
    assert n == k[|da| + 1..] == m;
  }

  /** The first '-' of a key sits right after the digits of the category id. */
  lemma KeyDashAt(categoryId: nat, name: string, i: nat)
    requires i <= |Decimal(categoryId)|
    ensures ServiceKey(categoryId, name)[i] == '-' <==> i == |Decimal(categoryId)|
  {
    var d := Decimal(categoryId);
    if i < |d| {
      assert ServiceKey(categoryId, name)[i] == d[i];
    }
  }

  /** `{ ...service, category: category.category, id: key }`. */
  function WithCategory(category: Category, service: CatalogService): (s: SelectedService)
    ensures s.id == ServiceKey(category.id, service.name)
  {
    SelectedService(service.name, service.price, service.duration, category.category,
                    ServiceKey(category.id, service.name))
  }

  /** Some entry of the cart carries this key. */
  predicate HasKey(cart: seq<SelectedService>, key: string) {
    exists i :: 0 <= i < |cart| && cart[i].id == key
  }

  /**
   * After appending the entry for a catalogue service, a (category id, name)
   * pair is selected exactly when it was selected before or is that service.
   */
  lemma AddSelectsExactly(cart: seq<SelectedService>, category: Category, service: CatalogService,
                          categoryId: nat, name: string)
    ensures HasKey(cart + [WithCategory(category, service)], ServiceKey(categoryId, name)) <==>
      HasKey(cart, ServiceKey(categoryId, name)) || (categoryId == category.id && name == service.name)
  {
    var entry, key := WithCategory(category, service), ServiceKey(categoryId, name);
    var cart' := cart + [entry];
    if HasKey(cart', key) {
      var i :| 0 <= i < |cart'| && cart'[i].id == key;
      if i < |cart| {
        assert cart[i].id == key;
      } else {
        ServiceKeyInjective(categoryId, name, category.id, service.name);
      }
    }
    if HasKey(cart, key) {
      var i :| 0 <= i < |cart| && cart[i].id == key;
      assert cart'[i].id == key;
    }
    if categoryId == category.id && name == service.name {
      assert cart'[|cart|].id == key;
    }
  }

  /** No two entries of the cart share a key. */
  predicate UniqueKeys(cart: seq<SelectedService>) {
    forall i, j :: 0 <= i < j < |cart| ==> cart[i].id != cart[j].id
  }

  /** `cart.filter(s => s.id !== key)`. */
  function Without(cart: seq<SelectedService>, key: string): (r: seq<SelectedService>)
    ensures forall s :: s in r <==> s in cart && s.id != key
    ensures !HasKey(r, key)
  {
    if cart == [] then []
    else (if cart[0].id == key then [] else [cart[0]]) + Without(cart[1..], key)
  }

  /** After removing `key`, another key is present exactly when it was present before. */
  lemma HasKeyWithout(cart: seq<SelectedService>, key: string, other: string)
    ensures HasKey(Without(cart, key), other) <==> HasKey(cart, other) && other != key
  {
    var r := Without(cart, key);
    if HasKey(r, other) {
      var i :| 0 <= i < |r| && r[i].id == other;
      assert r[i] in r;
      var j :| 0 <= j < |cart| && cart[j] == r[i];
    }
    if HasKey(cart, other) && other != key {
      var j :| 0 <= j < |cart| && cart[j].id == other;
      assert cart[j] in cart;
      var i :| 0 <= i < |r| && r[i] == cart[j];
    }
  }

  /** The filter keeps the surviving entries in their original order. */
  lemma {:induction false} WithoutIsSubsequence(cart: seq<SelectedService>, key: string)
    ensures IsSubsequence(Without(cart, key), cart)
  {
    if cart == [] {
    } else {
      var rest := Without(cart[1..], key);
      WithoutIsSubsequence(cart[1..], key);
      assert [cart[0]] + cart[1..] == cart;
      if cart[0].id == key {
        assert Without(cart, key) == rest;
        SubsequenceSkip(rest, cart[1..], cart[0]);
      } else {
        SubsequenceKeep(rest, cart[1..], cart[0]);
      }
    }
  }

  /** Removing a key that is not in the cart changes nothing. */
  lemma {:induction false} WithoutAbsent(cart: seq<SelectedService>, key: string)
    requires !HasKey(cart, key)
    ensures Without(cart, key) == cart
  {
    if cart != [] {
      assert !HasKey(cart[1..], key) by {
        forall i | 0 <= i < |cart[1..]| ensures cart[1..][i].id != key {
          assert cart[1..][i] == cart[i + 1];
        }
      }
      WithoutAbsent(cart[1..], key);
      assert [cart[0]] + cart[1..] == cart;
    }
  }

  lemma {:induction false} WithoutAppend(a: seq<SelectedService>, b: seq<SelectedService>, key: string)
    ensures Without(a + b, key) == Without(a, key) + Without(b, key)
  {
    if a == [] {
      assert a + b == b;
    } else {
      assert (a + b)[1..] == a[1..] + b;
      WithoutAppend(a[1..], b, key);
    }
  }

  /** Adding a service that was not in the cart and removing it again restores the cart. */
  lemma AddThenRemove(cart: seq<SelectedService>, s: SelectedService)
    requires !HasKey(cart, s.id)
    ensures Without(cart + [s], s.id) == cart
  {
    WithoutAppend(cart, [s], s.id);
    WithoutAbsent(cart, s.id);
    assert Without([s], s.id) == [];
  }

  /** Filtering never creates a duplicate key. */
  lemma {:induction false} WithoutKeepsUnique(cart: seq<SelectedService>, key: string)
    requires UniqueKeys(cart)
    ensures UniqueKeys(Without(cart, key))
  {
    if cart != [] {
      WithoutKeepsUnique(cart[1..], key);
      var rest := Without(cart[1..], key);
      if cart[0].id != key {
        forall s | s in rest ensures s.id != cart[0].id {
          var j :| 0 <= j < |cart[1..]| && cart[1..][j] == s;
          assert cart[j + 1] == s;
        }
      }
    }
  }

  // -------------------------------------------------------------- totals

  /** No `$` of the label is immediately followed by a digit, so `/\$(\d+)/` finds nothing. */
  predicate NoPriceMark(priceLabel: string) {
    forall i :: 0 <= i < |priceLabel| - 1 && priceLabel[i] == '$' ==> !IsDigit(priceLabel[i + 1])
  }

  /** A label has no price mark exactly when its first two characters are not one and its tail has none. */
  lemma NoPriceMarkTail(priceLabel: string)
    requires |priceLabel| >= 2
    ensures NoPriceMark(priceLabel) <==>
      !(priceLabel[0] == '$' && IsDigit(priceLabel[1])) && NoPriceMark(priceLabel[1..])
  {
    var tail := priceLabel[1..];
    if !(priceLabel[0] == '$' && IsDigit(priceLabel[1])) && NoPriceMark(tail) {
      forall i | 0 <= i < |priceLabel| - 1 && priceLabel[i] == '$'
        ensures !IsDigit(priceLabel[i + 1])
      {
        if i > 0 {
          assert tail[i - 1] == priceLabel[i] && tail[i] == priceLabel[i + 1];
        }
      }
    }
    if NoPriceMark(priceLabel) {
      forall i | 0 <= i < |tail| - 1 && tail[i] == '$'
        ensures !IsDigit(tail[i + 1])
      {
        assert tail[i] == priceLabel[i + 1] && tail[i + 1] == priceLabel[i + 2];
      }
    }
  }

  /**
   * What `service.price.match(/\$(\d+)/)` followed by `parseInt` of the group
   * yields: the digits after the leftmost `$` that is immediately followed by
   * a digit, or `None` when the label has no such `$`.
   */
  function PriceMatch(priceLabel: string): (r: Option<nat>)
    ensures r == None <==> NoPriceMark(priceLabel)
  {
    if |priceLabel| < 2 then None
    else
      NoPriceMarkTail(priceLabel);
      if priceLabel[0] == '$' && IsDigit(priceLabel[1]) then Some(DecimalValue(LeadingDigits(priceLabel[1..])))
      else PriceMatch(priceLabel[1..])
  }

  /** The amount a price label adds to the minimum total: nothing when no `$` is followed by a digit. */
  function MinPriceOf(priceLabel: string): (amount: nat)
    ensures NoPriceMark(priceLabel) ==> amount == 0
  {
    match PriceMatch(priceLabel)
    case Some(p) => p
    case None => 0
  }

  /** Labels without any `$`, such as "Consultation" or "Free", contribute 0. */
  lemma {:induction false} NoDollarNoPrice(priceLabel: string)
    requires '$' !in priceLabel
    ensures PriceMatch(priceLabel) == None && MinPriceOf(priceLabel) == 0
  {
    forall i | 0 <= i < |priceLabel|
      ensures priceLabel[i] != '$'
    {
      assert priceLabel[i] in priceLabel;
    }
  }

  /** A label `$<n><rest>` whose rest does not start with a digit is worth exactly `n`. */
  lemma PriceOfDollarLabel(n: nat, rest: string)
    requires rest == [] || !IsDigit(rest[0])
    ensures MinPriceOf("$" + Decimal(n) + rest) == n
  {
    var priceLabel := "$" + Decimal(n) + rest;
    assert priceLabel[1..] == Decimal(n) + rest;
    assert priceLabel[1] == Decimal(n)[0];
    LeadingDigitsOfPrefix(Decimal(n), rest);
    DecimalRoundTrip(n);
  }

  /**
   * Whatever comes before the first `$` followed by a digit is skipped: the
   * label `p + "$<n>" + rest`, with no price mark in `p` and `rest` not
   * starting with a digit, is worth exactly `n`.
   */
  lemma {:induction false} PriceAfterPrefix(p: string, n: nat, rest: string)
    requires NoPriceMark(p)
    requires rest == [] || !IsDigit(rest[0])
    ensures MinPriceOf(p + "$" + Decimal(n) + rest) == n
    decreases |p|
  {
    if p == [] {
      assert p + "$" + Decimal(n) + rest == "$" + Decimal(n) + rest;
      PriceOfDollarLabel(n, rest);
    } else {
      var full := p + "$" + Decimal(n) + rest;
      assert full[0] == p[0];
      assert full[1] == if |p| > 1 then p[1] else '$';
      assert full[1..] == p[1..] + "$" + Decimal(n) + rest;
      assert NoPriceMark(p[1..]) by {
        if |p| >= 2 {
          NoPriceMarkTail(p);
        }
      }
      PriceAfterPrefix(p[1..], n, rest);
    }
  }

  /** "$$50" is worth 50 (the first `$` is skipped), "Free" and "$ 20" are worth nothing. */
  lemma PriceExamples()
    ensures MinPriceOf("$$50") == 50
    ensures MinPriceOf("Free") == 0 && MinPriceOf("$ 20") == 0
  {
    assert Decimal(50) == "50";
    assert NoPriceMark("$");
    PriceAfterPrefix("$", 50, "");
    assert "$" + "$" + Decimal(50) + "" == "$$50";
    assert NoPriceMark("$ 20");
  }

  /** Sum of `duration` over the cart. */
  function TotalDuration(cart: seq<SelectedService>): int {
    if cart == [] then 0 else TotalDuration(cart[..|cart| - 1]) + cart[|cart| - 1].duration
  }

  /** Sum of the minimum prices parsed from the cart's labels. */
  function MinPriceTotal(cart: seq<SelectedService>): nat {
    if cart == [] then 0 else MinPriceTotal(cart[..|cart| - 1]) + MinPriceOf(cart[|cart| - 1].price)
  }

  /** Both sums split over a concatenation. */
  lemma {:induction false} TotalsAppend(a: seq<SelectedService>, b: seq<SelectedService>)
    ensures TotalDuration(a + b) == TotalDuration(a) + TotalDuration(b)
    ensures MinPriceTotal(a + b) == MinPriceTotal(a) + MinPriceTotal(b)
    decreases |b|
  {
    if b == [] {
      assert a + b == a;
    } else {
      var b' := b[..|b| - 1];
      assert (a + b)[..|a + b| - 1] == a + b';
      TotalsAppend(a, b');
    }
  }

  /** Removing the one entry with a given key lowers both totals by that entry's share. */
  lemma {:induction false} TotalsWithout(cart: seq<SelectedService>, i: nat)
    requires UniqueKeys(cart) && i < |cart|
    ensures TotalDuration(Without(cart, cart[i].id)) == TotalDuration(cart) - cart[i].duration
    ensures MinPriceTotal(Without(cart, cart[i].id)) == MinPriceTotal(cart) - MinPriceOf(cart[i].price)
  {
    var key := cart[i].id;
    var a, x, b := cart[..i], cart[i], cart[i + 1..];
    assert cart == a + [x] + b;
    assert !HasKey(a, key) by {
      forall j | 0 <= j < |a| ensures a[j].id != key { assert a[j] == cart[j]; }
    }
    assert !HasKey(b, key) by {
      forall j | 0 <= j < |b| ensures b[j].id != key { assert b[j] == cart[i + 1 + j]; }
    }
    WithoutAppend(a + [x], b, key);
    AddThenRemove(a, x);
    WithoutAbsent(b, key);
    TotalsAppend(a, b);
    TotalsAppend(a + [x], b);
    TotalsAppend(a, [x]);
  }

  /** HairCut ($50+, 45 min) and Full Color ($125+, 90 min) total 135 minutes from $175. */
  lemma TotalsExample()
    ensures var cart := [
        SelectedService("HairCut", "$50+", 45, "Haircuts & Styling", "1-HairCut"),
        SelectedService("Full Color", "$125+", 90, "Color Services", "2-Full Color")];
      TotalDuration(cart) == 135 && MinPriceTotal(cart) == 175
  {
    var cart := [
      SelectedService("HairCut", "$50+", 45, "Haircuts & Styling", "1-HairCut"),
      SelectedService("Full Color", "$125+", 90, "Color Services", "2-Full Color")];
    assert Decimal(50) == "50";
    assert Decimal(125) == "125";
    PriceOfDollarLabel(50, "+");
    PriceOfDollarLabel(125, "+");
    assert "$" + Decimal(50) + "+" == "$50+";
    assert "$" + Decimal(125) + "+" == "$125+";
    assert cart[..1][..0] == [];
  }

  // --------------------------------------------------------------- gates

  predicate DateTimeChosen(date: Option<int>, time: Option<string>) {
    date.Some? && time.Some? && time.value != ""
  }

  /** The four required contact fields are filled in; notes are optional. */
  predicate ClientComplete(c: ClientInfo) {
    c.firstName != "" && c.lastName != "" && c.email != "" && c.phone != ""
  }

  /** `canProceed()`: the gate of the current step; steps outside 1..4 have none. */
  function CanProceed(step: int, cart: seq<SelectedService>, date: Option<int>, time: Option<string>,
                      stylist: Option<Stylist>, client: ClientInfo): (ok: bool)
    ensures ok ==> FirstStep <= step < LastStep
  {
    match step
    case 1 => |cart| > 0
    case 2 => DateTimeChosen(date, time)
    case 3 => stylist.Some?
    case 4 => ClientComplete(client)
    case _ => false
  }

  /** Each of the four gates, and "no way forward" from the review step. */
  lemma CanProceedGates(cart: seq<SelectedService>, date: Option<int>, time: Option<string>,
                        stylist: Option<Stylist>, client: ClientInfo)
    ensures CanProceed(1, cart, date, time, stylist, client) <==> cart != []
    ensures CanProceed(2, cart, date, time, stylist, client) <==> date.Some? && time.Some? && time.value != ""
    ensures CanProceed(3, cart, date, time, stylist, client) <==> stylist.Some?
    ensures CanProceed(4, cart, date, time, stylist, client) <==>
      client.firstName != "" && client.lastName != "" && client.email != "" && client.phone != ""
    ensures !CanProceed(LastStep, cart, date, time, stylist, client)
  {
  }

  // ------------------------------------------------------- client fields

  function FieldValue(c: ClientInfo, field: ClientField): string {
    match field
    case FirstName => c.firstName
    case LastName => c.lastName
    case Email => c.email
    case Phone => c.phone
    case Notes => c.notes
  }

  /** `{ ...prev, [name]: value }`: the named field takes the value, the others keep theirs. */
  function WithField(c: ClientInfo, field: ClientField, value: string): (r: ClientInfo)
    ensures forall g :: FieldValue(r, g) == if g == field then value else FieldValue(c, g)
  {
    match field
    case FirstName => c.(firstName := value)
    case LastName => c.(lastName := value)
    case Email => c.(email := value)
    case Phone => c.(phone := value)
    case Notes => c.(notes := value)
  }

  // ------------------------------------------------------------ calendar

  /** Day 0 (1970-01-01) was a Thursday, three days after a Monday. */
  predicate IsMonday(day: int) {
    (day + 3) % 7 == 0
  }

  /** `startOfWeek(day, { weekStartsOn: 1 })`. */
  function MondayOf(day: int): (m: int)
    ensures IsMonday(m) && m <= day < m + 7
  {
    day - (day + 3) % 7
  }

  /** A Monday within the six days before a day is that day's week start. */
  lemma MondayOfUnique(m: int, day: int)
    requires IsMonday(m) && m <= day < m + 7
    ensures MondayOf(day) == m
  {
    var q := (m + 3) / 7;
    assert m + 3 == 7 * q;
    assert day + 3 == 7 * q + (day - m);
  }

  /** `weekDays`: seven consecutive days starting at `start`. */
  function WeekDays(start: int): (days: seq<int>)
    ensures |days| == 7
    ensures forall i :: 0 <= i < 7 ==> days[i] == start + i
  {
    seq(7, i => start + i)
  }

  /** A window that starts on a Monday holds exactly the days of that Monday's week. */
  lemma WindowIsOneWeek(start: int, day: int)
    requires IsMonday(start)
    ensures day in WeekDays(start) <==> MondayOf(day) == start
  {
    if MondayOf(day) == start {
      assert WeekDays(start)[day - start] == day;
    }
    if day in WeekDays(start) {
      MondayOfUnique(start, day);
    }
  }

  /** The date-grid guard `isBefore(day, today)`. */
  predicate IsPast(day: int, today: int) {
    day < today
  }

  /** The previous-week button's `disabled` test. */
  predicate PrevWeekDisabled(weekStart: int, today: int) {
    weekStart - 7 < MondayOf(today)
  }

  // ------------------------------------------------------------- request

  datatype WireService = WireService(category: string, name: string, price: string, duration: int)

  datatype WireClient = WireClient(
    firstName: string, lastName: string, email: string, phone: string, notes: string)

  /** The body of `POST /bookings`; `date` is the chosen day before formatting. */
  datatype BookingPayload = BookingPayload(
    services: seq<WireService>, totalDuration: int, totalPriceMin: string,
    date: int, time: string, stylistId: int, stylistName: string, client: WireClient)

  /** `selectedServices.map(s => ({ category, name, price, duration }))`. */
  function ToWire(cart: seq<SelectedService>): (r: seq<WireService>)
    ensures |r| == |cart|
    ensures forall i :: 0 <= i < |r| ==>
      r[i] == WireService(cart[i].category, cart[i].name, cart[i].price, cart[i].duration)
  {
    if cart == [] then []
    else [WireService(cart[0].category, cart[0].name, cart[0].price, cart[0].duration)] + ToWire(cart[1..])
  }

  /** `$${minPrice}+`. */
  function TotalPriceLabel(minPrice: nat): string {
    "$" + Decimal(minPrice) + "+"
  }

  /** The total label, read back with the page's own price parser, gives the total again. */
  lemma TotalPriceLabelRoundTrip(minPrice: nat)
    ensures MinPriceOf(TotalPriceLabel(minPrice)) == minPrice
  {
    PriceOfDollarLabel(minPrice, "+");
  }

  function ToWireClient(c: ClientInfo): WireClient {
    WireClient(c.firstName, c.lastName, c.email, c.phone, c.notes)
  }
}
