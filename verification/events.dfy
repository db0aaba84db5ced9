/** The event centre: the mock event list, the two-key filter with its
    "All" wildcard, selection by id, the count label, the demand-response
    economics of the event card and of the details panel, and the colour
    tables of both. */
module Events {
  import opened JsCore

  // ---------------------------------------------------------------------
  // Events
  // ---------------------------------------------------------------------

  datatype Category = GridDR | Internal | Maintenance

  datatype Status = Upcoming | Active | Resolved

  /** The text a category carries in the event data and in the filter bar. */
  function CategoryLabel(c: Category): (r: string)
    ensures r != "All"
  {
    match c
    case GridDR => "Grid DR"
    case Internal => "Internal"
    case Maintenance => "Maintenance"
  }

  /** The text a status carries in the event data and in the filter bar. */
  function StatusLabel(s: Status): (r: string)
    ensures r != "All"
  {
    match s
    case Upcoming => "Upcoming"
    case Active => "Active"
    case Resolved => "Resolved"
  }

  /** Different categories have different labels, and likewise statuses. */
  lemma LabelsAreDistinct(c: Category, d: Category, s: Status, t: Status)
    ensures CategoryLabel(c) == CategoryLabel(d) <==> c == d
    ensures StatusLabel(s) == StatusLabel(t) <==> s == t
  {
  }

  /** An event, with the optional demand-response figures that only grid
      events carry. `kind` is the source's `type` field. */
  datatype Event = Event(
    id: string,
    kind: string,
    category: Category,
    status: Status,
    timeWindow: string,
    impact: string,
    pricePerKWh: Option<real>,
    requestedReductionKW: Option<real>,
    durationHours: Option<real>,
    estimatedComputeLossCostPerKWh: Option<real>)

  /** The six mock events, in the page's order. */
  const AllEvents: seq<Event> := [
    Event("1", "Grid DR – ISO NE Peak Event", GridDR, Active,
          "Today 14:00 - 18:00", "Target reduction: 800 kW",
          Some(0.45), Some(800.0), Some(4.0), Some(0.30)),
    Event("2", "Internal – Cooling Constraint Hall B", Internal, Active,
          "Today 12:30 - 16:00 (est)", "Affected capacity: 1.2 MW",
          None, None, None, None),
    Event("3", "Grid DR – Wholesale Price Spike", GridDR, Upcoming,
          "Tomorrow 06:00 - 10:00", "Potential savings: $1,200",
          Some(0.50), Some(600.0), Some(4.0), Some(0.35)),
    Event("4", "Maintenance – UPS Battery Replacement", Maintenance, Upcoming,
          "Saturday 02:00 - 06:00", "Redundancy reduced: Hall A",
          None, None, None, None),
    Event("5", "Internal – Solar Inverter Fault", Internal, Resolved,
          "Yesterday 10:15 - 11:45", "Lost generation: 250 kW for 90 min",
          None, None, None, None),
    Event("6", "Grid DR – Carbon Intensity Alert", GridDR, Upcoming,
          "Today 18:00 - 22:00", "Grid carbon: >450 gCO₂/kWh",
          Some(0.40), Some(700.0), Some(4.0), Some(0.28))
  ]

  // ---------------------------------------------------------------------
  // Filtering
  // ---------------------------------------------------------------------

  /** The filter's wildcard selection. */
  const AnyValue: string := "All"

  /** The page's filter predicate: each selection is either the wildcard
      or must equal the event's label. */
  predicate Matches(e: Event, category: string, status: string)
    ensures category == AnyValue && status == AnyValue ==> Matches(e, category, status)
    ensures category != AnyValue && (forall c :: CategoryLabel(c) != category) ==> !Matches(e, category, status)
    ensures status != AnyValue && (forall t :: StatusLabel(t) != status) ==> !Matches(e, category, status)
  {
    && (category == AnyValue || CategoryLabel(e.category) == category)
    && (status == AnyValue || StatusLabel(e.status) == status)
  }

  /** `a` is `b` with some elements removed, the rest kept in order. */
  predicate IsSubsequence<T(==)>(a: seq<T>, b: seq<T>)
    decreases |b|
  {
    |a| == 0 ||
    (|b| > 0 && ((a[0] == b[0] && IsSubsequence(a[1..], b[1..])) || IsSubsequence(a, b[1..])))
  }

  /** `filteredEvents`: the events matching both selections, in order. */
  function FilterEvents(events: seq<Event>, category: string, status: string): (r: seq<Event>)
    ensures forall e :: e in r ==> e in events && Matches(e, category, status)
    ensures forall e :: e in events && Matches(e, category, status) ==> e in r
    ensures IsSubsequence(r, events)
    decreases |events|
  {
    if |events| == 0 then []
    else
      var rest := FilterEvents(events[1..], category, status);
      if Matches(events[0], category, status) then [events[0]] + rest else rest
  }

  /** The filter keeps every matching event as many times as it occurs and
      drops every other one, so the list's length is the number of matches. */
  lemma {:induction false} FilterKeepsMultiplicities(events: seq<Event>, category: string, status: string)
    ensures forall e :: multiset(FilterEvents(events, category, status))[e]
                     == if Matches(e, category, status) then multiset(events)[e] else 0
    decreases |events|
  {
    if |events| > 0 {
      FilterKeepsMultiplicities(events[1..], category, status);
      assert events == [events[0]] + events[1..];
    }
  }

  /** With both selections on "All" every event is listed. */
  lemma {:induction false} FilterAllIsIdentity(events: seq<Event>)
    ensures FilterEvents(events, AnyValue, AnyValue) == events
    decreases |events|
  {
    if |events| > 0 {
      FilterAllIsIdentity(events[1..]);
    }
  }

  /** The two-key filter is a category-only filter followed by a status-only
      filter, and also the other way round. */
  lemma {:induction false} FilterSplits(events: seq<Event>, category: string, status: string)
    ensures FilterEvents(events, category, status)
         == FilterEvents(FilterEvents(events, category, AnyValue), AnyValue, status)
    ensures FilterEvents(events, category, status)
         == FilterEvents(FilterEvents(events, AnyValue, status), category, AnyValue)
    decreases |events|
  {
    if |events| > 0 {
      FilterSplits(events[1..], category, status);
    }
  }

  /** Filtering an already filtered list again with the same selections
      changes nothing. */
  lemma {:induction false} FilterIdempotent(events: seq<Event>, category: string, status: string)
    ensures FilterEvents(FilterEvents(events, category, status), category, status)
         == FilterEvents(events, category, status)
    decreases |events|
  {
    if |events| > 0 {
      FilterIdempotent(events[1..], category, status);
    }
  }

  // ---------------------------------------------------------------------
  // Selection and the page state
  // ---------------------------------------------------------------------

  /** `events.find(e => e.id === id) || null`. */
  function FindById(events: seq<Event>, id: string): (r: Option<Event>)
    ensures r.None? <==> forall k :: 0 <= k < |events| ==> events[k].id != id
    ensures r.Some? ==> r.value in events && r.value.id == id
    decreases |events|
  {
    if |events| == 0 then None
    else if events[0].id == id then Some(events[0])
    else FindById(events[1..], id)
  }

  /** The event found is the first one with the id. */
  lemma {:induction false} FindByIdIsFirst(events: seq<Event>, id: string, k: nat)
    requires k < |events| && events[k].id == id
    requires forall j :: 0 <= j < k ==> events[j].id != id
    ensures FindById(events, id) == Some(events[k])
    decreases k
  {
    if k > 0 {
      assert events[0].id != id;
      FindByIdIsFirst(events[1..], id, k - 1);
    }
  }

  /** The id selected when the page opens: `allEvents[0]?.id || ''`. */
  function InitialSelectedId(events: seq<Event>): (r: string)
    ensures |events| > 0 ==> r == events[0].id
    ensures |events| == 0 ==> r == ""
  {
    if |events| > 0 then events[0].id else ""
  }

  /** The page's state: the two filter selections and the selected id. */
  datatype PageState = PageState(category: string, status: string, selectedId: string)

  /** The state the page opens in. */
  function InitialPage(): (r: PageState)
    ensures r.category == AnyValue && r.status == AnyValue
    ensures r.selectedId == AllEvents[0].id
  {
    PageState(AnyValue, AnyValue, InitialSelectedId(AllEvents))
  }

  /** What the user can do on the page. */
  datatype PageAction =
    | ChooseCategory(category: string)
    | ChooseStatus(status: string)
    | ClickEvent(id: string)

  /** One user action: each changes exactly its own part of the state. */
  function Step(st: PageState, a: PageAction): (r: PageState)
    ensures a.ChooseCategory? ==> r == st.(category := a.category)
    ensures a.ChooseStatus? ==> r == st.(status := a.status)
    ensures a.ClickEvent? ==> r == st.(selectedId := a.id)
  {
    match a
    case ChooseCategory(c) => st.(category := c)
    case ChooseStatus(s) => st.(status := s)
    case ClickEvent(id) => st.(selectedId := id)
  }

  /** The list the page shows. */
  function Visible(st: PageState): (r: seq<Event>)
    ensures IsSubsequence(r, AllEvents)
  {
    FilterEvents(AllEvents, st.category, st.status)
  }

  /** The event the details panel shows. */
  function Selected(st: PageState): (r: Option<Event>)
    ensures r.Some? ==> r.value in AllEvents && r.value.id == st.selectedId
  {
    FindById(AllEvents, st.selectedId)
  }

  /** Changing a filter never changes the details panel. */
  lemma SelectionIgnoresFilters(st: PageState, a: PageAction)
    requires !a.ClickEvent?
    ensures Selected(Step(st, a)) == Selected(st)
  {
  }

  /** The selected event stays in the details panel even when the filters
      hide it from the list: after opening the page and choosing "Internal",
      event 1 is shown in the panel but not in the list. */
  lemma SelectedMayBeHidden()
    ensures var st := Step(InitialPage(), ChooseCategory("Internal"));
      Selected(st) == Some(AllEvents[0]) && AllEvents[0] !in Visible(st)
  {
    var st := Step(InitialPage(), ChooseCategory("Internal"));
    assert AllEvents[0].id == "1";
  }

  /** On opening, the page lists all six events ... */
  lemma InitialPageShowsEverything()
    ensures Visible(InitialPage()) == AllEvents
  {
    FilterAllIsIdentity(AllEvents);
  }

  /** ... and the details panel shows the first. */
  lemma InitialPageSelectsFirst()
    ensures Selected(InitialPage()) == Some(AllEvents[0])
  {
    FindByIdIsFirst(AllEvents, AllEvents[0].id, 0);
  }

  // ---------------------------------------------------------------------
  // The count label
  // ---------------------------------------------------------------------

  /** The decimal digits of a natural number. */
  function NatToString(n: nat): (r: string)
    ensures |r| > 0
    ensures forall k :: 0 <= k < |r| ==> '0' <= r[k] <= '9'
    ensures r[0] == '0' <==> n == 0
    ensures |r| > 1 ==> r[0] != '0'
    decreases n
  {
    if n < 10 then [DigitChar(n)] else NatToString(n / 10) + [DigitChar(n % 10)]
  }

  function DigitChar(d: nat): (r: char)
    requires d < 10
    ensures '0' <= r <= '9'
  {
    ('0' as int + d) as char
  }

  /** Reading decimal digits back. */
  function ParseNat(s: string): (r: nat)
    requires forall k :: 0 <= k < |s| ==> '0' <= s[k] <= '9'
    decreases |s|
  {
    if |s| == 0 then 0
    else 10 * ParseNat(s[..|s| - 1]) + (s[|s| - 1] as int - '0' as int)
  }

  /** Reading the digits back gives the number. */
  lemma {:induction false} ParseNatToString(n: nat)
    ensures ParseNat(NatToString(n)) == n
    decreases n
  {
    var s := NatToString(n);
    if n >= 10 {
      ParseNatToString(n / 10);
      assert s[..|s| - 1] == NatToString(n / 10);
    }
  }

  /** The suffix `s` the label adds to "event". */
  function PluralSuffix(n: nat): (r: string)
    ensures r == "s" <==> n != 1
    ensures r == "" <==> n == 1
  {
    if n != 1 then "s" else ""
  }

  /** "N event(s) found". */
  function CountLabel(n: nat): (r: string)
    ensures |r| >= 13
  {
    NatToString(n) + " event" + PluralSuffix(n) + " found"
  }

  /** The label says "events" exactly when the count is not one. */
  lemma CountLabelPlural(n: nat)
    ensures var r := CountLabel(n);
      (r[|r| - 12..] == "events found") <==> n != 1
  {
    var d := NatToString(n);
    if n == 1 {
      assert CountLabel(n) == d + " event found";
      EndsWith(d, " event found");
      assert " event found"[0] != "events found"[0];
    } else {
      assert CountLabel(n) == (d + " ") + "events found";
      EndsWith(d + " ", "events found");
    }
  }

  lemma EndsWith(a: string, b: string)
    ensures (a + b)[|a + b| - |b|..] == b
  {
  }

  /** The label starts with the count's digits, which read back as the count. */
  lemma CountLabelStartsWithCount(n: nat)
    ensures CountLabel(n)[..|NatToString(n)|] == NatToString(n)
    ensures ParseNat(CountLabel(n)[..|NatToString(n)|]) == n
  {
    var d := NatToString(n);
    var tail := " event" + PluralSuffix(n) + " found";
    assert CountLabel(n) == d + tail;
    Affixes(d, tail);
    ParseNatToString(n);
  }

  lemma Affixes(a: string, b: string)
    ensures (a + b)[..|a|] == a
    ensures (a + b)[|a|..] == b
  {
  }

  // ---------------------------------------------------------------------
  // Demand-response economics
  // ---------------------------------------------------------------------

  /** The details panel's three figures. */
  datatype Economics = Economics(potentialRevenue: real, lostComputeRevenue: real, netImpact: real)

  /** The event card's guard: price, reduction and duration all truthy. */
  predicate HasCardFigures(e: Event) {
    Truthy(e.pricePerKWh) && Truthy(e.requestedReductionKW) && Truthy(e.durationHours)
  }

  /** The details panel's guard also demands a truthy compute-loss cost. */
  predicate HasDetailsFigures(e: Event) {
    HasCardFigures(e) && Truthy(e.estimatedComputeLossCostPerKWh)
  }

  /** The card's `calculateEconomics`: the potential revenue, or null. */
  function CardRevenue(e: Event): (r: Option<real>)
    ensures r.None? <==> !HasCardFigures(e)
    ensures r.Some? ==> r.value == e.pricePerKWh.value * e.requestedReductionKW.value * e.durationHours.value
  {
    if !Truthy(e.pricePerKWh) || !Truthy(e.requestedReductionKW) || !Truthy(e.durationHours) then None
    else Some(e.pricePerKWh.value * e.requestedReductionKW.value * e.durationHours.value)
  }

  /** The details panel's `calculateEconomics`: revenue, lost compute
      revenue and their difference, or null. */
  function DetailsEconomics(e: Event): (r: Option<Economics>)
    ensures r.None? <==> !HasDetailsFigures(e)
    ensures r.Some? ==>
      r.value.potentialRevenue == e.pricePerKWh.value * e.requestedReductionKW.value * e.durationHours.value &&
      r.value.lostComputeRevenue
        == e.estimatedComputeLossCostPerKWh.value * e.requestedReductionKW.value * e.durationHours.value
    ensures r.Some? ==> r.value.netImpact == r.value.potentialRevenue - r.value.lostComputeRevenue
  {
    if !Truthy(e.pricePerKWh) || !Truthy(e.requestedReductionKW) || !Truthy(e.durationHours)
       || !Truthy(e.estimatedComputeLossCostPerKWh) then None
    else
      var potential := e.pricePerKWh.value * e.requestedReductionKW.value * e.durationHours.value;
      var lost := e.estimatedComputeLossCostPerKWh.value * e.requestedReductionKW.value * e.durationHours.value;
      Some(Economics(potential, lost, potential - lost))
  }

  /** The net impact is the price margin over the compute-loss cost, times
      the energy curtailed. */
  lemma NetImpactIsMarginTimesEnergy(e: Event)
    requires DetailsEconomics(e).Some?
    ensures DetailsEconomics(e).value.netImpact
         == (e.pricePerKWh.value - e.estimatedComputeLossCostPerKWh.value)
            * (e.requestedReductionKW.value * e.durationHours.value)
  {
    var q := e.requestedReductionKW.value * e.durationHours.value;
    assert e.pricePerKWh.value * e.requestedReductionKW.value * e.durationHours.value
        == e.pricePerKWh.value * q;
    assert e.estimatedComputeLossCostPerKWh.value * e.requestedReductionKW.value * e.durationHours.value
        == e.estimatedComputeLossCostPerKWh.value * q;
  }

  /** For a positive curtailment and duration the net impact is positive
      exactly when the price beats the compute-loss cost. */
  lemma NetPositiveIffPriceBeatsLoss(e: Event)
    requires DetailsEconomics(e).Some?
    requires e.requestedReductionKW.value > 0.0 && e.durationHours.value > 0.0
    ensures DetailsEconomics(e).value.netImpact > 0.0
        <==> e.pricePerKWh.value > e.estimatedComputeLossCostPerKWh.value
  {
    NetImpactIsMarginTimesEnergy(e);
    var q := e.requestedReductionKW.value * e.durationHours.value;
    assert q > 0.0;
    var m := e.pricePerKWh.value - e.estimatedComputeLossCostPerKWh.value;
    SignOfProduct(m, q);
  }

  lemma SignOfProduct(m: real, q: real)
    requires q > 0.0
    ensures m * q > 0.0 <==> m > 0.0
  {
    if m > 0.0 {
      assert m * q > 0.0;
    } else {
      assert m * q <= 0.0;
    }
  }

  /** Wherever the details panel has figures, the card has its revenue, and
      the two revenues agree. */
  lemma DetailsImpliesCard(e: Event)
    requires DetailsEconomics(e).Some?
    ensures CardRevenue(e) == Some(DetailsEconomics(e).value.potentialRevenue)
  {
  }

  /** The converse fails: an event with the three card figures but no
      compute-loss cost has a revenue badge and no details figures. */
  lemma CardWithoutDetails(e: Event)
    requires HasCardFigures(e) && e.estimatedComputeLossCostPerKWh.None?
    ensures CardRevenue(e).Some? && DetailsEconomics(e).None?
  {
  }

  /** The card shows its revenue badge exactly when the revenue is not null. */
  function ShowsRevenueBadge(e: Event): (r: bool)
    ensures r <==> HasCardFigures(e)
  {
    CardRevenue(e) != None
  }

  /** How the details panel styles the net figure. */
  datatype NetStyle = NetStyle(prefix: string, green: bool)

  /** `netImpact > 0 ? '+' : ''` and the matching green/red colouring. */
  function NetDisplay(net: real): (r: NetStyle)
    ensures r.green <==> net > 0.0
    ensures r.prefix == "+" <==> net > 0.0
    ensures r.prefix == "" <==> net <= 0.0
  {
    if net > 0.0 then NetStyle("+", true) else NetStyle("", false)
  }

  /** For positive curtailment, the net figure is shown green with a '+'
      exactly when the price beats the compute-loss cost. */
  lemma GreenIffPriceBeatsLoss(e: Event)
    requires DetailsEconomics(e).Some?
    requires e.requestedReductionKW.value > 0.0 && e.durationHours.value > 0.0
    ensures NetDisplay(DetailsEconomics(e).value.netImpact) == NetStyle("+", true)
        <==> e.pricePerKWh.value > e.estimatedComputeLossCostPerKWh.value
  {
    NetPositiveIffPriceBeatsLoss(e);
  }

  /** The figures of the three grid events. */
  lemma GridEventFigures()
    ensures DetailsEconomics(AllEvents[0]) == Some(Economics(1440.0, 960.0, 480.0))
    ensures DetailsEconomics(AllEvents[2]) == Some(Economics(1200.0, 840.0, 360.0))
    ensures DetailsEconomics(AllEvents[5]) == Some(Economics(1120.0, 784.0, 336.0))
  {
  }

  /** In the mock data exactly the grid events carry economics. */
  lemma OnlyGridEventsHaveEconomics()
    ensures forall k :: 0 <= k < |AllEvents| ==>
      (DetailsEconomics(AllEvents[k]).Some? <==> AllEvents[k].category == GridDR)
    ensures forall k :: 0 <= k < |AllEvents| ==>
      (CardRevenue(AllEvents[k]).Some? <==> AllEvents[k].category == GridDR)
  {
  }

  // ---------------------------------------------------------------------
  // Colours
  // ---------------------------------------------------------------------

  const Red: string := "#ff6b6b"
  const Gold: string := "#ffd700"
  const Grey: string := "#888"
  const Cyan: string := "#61dafb"

  /** `getStatusColor`, which the event card and the details panel each
      define with the same table. */
  function StatusColour(status: string): (r: string)
    ensures status == "Active" ==> r == Red
    ensures status == "Upcoming" ==> r == Gold
    ensures status != "Active" && status != "Upcoming" ==> r == Grey
  {
    if status == "Active" then Red
    else if status == "Upcoming" then Gold
    else if status == "Resolved" then Grey
    else Grey
  }

  /** The three statuses get three different colours, and an unknown status
      gets the resolved grey. */
  lemma StatusColoursDistinct(s: Status, t: Status, other: string)
    ensures StatusColour(StatusLabel(s)) == StatusColour(StatusLabel(t)) <==> s == t
    ensures other != "Active" && other != "Upcoming" && other != "Resolved"
            ==> StatusColour(other) == StatusColour(StatusLabel(Resolved))
  {
  }

  /** The event card's `getCategoryColor`. */
  function CategoryColour(category: string): (r: string)
    ensures category == "Grid DR" ==> r == Cyan
    ensures category == "Internal" ==> r == Red
    ensures category == "Maintenance" ==> r == Gold
    ensures category != "Grid DR" && category != "Internal" && category != "Maintenance" ==> r == Grey
  {
    if category == "Grid DR" then Cyan
    else if category == "Internal" then Red
    else if category == "Maintenance" then Gold
    else Grey
  }

  /** The three categories get three colours, none of them grey, so an
      event's category colour never looks like an unknown one. */
  lemma CategoryColoursDistinct(c: Category, d: Category)
    ensures CategoryColour(CategoryLabel(c)) == CategoryColour(CategoryLabel(d)) <==> c == d
    ensures CategoryColour(CategoryLabel(c)) != Grey
  {
  }
}
