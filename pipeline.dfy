/**
 * The per-room listing check that both scripts run: the search configuration,
 * the parsed result page, the location filter, the per-card field extraction
 * and the order in which the check's outcomes take precedence.
 *
 * The HTML page is taken as already parsed: a `Page` holds exactly what the
 * scripts' `find`/`find_all` calls look at.
 */
module Pipeline {
  import opened Text

  datatype Option<T> = None | Some(value: T)

  // ---------------------------------------------------------------------
  // Search configuration
  // ---------------------------------------------------------------------

  /** The location slug sent as the `location` query parameter. */
  const Location: string := "muhaisnah-fourth"

  /** The slug with hyphens replaced by spaces, title-cased, as shown in messages. */
  const LocationTitle: string := "Muhaisnah Fourth"

  /** The placeholder for a field a card does not supply. */
  const NotAvailable: string := "N/A"

  /** A room code: a key of the room-type table. */
  type Room = r: int | 1 <= r <= 3 witness 1

  const RoomTypes: map<Room, string> := map[1 := "1-Bedroom", 2 := "2-Bedroom", 3 := "3-Bedroom"]

  /** The order in which iterating over the room-type table visits its keys. */
  const RoomOrder: seq<Room> := [1, 2, 3]

  function RoomLabel(room: Room): string {
    RoomTypes[room]
  }

  /** Every room code is checked, once, in ascending order, and the codes have distinct labels. */
  lemma RoomOrderCoversRoomTypes()
    ensures forall r: Room :: r in RoomTypes && r in RoomOrder
    ensures forall i, j :: 0 <= i < j < |RoomOrder| ==> RoomOrder[i] < RoomOrder[j]
    ensures forall r: Room, s: Room :: r != s ==> RoomLabel(r) != RoomLabel(s)
  {
    assert RoomLabel(1)[0] == '1' && RoomLabel(2)[0] == '2' && RoomLabel(3)[0] == '3';
  }

  // ---------------------------------------------------------------------
  // The parsed page
  // ---------------------------------------------------------------------

  /**
   * The first `span` of a `card-details` div: its whole stripped text (the
   * text of its children included) and the stripped text of its first `i`
   * child, if it has one.
   */
  datatype Span = Span(text: string, italic: Option<string>)

  /**
   * One `all-units-cards` section: the stripped text of its `h3`, if any, and,
   * in document order, the first span of each of its `card-details` divs
   * (`None` for a div without a span).
   */
  datatype Card = Card(title: Option<string>, details: seq<Option<Span>>)

  /**
   * The results page: either it has no listings container, or the container
   * holds (or not) a `no-search-found` section and a sequence of cards.
   */
  datatype Page = NoContainer | Container(noResults: bool, cards: seq<Card>)

  /** What the HTTP request yields: a status and a page, or a raised exception. */
  datatype Fetch = Reply(status: nat, page: Page) | Raised(error: string)

  // ---------------------------------------------------------------------
  // Location filter
  // ---------------------------------------------------------------------

  /** The slug as the filter compares it: hyphens become spaces, then lower case. */
  function SearchTarget(slug: string): string {
    ToLower(ReplaceChar(slug, '-', ' '))
  }

  /** Either string is a substring of the other. */
  predicate Overlaps(a: string, b: string) {
    Contains(a, b) || Contains(b, a)
  }

  /** The filter's test on a card's location text: the lower-cased text and the normalised slug overlap. */
  predicate LocationMatches(slug: string, text: string) {
    Overlaps(ToLower(text), SearchTarget(slug))
  }

  /**
   * The location test ignores the case of the card's text, and it accepts a
   * text equal to the normalised slug as well as an empty text.
   */
  lemma LocationMatchesProperties(slug: string, text: string)
    ensures LocationMatches(slug, text) <==> LocationMatches(slug, ToLower(text))
    ensures ToLower(text) == SearchTarget(slug) ==> LocationMatches(slug, text)
    ensures text == "" ==> LocationMatches(slug, text)
  {
    assert ToLower(ToLower(text)) == ToLower(text);
    if ToLower(text) == SearchTarget(slug) {
      assert StartsWith(ToLower(text), SearchTarget(slug));
    }
    if text == "" {
      assert StartsWith(SearchTarget(slug), ToLower(text));
    }
  }

  /**
   * The location test succeeds exactly when one normalised string occurs at
   * some position of the other.
   */
  lemma LocationMatchesIffOccurs(slug: string, text: string)
    ensures LocationMatches(slug, text) <==>
      (exists i: nat :: OccursAt(ToLower(text), SearchTarget(slug), i)) ||
      (exists i: nat :: OccursAt(SearchTarget(slug), ToLower(text), i))
  {
    ContainsIffOccurs(ToLower(text), SearchTarget(slug));
    ContainsIffOccurs(SearchTarget(slug), ToLower(text));
  }

  lemma SearchTargetOfLocation()
    ensures SearchTarget(Location) == "muhaisnah fourth"
    ensures ToLower(LocationTitle) == SearchTarget(Location)
  {
  }

  /** A card labelled with a superset of the configured location passes the filter. */
  lemma SupersetLabelMatches()
    ensures LocationMatches(Location, "Muhaisnah Fourth, Dubai")
  {
    SearchTargetOfLocation();
    assert ToLower("Muhaisnah Fourth, Dubai") == "muhaisnah fourth, dubai";
    assert StartsWith("muhaisnah fourth, dubai", "muhaisnah fourth");
  }

  /** A card labelled with part of the configured location passes the filter. */
  lemma PartialLabelMatches()
    ensures LocationMatches(Location, "Muhaisnah")
  {
    SearchTargetOfLocation();
    assert ToLower("Muhaisnah") == "muhaisnah";
    assert StartsWith("muhaisnah fourth", "muhaisnah");
  }

  /** A card labelled with an unrelated area is filtered out. */
  lemma UnrelatedLabelFails()
    ensures !LocationMatches(Location, "Deira")
  {
    SearchTargetOfLocation();
    assert ToLower("Deira") == "deira";
    assert 'd' !in "muhaisnah fourth";
    MissingCharNotContained("muhaisnah fourth", "deira");
    LongerNotContained("deira", "muhaisnah fourth");
  }

  /** The text the filter reads: the first span of the first `card-details` div. */
  function LocationSpan(card: Card): Option<string> {
    if |card.details| > 0 && card.details[0].Some? then Some(card.details[0].value.text) else None
  }

  predicate Keeps(slug: string, card: Card) {
    LocationSpan(card).Some? && LocationMatches(slug, LocationSpan(card).value)
  }

  /** The cards the filter keeps, in their original order. */
  function Survivors(slug: string, cards: seq<Card>): seq<Card> {
    if cards == [] then []
    else
      var n := |cards| - 1;
      Survivors(slug, cards[..n]) + (if Keeps(slug, cards[n]) then [cards[n]] else [])
  }

  /** `sub` is `s` with some elements left out, the rest in their order. */
  predicate IsSubsequence<T(==)>(sub: seq<T>, s: seq<T>)
    decreases |s|
  {
    if sub == [] then true
    else if s == [] then false
    else
      (sub[|sub| - 1] == s[|s| - 1] && IsSubsequence(sub[..|sub| - 1], s[..|s| - 1]))
      || IsSubsequence(sub, s[..|s| - 1])
  }

  /** The filter keeps an order-preserving subsequence of the cards. */
  lemma {:induction false} SurvivorsAreSubsequence(slug: string, cards: seq<Card>)
    ensures IsSubsequence(Survivors(slug, cards), cards)
  {
    if cards != [] {
      var n := |cards| - 1;
      var init := Survivors(slug, cards[..n]);
      SurvivorsAreSubsequence(slug, cards[..n]);
      if Keeps(slug, cards[n]) {
        assert (init + [cards[n]])[..|init|] == init;
      } else {
        assert Survivors(slug, cards) == init;
      }
    }
  }

  /** A card survives exactly when it is one of the cards and passes the location test. */
  lemma {:induction false} SurvivorsMembership(slug: string, cards: seq<Card>)
    ensures forall c :: c in Survivors(slug, cards) <==> c in cards && Keeps(slug, c)
  {
    if cards != [] {
      var n := |cards| - 1;
      SurvivorsMembership(slug, cards[..n]);
      assert cards == cards[..n] + [cards[n]];
    }
  }

  /**
   * The filter keeps every occurrence of a passing card and none of a
   * failing one: a card survives as many times as it occurs, or not at all.
   */
  lemma {:induction false} SurvivorsMultiplicity(slug: string, cards: seq<Card>)
    ensures forall c :: multiset(Survivors(slug, cards))[c] == if Keeps(slug, c) then multiset(cards)[c] else 0
  {
    if cards != [] {
      var n := |cards| - 1;
      SurvivorsMultiplicity(slug, cards[..n]);
      assert cards == cards[..n] + [cards[n]];
      assert multiset(cards) == multiset(cards[..n]) + multiset{cards[n]};
    }
  }

  /** Filtering the concatenation of two card sequences filters each part. */
  lemma {:induction false} SurvivorsOfConcat(slug: string, a: seq<Card>, b: seq<Card>)
    ensures Survivors(slug, a + b) == Survivors(slug, a) + Survivors(slug, b)
    decreases |b|
  {
    if b == [] {
      assert a + b == a;
    } else {
      var n := |b| - 1;
      assert (a + b)[..|a + b| - 1] == a + b[..n];
      SurvivorsOfConcat(slug, a, b[..n]);
    }
  }

  /** A card without a `card-details` div, or whose first one has no span, never survives. */
  lemma CardWithoutLocationSpanIsDropped(slug: string, cards: seq<Card>, c: Card)
    requires |c.details| == 0 || c.details[0].None?
    ensures c !in Survivors(slug, cards)
  {
    SurvivorsMembership(slug, cards);
  }

  /** The filtering loop of `check_listings`. */
  method FilterListings(slug: string, cards: seq<Card>) returns (filtered: seq<Card>)
    ensures filtered == Survivors(slug, cards)
  {
    filtered := [];
    for i := 0 to |cards|
      invariant filtered == Survivors(slug, cards[..i])
    {
      var listing := cards[i];
      assert cards[..i + 1][..i] == cards[..i];
      if |listing.details| > 0 {
        var span := listing.details[0];
        if span.Some? {
          var locationText := span.value.text;
          if LocationMatches(slug, locationText) {
            filtered := filtered + [listing];
          }
        }
      }
    }
    assert cards[..|cards|] == cards;
  }

  // ---------------------------------------------------------------------
  // Per-card field extraction
  // ---------------------------------------------------------------------

  datatype Field = Price | UnitNo | Place

  datatype Fields = Fields(price: string, unitNo: string, location: string)

  /** A report line's data: the card's title and the three extracted fields. */
  datatype Listing = Listing(title: string, fields: Fields)

  /** The words whose presence marks a detail as something other than the location. */
  const Keywords: seq<string> := ["Price", "Unit No.", "Size", "Type", "Parking"]

  predicate HasKeyword(text: string) {
    exists k :: 0 <= k < |Keywords| && Contains(text, Keywords[k])
  }

  /**
   * The field a detail writes and the value it writes, by the first branch
   * its span's text matches: "Price", then "Unit No." (each only when the
   * span has an `i` child), then the location when the text contains no
   * keyword at all. `None` when the detail writes nothing.
   */
  function Supplies(d: Option<Span>): Option<(Field, string)> {
    match d
    case None => None
    case Some(span) =>
      if Contains(span.text, "Price") then
        (if span.italic.Some? then Some((Price, span.italic.value)) else None)
      else if Contains(span.text, "Unit No.") then
        (if span.italic.Some? then Some((UnitNo, span.italic.value)) else None)
      else if !HasKeyword(span.text) then
        Some((Place, span.text))
      else
        None
  }

  predicate WritesTo(d: Option<Span>, field: Field) {
    Supplies(d).Some? && Supplies(d).value.0 == field
  }

  function Get(f: Fields, field: Field): string {
    match field
    case Price => f.price
    case UnitNo => f.unitNo
    case Place => f.location
  }

  function Set(f: Fields, field: Field, v: string): Fields {
    match field
    case Price => f.(price := v)
    case UnitNo => f.(unitNo := v)
    case Place => f.(location := v)
  }

  /** The fields before any detail is read. */
  const Unset: Fields := Fields(NotAvailable, NotAvailable, NotAvailable)

  /** One iteration of the detail loop. */
  function Apply(f: Fields, d: Option<Span>): Fields {
    match Supplies(d)
    case None => f
    case Some((field, v)) => Set(f, field, v)
  }

  /** The fields after the detail loop has read `ds` in order. */
  function Scan(ds: seq<Option<Span>>): Fields {
    if ds == [] then Unset else Apply(Scan(ds[..|ds| - 1]), ds[|ds| - 1])
  }

  function ListingOf(card: Card): Listing {
    Listing(if card.title.Some? then card.title.value else NotAvailable, Scan(card.details))
  }

  /** A detail writes at most one field, and leaves the other two as they were. */
  lemma ApplyChangesOnlyItsField(f: Fields, d: Option<Span>, field: Field)
    ensures !WritesTo(d, field) ==> Get(Apply(f, d), field) == Get(f, field)
    ensures WritesTo(d, field) ==> Get(Apply(f, d), field) == Supplies(d).value.1
    ensures forall g :: WritesTo(d, field) && WritesTo(d, g) ==> g == field
  {
  }

  /** A field no detail writes keeps its "N/A" default. */
  lemma {:induction false} UnwrittenFieldIsNotAvailable(ds: seq<Option<Span>>, field: Field)
    requires forall i :: 0 <= i < |ds| ==> !WritesTo(ds[i], field)
    ensures Get(Scan(ds), field) == NotAvailable
  {
    if ds != [] {
      var n := |ds| - 1;
      UnwrittenFieldIsNotAvailable(ds[..n], field);
      ApplyChangesOnlyItsField(Scan(ds[..n]), ds[n], field);
    }
  }

  /**
   * Last write wins: a field holds the value written by the last detail that
   * writes it, whatever earlier details wrote.
   */
  lemma {:induction false} LastWriteWins(ds: seq<Option<Span>>, field: Field, j: nat)
    requires j < |ds| && WritesTo(ds[j], field)
    requires forall k :: j < k < |ds| ==> !WritesTo(ds[k], field)
    ensures Get(Scan(ds), field) == Supplies(ds[j]).value.1
  {
    var n := |ds| - 1;
    ApplyChangesOnlyItsField(Scan(ds[..n]), ds[n], field);
    if j < n {
      LastWriteWins(ds[..n], field, j);
    }
  }

  /** A "Price" or "Unit No." span without an `i` child changes no field. */
  lemma SpanWithoutItalicWritesNothing(f: Fields, span: Span)
    requires Contains(span.text, "Price") || Contains(span.text, "Unit No.")
    requires span.italic.None?
    ensures Apply(f, Some(span)) == f
  {
  }

  /** A span mentioning Size, Type or Parking, but neither Price nor Unit No., changes no field. */
  lemma OtherKeywordSpanWritesNothing(f: Fields, span: Span)
    requires !Contains(span.text, "Price") && !Contains(span.text, "Unit No.")
    requires Contains(span.text, "Size") || Contains(span.text, "Type") || Contains(span.text, "Parking")
    ensures Apply(f, Some(span)) == f
  {
    assert Keywords[2] == "Size" && Keywords[3] == "Type" && Keywords[4] == "Parking";
  }

  /** The detail loop of `check_listings` for one card, with the title lookup before it. */
  method ExtractListing(card: Card) returns (listing: Listing)
    ensures listing == ListingOf(card)
  {
    var title := if card.title.Some? then card.title.value else NotAvailable;
    var price, unitNo, location := NotAvailable, NotAvailable, NotAvailable;
    for i := 0 to |card.details|
      invariant Fields(price, unitNo, location) == Scan(card.details[..i])
    {
      var detail := card.details[i];
      assert card.details[..i + 1][..i] == card.details[..i];
      if detail.Some? {
        var span := detail.value;
        var text := span.text;
        if Contains(text, "Price") {
          if span.italic.Some? {
            price := span.italic.value;
          }
        } else if Contains(text, "Unit No.") {
          if span.italic.Some? {
            unitNo := span.italic.value;
          }
        } else if !HasKeyword(text) {
          location := text;
        }
      }
    }
    assert card.details[..|card.details|] == card.details;
    listing := Listing(title, Fields(price, unitNo, location));
  }

  // ---------------------------------------------------------------------
  // Outcome precedence
  // ---------------------------------------------------------------------

  /** How far a check got, and what stopped it. */
  datatype Outcome =
    | FetchRaised(error: string)
    | FetchFailed(status: nat)
    | ContainerMissing
    | NoSearchFound
    | Filtered(survivors: seq<Card>)

  /**
   * The checks in the order the scripts make them: the request, the status,
   * the container, the no-search-found section, then the filter.
   */
  function Evaluate(slug: string, fetch: Fetch): Outcome {
    match fetch
    case Raised(e) => FetchRaised(e)
    case Reply(status, page) =>
      if status != 200 then FetchFailed(status)
      else
        match page
        case NoContainer => ContainerMissing
        case Container(noResults, cards) =>
          if noResults then NoSearchFound else Filtered(Survivors(slug, cards))
  }

  /**
   * Each check is consulted only when every earlier one passed: a failed
   * status ignores the page, a present no-search-found section ignores the
   * cards, and the filter sees exactly the container's cards.
   */
  lemma EvaluatePrecedence(slug: string, fetch: Fetch, page: Page, cards: seq<Card>)
    ensures fetch.Reply? && fetch.status != 200 ==>
      Evaluate(slug, fetch) == Evaluate(slug, Reply(fetch.status, page)) == FetchFailed(fetch.status)
    ensures fetch == Reply(200, NoContainer) ==> Evaluate(slug, fetch) == ContainerMissing
    ensures fetch.Reply? && fetch.status == 200 && fetch.page.Container? && fetch.page.noResults ==>
      Evaluate(slug, fetch) == Evaluate(slug, Reply(200, Container(true, cards))) == NoSearchFound
    ensures Evaluate(slug, fetch).Filtered? <==>
      fetch.Reply? && fetch.status == 200 && fetch.page.Container? && !fetch.page.noResults
    ensures Evaluate(slug, fetch).Filtered? ==>
      Evaluate(slug, fetch).survivors == Survivors(slug, fetch.page.cards)
  {
  }
}
