/**
 * The notification script: each room's check yields one text (a report or a
 * message saying why there is none), and the run joins the three texts into
 * the body of an email. Sending the email is not part of this model.
 */
module EmailNotification {
  import opened Text
  import opened Pipeline
  import opened Messages

  // ---------------------------------------------------------------------
  // One room
  // ---------------------------------------------------------------------

  function ContainerMissingText(room: Room): string {
    Warning + (" Could not find listings container for " + RoomLabel(room))
  }

  function NoneAvailableText(room: Room): string {
    Cross + (" No " + RoomLabel(room) + " listings available in " + LocationTitle)
  }

  /** The text of an exception caught around the whole check. */
  function ErrorText(room: Room, error: string): string {
    Cross + (" Error checking " + RoomLabel(room) + " listings: " + error)
  }

  /** U+2022 is the bullet. */
  function Bullet(l: Listing): string {
    "\U{2022} " + ListingText(l)
  }

  function BulletLines(survivors: seq<Card>): seq<string> {
    seq(|survivors|, i requires 0 <= i < |survivors| => Bullet(ListingOf(survivors[i])))
  }

  /** The report's lines: header, count, an empty line, one bullet per surviving card. */
  function ReportLines(room: Room, survivors: seq<Card>): seq<string> {
    [HeaderLine(room), CountLine(|survivors|), ""] + BulletLines(survivors)
  }

  /** The text for a room once the checks have settled on an outcome. */
  function OutcomeText(room: Room, outcome: Outcome): string {
    match outcome
    case FetchRaised(e) => ErrorText(room, e)
    case FetchFailed(status) => FetchFailedMessage(room, status)
    case ContainerMissing => ContainerMissingText(room)
    case NoSearchFound => NoneFoundMessage(room)
    case Filtered(survivors) =>
      if survivors == [] then NoneAvailableText(room) else Unlines(ReportLines(room, survivors))
  }

  /** What `check_listings` returns for a room, given what the request yields. */
  function ResultText(room: Room, fetch: Fetch): string {
    OutcomeText(room, Evaluate(Location, fetch))
  }

  /** A result is a report when it starts with the house sign. */
  predicate IsReport(text: string) {
    |text| > 0 && text[0] == House[0]
  }

  /** `check_listings` of the notification script. */
  method CheckListings(room: Room, fetch: Fetch) returns (result: string)
    ensures result == ResultText(room, fetch)
  {
    if fetch.Raised? {
      return ErrorText(room, fetch.error);
    }
    if fetch.status != 200 {
      return FetchFailedMessage(room, fetch.status);
    }
    var page := fetch.page;
    if page.NoContainer? {
      return ContainerMissingText(room);
    }
    if page.noResults {
      return NoneFoundMessage(room);
    }
    var filtered := FilterListings(Location, page.cards);
    if |filtered| == 0 {
      return NoneAvailableText(room);
    }
    result := BuildReport(room, filtered);
  }

  lemma BulletLinesSnoc(filtered: seq<Card>, i: nat)
    requires i < |filtered|
    ensures BulletLines(filtered[..i + 1]) == BulletLines(filtered[..i]) + [Bullet(ListingOf(filtered[i]))]
  {
  }

  /** The report-building tail of `check_listings`, for a non-empty filtered sequence. */
  method BuildReport(room: Room, filtered: seq<Card>) returns (result: string)
    requires filtered != []
    ensures result == Unlines(ReportLines(room, filtered))
  {
    var header, count := HeaderLine(room), CountLine(|filtered|);
    result := header + "\n" + count + "\n\n";
    ghost var head := [header, count, ""];
    UnlinesOfThree(header, count, "");
    result := AppendBullets(result, head, filtered);
  }

  /** The bullet loop of the report, appending to the text of `head`. */
  method AppendBullets(prefix: string, ghost head: seq<string>, filtered: seq<Card>) returns (result: string)
    requires prefix == Unlines(head)
    ensures result == Unlines(head + BulletLines(filtered))
  {
    result := prefix;
    assert head + BulletLines(filtered[..0]) == head;
    for i := 0 to |filtered|
      invariant result == Unlines(head + BulletLines(filtered[..i]))
    {
      var listing := ExtractListing(filtered[i]);
      BulletLinesSnoc(filtered, i);
      AppendAssoc(head, BulletLines(filtered[..i]), [Bullet(listing)]);
      UnlinesSnoc(head + BulletLines(filtered[..i]), Bullet(listing));
      result := result + Bullet(listing) + "\n";
    }
    assert filtered[..|filtered|] == filtered;
  }

  /** Only a non-empty filtered outcome gives a text that starts with the house sign. */
  lemma ReportIffSurvivors(room: Room, outcome: Outcome)
    ensures IsReport(OutcomeText(room, outcome)) <==> outcome.Filtered? && outcome.survivors != []
  {
    assert Cross[0] != House[0] && Warning[0] != House[0];
    match outcome
    case FetchRaised(e) =>
      assert OutcomeText(room, outcome) == ErrorText(room, e);
    case FetchFailed(status) =>
      assert OutcomeText(room, outcome) == FetchFailedMessage(room, status);
    case ContainerMissing =>
      assert OutcomeText(room, outcome) == ContainerMissingText(room);
    case NoSearchFound =>
      assert OutcomeText(room, outcome) == NoneFoundMessage(room);
    case Filtered(survivors) =>
      if survivors == [] {
        assert OutcomeText(room, outcome) == NoneAvailableText(room);
      } else {
        var lines := ReportLines(room, survivors);
        assert lines[0] == HeaderLine(room);
        UnlinesLead(lines);
      }
  }

  /**
   * A room's result is a report exactly when the request succeeded with
   * status 200, the container is present, there is no no-search-found
   * section and at least one card passes the filter.
   */
  lemma ReportOnlyWhenEveryCheckPasses(room: Room, fetch: Fetch)
    ensures IsReport(ResultText(room, fetch)) <==>
      fetch.Reply? && fetch.status == 200 && fetch.page.Container? && !fetch.page.noResults
      && |Survivors(Location, fetch.page.cards)| >= 1
  {
    ReportIffSurvivors(room, Evaluate(Location, fetch));
    EvaluatePrecedence(Location, fetch, NoContainer, []);
  }

  /**
   * A report's lines: the header, the count of survivors, an empty line and
   * one bullet per survivor, in the filter's order.
   */
  lemma ReportLinesShape(room: Room, s: seq<Card>)
    ensures var lines := ReportLines(room, s);
      && lines[0] == HeaderLine(room)
      && lines[1] == CountLine(|s|)
      && lines[2] == ""
      && |lines| == 3 + |s|
      && forall i :: 0 <= i < |s| ==> lines[3 + i] == Bullet(ListingOf(s[i]))
  {
    var lines := ReportLines(room, s);
    forall i | 0 <= i < |s|
      ensures lines[3 + i] == Bullet(ListingOf(s[i]))
    {
      assert lines[3 + i] == BulletLines(s)[i];
    }
  }

  /**
   * When some card survives, the result is the report of the survivors: its
   * count line shows their number, at least one, and one bullet per survivor
   * follows the empty line, in the filter's order.
   */
  lemma ReportCountMatchesBullets(room: Room, fetch: Fetch)
    requires Evaluate(Location, fetch).Filtered?
    requires Evaluate(Location, fetch).survivors != []
    ensures var s := Survivors(Location, fetch.page.cards);
      var lines := ReportLines(room, s);
      && ResultText(room, fetch) == Unlines(lines)
      && |s| >= 1
      && lines[1] == CountLine(|s|)
      && |lines| == 3 + |s|
  {
    EvaluatePrecedence(Location, fetch, NoContainer, []);
    var s := Survivors(Location, fetch.page.cards);
    assert Evaluate(Location, fetch) == Filtered(s);
    FilteredReport(room, s);
    ReportLinesShape(room, s);
  }

  lemma FilteredReport(room: Room, s: seq<Card>)
    requires s != []
    ensures OutcomeText(room, Filtered(s)) == Unlines(ReportLines(room, s))
  {
  }

  /** Every exception of the request becomes the room's error text and goes no further. */
  lemma ExceptionBecomesErrorText(room: Room, error: string)
    ensures ResultText(room, Raised(error)) == ErrorText(room, error)
    ensures !IsReport(ResultText(room, Raised(error)))
  {
  }

  // ---------------------------------------------------------------------
  // The run
  // ---------------------------------------------------------------------

  /** The results of the rooms in `rooms`, in that order. */
  function ResultsFor(rooms: seq<Room>, fetch: Room -> Fetch): seq<string> {
    seq(|rooms|, i requires 0 <= i < |rooms| => ResultText(rooms[i], fetch(rooms[i])))
  }

  const Dashes: string := Repeat('-', 50)
  const Rule: string := Repeat('=', 50)

  /** What the run prints to the console for its results: each followed by a dashed line. */
  function Echo(results: seq<string>): seq<string> {
    if results == [] then [] else Echo(results[..|results| - 1]) + [results[|results| - 1], Dashes]
  }

  /** U+1F50D is the magnifying glass. */
  function StartLine(startedAt: string): string {
    "\U{1F50D} Checking apartment availability at " + startedAt
  }

  function EmailBody(bodyDate: string, checkTime: string, results: seq<string>): string {
    "Apartment Availability Check - " + bodyDate + "\n\n"
    + "Location: " + LocationTitle + "\n"
    + "Check Time: " + checkTime + "\n\n"
    + Rule + "\n\n"
    + Join(results, "\n\n")
    + "\n\n" + Rule + "\n"
    + "This is an automated check from your apartment availability script.\n"
  }

  function Subject(subjectDate: string): string {
    House + (" Apartment Availability - " + LocationTitle + " - " + subjectDate)
  }

  /**
   * `main` up to the hand-over to `send_email`: the console lines it prints,
   * and the subject and body of the email. Each reading of the clock is a
   * parameter.
   */
  method CheckAll(fetch: Room -> Fetch, startedAt: string, bodyDate: string, checkTime: string, subjectDate: string)
    returns (console: seq<string>, subject: string, body: string)
    ensures console == [StartLine(startedAt)] + Echo(ResultsFor(RoomOrder, fetch))
    ensures body == EmailBody(bodyDate, checkTime, ResultsFor(RoomOrder, fetch))
    ensures subject == Subject(subjectDate)
  {
    var allResults, echoed := CheckRooms(RoomOrder, fetch);
    console := [StartLine(startedAt)] + echoed;
    body := EmailBody(bodyDate, checkTime, allResults);
    subject := Subject(subjectDate);
  }

  /** The loop of `main` over the room codes in `rooms`: the results kept and the lines echoed. */
  method CheckRooms(rooms: seq<Room>, fetch: Room -> Fetch) returns (allResults: seq<string>, echoed: seq<string>)
    ensures allResults == ResultsFor(rooms, fetch)
    ensures echoed == Echo(allResults)
  {
    allResults, echoed := [], [];
    for i := 0 to |rooms|
      invariant allResults == ResultsFor(rooms[..i], fetch)
      invariant echoed == Echo(allResults)
    {
      var room := rooms[i];
      var result := CheckListings(room, fetch(room));
      assert ResultsFor(rooms[..i + 1], fetch) == allResults + [result];
      allResults := allResults + [result];
      assert allResults[..|allResults| - 1] == ResultsFor(rooms[..i], fetch);
      echoed := echoed + [result, Dashes];
    }
    assert rooms[..|rooms|] == rooms;
  }

  /**
   * The run keeps exactly one result per room code, for codes 1, 2 and 3 in
   * that order, and the body holds them separated by blank lines.
   */
  lemma OneResultPerRoom(fetch: Room -> Fetch)
    ensures var results := ResultsFor(RoomOrder, fetch);
      && |results| == 3
      && (forall r: Room :: results[r - 1] == ResultText(r, fetch(r)))
      && Join(results, "\n\n") == results[0] + "\n\n" + results[1] + "\n\n" + results[2]
  {
    var results := ResultsFor(RoomOrder, fetch);
    forall r: Room
      ensures results[r - 1] == ResultText(r, fetch(r))
    {
      assert RoomOrder[r - 1] == r;
    }
    assert results == [results[0], results[1], results[2]];
    JoinThree(results[0], results[1], results[2], "\n\n");
  }
}
