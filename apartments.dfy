/**
 * The console script: each room's check prints its findings line by line,
 * and the script checks the three room codes in turn. The request has no
 * exception handler here, so an exception it raises ends the whole script.
 */
module Apartments {
  import opened Text
  import opened Pipeline
  import opened Messages

  /** Standard output, as the sequence of strings passed to `print`. */
  class Console {
    var lines: seq<string>

    constructor ()
      ensures lines == []
    {
      lines := [];
    }

    method Print(line: string)
      modifies this
      ensures lines == old(lines) + [line]
    {
      lines := lines + [line];
    }
  }

  /** U+1F4C4, the page. */
  const PageSign: string := "\U{1F4C4}"

  /** The file itself is not modelled, only the line announcing it. */
  function SavedLine(room: Room): string {
    PageSign + (" Saved HTML response to debug_response_" + NatToString(room) + ".html")
  }

  function ContainerMissingLine(room: Room): string {
    Warning + (" Could not find listings container for " + RoomLabel(room)
    + ". The page structure may have changed.")
  }

  /** The header is printed after an empty line. */
  function PrintedHeader(room: Room): string {
    "\n" + HeaderLine(room)
  }

  const NoneAvailableLine: string := Cross + " No listings available in the specified location."

  function Bullet(l: Listing): string {
    "- " + ListingText(l)
  }

  function BulletLines(survivors: seq<Card>): seq<string> {
    seq(|survivors|, i requires 0 <= i < |survivors| => Bullet(ListingOf(survivors[i])))
  }

  /** What `check_listings` prints once the checks have settled on an outcome. */
  function Printed(room: Room, outcome: Outcome): seq<string> {
    match outcome
    case FetchRaised(_) => []
    case FetchFailed(status) => [FetchFailedMessage(room, status)]
    case ContainerMissing => [SavedLine(room), ContainerMissingLine(room)]
    case NoSearchFound => [SavedLine(room), NoneFoundMessage(room)]
    case Filtered(survivors) => [SavedLine(room)] + FilteredLines(room, survivors)
  }

  /** What follows the saved-file line once the cards have been filtered. */
  function FilteredLines(room: Room, survivors: seq<Card>): seq<string> {
    [PrintedHeader(room)]
    + if survivors == [] then [NoneAvailableLine] else [CountLine(|survivors|)] + BulletLines(survivors)
  }

  /** What `check_listings` prints for a room (nothing when the request raises). */
  function CheckOutput(room: Room, fetch: Fetch): seq<string> {
    Printed(room, Evaluate(Location, fetch))
  }

  /**
   * `check_listings` of the console script. `raised` tells that the request
   * raised an exception, which leaves the function with nothing printed.
   */
  method CheckListings(console: Console, room: Room, fetch: Fetch) returns (raised: bool)
    modifies console
    ensures raised <==> fetch.Raised?
    ensures console.lines == old(console.lines) + CheckOutput(room, fetch)
  {
    if fetch.Raised? {
      return true;
    }
    raised := false;
    if fetch.status != 200 {
      console.Print(FetchFailedMessage(room, fetch.status));
      return;
    }
    CheckPage(console, room, fetch.page);
  }

  /** The part of `check_listings` after a reply with status 200. */
  method CheckPage(console: Console, room: Room, page: Page)
    modifies console
    ensures console.lines == old(console.lines) + CheckOutput(room, Reply(200, page))
  {
    var saved := SavedLine(room);
    console.Print(saved);
    if page.NoContainer? {
      console.Print(ContainerMissingLine(room));
      return;
    }
    if page.noResults {
      console.Print(NoneFoundMessage(room));
      return;
    }
    var filtered := FilterListings(Location, page.cards);
    PrintFiltered(console, room, filtered);
    AppendAssoc(old(console.lines), [saved], FilteredLines(room, filtered));
  }

  /** The header, then the count line and bullets or the "No listings available" line. */
  method PrintFiltered(console: Console, room: Room, filtered: seq<Card>)
    modifies console
    ensures console.lines == old(console.lines) + FilteredLines(room, filtered)
  {
    var header := PrintedHeader(room);
    console.Print(header);
    if |filtered| > 0 {
      PrintReport(console, filtered);
      AppendAssoc(old(console.lines) + [header], [CountLine(|filtered|)], BulletLines(filtered));
      AppendAssoc(old(console.lines), [header], [CountLine(|filtered|)] + BulletLines(filtered));
    } else {
      console.Print(NoneAvailableLine);
      AppendAssoc(old(console.lines), [header], [NoneAvailableLine]);
    }
  }

  /** The count line and bullets `check_listings` prints when some card survives. */
  method PrintReport(console: Console, filtered: seq<Card>)
    requires filtered != []
    modifies console
    ensures console.lines == old(console.lines) + [CountLine(|filtered|)] + BulletLines(filtered)
  {
    console.Print(CountLine(|filtered|));
    ghost var head := console.lines;
    assert BulletLines(filtered[..0]) == [];
    for i := 0 to |filtered|
      invariant console.lines == head + BulletLines(filtered[..i])
    {
      var listing := ExtractListing(filtered[i]);
      assert BulletLines(filtered[..i + 1]) == BulletLines(filtered[..i]) + [Bullet(listing)];
      console.Print(Bullet(listing));
    }
    assert filtered[..|filtered|] == filtered;
  }

  /** No line but the header starts with a newline. */
  lemma OnlyHeaderStartsWithNewline(room: Room, status: nat, n: nat, l: Listing)
    ensures PrintedHeader(room)[0] == '\n'
    ensures CountLine(n)[0] != '\n'
    ensures Bullet(l)[0] != '\n'
    ensures NoneAvailableLine[0] != '\n'
    ensures FetchFailedMessage(room, status)[0] != '\n'
    ensures SavedLine(room)[0] != '\n'
    ensures ContainerMissingLine(room)[0] != '\n'
    ensures NoneFoundMessage(room)[0] != '\n'
    ensures SavedLine(room)[0] != FetchFailedMessage(room, status)[0]
  {
    assert FetchFailedMessage(room, status)[0] == Cross[0];
    assert SavedLine(room)[0] == PageSign[0];
    assert ContainerMissingLine(room)[0] == Warning[0];
    assert NoneFoundMessage(room)[0] == Cross[0];
  }

  /**
   * A failed status prints the failure alone: nothing is printed about the
   * debug file, and the page is not looked at.
   */
  lemma FailedStatusReturnsEarly(room: Room, status: nat, page: Page)
    requires status != 200
    ensures CheckOutput(room, Reply(status, page)) == [FetchFailedMessage(room, status)]
    ensures SavedLine(room) !in CheckOutput(room, Reply(status, page))
  {
    assert Evaluate(Location, Reply(status, page)) == FetchFailed(status);
    OnlyHeaderStartsWithNewline(room, status, 0, Listing("", Unset));
  }

  /**
   * A missing container, or a no-search-found section, ends the check after
   * one message: the cards are never filtered and no header is printed.
   */
  lemma EarlyEndSkipsFiltering(room: Room, cards: seq<Card>, other: seq<Card>)
    ensures CheckOutput(room, Reply(200, NoContainer)) == [SavedLine(room), ContainerMissingLine(room)]
    ensures PrintedHeader(room) !in CheckOutput(room, Reply(200, NoContainer))
    ensures CheckOutput(room, Reply(200, Container(true, cards)))
      == CheckOutput(room, Reply(200, Container(true, other)))
      == [SavedLine(room), NoneFoundMessage(room)]
    ensures PrintedHeader(room) !in CheckOutput(room, Reply(200, Container(true, cards)))
  {
    assert Evaluate(Location, Reply(200, NoContainer)) == ContainerMissing;
    assert Evaluate(Location, Reply(200, Container(true, cards))) == NoSearchFound;
    assert Evaluate(Location, Reply(200, Container(true, other))) == NoSearchFound;
    OnlyHeaderStartsWithNewline(room, 200, 0, Listing("", Unset));
  }

  /** The header is printed exactly for a filtered outcome. */
  lemma HeaderExactlyWhenFiltered(room: Room, outcome: Outcome)
    ensures PrintedHeader(room) in Printed(room, outcome) <==> outcome.Filtered?
  {
    match outcome
    case FetchRaised(_) =>
    case FetchFailed(status) =>
      OnlyHeaderStartsWithNewline(room, status, 0, Listing("", Unset));
    case ContainerMissing =>
      OnlyHeaderStartsWithNewline(room, 200, 0, Listing("", Unset));
    case NoSearchFound =>
      OnlyHeaderStartsWithNewline(room, 200, 0, Listing("", Unset));
    case Filtered(s) =>
      assert Printed(room, outcome)[1] == PrintedHeader(room);
  }

  /**
   * After the header comes either the single "No listings available" line,
   * when nothing survives, or the count line and one bullet per survivor,
   * in the filter's order.
   */
  lemma FilteredPrintout(room: Room, s: seq<Card>)
    ensures s == [] ==> Printed(room, Filtered(s)) == [SavedLine(room), PrintedHeader(room), NoneAvailableLine]
    ensures s != [] ==>
      Printed(room, Filtered(s)) == [SavedLine(room), PrintedHeader(room), CountLine(|s|)] + BulletLines(s)
  {
    var saved, header := SavedLine(room), PrintedHeader(room);
    if s != [] {
      var count := CountLine(|s|);
      AppendAssoc([saved], [header], [count] + BulletLines(s));
      AppendAssoc([saved, header], [count], BulletLines(s));
      assert [saved] + [header] == [saved, header];
      assert [saved, header] + [count] == [saved, header, count];
    } else {
      assert [saved] + ([header] + [NoneAvailableLine]) == [saved, header, NoneAvailableLine];
    }
  }

  /**
   * The header is printed exactly when filtering was reached, and what
   * follows it is decided by the cards that pass the filter.
   */
  lemma HeaderWheneverFiltered(room: Room, fetch: Fetch)
    ensures PrintedHeader(room) in CheckOutput(room, fetch) <==>
      fetch.Reply? && fetch.status == 200 && fetch.page.Container? && !fetch.page.noResults
    ensures fetch.Reply? && fetch.status == 200 && fetch.page.Container? && !fetch.page.noResults ==>
      var s := Survivors(Location, fetch.page.cards);
      var out := CheckOutput(room, fetch);
      && (s == [] ==> out == [SavedLine(room), PrintedHeader(room), NoneAvailableLine])
      && (s != [] ==> out == [SavedLine(room), PrintedHeader(room), CountLine(|s|)] + BulletLines(s))
  {
    HeaderExactlyWhenFiltered(room, Evaluate(Location, fetch));
    EvaluatePrecedence(Location, fetch, NoContainer, []);
    if Evaluate(Location, fetch).Filtered? {
      FilteredPrintout(room, Evaluate(Location, fetch).survivors);
    }
  }

  // ---------------------------------------------------------------------
  // The script
  // ---------------------------------------------------------------------

  /** Some room of `rooms` makes the request raise. */
  predicate Halts(rooms: seq<Room>, fetch: Room -> Fetch) {
    rooms != [] && (fetch(rooms[0]).Raised? || Halts(rooms[1..], fetch))
  }

  /**
   * What the script prints for `rooms`, checked in order: the first room
   * whose request raises ends the script.
   */
  function ScriptOutput(rooms: seq<Room>, fetch: Room -> Fetch): seq<string> {
    if rooms == [] then []
    else
      CheckOutput(rooms[0], fetch(rooms[0]))
      + (if fetch(rooms[0]).Raised? then [] else ScriptOutput(rooms[1..], fetch))
  }

  lemma ScriptOutputStep(rooms: seq<Room>, i: nat, fetch: Room -> Fetch)
    requires i < |rooms|
    ensures Halts(rooms[i..], fetch) <==> fetch(rooms[i]).Raised? || Halts(rooms[i + 1..], fetch)
    ensures ScriptOutput(rooms[i..], fetch)
      == CheckOutput(rooms[i], fetch(rooms[i]))
         + (if fetch(rooms[i]).Raised? then [] else ScriptOutput(rooms[i + 1..], fetch))
  {
    assert rooms[i..][0] == rooms[i] && rooms[i..][1..] == rooms[i + 1..];
  }

  /** The `__main__` loop, over the room codes in `rooms`. */
  method RunRooms(console: Console, rooms: seq<Room>, fetch: Room -> Fetch) returns (raised: bool)
    modifies console
    ensures raised <==> Halts(rooms, fetch)
    ensures console.lines == old(console.lines) + ScriptOutput(rooms, fetch)
  {
    raised := false;
    var i := 0;
    ghost var done: seq<string> := [];
    assert rooms[0..] == rooms;
    while i < |rooms| && !raised
      invariant 0 <= i <= |rooms|
      invariant console.lines == old(console.lines) + done
      invariant !raised ==> (Halts(rooms, fetch) <==> Halts(rooms[i..], fetch))
      invariant !raised ==> ScriptOutput(rooms, fetch) == done + ScriptOutput(rooms[i..], fetch)
      invariant raised ==> Halts(rooms, fetch) && done == ScriptOutput(rooms, fetch)
    {
      var room := rooms[i];
      var f := fetch(room);
      ghost var out := CheckOutput(room, f);
      raised := CheckListings(console, room, f);
      ScriptOutputStep(rooms, i, fetch);
      AppendAssoc(old(console.lines), done, out);
      AppendAssoc(done, out, ScriptOutput(rooms[i + 1..], fetch));
      if raised {
        assert out + [] == out;
      }
      done := done + out;
      i := i + 1;
    }
    if !raised {
      assert rooms[i..] == [];
      assert done + [] == done;
    }
  }

  /** The script: one check per room code, in the table's order. */
  method RunScript(console: Console, fetch: Room -> Fetch) returns (raised: bool)
    modifies console
    ensures raised <==> Halts(RoomOrder, fetch)
    ensures console.lines == old(console.lines) + ScriptOutput(RoomOrder, fetch)
  {
    raised := RunRooms(console, RoomOrder, fetch);
  }

  /**
   * When no request raises, the script prints the checks of room codes 1, 2
   * and 3, one after the other; when the request for a room raises, nothing
   * is printed for the rooms after it.
   */
  lemma ScriptChecksEachRoomInOrder(fetch: Room -> Fetch)
    ensures (forall r: Room :: !fetch(r).Raised?) ==>
      ScriptOutput(RoomOrder, fetch)
        == CheckOutput(1, fetch(1)) + CheckOutput(2, fetch(2)) + CheckOutput(3, fetch(3))
    ensures fetch(1).Raised? ==> ScriptOutput(RoomOrder, fetch) == []
    ensures !fetch(1).Raised? && fetch(2).Raised? ==> ScriptOutput(RoomOrder, fetch) == CheckOutput(1, fetch(1))
  {
    ScriptOfThree(1, 2, 3, fetch);
    if fetch(1).Raised? {
      RaisedPrintsNothing(1, fetch(1));
    }
    if !fetch(1).Raised? && fetch(2).Raised? {
      RaisedPrintsNothing(2, fetch(2));
      assert CheckOutput(1, fetch(1)) + [] == CheckOutput(1, fetch(1));
    }
  }

  /** A request that raises leaves its room's check with nothing printed. */
  lemma RaisedPrintsNothing(room: Room, fetch: Fetch)
    requires fetch.Raised?
    ensures CheckOutput(room, fetch) == []
  {
  }

  /** The script over three room codes, by which of their requests raises first. */
  lemma ScriptOfThree(a: Room, b: Room, c: Room, fetch: Room -> Fetch)
    ensures !fetch(a).Raised? && !fetch(b).Raised? ==>
      ScriptOutput([a, b, c], fetch)
        == CheckOutput(a, fetch(a)) + CheckOutput(b, fetch(b)) + CheckOutput(c, fetch(c))
    ensures fetch(a).Raised? ==> ScriptOutput([a, b, c], fetch) == CheckOutput(a, fetch(a))
    ensures !fetch(a).Raised? && fetch(b).Raised? ==>
      ScriptOutput([a, b, c], fetch) == CheckOutput(a, fetch(a)) + CheckOutput(b, fetch(b))
  {
    var ca, cb, cc := CheckOutput(a, fetch(a)), CheckOutput(b, fetch(b)), CheckOutput(c, fetch(c));
    assert [a, b, c][1..] == [b, c] && [b, c][1..] == [c] && [c][1..] == [];
    assert ScriptOutput([c], fetch) == cc by {
      assert cc + [] == cc;
    }
    assert ca + [] == ca && cb + [] == cb;
    AppendAssoc(ca, cb, cc);
  }
}
