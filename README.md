# Apartment availability checker — Dafny model

Two scripts check the residential search of one housing provider for flats
in Muhaisnah Fourth, one search per room type (1-, 2- and 3-bedroom):

- `email_notification.py` turns each room's check into one text (a report,
  or a message saying why there is none), prints it, and assembles the
  three texts into the subject and body of a notification email;
- `apartments.py` prints each room's findings line by line on the console.

Both run the same per-room pipeline, which this project models and proves
properties of:

1. **Outcome precedence** — the request, then its status (anything but 200
   ends the check), then the listings container, then the
   "no-search-found" section, then the location filter; a report is built
   only when every earlier check passed and some card survived.
2. **Location filter** — a card survives when the text of the first span of
   its first `card-details` div and the location slug (hyphens turned into
   spaces), both lower-cased, contain one another in either direction.
   Survivors keep their order.
3. **Field extraction** — per card, `price`, `unit_no` and `location` start
   as `N/A`; each detail span goes to the first branch it matches ("Price",
   then "Unit No.", then "no keyword at all" for the location), and a later
   detail overwrites an earlier one.
4. **Report assembly** — a header, a count line showing the number of
   survivors, and one bullet per survivor in filter order.

The modules follow that structure:

- `text.dfy` (`Text`): the Python string built-ins the scripts use — `in`
  on strings (a recursive test, proved equal to "occurs at some index"),
  ASCII `lower`, `replace`, `str(n)` with its read-back, `join`, and the text
  that appending lines with a trailing newline produces.
- `pipeline.dfy` (`Pipeline`): the search configuration, the parsed page as
  datatypes (`Page`, `Card`, `Span`), the outcome of the request (`Fetch`),
  the location test, the filtering loop, the detail loop and the precedence
  of outcomes (`Evaluate`).
- `messages.dfy` (`Messages`): the message texts both scripts share.
- `email_notification.dfy` (`EmailNotification`): `check_listings` returning
  its text, and `main` up to the hand-over to `send_email`.
- `apartments.dfy` (`Apartments`): `check_listings` printing to a `Console`
  object whose `lines` field is the sequence of printed strings, and the
  `__main__` loop over the room codes.

Each loop of the scripts is a `method` with a `for`/`while` loop proved
against a specification function (`Survivors`, `Scan`, `Unlines`,
`BulletLines`, `ResultsFor`, `Echo`, `ScriptOutput`); the properties the scripts promise are
lemmas about those functions.

The location test is modelled exactly as written for ASCII text, including its edges: an
empty location text, or any fragment of "muhaisnah fourth" such as
"Muhaisnah", passes the filter (`Pipeline.LocationMatchesProperties`,
`Pipeline.PartialLabelMatches`).

## Model

| member | source | states |
|---|---|---|
| Text.Contains | email_notification.py:66 | defines Python's `needle in hay` on strings (also lines 89, 93, 97): a match at the start or further on; an empty needle is always found |
| Text.ToLower | email_notification.py:66 | defines `.lower()` for ASCII letters; other characters are kept |
| Text.ReplaceChar | email_notification.py:66 | defines `.replace('-', ' ')` for one character replaced by another |
| Text.Repeat | email_notification.py:142 | defines `c * n` for a one-character string (also the rules of lines 150 and 158) |
| Text.Join | email_notification.py:154 | defines `sep.join(parts)`: nothing for no parts, the part itself for one, separators between the parts otherwise |
| Text.Unlines | email_notification.py:73-100 | defines the text that appending each line followed by "\n" builds |
| Pipeline.RoomOrder | email_notification.py:138 | defines the order `for room in ROOM_TYPES` visits the keys: 1, 2, 3 (also apartments.py:101) |
| Pipeline.Keywords | email_notification.py:97 | defines the five keywords Price, Unit No., Size, Type, Parking |
| Pipeline.HasKeyword | email_notification.py:97 | defines `any(keyword in text for keyword in [...])` over those keywords (also apartments.py:92) |
| Pipeline.Unset | email_notification.py:81-83 | defines the three fields' starting value "N/A" |
| Pipeline.RoomLabel | email_notification.py:21-25 | defines the label of a room code, looked up in the room-type table |
| Pipeline.SearchTarget | email_notification.py:66 | defines the normalised slug: hyphens replaced by spaces, then lower-cased |
| Pipeline.Overlaps | email_notification.py:66 | defines "either string is a substring of the other" |
| Pipeline.LocationMatches | email_notification.py:66 | defines the location test (also apartments.py:63): the lower-cased card text and the normalised slug overlap, in the source's order of the two `in` tests |
| Pipeline.LocationSpan | email_notification.py:61-65 | defines the text the filter reads: the first span of the first `card-details` div, if both exist |
| Pipeline.Keeps | email_notification.py:61-67 | defines when a card is appended: it has that span and its text passes the location test |
| Pipeline.Survivors | email_notification.py:59-67 | defines the filtered list: the kept cards, in their original order |
| Pipeline.Supplies | email_notification.py:85-98 | defines the first-match branches for one detail: "Price", then "Unit No." (each writing the `i` text only when there is one), then the whole text as location when no keyword occurs |
| Pipeline.Apply | email_notification.py:85-98 | defines one iteration of the detail loop: the supplied field is overwritten, the others kept |
| Pipeline.Scan | email_notification.py:80-98 | defines the fields after the detail loop, starting from "N/A" for all three |
| Pipeline.ListingOf | email_notification.py:77-98 | defines a card's listing: the `h3` text or "N/A", and the scanned fields |
| Pipeline.Evaluate | email_notification.py:40-70 | defines the outcome of a room's check: the raised exception, a non-200 status, a missing container, a no-search-found section, or the survivors, in that order |
| Messages.FetchFailedMessage | email_notification.py:43 | defines the failure text with the room label and status (also apartments.py:28) |
| Messages.NoneFoundMessage | email_notification.py:54 | defines the "No … listings found in Muhaisnah Fourth" text (also apartments.py:47) |
| Messages.HeaderLine | email_notification.py:73 | defines the report header with the room label and location (also apartments.py:66 after its newline) |
| Messages.CountLine | email_notification.py:74 | defines the count line (also apartments.py:68) |
| Messages.ListingText | email_notification.py:100 | defines a listing's line after its bullet: title, unit, price per year, location (also apartments.py:96) |
| EmailNotification.ContainerMissingText | email_notification.py:49 | defines the container warning |
| EmailNotification.NoneAvailableText | email_notification.py:70 | defines the "No … listings available in Muhaisnah Fourth" text |
| EmailNotification.ErrorText | email_notification.py:105 | defines the error text with the room label and the exception's text |
| EmailNotification.Bullet | email_notification.py:100 | defines a report line: the bullet sign and the listing's text |
| EmailNotification.BulletLines | email_notification.py:76-100 | defines the report's bullet lines, one per survivor in order |
| EmailNotification.ReportLines | email_notification.py:73-100 | defines the report's lines: header, count line, an empty line, the bullets |
| EmailNotification.OutcomeText | email_notification.py:42-105 | defines the returned text for each outcome; an empty filter result gives "No … listings available", a non-empty one the report |
| EmailNotification.ResultText | email_notification.py:30-105 | defines `check_listings`' result: the outcome's text |
| EmailNotification.ResultsFor | email_notification.py:137-140 | defines the collected results, one per room in order |
| EmailNotification.Echo | email_notification.py:141-142 | defines the console lines for the results: each followed by 50 dashes |
| EmailNotification.StartLine | email_notification.py:134 | defines the first console line, with the start time |
| EmailNotification.EmailBody | email_notification.py:145-160 | defines the email body: date line, location, check time, a rule, the results joined by blank lines, a rule and the closing sentence |
| EmailNotification.Subject | email_notification.py:163 | defines the email subject with location and date |
| Apartments.SavedLine | apartments.py:34 | defines the line announcing the saved debug file |
| Apartments.ContainerMissingLine | apartments.py:41 | defines the container warning with its hint that the page structure may have changed |
| Apartments.PrintedHeader | apartments.py:66 | defines the printed header: a newline, then the header |
| Apartments.NoneAvailableLine | apartments.py:98 | defines the "No listings available in the specified location." line |
| Apartments.Bullet | apartments.py:96 | defines a printed listing line: "- " and the listing's text |
| Apartments.BulletLines | apartments.py:69-96 | defines the printed bullet lines, one per survivor in order |
| Apartments.Printed | apartments.py:26-98 | defines the lines printed for each outcome: none when the request raises, the failure alone, or the saved-file line and what follows it |
| Apartments.FilteredLines | apartments.py:66-98 | defines what follows the saved-file line once filtering is reached |
| Apartments.CheckOutput | apartments.py:17-98 | defines the lines `check_listings` prints: those of the room's outcome |
| Apartments.Halts | apartments.py:100-102 | defines "some room's request raises", which ends the script |
| Apartments.ScriptOutput | apartments.py:100-102 | defines the script's output: each room's lines in order, cut after the first room whose request raises |
| Text.ContainsIffOccurs | email_notification.py:66 | Python's `needle in hay` holds exactly when `needle` occurs as a block of `hay` at some index |
| Text.OccursImpliesContains | email_notification.py:66 | an occurrence at any index makes the substring test true |
| Text.ContainsImpliesOccurs | email_notification.py:66 | a true substring test has a witness index |
| Text.MissingCharNotContained | email_notification.py:66 | a needle whose first character is absent from the haystack is not a substring |
| Text.LongerNotContained | email_notification.py:66 | a needle longer than the haystack is not a substring |
| Text.NatToString | email_notification.py:74 | `str(n)` is a non-empty string of decimal digits that starts with `0` only for zero and has one digit exactly below ten |
| Text.NatToStringRoundTrip | email_notification.py:74 | reading the digits of `str(n)` back gives `n` |
| Text.JoinThree | email_notification.py:154 | joining three parts with a separator puts the separator between each pair |
| Text.UnlinesSnoc | email_notification.py:76-100 | appending one more line and newline extends the text by exactly that |
| Text.UnlinesOfThree | email_notification.py:73-74 | the report's first three lines give header, newline, count line and a blank line |
| Text.UnlinesLead | email_notification.py:73 | a text built from lines starts with the first character of its first line |
| Pipeline.RoomOrderCoversRoomTypes | email_notification.py:21-25 | every room code is a key of the table and is visited once, in ascending order; the three labels differ |
| Pipeline.LocationMatchesProperties | email_notification.py:66 | the location test is blind to the case of the card text, true when the lower-cased text equals the normalised slug, and true for an empty text |
| Pipeline.LocationMatchesIffOccurs | email_notification.py:66 | the location test holds exactly when one normalised string occurs at some index of the other |
| Pipeline.SearchTargetOfLocation | email_notification.py:66 | the configured slug normalises to "muhaisnah fourth", the lower case of the title shown in messages |
| Pipeline.SupersetLabelMatches | email_notification.py:66 | "Muhaisnah Fourth, Dubai" passes the location test |
| Pipeline.PartialLabelMatches | email_notification.py:66 | "Muhaisnah" passes the location test, through the reverse containment |
| Pipeline.UnrelatedLabelFails | email_notification.py:66 | "Deira" fails the location test |
| Pipeline.SurvivorsAreSubsequence | email_notification.py:59-67 | the filter keeps an order-preserving subsequence of the cards |
| Pipeline.SurvivorsMembership | email_notification.py:59-67 | a card survives exactly when it is one of the cards and its first detail span passes the location test |
| Pipeline.SurvivorsMultiplicity | email_notification.py:59-67 | every occurrence of a passing card survives and no occurrence of a failing one does, so a card appears among the survivors exactly as often as among the cards when it passes |
| Pipeline.SurvivorsOfConcat | email_notification.py:59-67 | filtering two runs of cards one after the other filters each independently |
| Pipeline.CardWithoutLocationSpanIsDropped | email_notification.py:61-64 | a card without a `card-details` div, or whose first one has no span, never survives |
| Pipeline.FilterListings | email_notification.py:59-67 | the filtering loop (also apartments.py:53-64) returns exactly the survivors, in order |
| Pipeline.ApplyChangesOnlyItsField | email_notification.py:85-98 | one detail writes at most one field, with its supplied value, and leaves the others unchanged |
| Pipeline.UnwrittenFieldIsNotAvailable | email_notification.py:81-98 | a field that no detail supplies ends as "N/A" |
| Pipeline.LastWriteWins | email_notification.py:85-98 | a field ends with the value of the last detail that supplies it, whatever earlier details wrote |
| Pipeline.SpanWithoutItalicWritesNothing | email_notification.py:89-96 | a "Price" or "Unit No." span without an `i` child changes no field |
| Pipeline.OtherKeywordSpanWritesNothing | email_notification.py:93-98 | a span with Size, Type or Parking but neither Price nor Unit No. changes no field |
| Pipeline.ExtractListing | email_notification.py:76-98 | the detail loop (also apartments.py:71-94) yields the title or "N/A" and the fields the first-match, last-write rules define |
| Pipeline.EvaluatePrecedence | email_notification.py:40-70 | a bad status ignores the page, a missing container ends the check, a no-search-found section ignores the cards, and filtering is reached exactly when status is 200, the container is present and has no such section, on the container's own cards |
| Messages.CountLineShowsCount | email_notification.py:74 | the number shown in the count line reads back as the count it was given |
| EmailNotification.CheckListings | email_notification.py:30-105 | the room's text is the error text, the status failure, the container warning, "No … listings found", "No … listings available" or the report, by the precedence of outcomes |
| EmailNotification.BuildReport | email_notification.py:72-102 | the report text is the header, the count line, a blank line and one bullet per survivor, each line ended by a newline |
| EmailNotification.AppendBullets | email_notification.py:76-100 | the bullet loop appends one bullet line per survivor, in filter order |
| EmailNotification.BulletLinesSnoc | email_notification.py:100 | one more survivor adds exactly its bullet at the end |
| EmailNotification.ReportIffSurvivors | email_notification.py:42-102 | a room's text starts with the house sign exactly for a filtered outcome with at least one survivor |
| EmailNotification.ReportOnlyWhenEveryCheckPasses | email_notification.py:42-102 | a report is produced exactly when the request returned status 200, the container is present, there is no no-search-found section and at least one card survives |
| EmailNotification.ReportLinesShape | email_notification.py:73-100 | the report's lines are header, count line showing the number of survivors, blank line, then exactly one bullet per survivor in order |
| EmailNotification.ReportCountMatchesBullets | email_notification.py:69-102 | when some card survives, the room's text is the report of those survivors and its count, at least 1, equals the number of bullet lines |
| EmailNotification.ExceptionBecomesErrorText | email_notification.py:104-105 | an exception of the request becomes the room's error text, which is not a report |
| EmailNotification.CheckRooms | email_notification.py:137-142 | the room loop keeps one result per room in order and echoes each followed by a dashed line |
| EmailNotification.CheckAll | email_notification.py:132-164 | the console shows the start line then each result and a dashed line; the body holds the three results joined by blank lines between the two rules; the subject names the location and date |
| EmailNotification.OneResultPerRoom | email_notification.py:137-154 | exactly three results, the one at position r-1 being room r's, and the body's join puts a blank line between them |
| Apartments.Console.constructor | apartments.py:100-102 | the console starts with nothing printed |
| Apartments.Console.Print | apartments.py:28 | a print appends exactly its line to what was printed |
| Apartments.CheckListings | apartments.py:17-98 | the check reports an exception of the request (and prints nothing) exactly when one is raised, and otherwise prints exactly the lines its outcome calls for |
| Apartments.CheckPage | apartments.py:31-98 | after status 200 the check prints the saved-file line and then the container warning, "No … listings found", or the header and what follows it |
| Apartments.PrintFiltered | apartments.py:66-98 | once filtering is reached the header is printed, then the count line and bullets or the single "No listings available" line |
| Apartments.PrintReport | apartments.py:67-96 | the count line is followed by one bullet per survivor, in filter order |
| Apartments.OnlyHeaderStartsWithNewline | apartments.py:28-98 | the header is the only printed line starting with a newline (failure, saved-file, warning, no-search-found, count, bullet and "No listings available" lines do not), and the saved-file line differs from the failure line |
| Apartments.FailedStatusReturnsEarly | apartments.py:26-29 | a non-200 status prints the failure alone, whatever the page, and no saved-file line |
| Apartments.EarlyEndSkipsFiltering | apartments.py:39-48 | a missing container prints the saved-file line and the container warning; a no-search-found section prints the saved-file line and "No … listings found" whatever the cards; neither prints the header |
| Apartments.HeaderExactlyWhenFiltered | apartments.py:66 | the header is printed exactly for a filtered outcome |
| Apartments.FilteredPrintout | apartments.py:66-98 | after the header come "No listings available" alone when nothing survives, otherwise the count line and one bullet per survivor |
| Apartments.HeaderWheneverFiltered | apartments.py:66-98 | the header is printed exactly when status is 200, the container is present and there is no no-search-found section, even if nothing survives, followed by the lines the survivors decide |
| Apartments.RaisedPrintsNothing | apartments.py:26 | a request that raises leaves its room's check with nothing printed |
| Apartments.ScriptOutputStep | apartments.py:100-102 | the script over the remaining rooms is one room's check followed, unless it raised, by the rest |
| Apartments.RunRooms | apartments.py:100-102 | the loop prints each room's check in order until a request raises, and reports whether one did |
| Apartments.RunScript | apartments.py:100-102 | the script checks room codes 1, 2, 3 in that order and stops at the first raised exception |
| Apartments.ScriptOfThree | apartments.py:100-102 | over three rooms the output is the three checks one after the other, cut after the first room whose request raises |
| Apartments.ScriptChecksEachRoomInOrder | apartments.py:100-102 | without exceptions the script prints the checks of rooms 1, 2 and 3 in turn; an exception for room 1 prints nothing, one for room 2 only room 1's check |

## Left out

- HTTP request: `requests.get` with its URL, headers, query parameters and timeout is replaced by a `Fetch` parameter, either a status and parsed page or a raised exception with its text.
- HTML parsing: BeautifulSoup and `find`/`find_all` are replaced by the `Page`/`Card`/`Span` datatypes, which hold what the scripts read; `get_text(strip=True)` results are given as strings.
- Exceptions other than the request's (a parser or attribute error inside the `try` of email_notification.py) are not modelled; their effect would be the same error text.
- `send_email` (email_notification.py:107-130): SMTP, MIME and the lines it prints are I/O; the model stops at the subject and body handed to it.
- `datetime.now()`: each of the four clock readings in `main` is a string parameter.
- The debug file write (apartments.py:32-34): only the line announcing it is printed; a failing write is not modelled.
- Unicode case mapping: `lower()` is modelled for ASCII letters only, and the title-cased location is the constant "Muhaisnah Fourth".
- Room codes outside 1, 2, 3: the `Room` type admits only the keys of the room-type table, so the `KeyError` a foreign code would raise is not modelled.
- Dictionary iteration order is the constant sequence 1, 2, 3.
- The traceback printed when an exception ends `apartments.py` is not part of the console model; the script's output stops there.
