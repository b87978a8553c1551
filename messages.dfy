/**
 * The message texts that both scripts produce with the same wording. Every
 * message is its leading sign followed by the rest of its text.
 */
module Messages {
  import opened Text
  import opened Pipeline

  /** U+274C, the cross mark. */
  const Cross: string := "\U{274C}"
  /** U+1F3E0, the house. */
  const House: string := "\U{1F3E0}"
  /** U+2705, the check mark. */
  const Tick: string := "\U{2705}"
  /** U+26A0 U+FE0F, the warning sign. */
  const Warning: string := "\U{26A0}\U{FE0F}"

  function FetchFailedMessage(room: Room, status: nat): string {
    Cross + (" Failed to fetch listings for " + RoomLabel(room) + " (Status: " + NatToString(status) + ")")
  }

  function NoneFoundMessage(room: Room): string {
    Cross + (" No " + RoomLabel(room) + " listings found in " + LocationTitle)
  }

  function HeaderLine(room: Room): string {
    House + (" " + RoomLabel(room) + " Listings in " + LocationTitle + ":")
  }

  function CountLine(n: nat): string {
    Tick + (" " + NatToString(n) + " listing(s) found!")
  }

  /** A report line without its bullet: title, unit, yearly price, location. */
  function ListingText(l: Listing): string {
    l.title + " (Unit " + l.fields.unitNo + "): " + l.fields.price + " AED/Year - " + l.fields.location
  }

  /** The count a count line shows can be read back from it. */
  lemma CountLineShowsCount(n: nat)
    ensures var line := CountLine(n);
      var digits := line[2..|line| - |" listing(s) found!"|];
      IsDigits(digits) && DigitsValue(digits) == n
  {
    var line := CountLine(n);
    assert line[2..|line| - |" listing(s) found!"|] == NatToString(n);
    NatToStringRoundTrip(n);
  }
}
