/** A source location as `core::panic::Location` reports it: the file name
    and the line number, which Rust stores as a `u32`. */
module Locations {
  import opened Wrappers
  import opened Strings

  type u32 = x: int | 0 <= x < 0x1_0000_0000

  datatype Location = Location(file: string, line: u32)

  /** The text `{}:{}` of a file and line, as up.rs and lang_items.rs format it. */
  function LocationText(loc: Location): string {
    loc.file + ":" + NatToDecimal(loc.line)
  }

  /** Reads `file:line` back, splitting at the last colon; the part after it
      must be decimal digits of a `u32`. */
  ghost function SplitLocation(s: string): (loc: Option<Location>) {
    match LastIndexOf(s, ':')
    case None => None
    case Some(j) =>
      var digits := s[j + 1..];
      if IsDecimal(digits) && DecimalToNat(digits) < 0x1_0000_0000
      then Some(Location(s[..j], DecimalToNat(digits)))
      else None
  }

  /** The file and line are recovered from their text, whatever the file
      name holds, since the digits after the last colon contain no colon. */
  lemma SplitLocationRoundTrip(loc: Location)
    ensures SplitLocation(LocationText(loc)) == Some(loc)
  {
    var s := LocationText(loc);
    var digits := NatToDecimal(loc.line);
    var k := |loc.file|;
    assert s[k] == ':';
    assert s[k + 1..] == digits;
    assert ':' !in digits by {
      forall i | 0 <= i < |digits| ensures digits[i] != ':' {
        assert IsDigit(digits[i]);
      }
    }
    LastIndexOfLast(s, ':', k);
    DecimalRoundTrip(loc.line);
    assert s[..k] == loc.file;
  }
}
