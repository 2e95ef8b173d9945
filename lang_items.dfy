/** The kernel's panic handler (os/src/lang_items.rs): it prints one record
    naming the place and the cause of the panic, then shuts the machine
    down and never returns. */
module LangItems {
  import opened Wrappers
  import opened Strings
  import opened Locations

  /** What every line of the handler starts with. */
  const KernelTag := "[kernel] Panicked"
  /** The start of the line when the panic carries a location. */
  const AtPrefix := "[kernel] Panicked at "
  /** The start of the line when it does not. */
  const PlainPrefix := "[kernel] Panicked: "

  /** The parts of `core::panic::PanicInfo` the handler reads. */
  datatype PanicInfo = PanicInfo(location: Option<Location>, message: Option<string>)

  /** The text the handler hands to its one `println!`: `[kernel] Panicked at {file}:{line} {message}`
      with a location, `[kernel] Panicked: {message}` without one. */
  function PanicLine(location: Option<Location>, message: string): (line: string)
    ensures KernelTag <= line
    ensures |message| < |line| && line[|line| - |message|..] == message
  {
    match location
    case Some(loc) => AtPrefix + LocationText(loc) + " " + message
    case None => PlainPrefix + message
  }

  /** What a reader of the console learns from one handler line. */
  datatype PanicReport = PanicReport(location: Option<Location>, message: string)

  /** Reads a handler line back: after `AtPrefix` the file runs up to the
      first colon and the line number up to the first space; everything
      after that space is the message. */
  ghost function ParsePanicLine(line: string): (report: Option<PanicReport>) {
    if AtPrefix <= line then ParseLocated(line[|AtPrefix|..])
    else if PlainPrefix <= line then Some(PanicReport(None, line[|PlainPrefix|..]))
    else None
  }

  /** The `{file}:{line} {message}` part of a line with a location. */
  ghost function ParseLocated(rest: string): (report: Option<PanicReport>) {
    match IndexOf(rest, ':')
    case None => None
    case Some(j) =>
      var after := rest[j + 1..];
      match IndexOf(after, ' ')
      case None => None
      case Some(k) =>
        var digits := after[..k];
        if IsDecimal(digits) && DecimalToNat(digits) < 0x1_0000_0000
        then Some(PanicReport(Some(Location(rest[..j], DecimalToNat(digits))), after[k + 1..]))
        else None
  }

  /** The located part is read back exactly when the file name has no colon. */
  lemma ParseLocatedRoundTrip(loc: Location, message: string)
    requires ':' !in loc.file
    ensures ParseLocated(LocationText(loc) + " " + message) == Some(PanicReport(Some(loc), message))
  {
    var digits := NatToDecimal(loc.line);
    var rest := LocationText(loc) + " " + message;
    assert rest == loc.file + ":" + (digits + " " + message);
    var j := |loc.file|;
    assert rest[..j] == loc.file;
    IndexOfFirst(rest, ':', j);
    var after := rest[j + 1..];
    assert after == digits + " " + message;
    var k := |digits|;
    assert after[..k] == digits;
    assert ' ' !in digits by {
      forall i | 0 <= i < |digits| ensures digits[i] != ' ' {
        assert IsDigit(digits[i]);
      }
    }
    IndexOfFirst(after, ' ', k);
    DecimalRoundTrip(loc.line);
    assert after[k + 1..] == message;
  }

  /** The two line formats cannot be confused: the location (or its absence)
      and the message are recovered exactly from the printed line, provided
      the file name has no colon of its own. */
  lemma PanicLineRoundTrip(location: Option<Location>, message: string)
    requires location.Some? ==> ':' !in location.value.file
    ensures ParsePanicLine(PanicLine(location, message)) == Some(PanicReport(location, message))
  {
    var line := PanicLine(location, message);
    match location
    case Some(loc) =>
      assert line == AtPrefix + (LocationText(loc) + " " + message);
      assert line[|AtPrefix|..] == LocationText(loc) + " " + message;
      ParseLocatedRoundTrip(loc, message);
    case None =>
      assert line[17] == ':' && AtPrefix[17] == ' ';
      assert line[|PlainPrefix|..] == message;
  }

  /** The two collaborators of the handler: the console the record goes to
      and the platform shutdown. Once `halted` is set nothing runs again,
      which is how the model states that the handler does not return. */
  class Machine {
    var output: seq<string>
    var halted: bool

    constructor ()
      ensures output == [] && !halted
    {
      output := [];
      halted := false;
    }

    /** `println!`: appends one record to the console; a record is what one
        `println!` writes and may itself hold line breaks. */
    method Println(line: string)
      requires !halted
      modifies this
      ensures output == old(output) + [line] && !halted
    {
      output := output + [line];
    }

    /** `crate::sbi::shutdown`: stops the machine for good. */
    method Shutdown()
      requires !halted
      modifies this
      ensures halted && output == old(output)
    {
      halted := true;
    }
  }

  /** The `#[panic_handler]`: makes exactly one `println!`, chosen by whether the
      panic has a location, then shuts down. The message is unwrapped, so
      the handler relies on it being present. */
  method Panic(m: Machine, info: PanicInfo)
    requires !m.halted
    requires info.message.Some?
    modifies m
    ensures m.halted
    ensures m.output == old(m.output) + [PanicLine(info.location, info.message.value)]
  {
    if info.location.Some? {
      var location := info.location.value;
      m.Println(AtPrefix + LocationText(location) + " " + info.message.value);
    } else {
      m.Println(PlainPrefix + info.message.value);
    }
    m.Shutdown();
  }
}
