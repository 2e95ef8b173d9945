/** The uniprocessor borrow guard `UPSafeCell<T>` (os/src/sync/up.rs): a
    value behind a run-time exclusive-borrow flag, together with a trace of
    the call site that last acquired it, used to name the current owner when
    a second acquisition is attempted. */
module UP {
  import opened Wrappers
  import opened Strings
  import opened Locations
  import LangItems

  /** The part of the conflict message before the owner's location. */
  const OwnerHeader := "UPSafeCell: already borrowed! \n  -> Current Owner: "
  /** The part between the owner's location and the requester's. */
  const RequestLabel := " \n  -> New Request: "
  /** The conflict message when no trace is recorded. */
  const NoTraceMessage := "UPSafeCell: already borrowed (No trace info)!"

  /** The message `exclusive_access` panics with on a conflict: the owner's
      `file:line` from the trace, then the requester's; or, without a
      trace, a fixed text naming no location at all. */
  function ConflictMessage(trace: Option<Location>, request: Location): (msg: string)
    ensures trace.None? ==> msg == NoTraceMessage
    ensures trace.Some? ==> OwnerHeader <= msg && msg != NoTraceMessage
  {
    match trace
    case Some(owner) =>
      var msg := OwnerHeader + LocationText(owner) + RequestLabel + LocationText(request);
      assert msg[28] == '!' && NoTraceMessage[28] == ' ';
      msg
    case None => NoTraceMessage
  }

  /** Reads the owner and the requester back out of a conflict message. */
  ghost function ParseConflict(msg: string): (sites: Option<(Location, Location)>) {
    if OwnerHeader <= msg then ParseSites(msg[|OwnerHeader|..]) else None
  }

  /** `{owner}{RequestLabel}{request}`: the owner's text ends just before the
      first line break, which belongs to `RequestLabel`. */
  ghost function ParseSites(rest: string): (sites: Option<(Location, Location)>) {
    match IndexOf(rest, '\n')
    case None => None
    case Some(k) =>
      if k == 0 || !(RequestLabel <= rest[k - 1..]) then None
      else
        match (SplitLocation(rest[..k - 1]), SplitLocation(rest[k - 1 + |RequestLabel|..]))
        case (Some(owner), Some(request)) => Some((owner, request))
        case _ => None
  }

  /** The owner's text holds no line break when its file name holds none. */
  lemma LocationTextHasNoLineBreak(loc: Location)
    requires '\n' !in loc.file
    ensures '\n' !in LocationText(loc)
  {
  }

  /** The two site texts around `RequestLabel` are told apart by its line
      break, provided the first holds none. */
  lemma ParseSitesSplits(o: string, t: string)
    requires '\n' !in o
    ensures ParseSites(o + RequestLabel + t) ==
      match (SplitLocation(o), SplitLocation(t))
      case (Some(owner), Some(request)) => Some((owner, request))
      case _ => None
  {
    var rest := o + RequestLabel + t;
    var k := |o| + 1;
    assert rest[..k] == o + [' '];
    assert rest[k] == '\n';
    IndexOfFirst(rest, '\n', k);
    assert rest[..k - 1] == o;
    assert rest[k - 1..] == RequestLabel + t;
    assert rest[k - 1 + |RequestLabel|..] == t;
  }

  lemma ParseSitesRoundTrip(owner: Location, request: Location)
    requires '\n' !in owner.file
    ensures ParseSites(LocationText(owner) + RequestLabel + LocationText(request)) == Some((owner, request))
  {
    LocationTextHasNoLineBreak(owner);
    ParseSitesSplits(LocationText(owner), LocationText(request));
    SplitLocationRoundTrip(owner);
    SplitLocationRoundTrip(request);
  }

  /** A conflict message names both sites, the current owner first and the
      new requester second, and each is recovered exactly (the owner's file
      name must not itself contain a line break). */
  lemma ConflictMessageRoundTrip(owner: Location, request: Location)
    requires '\n' !in owner.file
    ensures ParseConflict(ConflictMessage(Some(owner), request)) == Some((owner, request))
  {
    var msg := ConflictMessage(Some(owner), request);
    assert msg == OwnerHeader + (LocationText(owner) + RequestLabel + LocationText(request));
    assert msg[|OwnerHeader|..] == LocationText(owner) + RequestLabel + LocationText(request);
    ParseSitesRoundTrip(owner, request);
  }

  /** Without a trace the message names no site, whoever the requester is. */
  lemma NoTraceMessageNamesNoSite(request: Location)
    ensures ParseConflict(ConflictMessage(None, request)) == None
  {
  }

  /** What `exclusive_access` ends in: a handle, or a panic with its
      message, reported at the caller's location (`#[track_caller]`). */
  datatype Access = Granted | Panicked(message: string, at: Location)

  class UPSafeCell<T> {
    /** The `RefCell` borrow flag of `inner`: a `RefMut` is live. */
    var borrowed: bool
    /** The wrapped value. */
    var value: T
    /** The call site that last acquired the cell. */
    var trace: Option<Location>

    /** A borrowed cell always knows who borrowed it. */
    ghost predicate Valid()
      reads this
    {
      borrowed ==> trace.Some?
    }

    /** `new`: not borrowed, no trace, holding exactly `v`. */
    constructor (v: T)
      ensures Valid()
      ensures !borrowed && trace == None && value == v
    {
      borrowed := false;
      value := v;
      trace := None;
    }

    /** `exclusive_access`, with the caller's location passed explicitly.
        On a free cell it takes the borrow and records the caller; on a
        borrowed cell it changes nothing and panics with the conflict
        message, which names the recorded owner whenever `Valid()` held. */
    method ExclusiveAccess(caller: Location) returns (access: Access)
      modifies this`borrowed, this`trace
      ensures !old(borrowed) ==> access == Granted && borrowed && trace == Some(caller)
      ensures old(borrowed) ==> access == Panicked(ConflictMessage(old(trace), caller), caller)
      ensures old(borrowed) ==> borrowed && trace == old(trace)
      ensures old(borrowed) && old(Valid()) ==> access.message != NoTraceMessage
      ensures old(Valid()) ==> Valid()
    {
      if !borrowed {
        borrowed := true;
        trace := Some(caller);
        access := Granted;
      } else {
        access := Panicked(ConflictMessage(trace, caller), caller);
      }
    }

    /** Reading through the live handle. */
    method Read() returns (v: T)
      requires borrowed
      ensures v == value
    {
      v := value;
    }

    /** Writing through the live handle. */
    method Write(v: T)
      requires borrowed
      modifies this`value
      ensures value == v
    {
      value := v;
    }

    /** Dropping the handle: the borrow flag is cleared and nothing else;
        in particular the trace keeps naming the last owner. */
    method Release()
      requires borrowed
      modifies this`borrowed
      ensures !borrowed && trace == old(trace) && value == old(value)
      ensures Valid()
    {
      borrowed := false;
    }
  }

  /** A value written through a handle survives its release: the next
      acquisition succeeds and reads it back. */
  method WriteReleaseReacquire<T>(cell: UPSafeCell<T>, v: T, caller: Location) returns (access: Access, r: T)
    requires cell.borrowed
    modifies cell
    ensures access == Granted && r == v
    ensures cell.borrowed && cell.trace == Some(caller) && cell.value == v
  {
    cell.Write(v);
    cell.Release();
    access := cell.ExclusiveAccess(caller);
    r := cell.Read();
  }

  /** `exclusive_access` followed, on a conflict, by the panic handler that
      `panic!` lands in: the machine prints the one record naming the
      requester and the conflict, and halts with the cell untouched. */
  method ExclusiveAccessOrHalt<T>(cell: UPSafeCell<T>, caller: Location, m: LangItems.Machine) returns (access: Access)
    requires !m.halted
    modifies cell, m
    ensures cell.value == old(cell.value)
    ensures !old(cell.borrowed) ==> access == Granted && cell.borrowed && cell.trace == Some(caller)
    ensures !old(cell.borrowed) ==> !m.halted && m.output == old(m.output)
    ensures old(cell.borrowed) ==> m.halted && cell.borrowed && cell.trace == old(cell.trace)
    ensures old(cell.borrowed) ==> m.output == old(m.output) + [LangItems.PanicLine(Some(caller), ConflictMessage(old(cell.trace), caller))]
  {
    access := cell.ExclusiveAccess(caller);
    if access.Panicked? {
      LangItems.Panic(m, LangItems.PanicInfo(Some(access.at), Some(access.message)));
    }
  }

  /** The printed line of a conflict carries the requester as the panic
      location and, inside the message, the owner followed by the requester;
      all of them can be read back from the console line. */
  lemma ConflictLineNamesBothSites(owner: Location, request: Location)
    requires '\n' !in owner.file && ':' !in request.file
    ensures var msg := ConflictMessage(Some(owner), request);
      && LangItems.ParsePanicLine(LangItems.PanicLine(Some(request), msg)) == Some(LangItems.PanicReport(Some(request), msg))
      && ParseConflict(msg) == Some((owner, request))
  {
    LangItems.PanicLineRoundTrip(Some(request), ConflictMessage(Some(owner), request));
    ConflictMessageRoundTrip(owner, request);
  }

  /** The scenario of storing 5 in a fresh cell, releasing, and reading it
      back through a new handle; and of a second acquisition while a handle
      is live, which panics naming both call sites. */
  method Scenarios() {
    var c := new UPSafeCell<int>(0);
    var first := Location("main.rs", 10);
    var second := Location("main.rs", 12);
    var a := c.ExclusiveAccess(first);
    assert a == Granted;
    c.Write(5);
    c.Release();
    a := c.ExclusiveAccess(second);
    assert a == Granted;
    var v := c.Read();
    assert v == 5;
    a := c.ExclusiveAccess(first);
    assert a.Panicked? && a.at == first;
    ConflictMessageRoundTrip(second, first);
    assert ParseConflict(a.message) == Some((second, first));
  }
}
