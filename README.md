# UPSafeCell and the kernel panic handler, in Dafny

This project models two pieces of a small single-core RISC-V teaching kernel
written in Rust:

- `UPSafeCell<T>` (os/src/sync/up.rs), the uniprocessor borrow guard through
  which statically allocated kernel state is mutated. It wraps a value behind a
  run-time exclusive-borrow flag (a `RefCell`) and keeps a trace, the
  `(file, line)` of the call site that last acquired the cell. A second
  acquisition while a handle is live panics with a message naming the
  current owner and the new requester.
- The `#[panic_handler]` (os/src/lang_items.rs), which prints one record naming
  the location and the cause of a panic, then shuts the machine down and
  never returns.

Files:

- `wrappers.dfy`: `Option`.
- `strings.dfy`: decimal rendering of unsigned integers (Rust's `{}`), its
  inverse, and first/last character search.
- `locations.dfy`: `core::panic::Location` as a file name and a `u32` line
  (its column is dropped),
  its `file:line` text and the inverse of that text.
- `lang_items.dfy`: the panic text, its inverse parser, the console and
  shutdown as a `Machine` object, and the handler itself.
- `up.dfy`: the cell as a class, its conflict message and the inverse parser
  of that message, and the composition of a failed acquisition with the
  panic handler.

`#[track_caller]` is replaced by an explicit `caller: Location` argument of
`ExclusiveAccess`. A panic inside `exclusive_access` is not a Dafny
divergence: the method returns `Panicked(message, at)`, where `at` is the
caller's location (the location `panic!` reports under `#[track_caller]`), and
`ExclusiveAccessOrHalt` feeds that outcome to the handler. "Never returns"
is modelled by the `Machine`'s `halted` flag: every operation of the machine
requires it to be clear, and the handler leaves it set.

One might expect dropping the handle to clear the trace too, so that a trace
is present exactly while a handle is live. The code does not: nothing after
up.rs:36 writes `trace`, so
after a release the trace still names the last owner until the next
successful acquisition overwrites it. The model follows the code: `Release`
clears only the borrow flag, and the invariant `Valid()` is the one direction
the code keeps, "borrowed implies a trace is recorded".

## Model

| member | source | states |
|---|---|---|
| `UP.UPSafeCell.constructor` | os/src/sync/up.rs:19-24 | a new cell is not borrowed, has no trace, holds exactly the given value, and satisfies the invariant |
| `UP.UPSafeCell.ExclusiveAccess` | os/src/sync/up.rs:29-53 | on a free cell: granted, now borrowed, trace is the caller, value untouched; on a borrowed cell: no handle, a panic at the caller with the conflict message built from the old trace, and flag, trace and value all unchanged; with the invariant the message is never the no-trace one; the invariant is preserved |
| `UP.UPSafeCell.Read` | os/src/sync/up.rs:37 | reading through the live handle yields the wrapped value |
| `UP.UPSafeCell.Write` | os/src/sync/up.rs:37 | writing through the live handle replaces the wrapped value and touches nothing else |
| `UP.UPSafeCell.Release` | os/src/sync/up.rs:31-37 | dropping the handle clears the borrow flag only: trace and value are as before, and the invariant holds |
| `UP.WriteReleaseReacquire` | os/src/sync/up.rs:29-37 | writing `v`, releasing and acquiring again succeeds and reads back `v`, with the new caller recorded |
| `UP.ConflictMessage` | os/src/sync/up.rs:42-49 | without a trace the message is exactly `UPSafeCell: already borrowed (No trace info)!`; with one it starts with the owner header and is a different text |
| `UP.ConflictMessageRoundTrip` | os/src/sync/up.rs:43-47 | the conflict message names the owner and then the requester, and both `file:line` pairs are recovered exactly from it |
| `UP.NoTraceMessageNamesNoSite` | os/src/sync/up.rs:48-49 | the no-trace message names no location, whoever the requester is |
| `UP.ExclusiveAccessOrHalt` | os/src/sync/up.rs:39-51 | a conflicting acquisition makes exactly one `println!` record (at the requester, carrying the conflict message) and halts with the cell unchanged; a free cell is acquired without printing or halting |
| `UP.ConflictLineNamesBothSites` | os/src/lang_items.rs:11-17 | the console record of a conflict yields the requester as the panic location and, from its message, the owner followed by the requester |
| `Locations.SplitLocationRoundTrip` | os/src/sync/up.rs:44-46 | the `{}:{}` text of a file and line gives back that file and line |
| `Strings.NatToDecimal` | os/src/lang_items.rs:13-15 | a line number prints as a non-empty run of digits with no leading zero |
| `Strings.DecimalRoundTrip` | os/src/lang_items.rs:13-15 | the printed digits read back as the number printed |
| `LangItems.PanicLine` | os/src/lang_items.rs:11-20 | every handler record starts with `[kernel] Panicked` and ends with the panic message verbatim |
| `LangItems.PanicLineRoundTrip` | os/src/lang_items.rs:11-20 | the two formats `[kernel] Panicked at file:line msg` and `[kernel] Panicked: msg` cannot be confused: location (or its absence) and message are recovered exactly |
| `LangItems.Machine.Println` | os/src/lang_items.rs:12 | printing appends exactly one `println!` record to the console |
| `LangItems.Machine.Shutdown` | os/src/lang_items.rs:21 | shutdown halts the machine and prints nothing |
| `LangItems.Panic` | os/src/lang_items.rs:10-21 | the handler appends exactly one `println!` record, the panic text for the given location and unwrapped message, and leaves the machine halted |

## Left out

- The console (`println!`) and `crate::sbi::shutdown` are I/O and a platform call; they are the two methods of `Machine`, which only records the `println!` records and a halted flag.
- `unsafe impl Sync` and the rule that the cell is used on one core only: they concern sharing between execution contexts, which the code does not check and a sequential model cannot express.
- `#[track_caller]` and `core::panic::Location::caller()`: the caller's location is an explicit argument.
- The column of `core::panic::Location`: neither up.rs nor lang_items.rs reads it, so `Location` holds only the file and the line.
- Console lines: `Machine.output` holds one entry per `println!`, not one per console line. An entry may contain line breaks; the conflict message of up.rs:44 holds two, so its single `println!` shows as three console lines.
- `RefCell` internals: shared borrows and borrow counts (the `trace` cell's own borrows at up.rs:36 and 41), lifetimes and `RefMut` as a type are abstracted to one exclusive flag and `Read`/`Write`/`Release` methods that require it to be set, standing for a live handle.
- Unwinding and the `panic!`/`format!` machinery: a panic is the returned outcome `Panicked(message, at)`, and the formatted text is built by `ConflictMessage` and `PanicLine`.
- `info.message().unwrap()` failing: `LangItems.Panic` requires the message to be present, as the handler assumes it is.
- The round-trip lemmas need the owner's file name to contain no line break (`ConflictMessageRoundTrip`) and the panic location's file name to contain no colon (`PanicLineRoundTrip`); with such names the printed texts are ambiguous, and the formatters still produce them.
