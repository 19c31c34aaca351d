# Exception channels and console devices of zCore, modelled in Dafny

This project models two sequential pieces of the zCore kernel.

- **Exception syscalls** (`zircon-syscall/src/exception.rs`).
  - `sys_create_exception_channel` resolves a task handle, then runs a fixed chain of guards:
    1. the four base rights INSPECT, DUPLICATE, TRANSFER and MANAGE_THREAD;
    2. decoding of the numeric `ExceptionChannelOption`;
    3. the downcasts to Job, Process and Thread, each with its own rules.
  - It then asks the chosen exceptionate for a channel. It adds the caller's end to the process's handle table with the fixed rights TRANSFER | WAIT | READ, and writes the handle value to the user's out slot.
  - `sys_exception_get_thread` and `sys_exception_get_process` each add a handle to the thread or the process of a live exception, with the rights the exception stores for it. The process accessor is refused while a thread channel handles the exception.
- **Console devices** (`linux-object/src/fs/stdio.rs`).
  - `Stdin` is a character FIFO. Reading it either delivers one byte, or, when it is empty, takes in a batch of serial bytes and answers `Again`.
  - `Stdout` writes straight through to the serial line, reports fixed poll flags and pretends to be a terminal for four ioctl commands.

Layout:

- `base.dfy` (`Base`): `u8`, `u32` and `Option`.
- `rights.dfy` (`Rights`): rights as a set of flags, the named rights sets, and `Restrict` (`&`).
  - `Restrict` only computes the two peer-rights ceilings passed to `createChannel`.
  - No handle added to the table gets its rights through it. The channel end gets the fixed `ChannelEndRights` (TRANSFER, WAIT and READ), and the accessor handles get the rights stored in the exception.
- `objects.dfy` (`Objects`): the collaborators of the syscalls.
  - Error codes, kernel objects with a closed kind tag, handles and exceptionates.
  - The user out slot.
  - The `Process` class. It holds the handle table as a map that `AddHandle` updates in place.
- `exception.dfy` (`ExceptionSyscalls`):
  - `DecodeOption` and `Admit`, the guard chain as a pure function, with lemmas on error precedence.
  - The three syscalls as methods on a `Process`.
- `stdio.dfy` (`Stdio`): the `Stdin` and `Stdout` classes.
  - `Stdin.ReadAt` is proved against the pure function `Read`.
  - The FIFO round trip is proved over `Reads`, a sequence of such reads.

How the collaborators are represented:

- `Exceptionate::create_channel` is a function parameter `createChannel`. It may fail, and its error is passed through.
- `UserOutPtr::write` is a `UserOut` parameter that either accepts the store or fails with an error.
- `kernel_hal::serial_read` is an input sequence of at most 255 bytes.
- `kernel_hal::serial_write` appends to `Stdout.output`.

## Model

| member | source | states |
|---|---|---|
| `ExceptionSyscalls.DecodeOption` | zircon-syscall/src/exception.rs:100-106 | decoding succeeds iff the value is 0 or 1; the decoded option has exactly that value; any other value is INVALID_ARGS (the `map_err` at line 22) |
| `ExceptionSyscalls.OptionValue` | zircon-syscall/src/exception.rs:101-104 | the `repr(u32)` value of an option is below 2, and it is 0 exactly for `None` (here `Normal`) |
| `ExceptionSyscalls.DecodeOptionRoundTrip` | zircon-syscall/src/exception.rs:100-106 | decoding the `repr(u32)` value of an option gives the option back |
| `ExceptionSyscalls.Admit` | zircon-syscall/src/exception.rs:17-46 | an admitted exceptionate belongs to the handle's own object; that object is a job, process or thread; the handle holds the base rights; the debugger exceptionate is chosen iff the option is 1 |
| `ExceptionSyscalls.AdmitSucceedsIff` | zircon-syscall/src/exception.rs:17-46 | admission succeeds iff all of these hold: base rights present, option < 2, the object is a task, ENUMERATE held for a job or process, option 0 for a thread |
| `ExceptionSyscalls.BaseRightsCheckedFirst` | zircon-syscall/src/exception.rs:17-21 | missing any base right gives ACCESS_DENIED whatever the option value or object kind |
| `ExceptionSyscalls.OptionCheckedSecond` | zircon-syscall/src/exception.rs:22 | with the base rights present, an option value other than 0 or 1 gives INVALID_ARGS whatever the kind |
| `ExceptionSyscalls.JobOrProcessNeedsEnumerate` | zircon-syscall/src/exception.rs:23-38 | for a job or process the call is admitted iff ENUMERATE is held; without ENUMERATE it is ACCESS_DENIED |
| `ExceptionSyscalls.ThreadRules` | zircon-syscall/src/exception.rs:39-43 | a thread with option 0 gets its normal exceptionate without needing ENUMERATE; a thread with the Debugger option is INVALID_ARGS |
| `ExceptionSyscalls.NonTaskIsWrongType` | zircon-syscall/src/exception.rs:44-45 | an object that is not a job, process or thread gives WRONG_TYPE once rights and option have passed |
| `ExceptionSyscalls.CreateExceptionChannel` | zircon-syscall/src/exception.rs:15-56 | every failure up to and including the `create_channel` error leaves the table unchanged and returns that error; `create_channel` gets `rights & DEFAULT_THREAD` and `rights & DEFAULT_PROCESS`; on success exactly one fresh handle is added, carrying the new channel with exactly TRANSFER, WAIT and READ; a failing out write returns its error but keeps the handle |
| `ExceptionSyscalls.ExceptionGetThread` | zircon-syscall/src/exception.rs:61-74 | a failed resolution returns its error and adds nothing; otherwise one fresh handle is added, carrying the exception's thread with the stored thread rights, and the out slot gets its value unless the write fails |
| `ExceptionSyscalls.ExceptionGetProcess` | zircon-syscall/src/exception.rs:81-97 | a failed resolution returns its error and adds nothing; a thread channel type gives ACCESS_DENIED and adds nothing; any other channel type adds one fresh handle carrying the exception's process with the stored process rights |
| `Rights.Restrict` | zircon-syscall/src/exception.rs:48-50 | the peer-rights ceiling is a subset of the caller's rights and of the mask, and holds every right both hold |
| `Objects.Process.GetDynObjectAndRights` | zircon-syscall/src/exception.rs:16 | resolution succeeds iff the value is in the table, and yields that entry; otherwise BAD_HANDLE |
| `Objects.Process.GetExceptionWithRights` | zircon-syscall/src/exception.rs:68-69 | succeeds iff the value is in the table, names an exception object and holds the desired rights, and yields that exception; an absent value is BAD_HANDLE, a non-exception object WRONG_TYPE |
| `Objects.Process.AddHandle` | zircon-syscall/src/exception.rs:47-53 | inserts the handle under a value not in use before; nothing else in the table changes |
| `Objects.WriteOut` | zircon-syscall/src/exception.rs:54 | the status is Ok iff the slot is writable, and then the slot holds the value; a faulting slot returns its error and holds nothing |
| `Stdio.ByteToChar` | linux-object/src/fs/stdio.rs:62 | the character's code point equals the byte |
| `Stdio.CharToByte` | linux-object/src/fs/stdio.rs:56 | the byte agrees with the code point modulo 256, and equals it below 256 |
| `Stdio.ByteCharRoundTrip` | linux-object/src/fs/stdio.rs:56-62 | u8 to char and back to u8 is the identity |
| `Stdio.BytesToChars` | linux-object/src/fs/stdio.rs:61-63 | the pushed characters correspond one to one, in order, to the serial bytes |
| `Stdio.Read` | linux-object/src/fs/stdio.rs:54-66 | on a non-empty buffer: drop the front, return Ok(1) and store the front's byte; on an empty buffer: return Again, store nothing, and leave exactly the serial bytes, in order, as the new contents |
| `Stdio.Reads` | linux-object/src/fs/stdio.rs:54-66 | successive reads produce one outcome per call, and the first is the outcome of one read on the current buffer |
| `Stdio.ReadsDrainInOrder` | linux-object/src/fs/stdio.rs:55-57 | n reads on a buffer of n characters return Ok(1) each and deliver the characters front to back, whatever the serial line offers |
| `Stdio.SerialBytesReadBack` | linux-object/src/fs/stdio.rs:54-66 | after an Again read on an empty buffer, the next reads return the serial bytes one per call, in the order received |
| `Stdio.Stdin.constructor` | linux-object/src/fs/stdio.rs:19-24 | a new buffer is empty |
| `Stdio.Stdin.Push` | linux-object/src/fs/stdio.rs:28-31 | appends the character at the back; earlier contents unchanged |
| `Stdio.Stdin.Pop` | linux-object/src/fs/stdio.rs:33-42 | on a non-empty buffer, returns the front and removes exactly it |
| `Stdio.Stdin.CanRead` | linux-object/src/fs/stdio.rs:44-46 | holds iff the buffer is non-empty |
| `Stdio.Stdin.ReadAt` | linux-object/src/fs/stdio.rs:54-66 | the new buffer, the result and `buf[0]` are those of `Read`; the rest of `buf` is untouched, and all of it is untouched on Again |
| `Stdio.Stdin.Poll` | linux-object/src/fs/stdio.rs:70-76 | readable iff the buffer is non-empty; never writable, never in error; reads without changing the buffer |
| `Stdio.Stdout.constructor` | linux-object/src/fs/stdio.rs:49-51 | a new `Stdout` (its derived `Default`) has written nothing to the serial line |
| `Stdio.Stdout.WriteAt` | linux-object/src/fs/stdio.rs:103-108 | appends all of `buf` to the serial output and returns its length |
| `Stdio.Stdout.Poll` | linux-object/src/fs/stdio.rs:109-115 | never readable, always writable, never in error |
| `Stdio.Stdout.IoControl` | linux-object/src/fs/stdio.rs:116-130 | succeeds iff the command is TCGETS, TIOCGWINSZ, TIOCSPGRP or TIOCGPGRP, always with 0; stores 0 through `data` iff the command is TIOCGPGRP; any other command is NotSupported |

## Left out

- Logging (`info!`): it has no effect on results.
- `Rights`, its bit values, DEFAULT_THREAD, DEFAULT_PROCESS and `Rights::default()`: the definitions are not part of this model.
  - The two defaults carry Zircon's published default thread and process rights, and `Rights::default()` is the empty set.
  - No proof depends on the particular members of these sets.
- The source of `get_dyn_object_and_rights`, `get_object_with_rights`, `downcast_arc`, `add_handle`, `get_exceptionate`, `get_debug_exceptionate`, `create_channel` and the exception accessors is not part of this model.
  - `GetExceptionWithRights` assumes the order resolve, then downcast, then rights check.
  - With `Rights::default()` empty, the rights check cannot fail.
- An "already bound" rule for exceptionates: the code shown only propagates whatever `create_channel` returns.
  - `createChannel` is a deterministic function of its arguments, so the binding state of an exceptionate is not modelled.
- Handle values are unbounded naturals taken from a counter. zCore's value encoding and any table-size limit are not part of this model.
- Validation of user pointers by `UserOutPtr::write`: the slot is just writable or failing.
- The raw store for TIOCGPGRP: it is an output value (`IoctlOutcome.stored`).
- Concurrency: the `spin::Mutex` locks, the `lazy_static` globals `STDIN` and `STDOUT`, and the busy wait in `Stdin::pop`.
  - `Pop` requires a non-empty buffer, which `ReadAt` ensures by checking `CanRead` first.
- The serial hardware: input is a sequence of at most 255 bytes, output an append-only log.
- `Stdin::write_at` and `Stdout::read_at`: they are `unimplemented!()` and panic.
- Stdin.ReadAt: requires a non-empty `buf` when characters are buffered, so it does not model the panic path. There, `self.pop()` runs first and removes the front character, then the store to `buf[0]` panics on the empty slice and the character is lost.
- The commented-out `Stdin::io_control`: the trait's default behaviour is not part of this model.
- The unchecked UTF-8 conversion in `Stdout::write_at`: the bytes are passed on unchanged.
- The exception status value is a snapshot. How its current channel type changes as the exception moves up the job tree is not modelled.
- `Stdin.Poll`, `Stdout.Poll`: they return the status directly, without the `Result` wrapper, which is always `Ok` in the source.

Notes on error codes:

- The base-rights check (`zircon-syscall/src/exception.rs:17-21`) comes before the Debugger-on-thread check (`zircon-syscall/src/exception.rs:42`). So a thread handle with the Debugger option that lacks a base right gets ACCESS_DENIED, not INVALID_ARGS (`BaseRightsCheckedFirst`).
- Resolution failure is BAD_HANDLE, Zircon's code for a handle value that is not in the table.
