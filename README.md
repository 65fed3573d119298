# botodispusb: a Dafny model of the driver's per-device state machine

botodispusb is a Linux USB driver for a one-line, 16-column display with a
keypad. Each attached device has one `struct bdusb`. That structure holds:

- the bulk OUT endpoint, with its buffer and URB (display side);
- the interrupt IN endpoint, with its buffer and URB (keypad side);
- a reference count, the single-client flag `num_access` and the cursor column `col_actual`;
- a semaphore that guards the one outbound URB;
- the last key code.

This project models that structure and every entry point that changes it.
Each entry point runs as one sequential step.

- `basics.dfy`: module `Basics`. It holds the `byte` type (a C `u8`), `Option`, and the Linux errno values the driver returns.
- `endpoints.dfy`: module `Endpoints`. It models the endpoint scan of `bdu_probe` as a pure fold over the descriptor sequence.
  - It checks direction and transfer-type bits as section 9.6.6 of the USB 2.0 Specification defines them. `USB_DIR_IN` is 0x80, the transfer-type mask is 0x03, bulk is 2 and interrupt is 3.
  - It also has a reference definition, `FirstIndex`, of "the first descriptor that can play a role".
- `display.dfy`: module `Display`. It models, as values, what a write and a key event do to the display-facing state `Line`. That state is the column, the outbound gate, and the log of frames the USB core accepted.
  - Frames are `0x01` followed by characters, or `0x00` followed by the cursor command `0x80 + col`.
  - `WriteRun` and `KeyRun` are the specifications the imperative code is proved against.
- `session.dfy`: module `Driver`. It holds the class `Session` for `struct bdusb` and the method `Probe`.
  - The class fields are updated in place, and `outBuf` is an `array<byte>`.
  - Write, the key work (`ProcessKey`) and the probe scan are proved against the specification functions above, through the ghost views `View()` and `ScanView()`. The other entry points (Open, Release, the completion handlers, Put, Delete, Disconnect) state their new fields directly, under the invariant `Valid()`.

The outbound gate is a semaphore initialised to 1 together with the
outbound transfer. Its abstraction `Gate` has three values:

- `Free`: the count is 1.
- `Busy`: the count is 0 and a transfer is in flight, so its completion can release the gate.
- `Stuck`: the count is 0 and no transfer is in flight, so nothing will ever release it.

`down_interruptible` takes a free gate at once, even when a signal is
pending. A signal only ends a wait. A wait on a busy gate that no signal
ends is modelled as that transfer completing with status 0
(`bdu_out_callback`), followed by the take. A wait on a stuck gate with no
signal never ends. Preconditions exclude that case (`Blocks`), and the
specification function `KeyRun` returns `None` for it. Each gated send has
an `Attempt` input that gives both environment outcomes: whether a signal
ends the wait, and whether `usb_submit_urb` accepts the frame.

Allocation outcomes are an input `grant: seq<bool>`. Allocation n of an
attach succeeds unless `grant[n]` is false. Allocation 0 is the `kmalloc`
of the structure.

The model keeps these behaviours of the code:

- The column can reach 16. It is a `u8`: an 'F' whose middle step is interrupted can move it from 1 to 255, and the second cursor command then becomes 0x7F (`Display.InterruptedDeleteWraps`).
- Only completion status 0 releases the gate. -ECONNRESET, -ENOENT, -ESHUTDOWN and any other status leave it taken.
- The inbound URB is resubmitted only on status 0.
- A refused submission never releases the gate (`Display.RefusedSubmissionStallsDelete`).
- `bdu_write` stores bytes and moves the column before it takes the gate. The ghost flag `clobbered` records a store while a transfer from the buffer is in flight.
- `bdu_write` never compares an index with `bulk_out_size`. A store past the end of the buffer is recorded in the ghost flag `overrun` and not performed.
- `bdu_release` writes `num_access` after a `kref_put` that may have freed the structure. The ghost flag `staleWrite` records this.
- `bdu_probe` uses `kmalloc`, so pointer fields the scan never assigned hold indeterminate values, and `bdu_delete` tests them. The `Ptr` values `Uninit | Null | Live` and the ghost flag `strayFree` record this.
- When the first inbound submission fails (botodispusb.c:296-301), probe drops the only reference after registering the device. The interface data are never cleared, so the session ends up both `attached` and `freed`.

In these places a reader might expect other behaviour. The model follows
the code:

- -ECONNRESET does not release the gate.
- The inbound transfer is re-armed only on status 0.
- The column bound is 16, not 15.
- A write of "HI" at column 0 sends one frame `[0x01, 'H', 'I']`, not one frame per character (`Display.HiDeleteBang`).

## Model

| member | source | states |
|---|---|---|
| Endpoints.FirstIndex | botodispusb.c:204-256 | the first descriptor that can play a role: it serves the role, no earlier one does, and the result is None exactly when no descriptor serves it |
| Endpoints.ScanFailureIsFinal | botodispusb.c:215-253 | once an allocation of the scan fails, no later descriptor changes the scan state (every failure returns at once) |
| Endpoints.ScanWithoutAllocFailure | botodispusb.c:204-256 | a scan in which every allocation succeeds never fails |
| Endpoints.BoundEndpointsAreLive | botodispusb.c:210-252 | until an allocation fails, an endpoint recorded with a non-zero address owns a live buffer and a live URB |
| Endpoints.ScanSelectsFirstOut | botodispusb.c:204-229 | the scan of any prefix binds exactly the first bulk OUT descriptor in it, with that descriptor's address and wMaxPacketSize, and ignores later matches; with none, the address stays 0 and the pointers stay unassigned; all of this as long as no allocation failed |
| Endpoints.ScanSelectsFirstIn | botodispusb.c:231-254 | the same for the first interrupt IN descriptor, as long as no allocation failed |
| Endpoints.ScanSelectsFirst | botodispusb.c:204-256 | the whole scan, when no allocation fails, binds the first match of each role |
| Display.Taken | botodispusb.c:421 | a write takes at most the bytes offered and never goes past column 16; it takes all of them or fills the line, and takes none at column 16 or beyond |
| Display.WriteFraming | botodispusb.c:419-441 | a write submits [0x01] followed by the first min(count, 16 - col) user bytes, advances the column by that many, and returns count; a signal returns -ERESTARTSYS with nothing submitted and the column already advanced |
| Display.WritesAdvance | botodispusb.c:411-442 | a run of uninterrupted writes advances the column by the total written, capped at 16, and appends one frame per write after the earlier frames |
| Display.WritesFillLine | botodispusb.c:411-442 | the frames of a run of writes show exactly the first bytes of everything written that fit on the line |
| Display.DeleteBlanksPrevious | botodispusb.c:545-576 | 'F' past column 0 with every wait and submission succeeding sends [0x00, 0x80+col-1], [0x01, ' '], [0x00, 0x80+col-1] in that order and ends at col - 1 |
| Display.EchoesKey | botodispusb.c:578-590 | any other key below column 16 sends [0x01, key] and ends at col + 1 |
| Display.OutOfLineKeyIsIgnored | botodispusb.c:545-590 | 'F' at column 0, or any other key at column 16 or beyond, sends nothing and changes nothing |
| Display.KeyStaysInLine | botodispusb.c:545-590 | without signals, a key event that completes moves the column by exactly -1 (delete) or +1 (shown key) within 0..16, adds only two-byte frames after the earlier ones, and every cursor command lies in 0x80..0x8F |
| Display.InterruptedDeleteWraps | botodispusb.c:545-576 | a signal during the middle step of a delete at column 1 skips the blank but not the two decrements: the column wraps to 255 and the second cursor command is 0x7F |
| Display.RefusedSubmissionStallsDelete | botodispusb.c:547-576 | after a refused first submission the gate is stuck, and the delete completes only if signals end both later waits |
| Display.HiDeleteBang | botodispusb.c:411-591 | "HI" at column 0 is one frame and leaves column 2; 'F' then blanks the 'I' and leaves column 1; '!', typed in the state the delete left, is then shown and leaves column 2 after all the earlier frames |
| Driver.Session.constructor | botodispusb.c:183-194 | the structure after its allocation: both endpoint addresses 0, one reference, every pointer field indeterminate |
| Driver.Session.Delete | botodispusb.c:330-345 | the session is released; a pointer field the scan never assigned is flagged as tested |
| Driver.Session.Put | botodispusb.c:323 | kref_put drops one reference and releases the session exactly when the count reaches 0 |
| Driver.Session.Down | botodispusb.c:429-430 | the gate is taken exactly when it is free, or busy and no signal comes; taking it leaves count 0 with nothing in flight, and failing changes nothing |
| Driver.Session.Submit | botodispusb.c:438-439 | submission needs the buffer to hold the frame (as much of it as fits); an accepted frame is logged and in flight; a refused one leaves the gate taken with nothing in flight |
| Driver.Session.Store | botodispusb.c:424 | one buffer store: the byte lands at its index and nothing else changes, a store past the end is flagged and not performed, and a store during a transfer is flagged |
| Driver.Session.OutCallback | botodispusb.c:450-474 | the transfer is over; only status 0 releases the gate, so the gate is free exactly on status 0 |
| Driver.Session.InCallback | botodispusb.c:499-535 | on status 0 the received byte becomes the key code, the key work is pending and the URB is armed if resubmission succeeds; any other status leaves the URB idle and the key state unchanged |
| Driver.Session.SendCursorBack | botodispusb.c:549-555 | with the gate held: decrement the column, then fill the buffer with the cursor command for the new column and submit exactly those bytes; no overrun on a buffer of 2 or more bytes |
| Driver.Session.SendChar | botodispusb.c:582-588 | with the gate held: fill the buffer with [0x01, c] and submit exactly those bytes, then increment the column; no overrun on a buffer of 2 or more bytes |
| Driver.Session.GatedStep | botodispusb.c:547-588 | one gated step of the key work ends in the state Display.Gated specifies |
| Driver.Session.ProcessKey | botodispusb.c:539-591 | the key work ends in the state Display.KeyRun specifies, keeps the invariant and leaves no work pending |
| Driver.Session.Open | botodispusb.c:352-384 | -ENODEV with nothing changed when the device is unregistered or already open; otherwise one more reference and num_access = 1 |
| Driver.Session.Release | botodispusb.c:390-403 | one reference less and num_access = 0 whatever the count; the session is released exactly when it was disconnected, and then the num_access store is flagged as hitting released memory |
| Driver.Session.Fill | botodispusb.c:419-428 | the buffer holds [0x01] and the first min(count, 16 - col) user bytes, and the column advances by that many |
| Driver.Session.Write | botodispusb.c:411-442 | the new display state and the return value are those Display.WriteRun and Display.WriteReturn specify; the buffer holds the frame, and overrun and clobbering are flagged exactly when they happen |
| Driver.Session.BindOutEndpoint | botodispusb.c:210-229 | binding the bulk OUT endpoint performs Endpoints.BindOut on the scan state, and its buffer has wMaxPacketSize bytes |
| Driver.Session.BindInEndpoint | botodispusb.c:234-253 | binding the interrupt IN endpoint performs Endpoints.BindIn on the scan state |
| Driver.Session.ScanEndpoint | botodispusb.c:205-254 | one iteration of the endpoint loop performs Endpoints.ScanStep and reports whether an allocation failed |
| Driver.Session.ScanInterface | botodispusb.c:202-256 | the endpoint loop leaves the state Endpoints.Scan specifies, and each recorded endpoint owns a live buffer and URB |
| Driver.Session.Attach | botodispusb.c:257-303 | -ENOMEM unless both endpoints were found, then the registration status, then the submission status; each failure releases the session; success leaves it registered, unopened, at column 0 with the gate free and the keypad URB armed |
| Driver.Session.Disconnect | botodispusb.c:310-324 | pending key work runs first, the device is unregistered, and one reference is dropped; the session is released exactly when no client has it open; the key work neither overruns a buffer of 2 or more bytes nor clobbers a frame in flight |
| Driver.AttachNeedsBothEndpoints | botodispusb.c:257-262 | with every allocation granted, attach succeeds exactly when there is a bulk OUT and an interrupt IN endpoint and registration and the first submission succeed; a missing endpoint gives -ENOMEM |
| Driver.MissingEndpointFreesUnassigned | botodispusb.c:183-262 | a device without a keypad endpoint fails with -ENOMEM, and the release of its half-built session tests pointer fields the scan never assigned |
| Driver.Probe | botodispusb.c:173-304 | returns Driver.AttachStatus; the session and its output buffer are newly allocated and its scan fields are Endpoints.Scan; every failure releases the session; success leaves it registered, unopened, at column 0, gate free, keypad armed and no frames sent |
| Driver.ProbeOpenWrite | botodispusb.c:173-442 | a session a successful probe returns can be opened and written: the write returns count and leaves the session open with one frame of the bytes that fit on the line, and the column advanced over them; a failed probe returns its status |

## Left out

- Module registration and teardown (`bdu_init`, `bdu_exit`, `usb_register`, `MODULE_*`, `module_param`): kernel boilerplate outside the state machine.
- `usb_register_dev` and the first inbound `usb_submit_urb` of probe are foreign calls. Their return values are inputs to `Probe`.
- The USB core itself (`usb_fill_*_urb`, `usb_unlink_urb`, `usb_get_dev`/`usb_put_dev`, pipes, the 250 ms polling interval): foreign code. A submission is an accepted/refused input plus the ghost `sent` log.
- Concurrency:
  - The workqueue is modelled as a `workPending` flag that a second key before the work runs leaves set once (the coalescing of `schedule_work`). `flush_scheduled_work` in disconnect is modelled as running the pending work.
  - Interrupt context and process context are interleaved only at entry-point boundaries.
- Driver.Session.Down: a wait on a gate that nothing will release blocks for ever in the kernel. The model cannot block, so callers must rule out that case through `Blocks`.
- `get_user`, `iminor`, `usb_find_interface` and `file->private_data`: user-space and VFS plumbing. The user bytes are a `seq<byte>` parameter, and "the interface data point to this session" is the `attached` flag.
- `bdu_read` does nothing and returns 0.
- All `printk`/`err` logging.
- `kmalloc`, `kfree` and `usb_alloc_urb` are not modelled as memory. They become the `grant` inputs and the `Ptr` and `freed` fields. The interrupt IN buffer's contents are only the received key byte passed to `InCallback`.
- Driver.Session.Open: requires that the session has not been released. After a failed first inbound submission the device stays registered while its structure is freed, and an open would then read released memory. The model records that state (`attached && freed`) but does not run an open on it.
- `bdu_release` with a NULL `private_data`: `Release` is only modelled after a successful open, which always sets it.
- Disconnect does not cancel in-flight URBs. A completion after the session was released is not modelled, because every handler requires a live session.
- `codi_tecla` is a `char` in the source. The model keeps the received byte unchanged; only its comparison with 'F' and its copy into the buffer are used, and both are the same for signed and unsigned bytes.
