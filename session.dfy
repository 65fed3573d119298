/**
 * The per-device state of the botodispusb driver (`struct bdusb`) and its
 * entry points: probe, disconnect, the reference-count release, open,
 * release, write, the two URB completion handlers and the deferred key
 * work. Each entry point runs to completion as one sequential step.
 */
module Driver {
  import opened Basics
  import opened Endpoints
  import opened Display

  class Session {
    // Endpoint binding made by the probe scan.
    var outAddr: bv8
    var outSize: nat
    var inAddr: bv8
    var inSize: nat
    var outBufPtr: Ptr
    var outUrb: Ptr
    var inBufPtr: Ptr
    var inUrb: Ptr
    /** Number of allocations the attach has requested so far. */
    var allocs: nat

    /** bulk_out_buffer; its length is the bulk endpoint's wMaxPacketSize. */
    var outBuf: array<byte>

    var refcount: nat
    /** num_access: 1 while a client holds the device open. */
    var numAccess: byte
    /** col_actual, the cursor column (a u8). */
    var col: byte
    /** The outbound gate's semaphore count. */
    var sem: int
    /** codi_tecla, the last key code received. */
    var keyCode: byte
    /** The inbound (keypad) URB is submitted and waiting for a key. */
    var inArmed: bool
    /** The outbound (display) URB is submitted and not completed yet. */
    var outInFlight: bool
    /** The key work is queued and has not started. */
    var workPending: bool
    /** The device is registered and its interface data points here, so an open can reach it. */
    var attached: bool
    /** bdu_delete has run: the structure and what it owns are released. */
    var freed: bool

    /** Frames accepted by usb_submit_urb on the outbound URB, oldest first. */
    ghost var sent: seq<Frame>
    /** bdu_delete tested a pointer field probe never assigned. */
    ghost var strayFree: bool
    /** bdu_release wrote num_access after the structure was released. */
    ghost var staleWrite: bool
    /** A store fell past the end of bulk_out_buffer. */
    ghost var overrun: bool
    /** A store into bulk_out_buffer happened while a transfer from it was in flight. */
    ghost var clobbered: bool

    /** kmalloc of the structure and the field initialisation of the probe
        before its scan: endpoint addresses cleared, one reference, and every
        pointer field left indeterminate. */
    constructor ()
      ensures outAddr == 0 && inAddr == 0 && outSize == 0 && inSize == 0 && allocs == 1
      ensures outBufPtr == Uninit && outUrb == Uninit && inBufPtr == Uninit && inUrb == Uninit
      ensures refcount == 1 && !freed && !attached && numAccess == 0
      ensures sem == 0 && !outInFlight && !inArmed && !workPending
      ensures sent == [] && Clean()
      ensures fresh(outBuf)
    {
      outAddr, outSize, inAddr, inSize := 0, 0, 0, 0;
      outBufPtr, outUrb, inBufPtr, inUrb := Uninit, Uninit, Uninit, Uninit;
      allocs := 1;
      outBuf := new byte[0];
      refcount := 1;
      numAccess, col, sem, keyCode := 0, 0, 0, 0;
      inArmed, outInFlight, workPending, attached, freed := false, false, false, false, false;
      sent := [];
      strayFree, staleWrite, overrun, clobbered := false, false, false, false;
    }

    /** The object invariant of an attached session. */
    ghost predicate Valid()
      reads this
    {
      (sem == 0 || sem == 1) && (sem == 1 ==> !outInFlight) && numAccess <= 1 &&
      (!freed ==>
        refcount == (if attached then 1 else 0) + numAccess && refcount > 0 &&
        outBufPtr == Live && outUrb == Live && inBufPtr == Live && inUrb == Live &&
        outBuf.Length == outSize)
    }

    /** An attached session no client has opened, with the gate free, the
        cursor at column 0 and the keypad URB waiting for a key. */
    ghost predicate Ready()
      reads this
    {
      Valid() && !freed && attached && refcount == 1 && numAccess == 0 &&
      col == 0 && sem == 1 && inArmed && !workPending
    }

    /** None of the source's faults recorded in the ghost flags has happened. */
    ghost predicate Clean()
      reads this
    {
      !strayFree && !staleWrite && !overrun && !clobbered
    }

    ghost function ScanView(): ScanState
      reads this
    {
      ScanState(outAddr, outSize, outBufPtr, outUrb, inAddr, inSize, inBufPtr, inUrb, allocs, false)
    }

    ghost function GateState(): Gate
      reads this
    {
      if sem > 0 then Free else if outInFlight then Busy else Stuck
    }

    /** The display-facing state. */
    ghost function View(): Line
      reads this
    {
      Line(col, GateState(), sent)
    }

    // -------------------------------------------------------------------
    // Reference counting

    /** bdu_delete: releases the URBs and buffers whose pointer fields are
        set, then the structure. A field probe never assigned is tested too. */
    method Delete()
      modifies this`freed, this`strayFree
      ensures freed
      ensures strayFree == (old(strayFree) || HasUninit(ScanView()))
    {
      // usb_put_dev on the device handle is outside this model.
      if inUrb == Uninit || outUrb == Uninit || inBufPtr == Uninit || outBufPtr == Uninit {
        strayFree := true;
      }
      freed := true;
    }

    /** kref_put with bdu_delete as the release function. */
    method Put()
      requires !freed && refcount > 0
      modifies this`refcount, this`freed, this`strayFree
      ensures refcount == old(refcount) - 1
      ensures freed <==> refcount == 0
      ensures strayFree == (old(strayFree) || (freed && HasUninit(ScanView())))
    {
      refcount := refcount - 1;
      if refcount == 0 {
        Delete();
      }
    }

    // -------------------------------------------------------------------
    // Outbound gate and transfer

    /** down_interruptible on the gate. A free gate is taken at once. On a
        busy gate the caller sleeps until the in-flight transfer completes;
        only a completion with status 0 wakes it, so a wait that ends
        without a signal is that completion followed by the take. */
    method Down(signalled: bool) returns (acquired: bool)
      requires Valid() && !freed && !Blocks(GateState(), signalled)
      modifies this`sem, this`outInFlight
      ensures Valid()
      ensures acquired == Acquires(old(GateState()), signalled)
      ensures acquired ==> sem == 0 && !outInFlight
      ensures !acquired ==> sem == old(sem) && outInFlight == old(outInFlight)
    {
      if sem > 0 {
        sem := sem - 1;
        return true;
      }
      if signalled {
        return false;
      }
      OutCallback(0);
      sem := sem - 1;
      acquired := true;
    }

    /** usb_submit_urb on the outbound URB with the gate held. */
    method Submit(ghost frame: Frame, accepted: bool)
      requires sem == 0 && !outInFlight && Holds(frame)
      modifies this`outInFlight, this`sent
      ensures outInFlight == accepted
      ensures sent == old(sent) + (if accepted then [frame] else [])
    {
      if accepted {
        outInFlight := true;
        sent := sent + [frame];
      }
    }

    /** One store into bulk_out_buffer. The driver never compares an index
        with bulk_out_size; a store past the end is recorded, not performed. */
    method Store(i: nat, b: byte)
      modifies outBuf, this`overrun, this`clobbered
      ensures i < outBuf.Length ==> outBuf[i] == b
      ensures forall j :: 0 <= j < outBuf.Length && j != i ==> outBuf[j] == old(outBuf[j])
      ensures overrun == (old(overrun) || i >= outBuf.Length)
      ensures clobbered == (old(clobbered) || (i < outBuf.Length && outInFlight))
    {
      if i < outBuf.Length {
        outBuf[i] := b;
        if outInFlight {
          clobbered := true;
        }
      } else {
        overrun := true;
      }
    }

    /** bulk_out_buffer starts with as much of `frame` as fits in it. */
    ghost predicate Holds(frame: Frame)
      reads this, outBuf
    {
      forall j :: 0 <= j < |frame| && j < outBuf.Length ==> outBuf[j] == frame[j]
    }

    /** bdu_out_callback: only status 0 releases the gate. -ENOENT,
        -ECONNRESET, -ESHUTDOWN (which also unlinks the URB) and any other
        status are only logged and leave the gate taken. */
    method OutCallback(status: int)
      requires Valid() && !freed && outInFlight
      modifies this`sem, this`outInFlight
      ensures Valid() && !outInFlight
      ensures sem == if status == 0 then old(sem) + 1 else old(sem)
      ensures status == 0 <==> GateState() == Free
    {
      outInFlight := false;
      if status == 0 {
        sem := sem + 1;
      } else if status == -ENOENT || status == -ECONNRESET {
        // logged only
      } else if status == -ESHUTDOWN {
        // usb_unlink_urb on a completed URB: nothing left to cancel
      }
    }

    // -------------------------------------------------------------------
    // Inbound transfer and key work

    /** bdu_in_callback: on status 0 the first byte of the interrupt buffer
        becomes the key code, the key work is queued (a work already queued
        stays queued once) and the URB is resubmitted; any other status
        leaves the inbound URB idle. */
    method InCallback(status: int, received: byte, resubmitted: bool)
      requires Valid() && !freed && inArmed
      modifies this`keyCode, this`workPending, this`inArmed
      ensures Valid()
      ensures status == 0 ==> keyCode == received && workPending && inArmed == resubmitted
      ensures status != 0 ==> keyCode == old(keyCode) && workPending == old(workPending) && !inArmed
    {
      inArmed := false;
      if status == 0 {
        keyCode := received;
        workPending := true;
        inArmed := resubmitted;
      } else if status == -ENOENT || status == -ECONNRESET {
        // logged only
      } else if status == -ESHUTDOWN {
        // usb_unlink_urb on a completed URB: nothing left to cancel
      }
    }

    /** With the gate held: decrement the column and send the cursor
        command for the new column. */
    method SendCursorBack(accepted: bool)
      requires Valid() && !freed && sem == 0 && !outInFlight
      modifies this`col, this`outInFlight, this`sent, outBuf, this`overrun, this`clobbered
      ensures Valid()
      ensures View() == Display.Submit(old(View()).(col := Dec(old(col))), CursorFrame(Dec(old(col))), accepted)
      ensures Holds(CursorFrame(Dec(old(col))))
      ensures outBuf.Length >= 2 ==> overrun == old(overrun)
      ensures clobbered == old(clobbered)
    {
      Store(0, CommandMarker);
      col := Dec(col);
      Store(1, (CursorBase + col) % 256);
      Submit(CursorFrame(col), accepted);
    }

    /** With the gate held: send one character, then increment the column. */
    method SendChar(ch: byte, accepted: bool)
      requires Valid() && !freed && sem == 0 && !outInFlight
      modifies this`col, this`outInFlight, this`sent, outBuf, this`overrun, this`clobbered
      ensures Valid()
      ensures View() == Display.Submit(old(View()), DataFrame([ch]), accepted).(col := Inc(old(col)))
      ensures Holds(DataFrame([ch]))
      ensures outBuf.Length >= 2 ==> overrun == old(overrun)
      ensures clobbered == old(clobbered)
    {
      Store(0, DataMarker);
      Store(1, ch);
      Submit(DataFrame([ch]), accepted);
      col := Inc(col);
    }

    /** One gated step of the key work: wait for the gate, and once it is
        held send the two-byte frame of `act`. A step that a signal
        interrupts changes nothing. */
    method GatedStep(a: Attempt, act: Action)
      requires Valid() && !freed && !Blocks(GateState(), a.signalled)
      modifies this`col, this`sem, this`outInFlight, this`sent
      modifies outBuf, this`overrun, this`clobbered
      ensures Valid()
      ensures Some(View()) == Gated(old(View()), a, act)
      ensures outBuf.Length >= 2 ==> overrun == old(overrun)
      ensures clobbered == old(clobbered)
    {
      var ok := Down(a.signalled);
      if !ok {
        return;
      }
      match act
      case Retreat =>
        SendCursorBack(a.accepted);
      case Show(ch) =>
        SendChar(ch, a.accepted);
    }

    /** Processar_tecla: reads the key code once, then either the three-step
        delete ('F' past column 0), or shows the key (below column 16), or
        does nothing. Each step waits for the gate; a step whose wait a
        signal ends is skipped, and column changes already made stay. */
    method ProcessKey(tries: seq<Attempt>)
      requires Valid() && !freed && workPending && |tries| == 3
      requires KeyRun(View(), keyCode, tries).Some?
      modifies this`col, this`sem, this`outInFlight, this`sent, this`workPending
      modifies outBuf, this`overrun, this`clobbered
      ensures Valid() && !workPending
      ensures View() == KeyRun(old(View()), old(keyCode), tries).value
      ensures outBuf.Length >= 2 ==> overrun == old(overrun)
      ensures clobbered == old(clobbered)
    {
      workPending := false;
      var c := keyCode;
      if c == DeleteKey && col > 0 {
        GatedStep(tries[0], Retreat);
        ghost var l1 := View();
        GatedStep(tries[1], Show(Blank));
        assert Then(Some(l1), tries[1], Show(Blank)) == Some(View());
        GatedStep(tries[2], Retreat);
      } else if c != DeleteKey && col < 16 {
        GatedStep(tries[0], Show(c));
      }
    }

    // -------------------------------------------------------------------
    // File operations

    /** bdu_open: -ENODEV when the device is no longer registered or a
        client already has it open, with nothing changed; otherwise takes a
        reference and marks the device as open. */
    method Open() returns (r: int)
      requires Valid() && !freed
      modifies this`refcount, this`numAccess
      ensures Valid()
      ensures r == (if old(attached) && old(numAccess) == 0 then 0 else -ENODEV)
      ensures r == 0 ==> refcount == old(refcount) + 1 && numAccess == 1
      ensures r != 0 ==> refcount == old(refcount) && numAccess == old(numAccess)
    {
      if !attached {
        return -ENODEV;
      }
      if numAccess > 0 {
        return -ENODEV;
      }
      refcount := refcount + 1;
      numAccess := 1;
      r := 0;
    }

    /** bdu_release: drops the client's reference, then clears num_access
        whatever the count; when the device was already disconnected that
        reference was the last, so the clear writes into released memory. */
    method Release() returns (r: int)
      requires Valid() && !freed && numAccess == 1
      modifies this`refcount, this`numAccess, this`freed, this`strayFree, this`staleWrite
      ensures Valid()
      ensures r == 0 && numAccess == 0 && refcount == old(refcount) - 1
      ensures freed <==> !attached
      ensures staleWrite == (old(staleWrite) || freed)
      ensures strayFree == old(strayFree)
    {
      Put();
      if freed {
        staleWrite := true;
      }
      numAccess := 0;
      r := 0;
    }

    /** The first half of bdu_write: marker 0x01, then user bytes while
        bytes remain and the column is below 16, each stored after the marker
        and advancing the column. Nothing here waits for the gate, so the
        stores land in the buffer even while a transfer from it is in flight. */
    method Fill(user: seq<byte>) returns (k: nat)
      modifies this`col, outBuf, this`overrun, this`clobbered
      ensures k == Taken(old(col), |user|) && col == old(col) + k
      ensures Holds(DataFrame(user[..k]))
      ensures overrun == (old(overrun) || k >= outBuf.Length)
      ensures clobbered == (old(clobbered) || (outInFlight && outBuf.Length > 0))
    {
      Store(0, DataMarker);
      k := 0;
      while k < |user| && col < 16
        invariant 0 <= k <= Taken(old(col), |user|)
        invariant col == old(col) + k
        invariant Holds(DataFrame(user[..k]))
        invariant overrun == (old(overrun) || k >= outBuf.Length)
        invariant clobbered == (old(clobbered) || (outInFlight && outBuf.Length > 0))
      {
        Store(k + 1, user[k]);
        assert DataFrame(user[..k + 1]) == DataFrame(user[..k]) + [user[k]];
        col := col + 1;
        k := k + 1;
      }
    }

    /** bdu_write: fills the buffer and moves the column, then waits for the
        gate. A signal on the gate returns -ERESTARTSYS with nothing
        submitted; otherwise the frame is submitted and the whole count is
        returned, whether or not the submission was accepted. */
    method Write(user: seq<byte>, try: Attempt) returns (r: int)
      requires Valid() && !freed && numAccess == 1
      requires !Blocks(GateState(), try.signalled)
      modifies this`col, this`sem, this`outInFlight, this`sent
      modifies outBuf, this`overrun, this`clobbered
      ensures Valid()
      ensures View() == WriteRun(old(View()), user, try)
      ensures r == WriteReturn(old(View()), user, try)
      ensures Holds(DataFrame(user[..Taken(old(col), |user|)]))
      ensures overrun == (old(overrun) || Taken(old(col), |user|) >= outBuf.Length)
      ensures clobbered == (old(clobbered) || (old(outInFlight) && outBuf.Length > 0))
    {
      var k := Fill(user);
      var ok := Down(try.signalled);
      if !ok {
        return -ERESTARTSYS;
      }
      Submit(DataFrame(user[..k]), try.accepted);
      r := |user|;
    }

    // -------------------------------------------------------------------
    // Probe

    /** Binding the bulk OUT endpoint `e`: record its address and size,
        then allocate its buffer (wMaxPacketSize bytes) and its URB, stopping
        at the first allocation that fails. */
    method BindOutEndpoint(e: EndpointDesc, grant: seq<bool>) returns (failed: bool)
      modifies this`outAddr, this`outSize, this`outBufPtr, this`outUrb, this`outBuf, this`allocs
      ensures var s := BindOut(old(ScanView()), e, grant);
        failed == s.failed && ScanView() == s.(failed := false)
      ensures outBufPtr == Live ==> outBuf.Length == outSize
      ensures outBuf == old(outBuf) || fresh(outBuf)
    {
      outAddr := e.address;
      outSize := e.maxPacketSize;
      var ok := Granted(grant, allocs);
      allocs := allocs + 1;
      if !ok {
        outBufPtr := Null;
        return true;
      }
      outBufPtr := Live;
      outBuf := new byte[outSize];
      ok := Granted(grant, allocs);
      allocs := allocs + 1;
      if !ok {
        outUrb := Null;
        return true;
      }
      outUrb := Live;
      failed := false;
    }

    /** Binding the interrupt IN endpoint `e`, the same way. */
    method BindInEndpoint(e: EndpointDesc, grant: seq<bool>) returns (failed: bool)
      modifies this`inAddr, this`inSize, this`inBufPtr, this`inUrb, this`allocs
      ensures var s := BindIn(old(ScanView()), e, grant);
        failed == s.failed && ScanView() == s.(failed := false)
    {
      inAddr := e.address;
      inSize := e.maxPacketSize;
      var ok := Granted(grant, allocs);
      allocs := allocs + 1;
      if !ok {
        inBufPtr := Null;
        return true;
      }
      inBufPtr := Live;
      ok := Granted(grant, allocs);
      allocs := allocs + 1;
      if !ok {
        inUrb := Null;
        return true;
      }
      inUrb := Live;
      failed := false;
    }

    /** One iteration of the probe's endpoint loop: bind `e` as the bulk OUT
        endpoint if none is bound yet and it is one, then as the interrupt IN
        endpoint likewise. Returns whether an allocation failed, which ends
        the probe at once. */
    method ScanEndpoint(e: EndpointDesc, grant: seq<bool>) returns (failed: bool)
      requires outBufPtr == Live ==> outBuf.Length == outSize
      modifies this`outAddr, this`outSize, this`outBufPtr, this`outUrb, this`outBuf
      modifies this`inAddr, this`inSize, this`inBufPtr, this`inUrb, this`allocs
      ensures var s := ScanStep(old(ScanView()), e, grant);
        failed == s.failed && ScanView() == s.(failed := false)
      ensures outBufPtr == Live ==> outBuf.Length == outSize
      ensures outBuf == old(outBuf) || fresh(outBuf)
    {
      failed := false;
      if outAddr == 0 && IsBulkOut(e) {
        failed := BindOutEndpoint(e, grant);
        if failed {
          return;
        }
      }
      if inAddr == 0 && IsIntIn(e) {
        failed := BindInEndpoint(e, grant);
      }
    }

    /** The probe's endpoint loop over the interface's descriptors, from
        the state the structure's allocation leaves. It stops at the first
        failed allocation, which it reports. */
    method ScanInterface(descs: seq<EndpointDesc>, grant: seq<bool>) returns (failed: bool)
      requires ScanView() == Start
      modifies this`outAddr, this`outSize, this`outBufPtr, this`outUrb, this`outBuf
      modifies this`inAddr, this`inSize, this`inBufPtr, this`inUrb, this`allocs
      ensures failed == Scan(descs, grant).failed
      ensures ScanView() == Scan(descs, grant).(failed := false)
      ensures outBufPtr == Live ==> outBuf.Length == outSize
      ensures !failed ==> (outAddr != 0 ==> outBufPtr == Live && outUrb == Live) &&
                          (inAddr != 0 ==> inBufPtr == Live && inUrb == Live)
      ensures outBuf == old(outBuf) || fresh(outBuf)
    {
      var i := 0;
      while i < |descs|
        invariant 0 <= i <= |descs|
        invariant ScanView() == ScanUpTo(descs, i, grant)
        invariant outBufPtr == Live ==> outBuf.Length == outSize
        invariant outBuf == old(outBuf) || fresh(outBuf)
      {
        failed := ScanEndpoint(descs[i], grant);
        if failed {
          ScanFailureIsFinal(descs, i + 1, |descs|, grant);
          return;
        }
        i := i + 1;
      }
      BoundEndpointsAreLive(descs, |descs|, grant);
      failed := false;
    }

    /** The rest of bdu_probe once the endpoint loop has run to its end:
        -ENOMEM unless both endpoints were found, then registration, the
        initialisation of the column, the access count and the gate, and
        the first inbound submission. Each failure drops the only
        reference; a failed submission does so after registration. */
    method Attach(registerStatus: int, submitStatus: int) returns (r: int)
      requires !freed && refcount == 1 && !attached && numAccess == 0
      requires sem == 0 && !outInFlight && !inArmed && !workPending
      requires outAddr != 0 ==> outBufPtr == Live && outUrb == Live && outBuf.Length == outSize
      requires inAddr != 0 ==> inBufPtr == Live && inUrb == Live
      modifies this`attached, this`numAccess, this`col, this`sem, this`inArmed
      modifies this`refcount, this`freed, this`strayFree
      ensures r == if outAddr == 0 || inAddr == 0 then -ENOMEM
                   else if registerStatus != 0 then registerStatus
                   else submitStatus
      ensures attached <==> outAddr != 0 && inAddr != 0 && registerStatus == 0
      ensures r != 0 ==> freed && refcount == 0 && strayFree == (old(strayFree) || HasUninit(ScanView()))
      ensures r == 0 ==> Ready() && Clean() == old(Clean())
    {
      if !(inAddr != 0 && outAddr != 0) {
        Put();
        return -ENOMEM;
      }
      if registerStatus != 0 {
        Put();
        return registerStatus;
      }
      attached := true;
      numAccess := 0;
      col := 0;
      sem := 1;
      if submitStatus != 0 {
        Put();
        return submitStatus;
      }
      inArmed := true;
      r := 0;
    }

    // -------------------------------------------------------------------
    // Disconnect

    /** bdu_disconnect: runs the queued key work if there is one, unregisters
        the device so no open can reach it, and drops the attach's reference;
        the session is released now unless a client still has it open. */
    method Disconnect(tries: seq<Attempt>)
      requires Valid() && !freed && attached && |tries| == 3
      requires workPending ==> KeyRun(View(), keyCode, tries).Some?
      modifies this`col, this`sem, this`outInFlight, this`sent, this`workPending
      modifies outBuf, this`overrun, this`clobbered
      modifies this`attached, this`refcount, this`freed, this`strayFree
      ensures Valid() && !attached && !workPending
      ensures View() == if old(workPending) then KeyRun(old(View()), old(keyCode), tries).value else old(View())
      ensures refcount == old(refcount) - 1
      ensures freed <==> old(numAccess) == 0
      ensures strayFree == old(strayFree)
      ensures outBuf.Length >= 2 ==> overrun == old(overrun)
      ensures clobbered == old(clobbered)
    {
      if workPending {
        ProcessKey(tries);
      }
      attached := false;
      Put();
    }
  }

  /** The value bdu_probe returns, given the descriptors, the allocation
      outcomes, and what usb_register_dev and the first inbound
      usb_submit_urb return. */
  function AttachStatus(descs: seq<EndpointDesc>, grant: seq<bool>, registerStatus: int, submitStatus: int): int
  {
    if !Granted(grant, 0) then -ENOMEM
    else
      var s := Scan(descs, grant);
      if s.failed || s.outAddr == 0 || s.inAddr == 0 then -ENOMEM
      else if registerStatus != 0 then registerStatus
      else submitStatus
  }

  /** Whether bdu_probe gets as far as registering the device. */
  predicate Registers(descs: seq<EndpointDesc>, grant: seq<bool>, registerStatus: int)
  {
    var s := Scan(descs, grant);
    Granted(grant, 0) && !s.failed && s.outAddr != 0 && s.inAddr != 0 && registerStatus == 0
  }

  /** With every allocation granted, attach succeeds exactly when the
      descriptors hold both a bulk OUT and an interrupt IN endpoint and
      registration and the first inbound submission succeed. */
  lemma AttachNeedsBothEndpoints(descs: seq<EndpointDesc>, registerStatus: int, submitStatus: int)
    requires AllWellFormed(descs)
    ensures AttachStatus(descs, [], registerStatus, submitStatus) == 0 <==>
      FirstIndex(descs, BulkOut).Some? && FirstIndex(descs, InterruptIn).Some? &&
      registerStatus == 0 && submitStatus == 0
    ensures FirstIndex(descs, BulkOut).None? || FirstIndex(descs, InterruptIn).None? ==>
      AttachStatus(descs, [], registerStatus, submitStatus) == -ENOMEM
  {
    ScanWithoutAllocFailure(descs, |descs|);
    ScanSelectsFirst(descs, []);
  }

  /** A device without a keypad endpoint fails to attach, and the release
      of the half-built session tests the keypad pointers that were never
      assigned. */
  lemma MissingEndpointFreesUnassigned(descs: seq<EndpointDesc>)
    requires AllWellFormed(descs) && FirstIndex(descs, InterruptIn).None?
    ensures AttachStatus(descs, [], 0, 0) == -ENOMEM
    ensures HasUninit(Scan(descs, []))
  {
    ScanWithoutAllocFailure(descs, |descs|);
    ScanSelectsFirst(descs, []);
  }

  /** bdu_probe. Every failure after the structure is allocated drops its
      only reference, which releases it; the one failure after registration
      (the first inbound submission) leaves the device registered with its
      interface data pointing at the released structure. */
  method Probe(descs: seq<EndpointDesc>, grant: seq<bool>, registerStatus: int, submitStatus: int)
    returns (retval: int, dev: Session?)
    ensures dev == null <==> !Granted(grant, 0)
    ensures retval == AttachStatus(descs, grant, registerStatus, submitStatus)
    ensures dev != null ==> fresh(dev) && fresh(dev.outBuf) && dev.ScanView() == Scan(descs, grant).(failed := false)
    ensures dev != null ==> (dev.attached <==> Registers(descs, grant, registerStatus))
    ensures dev != null && retval != 0 ==>
      dev.freed && dev.refcount == 0 && dev.strayFree == HasUninit(dev.ScanView())
    ensures retval == 0 ==> dev.Ready() && dev.View() == Line(0, Free, []) && dev.Clean()
  {
    if !Granted(grant, 0) {
      return -ENOMEM, null;
    }
    dev := new Session();
    var failed := dev.ScanInterface(descs, grant);
    if failed {
      dev.Put();
      return -ENOMEM, dev;
    }
    retval := dev.Attach(registerStatus, submitStatus);
  }

  /** A client of the driver: a device is probed, its node opened and
      `user` written to it. Once the probe succeeds the write goes out as one
      frame holding the bytes that fit on the line. */
  method ProbeOpenWrite(descs: seq<EndpointDesc>, grant: seq<bool>, registerStatus: int, submitStatus: int,
                        user: seq<byte>)
    returns (r: int, dev: Session?)
    ensures var status := AttachStatus(descs, grant, registerStatus, submitStatus);
      r == (if status == 0 then |user| else status)
    ensures AttachStatus(descs, grant, registerStatus, submitStatus) == 0 ==>
      dev != null && dev.numAccess == 1 &&
      dev.View() == Line(Taken(0, |user|), Busy, [DataFrame(user[..Taken(0, |user|)])])
  {
    r, dev := Probe(descs, grant, registerStatus, submitStatus);
    if r != 0 {
      return;
    }
    var openStatus := dev.Open();
    r := dev.Write(user, Smooth);
  }
}
