/**
 * The endpoint scan of `bdu_probe`: the driver walks the interface's
 * endpoint descriptors in order, binds the first bulk OUT endpoint (the
 * display) and the first interrupt IN endpoint (the keypad), and allocates
 * a buffer and a transfer descriptor (URB) for each as soon as it binds it.
 *
 * Bit meanings follow section 9.6.6 of the USB 2.0 Specification:
 * bit 7 of bEndpointAddress is the direction (1 = IN), bits 3..0 the
 * endpoint number, and bits 1..0 of bmAttributes the transfer type.
 */
module Endpoints {
  import opened Basics

  const UsbDirIn: bv8 := 0x80
  const EndpointNumberMask: bv8 := 0x0F
  const XferTypeMask: bv8 := 0x03
  const XferBulk: bv8 := 2
  const XferInt: bv8 := 3

  datatype EndpointDesc = EndpointDesc(address: bv8, attributes: bv8, maxPacketSize: nat)

  predicate IsBulkOut(e: EndpointDesc)
  {
    e.address & UsbDirIn == 0 && e.attributes & XferTypeMask == XferBulk
  }

  predicate IsIntIn(e: EndpointDesc)
  {
    e.address & UsbDirIn != 0 && e.attributes & XferTypeMask == XferInt
  }

  /** What the USB core guarantees of the descriptors it hands to a driver:
      endpoint 0 is never listed, and wMaxPacketSize is a 16-bit field. */
  predicate WellFormed(e: EndpointDesc)
  {
    e.address & EndpointNumberMask != 0 && e.maxPacketSize < 0x1_0000
  }

  predicate AllWellFormed(descs: seq<EndpointDesc>)
  {
    forall i :: 0 <= i < |descs| ==> WellFormed(descs[i])
  }

  datatype Role = BulkOut | InterruptIn

  predicate Serves(e: EndpointDesc, role: Role)
  {
    match role
    case BulkOut => IsBulkOut(e)
    case InterruptIn => IsIntIn(e)
  }

  /** Reference definition of the selection: the position of the first
      descriptor that can play `role`, if any. */
  function FirstIndex(descs: seq<EndpointDesc>, role: Role): (r: Option<nat>)
    ensures r.Some? ==> r.value < |descs| && Serves(descs[r.value], role)
    ensures r.Some? ==> forall j :: 0 <= j < r.value ==> !Serves(descs[j], role)
    ensures r.None? <==> forall j :: 0 <= j < |descs| ==> !Serves(descs[j], role)
  {
    if |descs| == 0 then None
    else
      match FirstIndex(descs[..|descs| - 1], role)
      case Some(i) => Some(i)
      case None => if Serves(descs[|descs| - 1], role) then Some(|descs| - 1) else None
  }

  /** A pointer field of the driver's state. `kmalloc` does not zero the
      structure, so a field probe never reaches holds an indeterminate value. */
  datatype Ptr = Uninit | Null | Live

  /** The probe-time fields of the device structure, plus how many
      allocations have been requested and whether one of them failed. */
  datatype ScanState = ScanState(
    outAddr: bv8, outSize: nat, outBuf: Ptr, outUrb: Ptr,
    inAddr: bv8, inSize: nat, inBuf: Ptr, inUrb: Ptr,
    allocs: nat, failed: bool)

  /** Outcome of the n-th allocation of the attach (kmalloc or usb_alloc_urb),
      counted from 0; allocations past the end of `grant` succeed. */
  predicate Granted(grant: seq<bool>, n: nat)
  {
    n >= |grant| || grant[n]
  }

  /** State right after the structure itself was allocated (allocation 0):
      both endpoint addresses cleared, every pointer still indeterminate. */
  const Start := ScanState(0, 0, Uninit, Uninit, 0, 0, Uninit, Uninit, 1, false)

  predicate HasUninit(s: ScanState)
  {
    s.outBuf == Uninit || s.outUrb == Uninit || s.inBuf == Uninit || s.inUrb == Uninit
  }

  /** Binding the bulk OUT endpoint: record it, then allocate its buffer and its URB. */
  function BindOut(s: ScanState, e: EndpointDesc, grant: seq<bool>): ScanState
  {
    var bound := s.(outAddr := e.address, outSize := e.maxPacketSize);
    if !Granted(grant, s.allocs) then bound.(outBuf := Null, allocs := s.allocs + 1, failed := true)
    else if !Granted(grant, s.allocs + 1) then bound.(outBuf := Live, outUrb := Null, allocs := s.allocs + 2, failed := true)
    else bound.(outBuf := Live, outUrb := Live, allocs := s.allocs + 2)
  }

  /** Binding the interrupt IN endpoint, the same way. */
  function BindIn(s: ScanState, e: EndpointDesc, grant: seq<bool>): ScanState
  {
    var bound := s.(inAddr := e.address, inSize := e.maxPacketSize);
    if !Granted(grant, s.allocs) then bound.(inBuf := Null, allocs := s.allocs + 1, failed := true)
    else if !Granted(grant, s.allocs + 1) then bound.(inBuf := Live, inUrb := Null, allocs := s.allocs + 2, failed := true)
    else bound.(inBuf := Live, inUrb := Live, allocs := s.allocs + 2)
  }

  /** One iteration of the scan loop. A zero address means "not bound yet";
      a failed allocation ends the scan. */
  function ScanStep(s: ScanState, e: EndpointDesc, grant: seq<bool>): ScanState
  {
    if s.failed then s
    else
      var s1 := if s.outAddr == 0 && IsBulkOut(e) then BindOut(s, e, grant) else s;
      if s1.failed then s1
      else if s1.inAddr == 0 && IsIntIn(e) then BindIn(s1, e, grant)
      else s1
  }

  /** The state after the first n descriptors have been scanned. */
  function ScanUpTo(descs: seq<EndpointDesc>, n: nat, grant: seq<bool>): ScanState
    requires n <= |descs|
  {
    if n == 0 then Start else ScanStep(ScanUpTo(descs, n - 1, grant), descs[n - 1], grant)
  }

  function Scan(descs: seq<EndpointDesc>, grant: seq<bool>): ScanState
  {
    ScanUpTo(descs, |descs|, grant)
  }

  /** A failed allocation ends the scan: no later descriptor changes anything. */
  lemma {:induction false} ScanFailureIsFinal(descs: seq<EndpointDesc>, n: nat, m: nat, grant: seq<bool>)
    requires n <= m <= |descs|
    requires ScanUpTo(descs, n, grant).failed
    ensures ScanUpTo(descs, m, grant) == ScanUpTo(descs, n, grant)
  {
    if m > n {
      ScanFailureIsFinal(descs, n, m - 1, grant);
    }
  }

  /** A scan in which every allocation succeeds never fails. */
  lemma {:induction false} ScanWithoutAllocFailure(descs: seq<EndpointDesc>, n: nat)
    requires n <= |descs|
    ensures !ScanUpTo(descs, n, []).failed
  {
    if n > 0 {
      ScanWithoutAllocFailure(descs, n - 1);
    }
  }

  /** Until an allocation fails, an endpoint the scan has recorded with a
      non-zero address owns a live buffer and a live URB. */
  lemma {:induction false} BoundEndpointsAreLive(descs: seq<EndpointDesc>, n: nat, grant: seq<bool>)
    requires n <= |descs|
    ensures var s := ScanUpTo(descs, n, grant);
      !s.failed ==>
        (s.outAddr != 0 ==> s.outBuf == Live && s.outUrb == Live) &&
        (s.inAddr != 0 ==> s.inBuf == Live && s.inUrb == Live)
  {
    if n > 0 {
      BoundEndpointsAreLive(descs, n - 1, grant);
    }
  }

  lemma EndpointAddressNonZero(e: EndpointDesc)
    requires WellFormed(e)
    ensures e.address != 0
  {
  }

  /** The fields a scan keeps for one role agree with the reference
      selection `first`: bound to that descriptor with live buffer and URB,
      or, when there is none, left at address 0 with both pointers never
      assigned. */
  predicate BindsOut(s: ScanState, descs: seq<EndpointDesc>, first: Option<nat>)
  {
    match first
    case None => s.outAddr == 0 && s.outBuf == Uninit && s.outUrb == Uninit
    case Some(i) => i < |descs| && s.outAddr == descs[i].address && s.outAddr != 0
                    && s.outSize == descs[i].maxPacketSize && s.outBuf == Live && s.outUrb == Live
  }

  predicate BindsIn(s: ScanState, descs: seq<EndpointDesc>, first: Option<nat>)
  {
    match first
    case None => s.inAddr == 0 && s.inBuf == Uninit && s.inUrb == Uninit
    case Some(i) => i < |descs| && s.inAddr == descs[i].address && s.inAddr != 0
                    && s.inSize == descs[i].maxPacketSize && s.inBuf == Live && s.inUrb == Live
  }

  /** The bulk OUT fields of a scan state. */
  function OutFields(s: ScanState): (bv8, nat, Ptr, Ptr)
  {
    (s.outAddr, s.outSize, s.outBuf, s.outUrb)
  }

  function InFields(s: ScanState): (bv8, nat, Ptr, Ptr)
  {
    (s.inAddr, s.inSize, s.inBuf, s.inUrb)
  }

  /** A scan step that does not fail binds `e` as the bulk OUT endpoint
      exactly when none is bound yet and `e` is one; otherwise it leaves
      the bulk OUT fields alone. */
  lemma StepOut(s: ScanState, e: EndpointDesc, grant: seq<bool>)
    requires !ScanStep(s, e, grant).failed
    ensures OutFields(ScanStep(s, e, grant)) ==
      if s.outAddr == 0 && IsBulkOut(e) then (e.address, e.maxPacketSize, Live, Live) else OutFields(s)
  {
  }

  lemma StepIn(s: ScanState, e: EndpointDesc, grant: seq<bool>)
    requires !ScanStep(s, e, grant).failed
    ensures InFields(ScanStep(s, e, grant)) ==
      if s.inAddr == 0 && IsIntIn(e) then (e.address, e.maxPacketSize, Live, Live) else InFields(s)
  {
  }

  /** The reference selection over one more descriptor. */
  lemma FirstIndexExtend(descs: seq<EndpointDesc>, n: nat, role: Role)
    requires 0 < n <= |descs|
    ensures FirstIndex(descs[..n], role) ==
      if FirstIndex(descs[..n - 1], role).Some? then FirstIndex(descs[..n - 1], role)
      else if Serves(descs[n - 1], role) then Some(n - 1) else None
  {
    assert descs[..n][..n - 1] == descs[..n - 1];
  }

  /** Selection of the bulk OUT endpoint: as long as no allocation failed,
      the scan of the first n descriptors has bound exactly the first bulk
      OUT descriptor among them (later matches are ignored), its buffer sized
      by that descriptor's wMaxPacketSize. */
  lemma {:induction false} ScanSelectsFirstOut(descs: seq<EndpointDesc>, n: nat, grant: seq<bool>)
    requires n <= |descs| && AllWellFormed(descs)
    ensures !ScanUpTo(descs, n, grant).failed ==>
      BindsOut(ScanUpTo(descs, n, grant), descs, FirstIndex(descs[..n], BulkOut))
  {
    if n > 0 && !ScanUpTo(descs, n, grant).failed {
      var prev := ScanUpTo(descs, n - 1, grant);
      var e := descs[n - 1];
      assert !prev.failed;
      ScanSelectsFirstOut(descs, n - 1, grant);
      StepOut(prev, e, grant);
      FirstIndexExtend(descs, n, BulkOut);
      EndpointAddressNonZero(e);
    }
  }

  /** Selection of the interrupt IN endpoint, the same way. */
  lemma {:induction false} ScanSelectsFirstIn(descs: seq<EndpointDesc>, n: nat, grant: seq<bool>)
    requires n <= |descs| && AllWellFormed(descs)
    ensures !ScanUpTo(descs, n, grant).failed ==>
      BindsIn(ScanUpTo(descs, n, grant), descs, FirstIndex(descs[..n], InterruptIn))
  {
    if n > 0 && !ScanUpTo(descs, n, grant).failed {
      var prev := ScanUpTo(descs, n - 1, grant);
      var e := descs[n - 1];
      assert !prev.failed;
      ScanSelectsFirstIn(descs, n - 1, grant);
      StepIn(prev, e, grant);
      FirstIndexExtend(descs, n, InterruptIn);
      EndpointAddressNonZero(e);
    }
  }

  /** The whole scan, when no allocation failed, binds the first match of each role. */
  lemma ScanSelectsFirst(descs: seq<EndpointDesc>, grant: seq<bool>)
    requires AllWellFormed(descs)
    ensures !Scan(descs, grant).failed ==>
      BindsOut(Scan(descs, grant), descs, FirstIndex(descs, BulkOut)) &&
      BindsIn(Scan(descs, grant), descs, FirstIndex(descs, InterruptIn))
  {
    ScanSelectsFirstOut(descs, |descs|, grant);
    ScanSelectsFirstIn(descs, |descs|, grant);
    assert descs[..|descs|] == descs;
  }
}
