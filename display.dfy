/**
 * The display side of the driver, as values: the frames sent to the
 * one-line, 16-column display, the outbound gate, and what one user write
 * and one key event do to the cursor column, the gate and the log of
 * frames handed to the USB core.
 *
 * Frames: marker 0x01 followed by characters to show, or marker 0x00
 * followed by one command byte; command 0x80 + c moves the cursor to
 * column c.
 */
module Display {
  import opened Basics

  type Frame = seq<byte>

  const LineWidth: nat := 16
  const DataMarker: byte := 0x01
  const CommandMarker: byte := 0x00
  const CursorBase: byte := 0x80
  /** The key that deletes the previous character ('F'). */
  const DeleteKey: byte := 0x46
  const Blank: byte := 0x20

  /** `x++` and `x--` on a u8. */
  function Inc(b: byte): byte { (b + 1) % 256 }
  function Dec(b: byte): byte { (b + 255) % 256 }

  function DataFrame(payload: seq<byte>): Frame
  {
    [DataMarker] + payload
  }

  /** `0x80 + col` stored into an unsigned char. */
  function CursorFrame(col: byte): Frame
  {
    [CommandMarker, (CursorBase + col) % 256]
  }

  /** The outbound gate (a semaphore initialised to 1) together with the
      outbound transfer: Free (count 1), Busy (count 0, a transfer in
      flight whose completion may release it) or Stuck (count 0 and no
      transfer in flight: nothing will ever release it). */
  datatype Gate = Free | Busy | Stuck

  /** What the environment does to one gated send: whether a signal
      arrives while the sender is blocked on the gate, and whether
      usb_submit_urb accepts the transfer. */
  datatype Attempt = Attempt(signalled: bool, accepted: bool)

  const Smooth := Attempt(false, true)

  /** The display-facing state: cursor column (a u8), gate, and the frames
      the USB core accepted, oldest first. */
  datatype Line = Line(col: byte, gate: Gate, sent: seq<Frame>)

  /** down_interruptible takes a free gate at once, even with a signal
      pending; on a busy gate it waits for the transfer's completion unless
      a signal ends the wait. */
  predicate Acquires(g: Gate, signalled: bool)
  {
    g == Free || (g == Busy && !signalled)
  }

  /** A wait that nothing can end: the gate is stuck and no signal comes. */
  predicate Blocks(g: Gate, signalled: bool)
  {
    g == Stuck && !signalled
  }

  /** Submitting a frame with the gate held: an accepted transfer is in
      flight; a rejected one leaves the gate taken for good. */
  function Submit(l: Line, f: Frame, accepted: bool): Line
  {
    if accepted then l.(gate := Busy, sent := l.sent + [f]) else l.(gate := Stuck)
  }

  // ---------------------------------------------------------------------
  // bdu_write

  /** How many user bytes a write takes: up to the end of the line. */
  function Taken(col: byte, count: nat): (k: nat)
    ensures k <= count
    ensures col >= LineWidth ==> k == 0
    ensures col < LineWidth ==> col + k <= LineWidth && (k == count || col + k == LineWidth)
  {
    if col >= LineWidth then 0 else Min(count, LineWidth - col)
  }

  /** A write advances the column over the bytes it takes before it waits
      for the gate; if it gets the gate it submits them in one data frame. */
  function WriteRun(l: Line, user: seq<byte>, a: Attempt): Line
  {
    var k := Taken(l.col, |user|);
    var moved := l.(col := l.col + k);
    if Acquires(l.gate, a.signalled) then Submit(moved, DataFrame(user[..k]), a.accepted) else moved
  }

  /** What bdu_write returns: the whole count, or -ERESTARTSYS on a signal. */
  function WriteReturn(l: Line, user: seq<byte>, a: Attempt): int
  {
    if Acquires(l.gate, a.signalled) then |user| else -ERESTARTSYS
  }

  /** One write: it submits [0x01] followed by the first
      k = min(count, 16 - col) user bytes, leaves the column at col + k and
      reports the whole count; a signal while it waits submits nothing but
      the column has already moved. */
  lemma WriteFraming(l: Line, user: seq<byte>, a: Attempt)
    requires l.col <= LineWidth && !Blocks(l.gate, a.signalled)
    ensures var r := WriteRun(l, user, a);
      var k := Min(|user|, LineWidth - l.col);
      r.col == l.col + k && r.col <= LineWidth &&
      (Acquires(l.gate, a.signalled) && a.accepted ==> r.sent == l.sent + [[0x01] + user[..k]]) &&
      (!(Acquires(l.gate, a.signalled) && a.accepted) ==> r.sent == l.sent) &&
      WriteReturn(l, user, a) == (if Acquires(l.gate, a.signalled) then |user| else -ERESTARTSYS)
  {
  }

  /** The characters a sequence of frames puts on the display. */
  function Shown(fs: seq<Frame>): seq<byte>
  {
    if fs == [] then []
    else
      var f := fs[|fs| - 1];
      Shown(fs[..|fs| - 1]) + (if |f| > 0 && f[0] == DataMarker then f[1..] else [])
  }

  function Flatten(ws: seq<seq<byte>>): seq<byte>
  {
    if ws == [] then [] else Flatten(ws[..|ws| - 1]) + ws[|ws| - 1]
  }

  /** A run of writes none of which is interrupted or refused. */
  function WriteAll(l: Line, ws: seq<seq<byte>>): Line
  {
    if ws == [] then l else WriteRun(WriteAll(l, ws[..|ws| - 1]), ws[|ws| - 1], Smooth)
  }

  lemma ShownExtend(fs: seq<Frame>, f: Frame)
    ensures Shown(fs + [f]) == Shown(fs) + (if |f| > 0 && f[0] == DataMarker then f[1..] else [])
  {
    assert (fs + [f])[..|fs|] == fs;
  }

  /** Successive writes that are neither interrupted nor refused advance
      the column by the total written, capped at the end of the line, and
      each adds one frame to the log, after the frames already there. */
  lemma {:induction false} WritesAdvance(l: Line, ws: seq<seq<byte>>)
    requires l.col <= LineWidth && l.gate != Stuck
    ensures var r := WriteAll(l, ws);
      r.gate != Stuck &&
      r.col == l.col + Min(|Flatten(ws)|, LineWidth - l.col) &&
      |r.sent| == |l.sent| + |ws| && r.sent[..|l.sent|] == l.sent
  {
    if ws != [] {
      var init, w := ws[..|ws| - 1], ws[|ws| - 1];
      WritesAdvance(l, init);
      var p := WriteAll(l, init);
      assert Flatten(ws) == Flatten(init) + w;
      var r := WriteRun(p, w, Smooth);
      assert r.sent[..|l.sent|] == p.sent[..|l.sent|];
    }
  }

  /** One more data frame carrying the next k written bytes extends what
      the frames show by those bytes; once bytes were dropped (a < |fl|),
      no later write takes any. */
  lemma ShowsPrefix(before: seq<Frame>, fl: seq<byte>, a: nat, w: seq<byte>, k: nat)
    requires a <= |fl| && k <= |w| && Shown(before) == fl[..a]
    requires a < |fl| ==> k == 0
    ensures Shown(before + [DataFrame(w[..k])]) == (fl + w)[..a + k]
  {
    var f := DataFrame(w[..k]);
    ShownExtend(before, f);
    assert f[1..] == w[..k];
    if a < |fl| {
      assert (fl + w)[..a] == fl[..a];
    } else {
      assert fl[..a] == fl;
      assert (fl + w)[..a + k] == fl + w[..k];
    }
  }

  /** One more uninterrupted write keeps the frames added since `l`
      showing exactly the prefix of the bytes written since `l` that fits. */
  lemma FillStep(l: Line, p: Line, fl: seq<byte>, w: seq<byte>)
    requires l.col <= p.col <= LineWidth && p.gate != Stuck && |l.sent| <= |p.sent|
    requires p.col == l.col + Min(|fl|, LineWidth - l.col)
    requires Shown(p.sent[|l.sent|..]) == fl[..p.col - l.col]
    ensures var r := WriteRun(p, w, Smooth);
      |l.sent| <= |r.sent| && l.col <= r.col <= l.col + |fl + w| &&
      Shown(r.sent[|l.sent|..]) == (fl + w)[..r.col - l.col]
  {
    var k := Taken(p.col, |w|);
    var r := WriteRun(p, w, Smooth);
    assert r.sent == p.sent + [DataFrame(w[..k])] && r.col == p.col + k;
    assert r.sent[|l.sent|..] == p.sent[|l.sent|..] + [DataFrame(w[..k])];
    ShowsPrefix(p.sent[|l.sent|..], fl, p.col - l.col, w, k);
  }

  /** Successive writes fill the line: the frames they add show exactly
      the first bytes of everything written that fit; the rest is dropped. */
  lemma {:induction false} WritesFillLine(l: Line, ws: seq<seq<byte>>)
    requires l.col <= LineWidth && l.gate != Stuck
    ensures var r := WriteAll(l, ws);
      |l.sent| <= |r.sent| && l.col <= r.col <= l.col + |Flatten(ws)| &&
      Shown(r.sent[|l.sent|..]) == Flatten(ws)[..r.col - l.col]
  {
    if ws != [] {
      var init, w := ws[..|ws| - 1], ws[|ws| - 1];
      WritesFillLine(l, init);
      WritesAdvance(l, init);
      assert Flatten(ws) == Flatten(init) + w;
      FillStep(l, WriteAll(l, init), Flatten(init), w);
    }
  }

  // ---------------------------------------------------------------------
  // Processar_tecla

  /** What a gated step does once it holds the gate: move the cursor one
      column left (decrement, then send the cursor command), or show one
      character (send it, then increment). */
  datatype Action = Retreat | Show(c: byte)

  /** One gated step: None when the wait can never end; a step whose wait
      a signal ends is skipped with nothing changed. */
  function Gated(l: Line, a: Attempt, act: Action): Option<Line>
  {
    if Blocks(l.gate, a.signalled) then None
    else if !Acquires(l.gate, a.signalled) then Some(l)
    else
      match act
      case Retreat =>
        var c := Dec(l.col);
        Some(Submit(l.(col := c), CursorFrame(c), a.accepted))
      case Show(ch) =>
        Some(Submit(l, DataFrame([ch]), a.accepted).(col := Inc(l.col)))
  }

  function Then(o: Option<Line>, a: Attempt, act: Action): Option<Line>
  {
    match o
    case None => None
    case Some(l) => Gated(l, a, act)
  }

  /** The deferred key work: 'F' with the cursor past column 0 runs three
      gated steps (cursor left, blank, cursor left); any other key below
      column 16 shows the key; anything else does nothing. */
  function KeyRun(l: Line, key: byte, tries: seq<Attempt>): Option<Line>
    requires |tries| == 3
  {
    if key == DeleteKey && l.col > 0 then
      Then(Then(Gated(l, tries[0], Retreat), tries[1], Show(Blank)), tries[2], Retreat)
    else if key != DeleteKey && l.col < LineWidth then
      Gated(l, tries[0], Show(key))
    else
      Some(l)
  }

  /** 'F' past column 0 with every wait and submission succeeding sends
      cursor-left, blank, cursor-left, and ends one column to the left. */
  lemma DeleteBlanksPrevious(l: Line)
    requires 0 < l.col <= LineWidth && l.gate != Stuck
    ensures KeyRun(l, DeleteKey, [Smooth, Smooth, Smooth])
      == Some(Line(l.col - 1, Busy,
                   l.sent + [[0x00, 0x80 + l.col - 1], [0x01, Blank], [0x00, 0x80 + l.col - 1]]))
  {
    var back, blank := CursorFrame(l.col - 1), DataFrame([Blank]);
    assert back == [0x00, 0x80 + l.col - 1] && blank == [0x01, Blank];
    var l1 := Line(l.col - 1, Busy, l.sent + [back]);
    var l2 := Line(l.col, Busy, l1.sent + [blank]);
    var l3 := Line(l.col - 1, Busy, l2.sent + [back]);
    assert Gated(l, Smooth, Retreat) == Some(l1);
    assert Gated(l1, Smooth, Show(Blank)) == Some(l2);
    assert Gated(l2, Smooth, Retreat) == Some(l3);
    assert l3.sent == l.sent + [back, blank, back];
  }

  /** Any other key before the end of the line is shown and the column advances. */
  lemma EchoesKey(l: Line, key: byte)
    requires key != DeleteKey && l.col < LineWidth && l.gate != Stuck
    ensures KeyRun(l, key, [Smooth, Smooth, Smooth]) == Some(Line(l.col + 1, Busy, l.sent + [[0x01, key]]))
  {
    assert DataFrame([key]) == [0x01, key];
  }

  /** 'F' at column 0, or any other key at column 16 or beyond, does nothing. */
  lemma OutOfLineKeyIsIgnored(l: Line, key: byte, tries: seq<Attempt>)
    requires |tries| == 3
    requires (key == DeleteKey && l.col == 0) || (key != DeleteKey && l.col >= LineWidth)
    ensures KeyRun(l, key, tries) == Some(l)
  {
  }

  /** Frames of two bytes whose cursor commands all address a column of
      the line (0x80..0x8F). */
  predicate InLineFrames(fs: seq<Frame>)
  {
    forall f :: f in fs ==> |f| == 2 && (f[0] == CommandMarker ==> 0x80 <= f[1] <= 0x8F)
  }

  /** `r` keeps the frames of `l` and adds only frames of the line. */
  predicate ExtendsInLine(l: Line, r: Line)
  {
    |l.sent| <= |r.sent| && r.sent[..|l.sent|] == l.sent && InLineFrames(r.sent[|l.sent|..])
  }

  lemma ExtendsInLineTrans(l0: Line, l1: Line, l2: Line)
    requires ExtendsInLine(l0, l1) && ExtendsInLine(l1, l2)
    ensures ExtendsInLine(l0, l2)
  {
    assert l2.sent[..|l0.sent|] == l2.sent[..|l1.sent|][..|l0.sent|];
    var d := l2.sent[|l0.sent|..];
    assert d == l1.sent[|l0.sent|..] + l2.sent[|l1.sent|..];
    forall f | f in d
      ensures |f| == 2 && (f[0] == CommandMarker ==> 0x80 <= f[1] <= 0x8F)
    {
      assert f in l1.sent[|l0.sent|..] || f in l2.sent[|l1.sent|..];
    }
  }

  /** A gated step without a signal that can complete moves the column by
      one and adds at most one in-line frame. */
  lemma UnsignalledStep(l: Line, a: Attempt, act: Action)
    requires !a.signalled && Gated(l, a, act).Some?
    requires act == Retreat ==> 0 < l.col <= LineWidth
    requires act != Retreat ==> l.col < LineWidth
    ensures var r := Gated(l, a, act).value;
      r.col == (if act == Retreat then l.col - 1 else l.col + 1) && ExtendsInLine(l, r)
  {
    var r := Gated(l, a, act).value;
    var added := if act == Retreat then CursorFrame(l.col - 1) else DataFrame([act.c]);
    assert r.sent[|l.sent|..] == (if a.accepted then [added] else []);
  }

  /** Without signals, a key event that completes keeps the column within
      the line, moves it by exactly -1 for a delete and +1 for a shown key,
      sends only two-byte frames, and every cursor command addresses a
      column of the line (0x80..0x8F). */
  lemma KeyStaysInLine(l: Line, key: byte, tries: seq<Attempt>)
    requires |tries| == 3 && l.col <= LineWidth
    requires forall i :: 0 <= i < 3 ==> !tries[i].signalled
    requires KeyRun(l, key, tries).Some?
    ensures var r := KeyRun(l, key, tries).value;
      r.col <= LineWidth &&
      r.col == (if key == DeleteKey && l.col > 0 then l.col - 1
                else if key != DeleteKey && l.col < LineWidth then l.col + 1
                else l.col) &&
      ExtendsInLine(l, r)
  {
    if key == DeleteKey && l.col > 0 {
      assert !tries[0].signalled && !tries[1].signalled && !tries[2].signalled;
      var l1 := Gated(l, tries[0], Retreat).value;
      UnsignalledStep(l, tries[0], Retreat);
      var l2 := Gated(l1, tries[1], Show(Blank)).value;
      UnsignalledStep(l1, tries[1], Show(Blank));
      UnsignalledStep(l2, tries[2], Retreat);
      ExtendsInLineTrans(l, l1, l2);
      ExtendsInLineTrans(l, l2, Gated(l2, tries[2], Retreat).value);
    } else if key != DeleteKey && l.col < LineWidth {
      assert !tries[0].signalled;
      UnsignalledStep(l, tries[0], Show(key));
    } else {
      assert l.sent[|l.sent|..] == [];
    }
  }

  /** A signal during the second step of a delete at column 1 skips the
      blank but not the two decrements: the u8 column wraps to 255 and the
      second cursor command is 0x7F, outside the line. */
  lemma InterruptedDeleteWraps()
    ensures KeyRun(Line(1, Busy, []), DeleteKey, [Smooth, Attempt(true, true), Smooth])
      == Some(Line(255, Busy, [[0x00, 0x80], [0x00, 0x7F]]))
  {
    var l1 := Line(0, Busy, [[0x00, 0x80]]);
    assert CursorFrame(0) == [0x00, 0x80] && CursorFrame(255) == [0x00, 0x7F];
    assert [] + [CursorFrame(0)] == l1.sent;
    assert Gated(Line(1, Busy, []), Smooth, Retreat) == Some(l1);
    assert Gated(l1, Attempt(true, true), Show(Blank)) == Some(l1);
    assert Gated(l1, Smooth, Retreat) == Some(Line(255, Busy, [[0x00, 0x80]] + [[0x00, 0x7F]]));
    var tries := [Smooth, Attempt(true, true), Smooth];
    assert tries[0] == Smooth && tries[1] == Attempt(true, true) && tries[2] == Smooth;
    assert [[0x00, 0x80]] + [[0x00, 0x7F]] == [[0x00, 0x80], [0x00, 0x7F]];
  }

  /** After a refused submission the gate is stuck: the next step of a
      delete waits for ever unless a signal ends the wait. */
  lemma RefusedSubmissionStallsDelete(l: Line, tries: seq<Attempt>)
    requires |tries| == 3 && l.col > 0 && l.gate != Stuck
    requires !tries[0].signalled && !tries[0].accepted
    ensures Gated(l, tries[0], Retreat).value.gate == Stuck
    ensures KeyRun(l, DeleteKey, tries).None? <==> !tries[1].signalled || !tries[2].signalled
  {
  }

  /** The scenario of a short session: "HI" written at column 0 is one
      frame and leaves column 2; 'F' then blanks the 'I' and leaves column 1;
      '!' is then shown and leaves column 2, after all the earlier frames. */
  lemma HiDeleteBang()
    ensures var l1 := WriteRun(Line(0, Free, []), [0x48, 0x49], Smooth);
      var l2 := Line(1, Busy, l1.sent + [[0x00, 0x81], [0x01, Blank], [0x00, 0x81]]);
      l1 == Line(2, Busy, [[0x01, 0x48, 0x49]]) &&
      KeyRun(l1, DeleteKey, [Smooth, Smooth, Smooth]) == Some(l2) &&
      KeyRun(l2, 0x21, [Smooth, Smooth, Smooth]) == Some(Line(2, Busy, l2.sent + [[0x01, 0x21]]))
  {
    var hi: seq<byte> := [0x48, 0x49];
    assert hi[..Taken(0, 2)] == hi;
    assert DataFrame(hi) == [0x01, 0x48, 0x49];
    var l1 := WriteRun(Line(0, Free, []), hi, Smooth);
    assert l1 == Line(2, Busy, [[0x01, 0x48, 0x49]]);
    DeleteBlanksPrevious(l1);
    var l2 := Line(1, Busy, l1.sent + [[0x00, 0x81], [0x01, Blank], [0x00, 0x81]]);
    EchoesKey(l2, 0x21);
  }
}
