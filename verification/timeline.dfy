/** The panel's view of a trace in time order: pin changes, delays and
    latched octets interleaved as they happen.  `Wire.WireFrom`,
    `Transport.Delays` and `Transport.PinChanges` each keep one kind of
    step; this view keeps the order between them, which is what hold times
    and "wait before the next command" are about. */
module Timeline {
  import opened Transport
  import opened Wire

  /** One thing the panel observes: a GPIO pin driven to a level, a delay in
      milliseconds, or one octet latched. */
  datatype Step = Drive(pin: int, level: bool) | Wait(ms: nat) | Latch(b: WireByte)

  /** Octets latched one after the other. */
  function Latches(w: seq<WireByte>): seq<Step> {
    seq(|w|, i requires 0 <= i < |w| => Latch(w[i]))
  }

  /** The steps of a trace, when the D/C line starts at `dc`. */
  function Steps(t: seq<Event>, dc: bool): seq<Step>
    decreases |t|
  {
    if |t| == 0 then []
    else match t[0]
      case SetDc(level) => Steps(t[1..], level)
      case SpiWrite(bs) => Latches(Tag(bs, dc)) + Steps(t[1..], dc)
      case Pin(pin, level) => [Drive(pin, level)] + Steps(t[1..], dc)
      case Sleep(ms) => [Wait(ms)] + Steps(t[1..], dc)
  }

  /** The latched octets among some steps. */
  function LatchedOf(s: seq<Step>): seq<WireByte>
    decreases |s|
  {
    if |s| == 0 then [] else (if s[0].Latch? then [s[0].b] else []) + LatchedOf(s[1..])
  }

  /** The delays among some steps. */
  function WaitsOf(s: seq<Step>): seq<nat>
    decreases |s|
  {
    if |s| == 0 then [] else (if s[0].Wait? then [s[0].ms] else []) + WaitsOf(s[1..])
  }

  /** The pin changes among some steps. */
  function DrivesOf(s: seq<Step>): seq<(int, bool)>
    decreases |s|
  {
    if |s| == 0 then [] else (if s[0].Drive? then [(s[0].pin, s[0].level)] else []) + DrivesOf(s[1..])
  }

  /** Latching concatenated octets is latching one run, then the other. */
  lemma LatchesAppend(u: seq<WireByte>, v: seq<WireByte>)
    ensures Latches(u + v) == Latches(u) + Latches(v)
  {
    assert forall i :: 0 <= i < |u + v| ==> Latches(u + v)[i] == (Latches(u) + Latches(v))[i];
  }

  /** Among latches only, every step is a latch. */
  lemma {:induction false} OfLatches(w: seq<WireByte>)
    ensures LatchedOf(Latches(w)) == w && WaitsOf(Latches(w)) == [] && DrivesOf(Latches(w)) == []
    decreases |w|
  {
    if |w| > 0 {
      assert Latches(w)[1..] == Latches(w[1..]);
      OfLatches(w[1..]);
      assert [w[0]] + w[1..] == w;
    }
  }

  /** The latched octets of concatenated steps are concatenated. */
  lemma {:induction false} LatchedAppend(s: seq<Step>, u: seq<Step>)
    ensures LatchedOf(s + u) == LatchedOf(s) + LatchedOf(u)
    decreases |s|
  {
    if |s| == 0 {
      assert s + u == u;
    } else {
      assert (s + u)[0] == s[0];
      assert (s + u)[1..] == s[1..] + u;
      LatchedAppend(s[1..], u);
      var head := if s[0].Latch? then [s[0].b] else [];
      assert LatchedOf(s + u) == head + LatchedOf(s[1..] + u);
      assert LatchedOf(s) == head + LatchedOf(s[1..]);
      assert head + (LatchedOf(s[1..]) + LatchedOf(u)) == (head + LatchedOf(s[1..])) + LatchedOf(u);
    }
  }

  /** The delays of concatenated steps are concatenated. */
  lemma {:induction false} WaitsAppend(s: seq<Step>, u: seq<Step>)
    ensures WaitsOf(s + u) == WaitsOf(s) + WaitsOf(u)
    decreases |s|
  {
    if |s| == 0 {
      assert s + u == u;
    } else {
      assert (s + u)[0] == s[0];
      assert (s + u)[1..] == s[1..] + u;
      WaitsAppend(s[1..], u);
      var head := if s[0].Wait? then [s[0].ms] else [];
      assert WaitsOf(s + u) == head + WaitsOf(s[1..] + u);
      assert WaitsOf(s) == head + WaitsOf(s[1..]);
      assert head + (WaitsOf(s[1..]) + WaitsOf(u)) == (head + WaitsOf(s[1..])) + WaitsOf(u);
    }
  }

  /** The pin changes of concatenated steps are concatenated. */
  lemma {:induction false} DrivesAppend(s: seq<Step>, u: seq<Step>)
    ensures DrivesOf(s + u) == DrivesOf(s) + DrivesOf(u)
    decreases |s|
  {
    if |s| == 0 {
      assert s + u == u;
    } else {
      assert (s + u)[0] == s[0];
      assert (s + u)[1..] == s[1..] + u;
      DrivesAppend(s[1..], u);
      var head := if s[0].Drive? then [(s[0].pin, s[0].level)] else [];
      assert DrivesOf(s + u) == head + DrivesOf(s[1..] + u);
      assert DrivesOf(s) == head + DrivesOf(s[1..]);
      assert head + (DrivesOf(s[1..]) + DrivesOf(u)) == (head + DrivesOf(s[1..])) + DrivesOf(u);
    }
  }

  /** The three projections distribute over concatenation of steps. */
  lemma ProjectionsAppend(s: seq<Step>, u: seq<Step>)
    ensures LatchedOf(s + u) == LatchedOf(s) + LatchedOf(u)
    ensures WaitsOf(s + u) == WaitsOf(s) + WaitsOf(u)
    ensures DrivesOf(s + u) == DrivesOf(s) + DrivesOf(u)
  {
    LatchedAppend(s, u);
    WaitsAppend(s, u);
    DrivesAppend(s, u);
  }

  /** The ordered view refines the three separate ones: keeping only its
      latches gives `WireFrom`, only its delays `Delays`, only its pin
      changes `PinChanges`. */
  lemma {:induction false} StepsProject(t: seq<Event>, dc: bool)
    ensures LatchedOf(Steps(t, dc)) == WireFrom(t, dc)
    ensures WaitsOf(Steps(t, dc)) == Delays(t)
    ensures DrivesOf(Steps(t, dc)) == PinChanges(t)
    decreases |t|
  {
    if |t| > 0 {
      match t[0]
      case SetDc(level) =>
        StepsProject(t[1..], level);
      case SpiWrite(bs) =>
        StepsProject(t[1..], dc);
        OfLatches(Tag(bs, dc));
        ProjectionsAppend(Latches(Tag(bs, dc)), Steps(t[1..], dc));
      case Pin(pin, level) =>
        StepsProject(t[1..], dc);
        ProjectionsAppend([Drive(pin, level)], Steps(t[1..], dc));
        assert [Drive(pin, level)][1..] == [];
      case Sleep(ms) =>
        StepsProject(t[1..], dc);
        ProjectionsAppend([Wait(ms)], Steps(t[1..], dc));
        assert [Wait(ms)][1..] == [];
    }
  }

  /** A framed trace is observed the same way whatever the D/C level before it. */
  lemma {:induction false} FramedStepsIgnoreDc(t: seq<Event>, a: bool, b: bool)
    requires Framed(t)
    ensures Steps(t, a) == Steps(t, b)
    decreases |t|
  {
    if |t| > 0 && !t[0].SetDc? {
      FramedStepsIgnoreDc(t[1..], a, b);
    }
  }

  /** A trace followed by a framed trace is observed as the one, then the other. */
  lemma {:induction false} StepsAppend(a: seq<Event>, b: seq<Event>, dc: bool)
    requires Framed(b)
    ensures Steps(a + b, dc) == Steps(a, dc) + Steps(b, dc)
    decreases |a|
  {
    if |a| == 0 {
      assert a + b == b;
    } else {
      assert (a + b)[0] == a[0];
      assert (a + b)[1..] == a[1..] + b;
      match a[0]
      case SetDc(level) =>
        StepsAppend(a[1..], b, level);
        FramedStepsIgnoreDc(b, level, dc);
      case SpiWrite(bs) =>
        StepsAppend(a[1..], b, dc);
      case Pin(_, _) =>
        StepsAppend(a[1..], b, dc);
      case Sleep(_) =>
        StepsAppend(a[1..], b, dc);
    }
  }

  /** A trace that neither waits nor drives a pin is observed as its latched
      octets alone. */
  lemma {:induction false} SilentSteps(t: seq<Event>, dc: bool)
    requires Delays(t) == [] && PinChanges(t) == []
    ensures Steps(t, dc) == Latches(WireFrom(t, dc))
    decreases |t|
  {
    if |t| > 0 && t[0].SetDc? {
      SilentSteps(t[1..], t[0].level);
    } else if |t| > 0 && t[0].SpiWrite? {
      SilentSteps(t[1..], dc);
      LatchesAppend(Tag(t[0].bytes, dc), WireFrom(t[1..], dc));
    }
  }

  /** A single delay is observed as itself. */
  lemma WaitStep(ms: nat, dc: bool)
    ensures Framed([Sleep(ms)]) && Steps([Sleep(ms)], dc) == [Wait(ms)]
  {
    assert [Sleep(ms)][1..] == [];
    assert Framed([Sleep(ms)][1..]);
  }

  /** Two silent framed traces between three delays: the first delay, the
      first trace's octets, the second delay, the second trace's octets,
      the last delay, in that order. */
  lemma StepsBetweenSleeps(d1: nat, d2: nat, d3: nat, ta: seq<Event>, tb: seq<Event>, dc: bool)
    requires Framed(ta) && Delays(ta) == [] && PinChanges(ta) == []
    requires Framed(tb) && Delays(tb) == [] && PinChanges(tb) == []
    ensures Steps([Sleep(d1)] + ta + [Sleep(d2)] + tb + [Sleep(d3)], dc) ==
      [Wait(d1)] + Latches(WireFrom(ta, dc)) + [Wait(d2)] + Latches(WireFrom(tb, dc)) + [Wait(d3)]
  {
    var s1, s2, s3 := [Sleep(d1)], [Sleep(d2)], [Sleep(d3)];
    WaitStep(d1, dc);
    WaitStep(d2, dc);
    WaitStep(d3, dc);
    SilentSteps(ta, dc);
    SilentSteps(tb, dc);
    StepsAppend(s1, ta, dc);
    FramedAppend(s1, ta);
    StepsAppend(s1 + ta, s2, dc);
    FramedAppend(s1 + ta, s2);
    StepsAppend(s1 + ta + s2, tb, dc);
    FramedAppend(s1 + ta + s2, tb);
    StepsAppend(s1 + ta + s2 + tb, s3, dc);
  }
}
