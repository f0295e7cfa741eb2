/** The controller's view of a trace.  Each written octet is latched as a
    command or as data according to the D/C level at that moment; a command
    octet opens a register write and the data octets after it are its
    parameters.  This decoding is the partner of every trace the driver
    emits: the lemmas here say which register writes a trace performs. */
module Wire {
  import opened Bytes
  import opened Transport

  /** One octet as the controller latches it. */
  datatype WireByte = WireByte(isData: bool, value: int)

  /** A command octet and the parameter octets that follow it. */
  datatype Register = Register(command: int, params: seq<int>)

  /** `bs`, each octet latched with the same D/C level. */
  function Tag(bs: seq<int>, isData: bool): seq<WireByte> {
    seq(|bs|, i requires 0 <= i < |bs| => WireByte(isData, bs[i]))
  }

  /** The octets of a trace as latched, when the D/C line starts at `dc`.
      Delays and other pins are invisible to the controller. */
  function WireFrom(t: seq<Event>, dc: bool): seq<WireByte>
    decreases |t|
  {
    if |t| == 0 then []
    else match t[0]
      case SetDc(level) => WireFrom(t[1..], level)
      case SpiWrite(bs) => Tag(bs, dc) + WireFrom(t[1..], dc)
      case _ => WireFrom(t[1..], dc)
  }

  /** A trace that sets the D/C line before its first SPI write, as every
      trace built from `send` does. */
  predicate Framed(t: seq<Event>)
    decreases |t|
  {
    |t| == 0 || t[0].SetDc? || (!t[0].SpiWrite? && Framed(t[1..]))
  }

  /** A framed trace is latched the same way whatever the D/C level before it. */
  lemma {:induction false} FramedIgnoresDc(t: seq<Event>, a: bool, b: bool)
    requires Framed(t)
    ensures WireFrom(t, a) == WireFrom(t, b)
    decreases |t|
  {
    if |t| > 0 && !t[0].SetDc? {
      FramedIgnoresDc(t[1..], a, b);
    }
  }

  /** Latching distributes over a trace followed by a framed trace. */
  lemma {:induction false} WireAppend(a: seq<Event>, b: seq<Event>, dc: bool)
    requires Framed(b)
    ensures WireFrom(a + b, dc) == WireFrom(a, dc) + WireFrom(b, dc)
    decreases |a|
  {
    if |a| == 0 {
      assert a + b == b;
    } else {
      assert (a + b)[0] == a[0];
      assert (a + b)[1..] == a[1..] + b;
      match a[0]
      case SetDc(level) =>
        WireAppend(a[1..], b, level);
        FramedIgnoresDc(b, level, dc);
      case SpiWrite(bs) =>
        WireAppend(a[1..], b, dc);
      case Pin(_, _) =>
        WireAppend(a[1..], b, dc);
      case Sleep(_) =>
        WireAppend(a[1..], b, dc);
    }
  }

  /** Framed traces stay framed when concatenated. */
  lemma {:induction false} FramedAppend(a: seq<Event>, b: seq<Event>)
    requires Framed(a) && Framed(b)
    ensures Framed(a + b)
    decreases |a|
  {
    if |a| == 0 {
      assert a + b == b;
    } else {
      assert (a + b)[0] == a[0];
      if !a[0].SetDc? {
        assert (a + b)[1..] == a[1..] + b;
        FramedAppend(a[1..], b);
      }
    }
  }

  /** The SPI writes of a chunk list are latched as their bytes, in order. */
  lemma {:induction false} WireOfWrites(cs: seq<seq<int>>, dc: bool)
    ensures WireFrom(Writes(cs), dc) == Tag(Concat(cs), dc)
    decreases |cs|
  {
    if |cs| > 0 {
      assert Writes(cs)[1..] == Writes(cs[1..]);
      WireOfWrites(cs[1..], dc);
      assert Tag(cs[0] + Concat(cs[1..]), dc) == Tag(cs[0], dc) + Tag(Concat(cs[1..]), dc);
    }
  }

  /** Whatever the chunk size, one `send` is latched as its payload, every
      octet with the level `is_data`, and it is framed. */
  lemma SendWire(data: Payload, isData: bool, chunkSize: int, dc: bool)
    requires chunkSize > 0
    ensures Framed(Send(data, isData, chunkSize))
    ensures WireFrom(Send(data, isData, chunkSize), dc) == Tag(Normalize(data), isData)
  {
    var t := Send(data, isData, chunkSize);
    var cs := Chunks(Normalize(data), chunkSize);
    assert t[1..] == Writes(cs);
    WireOfWrites(cs, isData);
  }

  /** The values of latched octets. */
  function Values(w: seq<WireByte>): seq<int> {
    seq(|w|, i requires 0 <= i < |w| => w[i].value)
  }

  /** The length of the run of data octets at the front of `w`. */
  function DataRun(w: seq<WireByte>): (n: nat)
    ensures n <= |w|
    ensures forall i :: 0 <= i < n ==> w[i].isData
    ensures n < |w| ==> !w[n].isData
    decreases |w|
  {
    if |w| == 0 || !w[0].isData then 0 else 1 + DataRun(w[1..])
  }

  /** The register writes the controller performs: each command octet with
      the data octets that follow it.  Data before any command is ignored. */
  function Registers(w: seq<WireByte>): seq<Register>
    decreases |w|
  {
    if |w| == 0 then []
    else if w[0].isData then Registers(w[1..])
    else
      var n := DataRun(w[1..]);
      [Register(w[0].value, Values(w[1..1 + n]))] + Registers(w[1 + n..])
  }

  /** The octets a list of register writes puts on the wire. */
  function ProgramWire(regs: seq<Register>): seq<WireByte>
    decreases |regs|
  {
    if |regs| == 0 then []
    else [WireByte(false, regs[0].command)] + Tag(regs[0].params, true) + ProgramWire(regs[1..])
  }

  /** The wire form of concatenated programs is concatenated. */
  lemma {:induction false} ProgramWireAppend(a: seq<Register>, b: seq<Register>)
    ensures ProgramWire(a + b) == ProgramWire(a) + ProgramWire(b)
    decreases |a|
  {
    if |a| == 0 {
      assert a + b == b;
    } else {
      assert (a + b)[0] == a[0];
      assert (a + b)[1..] == a[1..] + b;
      ProgramWireAppend(a[1..], b);
    }
  }

  /** Decoding what a register program puts on the wire gives the program
      back. */
  lemma {:induction false} RegistersOfProgramWire(regs: seq<Register>)
    ensures Registers(ProgramWire(regs)) == regs
    decreases |regs|
  {
    if |regs| > 0 {
      var r := regs[0];
      var p := Tag(r.params, true);
      var rest := ProgramWire(regs[1..]);
      var w := ProgramWire(regs);
      assert w == [WireByte(false, r.command)] + (p + rest);
      assert w[1..] == p + rest;
      DataRunOfTag(r.params, rest);
      assert w[1..1 + |p|] == p;
      assert Values(p) == r.params;
      assert w[1 + |p|..] == rest;
      RegistersOfProgramWire(regs[1..]);
    }
  }

  /** Data octets followed by a command octet (or nothing) form a run of
      exactly their own length. */
  lemma {:induction false} DataRunOfTag(ps: seq<int>, rest: seq<WireByte>)
    requires |rest| == 0 || !rest[0].isData
    ensures DataRun(Tag(ps, true) + rest) == |ps|
    decreases |ps|
  {
    if |ps| > 0 {
      var w := Tag(ps, true) + rest;
      assert w[1..] == Tag(ps[1..], true) + rest;
      DataRunOfTag(ps[1..], rest);
    } else {
      assert Tag(ps, true) + rest == rest;
    }
  }

  /** Register writes whose command and parameters are all octets. */
  predicate OctetRegisters(regs: seq<Register>) {
    forall i :: 0 <= i < |regs| ==>
      0 <= regs[i].command < 256 && forall j :: 0 <= j < |regs[i].params| ==> 0 <= regs[i].params[j] < 256
  }

  /** Each value sent with its own `data()` call, as the driver does for
      register parameters. */
  function DataBytes(vs: seq<int>): seq<Event>
    decreases |vs|
  {
    if |vs| == 0 then [] else Data(Scalar(vs[0])) + DataBytes(vs[1..])
  }

  /** A register write issued the way the driver issues one: `command()`
      with the register, then `data()` once per parameter. */
  function RegisterTrace(r: Register): seq<Event> {
    Command(Scalar(r.command)) + DataBytes(r.params)
  }

  /** A register program issued one register write after the other. */
  function ProgramTrace(regs: seq<Register>): seq<Event>
    decreases |regs|
  {
    if |regs| == 0 then [] else RegisterTrace(regs[0]) + ProgramTrace(regs[1..])
  }

  /** Parameters sent one `data()` call each are latched as data octets,
      each masked to eight bits. */
  lemma {:induction false} DataBytesWire(vs: seq<int>, dc: bool)
    ensures Framed(DataBytes(vs))
    ensures WireFrom(DataBytes(vs), dc) == Tag(MaskAll(vs), true)
    ensures Delays(DataBytes(vs)) == [] && PinChanges(DataBytes(vs)) == []
    decreases |vs|
  {
    if |vs| > 0 {
      var head := Data(Scalar(vs[0]));
      var rest := DataBytes(vs[1..]);
      SendWire(Scalar(vs[0]), true, CHUNK_SIZE, dc);
      DataBytesWire(vs[1..], dc);
      WireAppend(head, rest, dc);
      FramedAppend(head, rest);
      ObserversAppend(head, rest);
      assert MaskAll(vs) == [Mask(vs[0])] + MaskAll(vs[1..]);
      assert Tag([Mask(vs[0])] + MaskAll(vs[1..]), true) == Tag([Mask(vs[0])], true) + Tag(MaskAll(vs[1..]), true);
    }
  }

  /** A program with every command and parameter masked to eight bits, as
      scalar `command()` and `data()` calls send them. */
  function MaskProgram(regs: seq<Register>): (m: seq<Register>)
    ensures |m| == |regs|
    ensures OctetRegisters(m)
  {
    seq(|regs|, i requires 0 <= i < |regs| => Register(Mask(regs[i].command), MaskAll(regs[i].params)))
  }

  /** Masking leaves a program of octets unchanged. */
  lemma MaskOctetProgram(regs: seq<Register>)
    requires OctetRegisters(regs)
    ensures MaskProgram(regs) == regs
  {
    forall i | 0 <= i < |regs| ensures MaskProgram(regs)[i] == regs[i] {
      assert MaskAll(regs[i].params) == regs[i].params;
    }
  }

  /** One register write issued by the driver is latched as its masked
      command octet followed by its masked parameters as data. */
  lemma RegisterTraceWire(r: Register, dc: bool)
    ensures Framed(RegisterTrace(r))
    ensures WireFrom(RegisterTrace(r), dc) == ProgramWire(MaskProgram([r]))
    ensures Delays(RegisterTrace(r)) == [] && PinChanges(RegisterTrace(r)) == []
  {
    var cmd := Command(Scalar(r.command));
    var ps := DataBytes(r.params);
    var m := Register(Mask(r.command), MaskAll(r.params));
    assert MaskProgram([r]) == [m];
    var mw := [WireByte(false, m.command)] + Tag(m.params, true);
    assert ProgramWire([m]) == mw + [];
    assert mw + [] == mw;
    SendWire(Scalar(r.command), false, CHUNK_SIZE, dc);
    assert WireFrom(cmd, dc) == [WireByte(false, m.command)] by {
      assert Tag([Mask(r.command)], false) == [WireByte(false, m.command)];
    }
    DataBytesWire(r.params, dc);
    FramedAppend(cmd, ps);
    WireAppend(cmd, ps, dc);
    ObserversAppend(cmd, ps);
  }

  /** Masking a program masks its first register write and the rest. */
  lemma MaskProgramCons(regs: seq<Register>)
    requires |regs| > 0
    ensures MaskProgram(regs) == MaskProgram([regs[0]]) + MaskProgram(regs[1..])
  {
    var m := MaskProgram(regs);
    var h := MaskProgram([regs[0]]);
    var t := MaskProgram(regs[1..]);
    forall i | 0 <= i < |m| ensures m[i] == (h + t)[i] {
      if i > 0 {
        assert regs[1..][i - 1] == regs[i];
      }
    }
  }

  /** Three register writes issued one after the other. */
  lemma ProgramTrace3(a: Register, b: Register, c: Register)
    ensures ProgramTrace([a, b, c]) == RegisterTrace(a) + RegisterTrace(b) + RegisterTrace(c)
  {
    var ta, tb, tc := RegisterTrace(a), RegisterTrace(b), RegisterTrace(c);
    assert [a, b, c][1..] == [b, c];
    assert [b, c][1..] == [c];
    assert [c][1..] == [];
    assert ProgramTrace([c]) == tc + [];
    assert tc + [] == tc;
    assert ProgramTrace([b, c]) == tb + tc;
    assert ProgramTrace([a, b, c]) == ta + (tb + tc);
  }

  /** Two traces issued one after the other, the second framed: it is
      latched, and every observer sees it, after the first. */
  lemma Join(a: seq<Event>, b: seq<Event>, dc: bool)
    requires Framed(b)
    ensures Framed(a) ==> Framed(a + b)
    ensures WireFrom(a + b, dc) == WireFrom(a, dc) + WireFrom(b, dc)
    ensures Written(a + b) == Written(a) + Written(b)
    ensures Delays(a + b) == Delays(a) + Delays(b) && PinChanges(a + b) == PinChanges(a) + PinChanges(b)
  {
    if Framed(a) {
      FramedAppend(a, b);
    }
    WireAppend(a, b, dc);
    ObserversAppend(a, b);
  }

  /** A trace of delays and pin changes only. */
  predicate Quiet(t: seq<Event>) {
    forall i :: 0 <= i < |t| ==> t[i].Pin? || t[i].Sleep?
  }

  /** A quiet trace is framed and puts nothing on the wire. */
  lemma {:induction false} QuietWire(t: seq<Event>, dc: bool)
    requires Quiet(t)
    ensures Framed(t) && WireFrom(t, dc) == [] && Written(t) == []
    decreases |t|
  {
    if |t| > 0 {
      assert Quiet(t[1..]) by {
        forall i | 0 <= i < |t[1..]| ensures t[1..][i].Pin? || t[1..][i].Sleep? {
          assert t[1..][i] == t[i + 1];
        }
      }
      QuietWire(t[1..], dc);
    }
  }

  /** The driver's way of issuing a register program puts exactly the
      masked program on the wire, and nothing else on the trace. */
  lemma {:induction false} ProgramTraceWire(regs: seq<Register>, dc: bool)
    ensures Framed(ProgramTrace(regs))
    ensures WireFrom(ProgramTrace(regs), dc) == ProgramWire(MaskProgram(regs))
    ensures Delays(ProgramTrace(regs)) == [] && PinChanges(ProgramTrace(regs)) == []
    decreases |regs|
  {
    if |regs| > 0 {
      var head := RegisterTrace(regs[0]);
      var rest := ProgramTrace(regs[1..]);
      MaskProgramCons(regs);
      ProgramTraceWire(regs[1..], dc);
      RegisterTraceWire(regs[0], dc);
      FramedAppend(head, rest);
      WireAppend(head, rest, dc);
      ObserversAppend(head, rest);
      ProgramWireAppend(MaskProgram([regs[0]]), MaskProgram(regs[1..]));
    }
  }

  /** Round trip: decoding the trace of a register program gives the
      program, masked to octets; a program of octets comes back unchanged. */
  lemma ProgramRoundTrip(regs: seq<Register>, dc: bool)
    ensures Registers(WireFrom(ProgramTrace(regs), dc)) == MaskProgram(regs)
    ensures OctetRegisters(regs) ==> Registers(WireFrom(ProgramTrace(regs), dc)) == regs
  {
    ProgramTraceWire(regs, dc);
    RegistersOfProgramWire(MaskProgram(regs));
    if OctetRegisters(regs) {
      MaskOctetProgram(regs);
    }
  }
}
