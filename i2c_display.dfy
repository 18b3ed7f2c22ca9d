/** The I2C display driver (src/app/i2c_display.rs): an SSD1306-style panel
    is initialised by a list of commands, then a 1024-byte frame buffer is
    incremented byte by byte and streamed to the panel in 16-byte chunks,
    forever. Every write on the bus is recorded in a trace. */
module I2cDisplay {
  import opened Modular

  const DISPLAY_ADDR: bv8 := 0x3c
  /** 128 x 64 pixels, one bit each. */
  const FRAME_BYTES: nat := 128 * 64 / 8
  const FRAME_FILL: bv8 := 0x23
  /** The control byte before a command and before display data. */
  const CONTROL_CMD: bv8 := 0x00
  const CONTROL_DATA: bv8 := 0x40
  const CHUNK: nat := 16

  /** One bus transaction: a write of some bytes to a target address. */
  datatype Write = Write(addr: bv8, bytes: seq<bv8>)

  /** How the panel reads a transaction: the control byte says whether the
      rest is a command or display data. */
  datatype Frame = Command(cmd: seq<bv8>) | Data(payload: seq<bv8>) | Other

  function Decode(bytes: seq<bv8>): Frame {
    if |bytes| > 0 && bytes[0] == CONTROL_CMD then Command(bytes[1..])
    else if |bytes| > 0 && bytes[0] == CONTROL_DATA then Data(bytes[1..])
    else Other
  }

  /** The bytes `send_cmd` puts on the bus for a command. */
  function CmdBytes(cmd: seq<bv8>): (r: seq<bv8>)
    ensures |r| == |cmd| + 1
    ensures Decode(r) == Command(cmd)
  {
    [CONTROL_CMD] + cmd
  }

  /** The writes `send_data` makes: one per chunk of at most 16 bytes, each
      the data control byte followed by the chunk. */
  function DataWrites(addr: bv8, data: seq<bv8>): seq<Write>
    decreases |data|
  {
    if data == [] then []
    else
      var n := if |data| < CHUNK then |data| else CHUNK;
      [Write(addr, [CONTROL_DATA] + data[..n])] + DataWrites(addr, data[n..])
  }

  /** Taking one chunk off the front of the data still to send. */
  lemma DataWritesStep(addr: bv8, data: seq<bv8>, start: nat, n: nat)
    requires start < |data| && n == if |data| - start < CHUNK then |data| - start else CHUNK
    ensures DataWrites(addr, data[start..])
      == [Write(addr, [CONTROL_DATA] + data[start..start + n])] + DataWrites(addr, data[start + n..])
  {
    assert data[start..][..n] == data[start..start + n];
    assert data[start..][n..] == data[start + n..];
  }

  /** `buf[0] = 0x40` followed by the chunk copied into `buf[1..]`. */
  method FillChunk(buf: array<bv8>, chunk: seq<bv8>)
    requires |chunk| < buf.Length
    modifies buf
    ensures buf[..|chunk| + 1] == [CONTROL_DATA] + chunk
  {
    buf[0] := CONTROL_DATA;
    for i := 0 to |chunk|
      invariant buf[0] == CONTROL_DATA
      invariant forall j :: 1 <= j <= i ==> buf[j] == chunk[j - 1]
    {
      buf[i + 1] := chunk[i];
    }
    assert buf[..|chunk| + 1] == [CONTROL_DATA] + chunk;
  }

  /** The display data the panel receives from a sequence of writes, in
      order. */
  function Payloads(ws: seq<Write>): seq<bv8> {
    if ws == [] then []
    else (match Decode(ws[0].bytes) case Data(p) => p case _ => []) + Payloads(ws[1..])
  }

  /** `send_data` makes one write per started chunk: the ceiling of the
      length over 16. */
  lemma {:induction false} DataWritesCount(addr: bv8, data: seq<bv8>)
    ensures |DataWrites(addr, data)| == (|data| + CHUNK - 1) / CHUNK
    decreases |data|
  {
    if data != [] {
      var n := if |data| < CHUNK then |data| else CHUNK;
      DataWritesCount(addr, data[n..]);
    }
  }

  /** Every write goes to `addr`, starts with the data control byte and
      carries between 1 and 16 bytes; all but the last carry exactly 16. */
  ghost predicate DataShaped(ws: seq<Write>, addr: bv8) {
    forall k :: 0 <= k < |ws| ==>
      ws[k].addr == addr && 2 <= |ws[k].bytes| <= CHUNK + 1 &&
      ws[k].bytes[0] == CONTROL_DATA &&
      (k < |ws| - 1 ==> |ws[k].bytes| == CHUNK + 1)
  }

  /** The writes of `send_data` have that shape. */
  lemma {:induction false} DataWritesShape(addr: bv8, data: seq<bv8>)
    ensures DataShaped(DataWrites(addr, data), addr)
    decreases |data|
  {
    if data != [] {
      var n := if |data| < CHUNK then |data| else CHUNK;
      var ws, rest := DataWrites(addr, data), DataWrites(addr, data[n..]);
      DataWritesShape(addr, data[n..]);
      assert ws == [Write(addr, [CONTROL_DATA] + data[..n])] + rest;
      if n < CHUNK {
        assert data[n..] == [];
        assert |ws| == 1;
      }
      forall k | 0 <= k < |ws|
        ensures ws[k].addr == addr && 2 <= |ws[k].bytes| <= CHUNK + 1
        ensures ws[k].bytes[0] == CONTROL_DATA
        ensures k < |ws| - 1 ==> |ws[k].bytes| == CHUNK + 1
      {
        if k > 0 {
          assert ws[k] == rest[k - 1];
        }
      }
    }
  }

  /** The panel reassembles exactly the data that was sent, in order. */
  lemma {:induction false} DataWritesRoundTrip(addr: bv8, data: seq<bv8>)
    ensures Payloads(DataWrites(addr, data)) == data
    decreases |data|
  {
    if data != [] {
      var n := if |data| < CHUNK then |data| else CHUNK;
      var ws := DataWrites(addr, data);
      DataWritesRoundTrip(addr, data[n..]);
      assert ws[1..] == DataWrites(addr, data[n..]);
      assert Decode(ws[0].bytes) == Data(data[..n]);
      assert data == data[..n] + data[n..];
    }
  }

  /** `(0xf & hi) << 4 | 0xf & lo`: two nibbles packed in one parameter
      byte. */
  function Nibbles(hi: bv8, lo: bv8): (r: bv8)
    ensures r >> 4 == hi & 0xf && r & 0xf == lo & 0xf
  {
    ((0xf & hi) << 4) | (0xf & lo)
  }

  /** The commands of `initialize_display`, in the order it sends them. */
  const INIT_COMMANDS: seq<seq<bv8>> := [
    [0xae],                               // display off
    [0xd5, Nibbles(0x8, 0x0)],            // clock divide ratio, oscillator
    [0xa8, 64 - 1],                       // multiplex ratio: height - 1
    [0xd3, 0x0],                          // display offset
    [0x40 | (0x3f & 0x0)],                // start line
    [0x8d, 0x10 | (1 << 2)],              // charge pump
    [0x20, 1],                            // addressing mode
    [0xda, 0x2 | (1 << 4) | (0 << 5)],    // COM pins configuration
    [0xa0 | 1],                           // segment remap
    [0xc0 | (1 << 3)],                    // reversed COM direction
    [0xd9, Nibbles(0x2, 0x5f)],           // precharge period 2, contrast 0x5f
    [0x81, 0x5f],                         // contrast
    [0xdb, 0x2 << 4],                     // VCOMH deselect level
    [0xa4 | 0],                           // follow RAM, not all on
    [0xa6 | 0],                           // not inverted
    [0x2e | 0],                           // scrolling off
    [0xaf]                                // display on
  ]

  /** The parameter bytes the initialisation sequence computes: precharge
      0x2F, clock divide 0x80, multiplex 63. */
  lemma PackedConstants()
    ensures |INIT_COMMANDS| == 17
    ensures INIT_COMMANDS[10] == [0xd9, 0x2f]
    ensures INIT_COMMANDS[1] == [0xd5, 0x80]
    ensures INIT_COMMANDS[2] == [0xa8, 63]
    ensures INIT_COMMANDS[5] == [0x8d, 0x14] && INIT_COMMANDS[7] == [0xda, 0x12]
    ensures INIT_COMMANDS[8] == [0xa1] && INIT_COMMANDS[9] == [0xc8]
  {
  }

  /** The writes `send_cmd` makes for a list of commands. */
  function CmdWrites(addr: bv8, cmds: seq<seq<bv8>>): seq<Write> {
    if cmds == [] then [] else [Write(addr, CmdBytes(cmds[0]))] + CmdWrites(addr, cmds[1..])
  }

  /** Every initialisation write is read by the panel as the command it
      stands for, in order. */
  lemma {:induction false} CmdWritesDecode(addr: bv8, cmds: seq<seq<bv8>>)
    ensures |CmdWrites(addr, cmds)| == |cmds|
    ensures forall k :: 0 <= k < |cmds| ==>
      CmdWrites(addr, cmds)[k].addr == addr && Decode(CmdWrites(addr, cmds)[k].bytes) == Command(cmds[k])
    ensures Payloads(CmdWrites(addr, cmds)) == []
  {
    if cmds != [] {
      CmdWritesDecode(addr, cmds[1..]);
      assert Decode(CmdBytes(cmds[0])) == Command(cmds[0]);
    }
  }

  lemma {:induction false} CmdWritesAppend(addr: bv8, cmds: seq<seq<bv8>>, cmd: seq<bv8>)
    ensures CmdWrites(addr, cmds + [cmd]) == CmdWrites(addr, cmds) + [Write(addr, CmdBytes(cmd))]
  {
    if cmds != [] {
      assert (cmds + [cmd])[1..] == cmds[1..] + [cmd];
      CmdWritesAppend(addr, cmds[1..], cmd);
    } else {
      assert CmdWrites(addr, []) == [];
      assert ([] + [cmd])[1..] == [];
    }
  }

  /** Byte addition wraps modulo 256. */
  lemma ByteInc(b: bv8)
    ensures (b + 1) as int == (b as int + 1) % 256
  {
  }

  /** The byte every frame byte holds after `k` passes of the loop in `run`. */
  function Shade(k: nat): bv8 {
    if k == 0 then FRAME_FILL else Shade(k - 1) + 1
  }

  /** After k passes every byte is 0x23 + k modulo 256. */
  lemma {:induction false} ShadeValue(k: nat)
    ensures Shade(k) as int == (FRAME_FILL as int + k) % 256
  {
    if k > 0 {
      ShadeValue(k - 1);
      ByteInc(Shade(k - 1));
      ModAddLeft(FRAME_FILL as int + k - 1, 1, 256);
    }
  }

  class Panel {
    /** BUFFER. */
    const buffer: array<bv8>
    /** The writes made on the bus, oldest first. */
    var writes: seq<Write>
    /** The passes the main loop has made. */
    ghost var passes: nat

    ghost predicate Valid()
      reads this, buffer
    {
      buffer.Length == FRAME_BYTES &&
      forall i :: 0 <= i < FRAME_BYTES ==> buffer[i] == Shade(passes)
    }

    /** The frame buffer starts filled with 0x23, and nothing is sent yet. */
    constructor ()
      ensures Valid() && writes == [] && passes == 0 && fresh(buffer)
    {
      buffer := new bv8[FRAME_BYTES](_ => FRAME_FILL);
      writes := [];
      passes := 0;
    }

    /** `send_cmd`: a command of 8 bytes or more fails the assertion (`ok`
        false, nothing is sent); otherwise the command control byte and the
        command go out in one write. */
    method SendCmd(addr: bv8, cmd: seq<bv8>) returns (ok: bool)
      modifies this`writes
      ensures ok == (|cmd| < 8)
      ensures writes == if ok then old(writes) + [Write(addr, CmdBytes(cmd))] else old(writes)
    {
      if |cmd| >= 8 {
        return false;
      }
      ok := true;
      var buf := new bv8[8](_ => 0);
      for i := 0 to |cmd|
        invariant buf[0] == CONTROL_CMD
        invariant forall j :: 0 <= j < i ==> buf[j + 1] == cmd[j]
        modifies buf
      {
        buf[i + 1] := cmd[i];
      }
      assert buf[..|cmd| + 1] == CmdBytes(cmd);
      writes := writes + [Write(addr, buf[..|cmd| + 1])];
    }

    /** `send_data`: the data goes out chunk by chunk, each chunk copied
        behind the data control byte of one reused 17-byte buffer. */
    method SendData(addr: bv8, data: seq<bv8>)
      modifies this`writes
      ensures writes == old(writes) + DataWrites(addr, data)
    {
      var buf := new bv8[CHUNK + 1](_ => 0);
      var start := 0;
      while start < |data|
        invariant 0 <= start <= |data|
        invariant writes + DataWrites(addr, data[start..]) == old(writes) + DataWrites(addr, data)
      {
        var n := if |data| - start < CHUNK then |data| - start else CHUNK;
        FillChunk(buf, data[start..start + n]);
        DataWritesStep(addr, data, start, n);
        writes := writes + [Write(addr, buf[..n + 1])];
        start := start + n;
      }
    }

    /** `initialize_display`: the initialisation commands, one `send_cmd`
        each, in order; all of them are short enough to pass. */
    method InitializeDisplay(addr: bv8)
      modifies this`writes
      ensures writes == old(writes) + CmdWrites(addr, INIT_COMMANDS)
    {
      for k := 0 to |INIT_COMMANDS|
        invariant writes == old(writes) + CmdWrites(addr, INIT_COMMANDS[..k])
      {
        var ok := SendCmd(addr, INIT_COMMANDS[k]);
        CmdWritesAppend(addr, INIT_COMMANDS[..k], INIT_COMMANDS[k]);
        assert INIT_COMMANDS[..k + 1] == INIT_COMMANDS[..k] + [INIT_COMMANDS[k]];
      }
      assert INIT_COMMANDS[..|INIT_COMMANDS|] == INIT_COMMANDS;
    }

    /** One pass of the loop in `run`: every byte of the frame buffer goes
        up by one modulo 256, then the whole buffer is sent. */
    method RunPass()
      requires Valid()
      modifies buffer, this`writes, this`passes
      ensures Valid() && passes == old(passes) + 1
      ensures forall i :: 0 <= i < FRAME_BYTES ==> buffer[i] as int == (old(buffer[i]) as int + 1) % 256
      ensures writes == old(writes) + DataWrites(DISPLAY_ADDR, buffer[..])
    {
      for i := 0 to buffer.Length
        invariant forall j :: 0 <= j < i ==> buffer[j] == Shade(passes + 1)
        invariant forall j :: i <= j < buffer.Length ==> buffer[j] == Shade(passes)
        modifies buffer
      {
        buffer[i] := buffer[i] + 1;
      }
      forall i | 0 <= i < FRAME_BYTES
        ensures buffer[i] as int == (old(buffer[i]) as int + 1) % 256
      {
        ByteInc(old(buffer[i]));
      }
      passes := passes + 1;
      SendData(DISPLAY_ADDR, buffer[..]);
    }
  }
}
