/**
 * The launcher's link between the terminal and the guest's first serial
 * port (cli.js, lines 339-350): every byte the guest writes becomes one
 * character on standard output, and every chunk read from standard input is
 * sent to the guest, except a chunk that is exactly Ctrl-C, which destroys
 * the emulator and pauses input.
 */
module SerialBridge {

  /** One byte of guest serial output. */
  newtype Byte = b: int | 0 <= b < 256

  /** The chunk a raw-mode terminal delivers for Ctrl-C: the single character U+0003. */
  const CtrlC: string := [3 as char]

  /** `String.fromCharCode(b)`: the character whose code is the byte. */
  function ByteChar(b: Byte): (c: char)
    ensures c as int == b as int
  {
    b as int as char
  }

  /** What standard output shows for a run of guest output bytes: one character per byte, in order. */
  function Relay(bytes: seq<Byte>): (out: string)
    ensures |out| == |bytes|
    ensures forall i :: 0 <= i < |bytes| ==> out[i] == ByteChar(bytes[i])
  {
    if bytes == [] then [] else [ByteChar(bytes[0])] + Relay(bytes[1..])
  }

  /** Reading the character codes back off the terminal. */
  function CharCodes(out: string): (codes: seq<int>)
    ensures |codes| == |out|
    ensures forall i :: 0 <= i < |out| ==> codes[i] == out[i] as int
  {
    if out == [] then [] else [out[0] as int] + CharCodes(out[1..])
  }

  /** The relay loses nothing: the character codes on the terminal are the guest's bytes. */
  lemma RelayLossless(bytes: seq<Byte>)
    ensures |CharCodes(Relay(bytes))| == |bytes|
    ensures forall i :: 0 <= i < |bytes| ==> CharCodes(Relay(bytes))[i] == bytes[i] as int
  {
  }

  /** Distinct byte streams show as distinct output. */
  lemma RelayInjective(xs: seq<Byte>, ys: seq<Byte>)
    requires Relay(xs) == Relay(ys)
    ensures xs == ys
  {
    assert |xs| == |ys|;
    forall i | 0 <= i < |xs|
      ensures xs[i] == ys[i]
    {
      assert ByteChar(xs[i]) == Relay(xs)[i] == Relay(ys)[i] == ByteChar(ys[i]);
    }
  }

  /** One more byte adds one more character at the end. */
  lemma RelayAppend(bytes: seq<Byte>, b: Byte)
    ensures Relay(bytes + [b]) == Relay(bytes) + [ByteChar(b)]
  {
    var lhs, rhs := Relay(bytes + [b]), Relay(bytes) + [ByteChar(b)];
    assert |lhs| == |rhs|;
    forall i | 0 <= i < |lhs|
      ensures lhs[i] == rhs[i]
    {
      if i < |bytes| {
        assert (bytes + [b])[i] == bytes[i];
      }
    }
  }

  /** The chunks handed to `serial0_send`, given every chunk received: all but the exact Ctrl-C chunks, in order. */
  function Forwarded(chunks: seq<string>): (sent: seq<string>)
    ensures |sent| <= |chunks|
    ensures forall c :: c in sent <==> c in chunks && c != CtrlC
  {
    if chunks == [] then []
    else if chunks[0] == CtrlC then Forwarded(chunks[1..])
    else [chunks[0]] + Forwarded(chunks[1..])
  }

  /** Receiving one more chunk forwards it unless it is exactly Ctrl-C. */
  lemma {:induction false} ForwardedAppend(chunks: seq<string>, c: string)
    ensures Forwarded(chunks + [c]) == Forwarded(chunks) + (if c == CtrlC then [] else [c])
    decreases |chunks|
  {
    if chunks != [] {
      assert (chunks + [c])[1..] == chunks[1..] + [c];
      ForwardedAppend(chunks[1..], c);
    } else {
      assert [] + [c] == [c];
    }
  }

  /** Without a Ctrl-C chunk, everything is forwarded verbatim. */
  lemma {:induction false} ForwardedAll(chunks: seq<string>)
    requires CtrlC !in chunks
    ensures Forwarded(chunks) == chunks
    decreases |chunks|
  {
    if chunks != [] {
      assert chunks[0] in chunks;
      assert forall k :: k in chunks[1..] ==> k in chunks;
      ForwardedAll(chunks[1..]);
      assert [chunks[0]] + chunks[1..] == chunks;
    }
  }

  /** Ctrl-C typed together with other characters in one chunk is data, not the exit key. */
  lemma CtrlCInsideChunkIsSent()
    ensures Forwarded(["a" + CtrlC]) == ["a" + CtrlC]
    ensures Forwarded([CtrlC + CtrlC]) == [CtrlC + CtrlC]
    ensures Forwarded(["x", CtrlC, "y"]) == ["x", "y"]
  {
    assert ("a" + CtrlC)[0] != CtrlC[0];
    assert |CtrlC + CtrlC| != |CtrlC|;
    assert "x"[0] != CtrlC[0] && "y"[0] != CtrlC[0];
    assert ["x", CtrlC, "y"][1..] == [CtrlC, "y"];
    assert [CtrlC, "y"][1..] == ["y"];
    assert Forwarded(["y"]) == ["y"];
    assert Forwarded([CtrlC, "y"]) == ["y"];
  }

  /**
   * The terminal side of a running launcher: whether standard input is
   * flowing, whether the emulator was destroyed, what was sent to the
   * guest's serial port and what was written to standard output.
   */
  class StdinBridge {
    var running: bool
    var destroyed: bool
    var sent: seq<string>
    var stdout: string
    /** Every chunk the `data` handler was called with, in order. */
    ghost var received: seq<string>
    /** Every byte the guest wrote to its serial port, in order. */
    ghost var output: seq<Byte>

    ghost predicate Valid()
      reads this
    {
      && sent == Forwarded(received)
      && (destroyed <==> CtrlC in received)
      && running == !destroyed
      && stdout == Relay(output)
    }

    /** Listener registered, raw mode set and input resumed; nothing has happened yet. */
    constructor ()
      ensures Valid()
      ensures running && !destroyed && sent == [] && stdout == []
      ensures received == [] && output == []
    {
      running, destroyed, sent, stdout := true, false, [], [];
      received, output := [], [];
    }

    /** The `data` handler. */
    method OnData(c: string)
      requires Valid()
      modifies this
      ensures Valid()
      ensures received == old(received) + [c] && output == old(output)
      ensures stdout == old(stdout)
      ensures c == CtrlC ==> destroyed && !running && sent == old(sent)
      ensures c != CtrlC ==> sent == old(sent) + [c]
      ensures c != CtrlC ==> destroyed == old(destroyed) && running == old(running)
    {
      ForwardedAppend(received, c);
      received := received + [c];
      if c == CtrlC {
        destroyed := true;
        running := false;
      } else {
        sent := sent + [c];
      }
    }

    /** The `serial0-output-byte` listener. */
    method OnOutputByte(b: Byte)
      requires Valid()
      modifies this
      ensures Valid()
      ensures stdout == old(stdout) + [ByteChar(b)]
      ensures output == old(output) + [b] && received == old(received)
      ensures sent == old(sent) && destroyed == old(destroyed) && running == old(running)
    {
      RelayAppend(output, b);
      output := output + [b];
      stdout := stdout + [ByteChar(b)];
    }
  }

  /** A session in which Ctrl-C is pressed on its own after some typing: the typing is sent, then the emulator stops. */
  method ExampleSession() returns (bridge: StdinBridge)
    ensures bridge.sent == ["ls", "\r"] && bridge.destroyed && !bridge.running
    ensures bridge.stdout == Relay([104, 105])
  {
    bridge := new StdinBridge();
    bridge.OnData("ls");
    bridge.OnOutputByte(104);
    bridge.OnData("\r");
    bridge.OnOutputByte(105);
    bridge.OnData(CtrlC);
  }
}
