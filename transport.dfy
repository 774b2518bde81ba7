/**
 * The RTCDataChannel boundary shared by the sending and the receiving peer.
 *
 * A peer message is either a JSON text, given here as the message it parses
 * to (None when it does not parse), or a binary ArrayBuffer. The channel
 * is an object with a ready state, a buffered amount and the sequence of
 * payloads it has accepted; `send` on a channel that is not open throws,
 * modelled as a `false` result that leaves the channel unchanged.
 */
module Transport {
  import opened Base
  import opened Encryption

  datatype ChannelState = Connecting | Open | Closing | Closed

  /** The `metadata` message announcing one file; fields a sender left out are None. */
  datatype FileMeta = FileMeta(
    name: string,
    size: nat,
    mimeType: string,
    encryptionKey: Key,
    fileIndex: Option<int>,
    totalFiles: Option<int>)

  /** The JSON messages of the peer protocol, by their `type` field. */
  datatype PeerMessage =
    | Control(action: string)
    | Metadata(meta: FileMeta)
    | Complete
    | OtherMessage(msgType: string)

  datatype Payload = Text(message: Option<PeerMessage>) | Binary(data: Bytes)

  const PauseAction: string := "pause"
  const ResumeAction: string := "resume"

  /** The `{type: 'control', action}` text a peer sends. */
  function ControlText(action: string): Payload
  {
    Text(Some(Control(action)))
  }

  /** The binary payloads of `ps`, in order: what a receiver that keeps only ArrayBuffers collects. */
  function Binaries(ps: seq<Payload>): seq<Bytes>
  {
    if ps == [] then []
    else if ps[0].Binary? then [ps[0].data] + Binaries(ps[1..])
    else Binaries(ps[1..])
  }

  /** One binary payload per part, in order. */
  function AsBinaries(parts: seq<Bytes>): (ps: seq<Payload>)
    ensures |ps| == |parts|
    ensures forall i :: 0 <= i < |ps| ==> ps[i] == Binary(parts[i])
  {
    if parts == [] then [] else [Binary(parts[0])] + AsBinaries(parts[1..])
  }

  lemma {:induction false} BinariesAppend(a: seq<Payload>, b: seq<Payload>)
    ensures Binaries(a + b) == Binaries(a) + Binaries(b)
  {
    if a == [] {
      assert a + b == b;
    } else {
      assert (a + b)[1..] == a[1..] + b;
      BinariesAppend(a[1..], b);
    }
  }

  /** Filtering the binary payloads out of `AsBinaries(parts)` gives `parts` back. */
  lemma {:induction false} BinariesOfAsBinaries(parts: seq<Bytes>)
    ensures Binaries(AsBinaries(parts)) == parts
  {
    if parts != [] {
      assert AsBinaries(parts)[1..] == AsBinaries(parts[1..]);
      BinariesOfAsBinaries(parts[1..]);
    }
  }

  /** The `complete` text. */
  predicate IsComplete(p: Payload)
  {
    p == Text(Some(Complete))
  }

  /** A `metadata` text. */
  predicate IsMetadata(p: Payload)
  {
    p.Text? && p.message.Some? && p.message.value.Metadata?
  }

  /** The number of payloads among `ps` that satisfy `f`. */
  function Count(ps: seq<Payload>, f: Payload -> bool): nat
  {
    if ps == [] then 0 else (if f(ps[0]) then 1 else 0) + Count(ps[1..], f)
  }

  lemma {:induction false} CountAppend(a: seq<Payload>, b: seq<Payload>, f: Payload -> bool)
    ensures Count(a + b, f) == Count(a, f) + Count(b, f)
  {
    if a == [] {
      assert a + b == b;
    } else {
      assert (a + b)[1..] == a[1..] + b;
      CountAppend(a[1..], b, f);
    }
  }

  /** A kind of text is never counted among binary payloads. */
  lemma {:induction false} CountAmongBinaries(parts: seq<Bytes>, f: Payload -> bool)
    requires forall b :: !f(Binary(b))
    ensures Count(AsBinaries(parts), f) == 0
  {
    if parts != [] {
      assert AsBinaries(parts)[1..] == AsBinaries(parts[1..]);
      CountAmongBinaries(parts[1..], f);
    }
  }

  /** A channel as a value: ready state, bytes queued for transmission, payloads accepted. */
  datatype ChannelView = ChannelView(readyState: ChannelState, bufferedAmount: nat, sent: seq<Payload>)

  /**
   * Bytes a payload adds to `bufferedAmount`. The UTF-8 length of a JSON
   * text is not modelled, so texts count as zero.
   */
  function QueuedBytes(p: Payload): nat
  {
    if p.Binary? then |p.data| else 0
  }

  /** RTCDataChannel.send: accepted only on an open channel, otherwise it throws (`false`). */
  function Transmit(ch: ChannelView, p: Payload): (r: (ChannelView, bool))
    ensures r.1 <==> ch.readyState == Open
    ensures r.0.readyState == ch.readyState
    ensures r.1 ==> r.0.sent == ch.sent + [p] && r.0.bufferedAmount == ch.bufferedAmount + QueuedBytes(p)
    ensures !r.1 ==> r.0 == ch
  {
    if ch.readyState == Open then
      (ch.(bufferedAmount := ch.bufferedAmount + QueuedBytes(p), sent := ch.sent + [p]), true)
    else (ch, false)
  }

  /** A text payload never changes the binary stream a channel carries. */
  lemma TransmitTextKeepsBinaries(ch: ChannelView, m: Option<PeerMessage>)
    ensures Binaries(Transmit(ch, Text(m)).0.sent) == Binaries(ch.sent)
  {
    BinariesAppend(ch.sent, [Text(m)]);
    assert Binaries([Text(m)]) == [];
  }

  /** The channel closes under its users (the peer goes away): what it carried stays, and only the state changes. */
  function Shut(ch: ChannelView): (r: ChannelView)
    ensures r.readyState == Closed && r.sent == ch.sent && r.bufferedAmount == ch.bufferedAmount
  {
    ch.(readyState := Closed)
  }

  /** Once closed, every send throws and leaves the channel as it was. */
  lemma ShutRefusesSend(ch: ChannelView, p: Payload)
    ensures Transmit(Shut(ch), p) == (Shut(ch), false)
    ensures Shut(Shut(ch)) == Shut(ch)
  {
  }

  class DataChannel {
    var readyState: ChannelState
    var bufferedAmount: nat
    var sent: seq<Payload>

    function View(): ChannelView
      reads this
    {
      ChannelView(readyState, bufferedAmount, sent)
    }

    constructor (state: ChannelState)
      ensures View() == ChannelView(state, 0, [])
    {
      readyState := state;
      bufferedAmount := 0;
      sent := [];
    }

    /** The `close` the peer's departure brings about. */
    method Close()
      modifies this
      ensures View() == Shut(old(View()))
    {
      readyState := Closed;
    }

    method Send(p: Payload) returns (ok: bool)
      modifies this
      ensures (View(), ok) == Transmit(old(View()), p)
    {
      ok := readyState == Open;
      if ok {
        bufferedAmount := bufferedAmount + QueuedBytes(p);
        sent := sent + [p];
      }
    }
  }
}
