/**
 * FileReceiver (client/src/webrtc/fileTransfer.js:186-318).
 *
 * The receiver keeps every binary payload in arrival order and adds its
 * byte length to `receivedSize`; control texts set or clear its paused
 * flag; `complete` decrypts the kept chunks in order and hands one Blob of
 * their concatenation to onComplete. Its metadata is assigned from outside
 * (by the receiving page, client/src/hooks/useFileReceiver.js:77).
 *
 * Each operation is first a function on a `ReceiverState` value; the class
 * performs it on its fields and is proved to reach the state the function
 * describes.
 */
module Receiving {
  import opened Base
  import opened Encryption
  import opened Transport
  import opened Chunking

  /** The Blob handed to onComplete: the decrypted chunks, typed with the announced MIME type. */
  datatype Blob = Blob(mimeType: string, data: Bytes)

  /** The `{file, metadata}` argument of onComplete. */
  datatype Delivery = Delivery(file: Blob, metadata: FileMeta)

  /** Why assembleFile throws: its own error, or a rejected decryptChunk. */
  datatype AssembleError = Error(message: string) | DecryptionRejected

  const NoMetadataMessage: string := "No metadata received"

  /** The fields of a FileReceiver and of its channel, the onProgress reports and the onComplete deliveries. */
  datatype ReceiverState = ReceiverState(
    chunks: seq<Bytes>,
    metadata: Option<FileMeta>,
    receivedSize: nat,
    isPaused: bool,
    channel: Option<ChannelView>,
    reports: seq<Progress>,
    delivered: seq<Delivery>)

  /** The state the FileReceiver constructor leaves. */
  function NewReceiver(): ReceiverState
  {
    ReceiverState([], None, 0, false, None, [], [])
  }

  /** `receivedSize` is the byte length of the kept chunks. */
  predicate ReceiverInv(r: ReceiverState)
  {
    r.receivedSize == TotalLength(r.chunks)
  }

  /**
   * sendControl(action): only with a channel that is open; the flag follows
   * `pause` and `resume`, any other action is sent but leaves it.
   */
  function WithControl(r: ReceiverState, action: string): ReceiverState
  {
    if r.channel.Some? && r.channel.value.readyState == Open then
      r.(channel := Some(Transmit(r.channel.value, ControlText(action)).0),
         isPaused := if action == PauseAction then true else if action == ResumeAction then false else r.isPaused)
    else r
  }

  function Toggled(r: ReceiverState): ReceiverState
  {
    WithControl(r, if r.isPaused then ResumeAction else PauseAction)
  }

  /** assembleFile: no metadata throws; otherwise every chunk is decrypted in arrival order. */
  function Assemble(r: ReceiverState, dec: ChunkDecryptor): Result<Delivery, AssembleError>
  {
    if r.metadata.None? then Failure(Error(NoMetadataMessage))
    else match DecryptAll(r.chunks, dec)
      case None => Failure(DecryptionRejected)
      case Some(plain) => Success(Delivery(Blob(r.metadata.value.mimeType, Flatten(plain)), r.metadata.value))
  }

  /** A progress report, made only once metadata is known. */
  function Report(r: ReceiverState, paused: bool): seq<Progress>
  {
    if r.metadata.Some? then r.reports + [Progress(r.receivedSize, r.metadata.value.size, paused)] else r.reports
  }

  /**
   * handleData. A thrown assembleFile is caught by handleData's own
   * try/catch, so a failed assembly changes nothing; a text that is not
   * `complete` or `control`, or does not parse, is not an ArrayBuffer and
   * is dropped.
   */
  function Receive(r: ReceiverState, p: Payload, dec: ChunkDecryptor): ReceiverState
  {
    match p
    case Binary(b) =>
      var r1 := r.(chunks := r.chunks + [b], receivedSize := r.receivedSize + |b|);
      r1.(reports := Report(r1, r1.isPaused))
    case Text(m) =>
      if m == Some(Complete) then
        match Assemble(r, dec)
        case Success(d) => r.(delivered := r.delivered + [d])
        case Failure(_) => r
      else if m == Some(Control(PauseAction)) then r.(isPaused := true, reports := Report(r, true))
      else if m == Some(Control(ResumeAction)) then r.(isPaused := false)
      else r
  }

  /** The payloads of `ps` handled one after another. */
  function ReceiveAll(r: ReceiverState, ps: seq<Payload>, dec: ChunkDecryptor): ReceiverState
    decreases |ps|
  {
    if ps == [] then r else ReceiveAll(Receive(r, ps[0], dec), ps[1..], dec)
  }

  // ---------------------------------------------------------------------
  // Properties of the receiver
  // ---------------------------------------------------------------------

  /** sendControl acts only on an open channel: one control text, and the flag follows the action. */
  lemma SendControlSpec(r: ReceiverState, action: string)
    ensures var q := WithControl(r, action);
      && q.chunks == r.chunks && q.receivedSize == r.receivedSize && q.delivered == r.delivered
      && (r.channel.Some? && r.channel.value.readyState == Open ==>
            && q.channel.value.sent == r.channel.value.sent + [ControlText(action)]
            && (action == PauseAction ==> q.isPaused)
            && (action == ResumeAction ==> !q.isPaused))
      && (r.channel.None? || r.channel.value.readyState != Open ==> q == r)
  {
  }

  /** togglePause flips the flag when the channel is open and sends the matching action. */
  lemma TogglePauseSpec(r: ReceiverState)
    requires r.channel.Some? && r.channel.value.readyState == Open
    ensures Toggled(r).isPaused == !r.isPaused
    ensures Toggled(r).channel.value.sent
      == r.channel.value.sent + [ControlText(if r.isPaused then ResumeAction else PauseAction)]
  {
  }

  /** A binary payload is appended and counted; control texts set or clear the flag; other texts change no chunk. */
  lemma ReceiveSpec(r: ReceiverState, p: Payload, dec: ChunkDecryptor)
    ensures p.Binary? ==>
      && Receive(r, p, dec).chunks == r.chunks + [p.data]
      && Receive(r, p, dec).receivedSize == r.receivedSize + |p.data|
      && Receive(r, p, dec).isPaused == r.isPaused
    ensures p == ControlText(PauseAction) ==> Receive(r, p, dec).isPaused
    ensures p == ControlText(ResumeAction) ==> !Receive(r, p, dec).isPaused
    ensures p.Text? ==> Receive(r, p, dec).chunks == r.chunks && Receive(r, p, dec).receivedSize == r.receivedSize
    ensures Receive(r, p, dec).metadata == r.metadata && Receive(r, p, dec).channel == r.channel
  {
  }

  /** `complete` delivers exactly what assembly produces, and a failed assembly changes nothing. */
  lemma CompleteSpec(r: ReceiverState, dec: ChunkDecryptor)
    ensures var q := Receive(r, Text(Some(Complete)), dec);
      match Assemble(r, dec)
      case Success(d) => q == r.(delivered := r.delivered + [d])
      case Failure(_) => q == r
    ensures r.metadata.None? ==> Assemble(r, dec) == Failure(Error(NoMetadataMessage))
  {
  }

  /** Every payload keeps `receivedSize` equal to the byte length of the kept chunks. */
  lemma ReceiveKeepsInv(r: ReceiverState, p: Payload, dec: ChunkDecryptor)
    requires ReceiverInv(r)
    ensures ReceiverInv(Receive(r, p, dec))
  {
    if p.Binary? {
      TotalLengthAppend(r.chunks, [p.data]);
      assert TotalLength([p.data]) == |p.data|;
    }
  }

  /**
   * Over any stream of payloads the kept chunks are the binary payloads in
   * arrival order, and `receivedSize` counts their bytes.
   */
  lemma {:induction false} ReceiveAllChunks(r: ReceiverState, ps: seq<Payload>, dec: ChunkDecryptor)
    requires ReceiverInv(r)
    ensures ReceiverInv(ReceiveAll(r, ps, dec))
    ensures ReceiveAll(r, ps, dec).chunks == r.chunks + Binaries(ps)
    ensures ReceiveAll(r, ps, dec).metadata == r.metadata
    decreases |ps|
  {
    if ps != [] {
      ReceiveKeepsInv(r, ps[0], dec);
      ReceiveSpec(r, ps[0], dec);
      ReceiveAllChunks(Receive(r, ps[0], dec), ps[1..], dec);
    }
  }

  /** A receiver holding metadata and exactly the sealed windows of a file assembles the file. */
  lemma AssembleSealed(u: EncryptionUtils, ivs: nat -> Iv, data: Bytes, cs: nat, r: ReceiverState, m: FileMeta)
    requires RoundTrips(u.cipher) && cs > 0
    requires r.metadata == Some(m) && r.chunks == Seal(Chunks(data, cs), 0, Sealer(u, ivs))
    ensures Assemble(r, Opener(u)) == Success(Delivery(Blob(m.mimeType, data), m))
  {
    ReassemblyRoundTrip(u, ivs, data, cs);
  }

  /**
   * Reassembly yields the original bytes: a receiver holding the metadata
   * and no chunk yet (as the receiving page installs one), fed any stream
   * whose binary payloads are the sender's sealed windows and then
   * `complete`, delivers the file.
   */
  lemma FileArrivesWhole(u: EncryptionUtils, ivs: nat -> Iv, data: Bytes, cs: nat, m: FileMeta, r0: ReceiverState, ps: seq<Payload>)
    requires RoundTrips(u.cipher) && cs > 0
    requires r0.metadata == Some(m) && r0.chunks == [] && r0.receivedSize == 0
    requires Binaries(ps) == Seal(Chunks(data, cs), 0, Sealer(u, ivs))
    ensures ReceiveAll(r0, ps + [Text(Some(Complete))], Opener(u)).delivered
      == ReceiveAll(r0, ps, Opener(u)).delivered + [Delivery(Blob(m.mimeType, data), m)]
  {
    var dec := Opener(u);
    ReceiveAllChunks(r0, ps, dec);
    var q := ReceiveAll(r0, ps, dec);
    assert q.chunks == Binaries(ps);
    AssembleSealed(u, ivs, data, cs, q, m);
    ReceiveAllSnoc(r0, ps, Text(Some(Complete)), dec);
  }

  lemma {:induction false} ReceiveAllSnoc(r: ReceiverState, ps: seq<Payload>, p: Payload, dec: ChunkDecryptor)
    ensures ReceiveAll(r, ps + [p], dec) == Receive(ReceiveAll(r, ps, dec), p, dec)
    decreases |ps|
  {
    if ps == [] {
      assert ps + [p] == [p];
    } else {
      assert (ps + [p])[1..] == ps[1..] + [p];
      ReceiveAllSnoc(Receive(r, ps[0], dec), ps[1..], p, dec);
    }
  }

  /** From a fresh receiver, receivedSize is the byte length of the binary payloads. */
  lemma ReceivedSizeIsTotal(m: FileMeta, ps: seq<Payload>, dec: ChunkDecryptor)
    ensures ReceiveAll(NewReceiver().(metadata := Some(m)), ps, dec).receivedSize == TotalLength(Binaries(ps))
  {
    var r0 := NewReceiver().(metadata := Some(m));
    ReceiveAllChunks(r0, ps, dec);
    assert ReceiveAll(r0, ps, dec).chunks == Binaries(ps);
  }

  /**
   * `receivedSize` counts wire bytes: after the whole file it is the file
   * size plus 28 bytes (IV and tag) per window, so it exceeds the announced
   * size for every non-empty file.
   */
  lemma ReceivedSizeCountsWireBytes(u: EncryptionUtils, ivs: nat -> Iv, data: Bytes, cs: nat, m: FileMeta, ps: seq<Payload>)
    requires AppendsTag(u.cipher) && cs > 0
    requires Binaries(ps) == Seal(Chunks(data, cs), 0, Sealer(u, ivs))
    ensures var r := ReceiveAll(NewReceiver().(metadata := Some(m)), ps, Opener(u));
      r.receivedSize == |data| + (IvLength + TagLength) * ((|data| + cs - 1) / cs)
    ensures |data| > 0 ==> ReceiveAll(NewReceiver().(metadata := Some(m)), ps, Opener(u)).receivedSize > |data|
    ensures |data| > 0 && m.size == |data| ==> ReceiveAll(NewReceiver().(metadata := Some(m)), ps, Opener(u)).receivedSize > m.size
  {
    ReceivedSizeIsTotal(m, ps, Opener(u));
    WireBytes(u, ivs, data, cs);
    var k := (|data| + cs - 1) / cs;
    if |data| > 0 {
      CeilPositive(|data|, cs);
      assert 28 * k > 0;
    }
  }

  // ---------------------------------------------------------------------
  // The FileReceiver object
  // ---------------------------------------------------------------------

  class FileReceiver {
    var chunks: seq<Bytes>
    var metadata: Option<FileMeta>
    var receivedSize: nat
    var isPaused: bool
    var dataChannel: DataChannel?
    var reports: seq<Progress>
    var delivered: seq<Delivery>

    function State(): ReceiverState
      reads this, dataChannel
    {
      ReceiverState(chunks, metadata, receivedSize, isPaused,
                    if dataChannel == null then None else Some(dataChannel.View()), reports, delivered)
    }

    constructor ()
      ensures State() == NewReceiver()
    {
      chunks := [];
      metadata := None;
      receivedSize := 0;
      isPaused := false;
      dataChannel := null;
      reports := [];
      delivered := [];
    }

    method SetDataChannel(ch: DataChannel)
      modifies this
      ensures dataChannel == ch
      ensures State() == old(State()).(channel := Some(ch.View()))
    {
      dataChannel := ch;
    }

    /** The receiving page assigns `metadata` directly. */
    method SetMetadata(m: FileMeta)
      modifies this
      ensures dataChannel == old(dataChannel)
      ensures State() == old(State()).(metadata := Some(m))
    {
      metadata := Some(m);
    }

    method SendControl(action: string)
      modifies this, dataChannel
      ensures dataChannel == old(dataChannel)
      ensures State() == WithControl(old(State()), action)
    {
      if dataChannel != null && dataChannel.readyState == Open {
        var _ := dataChannel.Send(ControlText(action));
        if action == PauseAction {
          isPaused := true;
        } else if action == ResumeAction {
          isPaused := false;
        }
      }
    }

    method TogglePause()
      modifies this, dataChannel
      ensures dataChannel == old(dataChannel)
      ensures State() == Toggled(old(State()))
    {
      if isPaused {
        SendControl(ResumeAction);
      } else {
        SendControl(PauseAction);
      }
    }

    /** assembleFile: the decrypted chunks are collected one by one in arrival order. */
    method AssembleFile(dec: ChunkDecryptor) returns (res: Result<Delivery, AssembleError>)
      ensures res == Assemble(State(), dec)
    {
      if metadata.None? {
        return Failure(Error(NoMetadataMessage));
      }
      var decrypted: seq<Bytes> := [];
      var i := 0;
      while i < |chunks|
        invariant 0 <= i <= |chunks|
        invariant DecryptAll(chunks[..i], dec) == Some(decrypted)
      {
        var d := dec(chunks[i]);
        DecryptAllSnoc(chunks[..i], chunks[i], dec);
        assert chunks[..i + 1] == chunks[..i] + [chunks[i]];
        if d.None? {
          DecryptAllRejected(chunks[..i + 1], chunks[i + 1..], dec);
          assert chunks[..i + 1] + chunks[i + 1..] == chunks;
          return Failure(DecryptionRejected);
        }
        decrypted := decrypted + [d.value];
        i := i + 1;
      }
      assert chunks[..i] == chunks;
      res := Success(Delivery(Blob(metadata.value.mimeType, Flatten(decrypted)), metadata.value));
    }

    method HandleData(p: Payload, dec: ChunkDecryptor)
      modifies this
      ensures dataChannel == old(dataChannel)
      ensures State() == Receive(old(State()), p, dec)
    {
      match p
      case Binary(b) =>
        chunks := chunks + [b];
        receivedSize := receivedSize + |b|;
        if metadata.Some? {
          reports := reports + [Progress(receivedSize, metadata.value.size, isPaused)];
        }
      case Text(m) =>
        if m == Some(Complete) {
          var res := AssembleFile(dec);
          if res.Success? {
            delivered := delivered + [res.value];
          }
        } else if m == Some(Control(PauseAction)) {
          isPaused := true;
          if metadata.Some? {
            reports := reports + [Progress(receivedSize, metadata.value.size, true)];
          }
        } else if m == Some(Control(ResumeAction)) {
          isPaused := false;
        }
    }
  }
}
