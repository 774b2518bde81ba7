/**
 * The receiving page's state machine (client/src/hooks/useFileReceiver.js).
 *
 * The hook keeps a status, the files received so far, the announced file
 * and its place in the batch, the current FileReceiver and the imported
 * key. Each peer text that is `metadata` starts a fresh receiver for the
 * announced file; any other payload is handed to the current receiver when
 * there is one with a key, and a file it delivers is appended to the
 * received files, settling the status on `complete` or `waiting-next`.
 *
 * Each handler is first a function on a `HookState` value; the class
 * performs it on its fields and on the receiver object it owns.
 */
module ReceiverHook {
  import opened Base
  import opened Encryption
  import opened Transport
  import opened Chunking
  import opened Receiving

  datatype Status = Disconnected | Connecting | Connected | ReceivingFile | WaitingNext | Complete | Failed

  /** The signalling requests the hook sends: `{type: 'join-room', roomId}`. */
  datatype Request = JoinRoom(roomId: string)

  /** The hook's React state and refs; `receiver` is the FileReceiver object seen as a value. */
  datatype HookState = HookState(
    status: Status,
    receivedFiles: seq<Delivery>,
    currentFileMetadata: Option<FileMeta>,
    totalFiles: int,
    currentFileIndex: int,
    receiver: Option<ReceiverState>,
    encryptionKey: Option<Key>,
    requests: seq<Request>)

  function NewHook(): HookState
  {
    HookState(Disconnected, [], None, 0, 0, None, None, [])
  }

  /** The completion test of onComplete: the file just received is the batch's last. */
  predicate IsLastFile(m: FileMeta)
  {
    OrDefault(m.fileIndex, 0) + 1 >= OrDefault(m.totalFiles, 1)
  }

  /** The join effect: with a connection and a room id, ask to join; only `disconnected` becomes `connecting`. */
  function Joined(h: HookState, isConnected: bool, roomId: string): HookState
  {
    if isConnected && roomId != "" then
      h.(requests := h.requests + [JoinRoom(roomId)],
         status := if h.status == Disconnected then Status.Connecting else h.status)
    else h
  }

  /** The `user-joined` handler. */
  function UserJoined(h: HookState): HookState
  {
    h.(status := Connected)
  }

  /** The connection-state callback: `connected` and `failed` are mirrored, any other state is ignored. */
  function ConnectionChanged(h: HookState, state: string): HookState
  {
    if state == "connected" then h.(status := Connected)
    else if state == "failed" then h.(status := Failed)
    else h
  }

  /** The decryptor the hook hands to handleData: decryptChunk of the utils over the imported key. */
  function DecryptorFor(cipher: Cipher, key: Key): ChunkDecryptor
  {
    Opener(EncryptionUtils(cipher, key))
  }

  /** A `metadata` text: announce the file and install a fresh receiver, with this channel, for it. */
  function Announced(h: HookState, m: FileMeta, ch: ChannelView): HookState
  {
    h.(currentFileMetadata := Some(m),
       totalFiles := OrDefault(m.totalFiles, 1),
       currentFileIndex := OrDefault(m.fileIndex, 0),
       status := ReceivingFile,
       encryptionKey := Some(m.encryptionKey),
       receiver := Some(NewReceiver().(channel := Some(ch), metadata := Some(m))))
  }

  /**
   * Any other payload goes to the current receiver, and only when the key
   * is there too. A delivery it makes is the onComplete call: the result is
   * appended and the status follows the completion test of the metadata
   * the receiver was created for.
   */
  function Forwarded(h: HookState, p: Payload, cipher: Cipher): HookState
  {
    if h.receiver.Some? && h.encryptionKey.Some? then
      var r := h.receiver.value;
      var r1 := Receive(r, p, DecryptorFor(cipher, h.encryptionKey.value));
      if |r1.delivered| > |r.delivered| then
        var d := r1.delivered[|r1.delivered| - 1];
        h.(receiver := Some(r1),
           receivedFiles := h.receivedFiles + [d],
           status := if IsLastFile(d.metadata) then Status.Complete else WaitingNext)
      else h.(receiver := Some(r1))
    else h
  }

  /** The data callback of the peer connection: `ch` is the channel the payload came over. */
  function DataReceived(h: HookState, p: Payload, cipher: Cipher, ch: ChannelView): HookState
  {
    match p
    case Text(Some(Metadata(m))) => Announced(h, m, ch)
    case _ => Forwarded(h, p, cipher)
  }

  /** The payloads of `ps` received one after another over the same channel. */
  function DataReceivedAll(h: HookState, ps: seq<Payload>, cipher: Cipher, ch: ChannelView): HookState
    decreases |ps|
  {
    if ps == [] then h else DataReceivedAll(DataReceived(h, ps[0], cipher, ch), ps[1..], cipher, ch)
  }

  function ToggledHook(h: HookState): HookState
  {
    if h.receiver.Some? then h.(receiver := Some(Toggled(h.receiver.value))) else h
  }

  // ---------------------------------------------------------------------
  // Properties of the hook
  // ---------------------------------------------------------------------

  /** The join effect never moves a status other than `disconnected`. */
  lemma JoinSpec(h: HookState, isConnected: bool, roomId: string)
    ensures var q := Joined(h, isConnected, roomId);
      && (h.status == Disconnected && isConnected && roomId != "" <==> q.status == Status.Connecting && h.status != Status.Connecting)
      && (h.status != Disconnected ==> q.status == h.status)
      && q.requests == (if isConnected && roomId != "" then h.requests + [JoinRoom(roomId)] else h.requests)
      && q.(status := h.status, requests := h.requests) == h
  {
  }

  /** Only `connected` and `failed` move the status, and only the status. */
  lemma ConnectionStateSpec(h: HookState, state: string)
    ensures ConnectionChanged(h, state).status
      == (if state == "connected" then Connected else if state == "failed" then Failed else h.status)
    ensures ConnectionChanged(h, state).(status := h.status) == h
  {
  }

  /**
   * A `metadata` text sets the batch position with JavaScript's defaults,
   * moves to `receiving`, and installs a receiver holding that metadata and
   * no data; the files received so far are kept.
   */
  lemma MetadataSpec(h: HookState, m: FileMeta, cipher: Cipher, ch: ChannelView)
    ensures var q := DataReceived(h, Text(Some(Metadata(m))), cipher, ch);
      && q.totalFiles == (if m.totalFiles.Some? && m.totalFiles.value != 0 then m.totalFiles.value else 1)
      && q.currentFileIndex == (if m.fileIndex.Some? && m.fileIndex.value != 0 then m.fileIndex.value else 0)
      && q.status == ReceivingFile
      && q.currentFileMetadata == Some(m)
      && q.encryptionKey == Some(m.encryptionKey)
      && q.receiver.Some? && q.receiver.value.metadata == Some(m)
      && q.receiver.value.chunks == [] && q.receiver.value.receivedSize == 0
      && q.receiver.value.delivered == [] && q.receiver.value.channel == Some(ch)
      && q.receivedFiles == h.receivedFiles && q.requests == h.requests
  {
  }

  /** Without a receiver or without a key, any non-metadata payload is dropped and nothing changes. */
  lemma ForwardGuard(h: HookState, p: Payload, cipher: Cipher, ch: ChannelView)
    requires !(p.Text? && p.message.Some? && p.message.value.Metadata?)
    ensures h.receiver.None? || h.encryptionKey.None? ==> DataReceived(h, p, cipher, ch) == h
    ensures h.receiver.Some? && h.encryptionKey.Some? ==>
      DataReceived(h, p, cipher, ch).receiver
        == Some(Receive(h.receiver.value, p, DecryptorFor(cipher, h.encryptionKey.value)))
  {
  }

  /**
   * A delivery is appended at the end of the received files, and the status
   * becomes `complete` exactly for the batch's last file and
   * `waiting-next` otherwise.
   */
  lemma CompletionSpec(h: HookState, cipher: Cipher, ch: ChannelView, d: Delivery)
    requires h.receiver.Some? && h.encryptionKey.Some?
    requires Assemble(h.receiver.value, DecryptorFor(cipher, h.encryptionKey.value)) == Success(d)
    ensures var q := DataReceived(h, Text(Some(PeerMessage.Complete)), cipher, ch);
      && q.receivedFiles == h.receivedFiles + [d]
      && (q.status == Status.Complete <==> IsLastFile(d.metadata))
      && (q.status == WaitingNext <==> !IsLastFile(d.metadata))
  {
  }

  /** A delivery always carries the metadata its receiver was given. */
  lemma AssembledMetadata(r: ReceiverState, dec: ChunkDecryptor)
    requires Assemble(r, dec).Success?
    ensures r.metadata.Some? && Assemble(r, dec).value.metadata == r.metadata.value
  {
  }

  /**
   * The completion test on the positions a sender writes: file i of a
   * batch of n is the last exactly when i = n - 1. Without an index a file
   * counts as the first, so it is the last exactly when the batch has at
   * most one file; without a total, the batch has one file.
   */
  lemma CompletionOfBatch(m: FileMeta, i: nat, n: nat)
    ensures m.fileIndex == Some(i) && m.totalFiles == Some(n) && i < n ==> (IsLastFile(m) <==> i + 1 == n)
    ensures m.fileIndex == None && m.totalFiles == Some(n) ==> (IsLastFile(m) <==> n <= 1)
    ensures m.fileIndex == Some(i) && m.totalFiles == None ==> IsLastFile(m)
    ensures m.fileIndex == None && m.totalFiles == None ==> IsLastFile(m)
  {
  }

  /** togglePause without a receiver does nothing; with one, it toggles that receiver. */
  lemma TogglePauseSpec(h: HookState)
    ensures h.receiver.None? ==> ToggledHook(h) == h
    ensures h.receiver.Some? ==> ToggledHook(h) == h.(receiver := Some(Toggled(h.receiver.value)))
  {
  }

  /** The received files grow by what the receiver delivers: `old` followed by the new deliveries. */
  predicate TracksDeliveries(h: HookState, q: HookState)
    requires h.receiver.Some? && q.receiver.Some?
  {
    && |h.receiver.value.delivered| <= |q.receiver.value.delivered|
    && q.receivedFiles == h.receivedFiles + q.receiver.value.delivered[|h.receiver.value.delivered|..]
  }

  /** One forwarded payload: the receiver handles it and the hook appends what it delivered. */
  lemma ForwardedDelivers(h: HookState, p: Payload, cipher: Cipher)
    requires h.receiver.Some? && h.encryptionKey.Some?
    ensures var q := Forwarded(h, p, cipher);
      && q.receiver == Some(Receive(h.receiver.value, p, DecryptorFor(cipher, h.encryptionKey.value)))
      && q.encryptionKey == h.encryptionKey
      && TracksDeliveries(h, q)
  {
    var r := h.receiver.value;
    var r1 := Receive(r, p, DecryptorFor(cipher, h.encryptionKey.value));
    if |r1.delivered| > |r.delivered| {
      assert r1.delivered[|r.delivered|..] == [r1.delivered[|r1.delivered| - 1]];
    } else {
      assert r1.delivered[|r.delivered|..] == [];
    }
  }

  lemma TracksDeliveriesChain(h: HookState, h1: HookState, q: HookState)
    requires h.receiver.Some? && h1.receiver.Some? && q.receiver.Some?
    requires TracksDeliveries(h, h1) && TracksDeliveries(h1, q)
    requires h.receiver.value.delivered <= h1.receiver.value.delivered <= q.receiver.value.delivered
    ensures TracksDeliveries(h, q)
  {
    var a := h.receiver.value.delivered;
    var b := h1.receiver.value.delivered;
    var c := q.receiver.value.delivered;
    assert c[|a|..] == b[|a|..] + c[|b|..];
  }

  /** The deliveries of a receiver only grow. */
  lemma {:induction false} ReceiveAllKeepsDelivered(r: ReceiverState, ps: seq<Payload>, dec: ChunkDecryptor)
    ensures r.delivered <= ReceiveAll(r, ps, dec).delivered
    decreases |ps|
  {
    if ps != [] {
      ReceiveAllKeepsDelivered(Receive(r, ps[0], dec), ps[1..], dec);
    }
  }

  /**
   * Over a stream without `metadata`, the hook's receiver is the receiver
   * fed the whole stream, and the hook has appended exactly what that
   * receiver delivered meanwhile.
   */
  lemma {:induction false} StreamOfOneFile(h: HookState, ps: seq<Payload>, cipher: Cipher, ch: ChannelView)
    requires h.receiver.Some? && h.encryptionKey.Some?
    requires Count(ps, IsMetadata) == 0
    ensures var q := DataReceivedAll(h, ps, cipher, ch);
      && q.receiver == Some(ReceiveAll(h.receiver.value, ps, DecryptorFor(cipher, h.encryptionKey.value)))
      && q.encryptionKey == h.encryptionKey
      && TracksDeliveries(h, q)
    decreases |ps|
  {
    var dec := DecryptorFor(cipher, h.encryptionKey.value);
    if ps == [] {
      assert h.receiver.value.delivered[|h.receiver.value.delivered|..] == [];
    } else {
      assert !IsMetadata(ps[0]);
      ForwardedDelivers(h, ps[0], cipher);
      var h1 := DataReceived(h, ps[0], cipher, ch);
      assert h1 == Forwarded(h, ps[0], cipher);
      StreamOfOneFile(h1, ps[1..], cipher, ch);
      var q := DataReceivedAll(h1, ps[1..], cipher, ch);
      ReceiveAllKeepsDelivered(h.receiver.value, [ps[0]], dec);
      assert ReceiveAll(h.receiver.value, [ps[0]], dec) == h1.receiver.value by {
        assert [ps[0]][1..] == [];
      }
      ReceiveAllKeepsDelivered(h1.receiver.value, ps[1..], dec);
      TracksDeliveriesChain(h, h1, q);
    }
  }

  /**
   * The receiving side of one file: after `metadata` for a file, any stream
   * without another `metadata` whose binary payloads are the file's sealed
   * windows, then `complete`, leaves the file's bytes as the last received
   * file and settles the status by the completion test.
   */
  lemma ReceivesAnnouncedFile(h: HookState, u: EncryptionUtils, ivs: nat -> Iv, data: Bytes, cs: nat,
                              m: FileMeta, ps: seq<Payload>, ch: ChannelView)
    requires RoundTrips(u.cipher) && cs > 0 && u.key == m.encryptionKey
    requires Count(ps, IsMetadata) == 0
    requires Binaries(ps) == Seal(Chunks(data, cs), 0, Sealer(u, ivs))
    ensures var q := DataReceivedAll(Announced(h, m, ch), ps + [Text(Some(PeerMessage.Complete))], u.cipher, ch);
      && |q.receivedFiles| > 0
      && q.receivedFiles[|q.receivedFiles| - 1] == Delivery(Blob(m.mimeType, data), m)
      && (q.status == Status.Complete <==> IsLastFile(m))
  {
    var a := Announced(h, m, ch);
    var dec := DecryptorFor(u.cipher, m.encryptionKey);
    assert dec == Opener(u);
    var r0 := a.receiver.value;
    StreamOfOneFile(a, ps, u.cipher, ch);
    FileArrivesWhole(u, ivs, data, cs, m, r0, ps);
    DataReceivedAllSnoc(a, ps, Text(Some(PeerMessage.Complete)), u.cipher, ch);
    var b := DataReceivedAll(a, ps, u.cipher, ch);
    var rb := b.receiver.value;
    ReceiveAllSnoc(r0, ps, Text(Some(PeerMessage.Complete)), dec);
    var d := Delivery(Blob(m.mimeType, data), m);
    assert Receive(rb, Text(Some(PeerMessage.Complete)), dec).delivered == rb.delivered + [d];
  }

  lemma {:induction false} DataReceivedAllSnoc(h: HookState, ps: seq<Payload>, p: Payload, cipher: Cipher, ch: ChannelView)
    ensures DataReceivedAll(h, ps + [p], cipher, ch) == DataReceived(DataReceivedAll(h, ps, cipher, ch), p, cipher, ch)
    decreases |ps|
  {
    if ps == [] {
      assert ps + [p] == [p];
    } else {
      assert (ps + [p])[1..] == ps[1..] + [p];
      DataReceivedAllSnoc(DataReceived(h, ps[0], cipher, ch), ps[1..], p, cipher, ch);
    }
  }

  // ---------------------------------------------------------------------
  // The hook as an object
  // ---------------------------------------------------------------------

  /**
   * The hook's state setters and refs as fields. `receiver` is the object in
   * fileReceiverRef; `cipher` is the AES-GCM primitive behind
   * createEncryptionUtils.
   */
  class FileReceiverHook {
    const cipher: Cipher
    var status: Status
    var receivedFiles: seq<Delivery>
    var currentFileMetadata: Option<FileMeta>
    var totalFiles: int
    var currentFileIndex: int
    var receiver: FileReceiver?
    var encryptionKey: Option<Key>
    var requests: seq<Request>

    function State(): HookState
      reads this, receiver, if receiver == null then null else receiver.dataChannel
    {
      HookState(status, receivedFiles, currentFileMetadata, totalFiles, currentFileIndex,
                if receiver == null then None else Some(receiver.State()), encryptionKey, requests)
    }

    constructor (cipher: Cipher)
      ensures this.cipher == cipher
      ensures State() == NewHook()
    {
      this.cipher := cipher;
      status := Disconnected;
      receivedFiles := [];
      currentFileMetadata := None;
      totalFiles := 0;
      currentFileIndex := 0;
      receiver := null;
      encryptionKey := None;
      requests := [];
    }

    /** The effect that runs when the connection flag or the room id changes. */
    method JoinEffect(isConnected: bool, roomId: string)
      modifies this
      ensures receiver == old(receiver)
      ensures State() == Joined(old(State()), isConnected, roomId)
    {
      if isConnected && roomId != "" {
        requests := requests + [JoinRoom(roomId)];
        if status == Disconnected {
          status := Status.Connecting;
        }
      }
    }

    method OnUserJoined()
      modifies this
      ensures receiver == old(receiver)
      ensures State() == UserJoined(old(State()))
    {
      status := Connected;
    }

    method OnConnectionState(state: string)
      modifies this
      ensures receiver == old(receiver)
      ensures State() == ConnectionChanged(old(State()), state)
    {
      if state == "connected" {
        status := Connected;
      } else if state == "failed" {
        status := Failed;
      }
    }

    /**
     * The data callback. The key import is taken to complete before the next
     * payload is handled.
     */
    method OnData(p: Payload, ch: DataChannel)
      modifies this, receiver
      ensures State() == DataReceived(old(State()), p, cipher, old(ch.View()))
    {
      if p.Text? && p.message.Some? && p.message.value.Metadata? {
        Announce(p.message.value.meta, ch);
      } else {
        Forward(p);
      }
    }

    /** The `metadata` branch: record the announcement and install a fresh receiver. */
    method Announce(m: FileMeta, ch: DataChannel)
      modifies this
      ensures State() == Announced(old(State()), m, old(ch.View()))
    {
      currentFileMetadata := Some(m);
      totalFiles := OrDefault(m.totalFiles, 1);
      currentFileIndex := OrDefault(m.fileIndex, 0);
      status := ReceivingFile;
      encryptionKey := Some(m.encryptionKey);
      var r := new FileReceiver();
      r.SetDataChannel(ch);
      r.SetMetadata(m);
      receiver := r;
    }

    /** Forwarding to handleData; a delivery it records is the onComplete call. */
    method Forward(p: Payload)
      modifies this, receiver
      ensures State() == Forwarded(old(State()), p, cipher)
    {
      if receiver != null && encryptionKey.Some? {
        var before := |receiver.delivered|;
        receiver.HandleData(p, DecryptorFor(cipher, encryptionKey.value));
        if |receiver.delivered| > before {
          var d := receiver.delivered[|receiver.delivered| - 1];
          receivedFiles := receivedFiles + [d];
          status := if IsLastFile(d.metadata) then Status.Complete else WaitingNext;
        }
      }
    }

    method TogglePause()
      modifies receiver, if receiver == null then null else receiver.dataChannel
      ensures State() == ToggledHook(old(State()))
    {
      if receiver != null {
        receiver.TogglePause();
      }
    }
  }
}
