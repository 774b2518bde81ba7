/**
 * The sending page (client/src/components/SendPage.jsx).
 *
 * The page keeps a list of selected files and sends them in one batch:
 * for each file in index order it draws a key, makes a FileSender on the
 * shared data channel, sends the file's metadata, waits 100 ms, runs
 * sendFile and, before the next file, waits 500 ms. The batch is an async
 * function; here it is the `Batch` value saying where it waits, and every
 * event that can continue it (a timer, a pause toggle, a peer message, a
 * drained buffer) runs it on to its next wait.
 *
 * Each handler is first a function on a `PageState` value; the class
 * performs it on its fields and on the FileSender object it owns.
 */
module SendingPage {
  import opened Base
  import opened Encryption
  import opened Transport
  import opened Chunking
  import opened Sending

  datatype PageStatus = Disconnected | Waiting | Connecting | Connected | Transferring | Complete | Failed

  /** Where the handleSendFiles activation waits for the current file: after its metadata, in sendFile, after it. */
  datatype Phase = Settling | Sending | Spacing

  /**
   * The suspended handleSendFiles activation: the file list it captured,
   * the index of its loop, the Turbo Mode it captured and where it waits.
   * `keys(i)` is the key generateKey draws for file i and `ivs(i)` the IVs
   * that file's encryptChunk draws, by offset.
   */
  datatype Batch = Batch(
    files: seq<File>,
    index: nat,
    turbo: bool,
    phase: Phase,
    cipher: Cipher,
    keys: nat -> Key,
    ivs: nat -> nat -> Iv)

  /**
   * The page's React state and refs: `channel` is the data channel of the
   * WebRTC manager (None without one), `sender` the FileSender in
   * currentSenderRef, `batch` the running handleSendFiles.
   */
  datatype PageState = PageState(
    files: seq<File>,
    status: PageStatus,
    currentFileIndex: nat,
    overallProgress: real,
    progress: Progress,
    isPaused: bool,
    channel: Option<ChannelView>,
    sender: Option<SenderState>,
    batch: Option<Batch>)

  /** The events that reach the page while a batch can be waiting; the channel closes when the peer goes away. */
  datatype PageEvent = TimerFired | TogglePressed | PeerData(p: Payload) | BufferDrained | ChannelLost

  const InitialProgress: Progress := Progress(0, 0, false)

  function NewPage(channel: Option<ChannelView>): PageState
  {
    PageState([], Disconnected, 0, 0.0, InitialProgress, false, channel, None, None)
  }

  /** The encryptChunk of file i: createEncryptionUtils over its key, with that file's IV draws. */
  function Encryptor(b: Batch, i: nat): ChunkEncryptor
  {
    Sealer(EncryptionUtils(b.cipher, b.keys(i)), b.ivs(i))
  }

  /** `sendMetadata(exportedKey, i, totalFiles)` of file i; the exported key is the key's bytes. */
  function MetadataOf(b: Batch, i: nat): Payload
    requires i < |b.files|
  {
    Text(Some(Metadata(FileMeta(b.files[i].name, |b.files[i].data|, b.files[i].mimeType, b.keys(i), Some(i), Some(|b.files|)))))
  }

  /** What holds of every page state: a batch runs on a channel, through a sender of its current file. */
  predicate PageWf(s: PageState)
  {
    && (s.sender.Some? ==> s.channel.Some? && s.sender.value.channel == s.channel.value)
    && (s.batch.Some? ==>
          && s.sender.Some?
          && s.batch.value.index < |s.batch.value.files|
          && SenderInv(s.sender.value, |s.batch.value.files[s.batch.value.index].data|)
          && (s.batch.value.phase == Settling ==> s.sender.value.stage == Idle)
          && (s.batch.value.phase == Spacing ==> s.batch.value.index + 1 < |s.batch.value.files|))
  }

  // ---------------------------------------------------------------------
  // The file list
  // ---------------------------------------------------------------------

  /** handleFileSelect: a non-empty selection is appended; none or an empty one changes nothing. */
  function FilesSelected(s: PageState, selected: Option<seq<File>>): PageState
  {
    if selected.Some? && |selected.value| > 0 then s.(files := s.files + selected.value) else s
  }

  /** `filter((_, i) => i !== index)` over the positions from k on. */
  function KeepOthers(fs: seq<File>, index: int, k: nat): seq<File>
    requires k <= |fs|
    decreases |fs| - k
  {
    if k == |fs| then [] else (if k == index then [] else [fs[k]]) + KeepOthers(fs, index, k + 1)
  }

  /** removeFile. */
  function FileRemoved(s: PageState, index: int): PageState
  {
    s.(files := KeepOthers(s.files, index, 0))
  }

  // ---------------------------------------------------------------------
  // The overall progress
  // ---------------------------------------------------------------------

  /** The onProgress formula: file i of n, with the report's percentage. */
  function Overall(i: nat, n: nat, p: Progress): real
    requires n > 0 && p.total > 0
  {
    var progress := (p.transferred as real / p.total as real) * 100.0;
    ((i as real + progress / 100.0) / n as real) * 100.0
  }

  // ---------------------------------------------------------------------
  // The batch
  // ---------------------------------------------------------------------

  function WithSender(s: PageState, t: SenderState): PageState
  {
    s.(sender := Some(t), channel := Some(t.channel))
  }

  /**
   * The onProgress calls of the last run, of which the latest wins: the
   * report becomes `progress` and sets the overall figure. Reports of a
   * sendFile run always have a non-zero total (they follow a chunk of a
   * non-empty file); the other case keeps the old figure.
   */
  function Reported(s: PageState, b: Batch, t: SenderState, before: nat): PageState
    requires b.index < |b.files|
  {
    if |t.reports| > before then
      var p := t.reports[|t.reports| - 1];
      s.(progress := p, overallProgress := if p.total > 0 then Overall(b.index, |b.files|, p) else s.overallProgress)
    else s
  }

  /** The top of the loop for file `b.index`: index, a fresh sender, the metadata; a failed send is the catch. */
  function FileStarted(s: PageState, b: Batch): (r: PageState)
    requires s.channel.Some? && b.index < |b.files|
    ensures PageWf(r)
  {
    var t := NewSender(s.channel.value);
    var (ch, ok) := Transmit(s.channel.value, MetadataOf(b, b.index));
    var s1 := WithSender(s.(currentFileIndex := b.index), t.(channel := ch));
    if ok then s1.(batch := Some(b.(phase := Settling))) else s1.(status := PageStatus.Failed, batch := None)
  }

  /**
   * Where a sendFile run leaves the batch: a returned call moves to the
   * next-file delay or ends the batch (`complete`, 100 %, no sender); a
   * thrown one is the catch; otherwise sendFile still waits.
   */
  function Ran(s: PageState, b: Batch, t: SenderState, before: nat): (r: PageState)
    requires b.index < |b.files| && SenderInv(t, |b.files[b.index].data|) && !t.stage.Ready?
    ensures PageWf(r)
  {
    var s1 := Reported(WithSender(s, t), b, t, before);
    if t.stage == Finished then
      if b.index + 1 < |b.files| then s1.(batch := Some(b.(phase := Spacing)))
      else s1.(status := PageStatus.Complete, overallProgress := 100.0, sender := None, batch := None)
    else if t.stage == Stage.Failed then s1.(status := PageStatus.Failed, batch := None)
    else s1.(batch := Some(b.(phase := Sending)))
  }

  /** The 100 ms delay ends: `sendFile(encryptChunk, turboMode)` runs to its first wait. */
  function SendStarted(s: PageState): (r: PageState)
    requires PageWf(s) && s.batch.Some? && s.batch.value.phase == Settling
    ensures PageWf(r)
  {
    var b := s.batch.value;
    var u := s.sender.value;
    Ran(s, b, Pump(StartSend(u, b.turbo), b.files[b.index].data, Encryptor(b, b.index)), |u.reports|)
  }

  /** A released sendFile runs on to its next wait, and the batch with it. */
  function Continued(s: PageState): (r: PageState)
    requires PageWf(s)
    ensures PageWf(r)
  {
    if s.batch.Some? && s.batch.value.phase == Sending then
      var b := s.batch.value;
      var u := s.sender.value;
      Ran(s, b, Pump(u, b.files[b.index].data, Encryptor(b, b.index)), |u.reports|)
    else s
  }

  /** A pending delay ends: after the metadata, sendFile starts; after a file, the next one starts. */
  function TimerEnded(s: PageState): (r: PageState)
    requires PageWf(s)
    ensures PageWf(r)
  {
    if s.batch.None? then s
    else match s.batch.value.phase
      case Settling => SendStarted(s)
      case Spacing => FileStarted(s, s.batch.value.(index := s.batch.value.index + 1))
      case Sending => s
  }

  /** The sender-level event for a page event: togglePause calls resume when the page shows paused, else pause. */
  function EventFor(ev: PageEvent, pagePaused: bool): SenderEvent
    requires ev != TimerFired
  {
    match ev
    case TogglePressed => if pagePaused then ResumeCall else PauseCall
    case PeerData(p) => PeerPayload(p)
    case BufferDrained => BufferedAmountLow
    case ChannelLost => ChannelClosed
  }

  /**
   * The event as the current sender's handlers take it, before the
   * continuation it released runs; togglePause also flips the page's flag.
   * Without a sender, only the channel's closing changes anything.
   */
  function Dispatched(s: PageState, ev: PageEvent): (r: PageState)
    requires PageWf(s) && ev != TimerFired
    ensures PageWf(r)
  {
    if s.sender.None? then
      if ev == ChannelLost && s.channel.Some? then s.(channel := Some(Shut(s.channel.value))) else s
    else
      var u := s.sender.value;
      var h := Handle(u, EventFor(ev, s.isPaused));
      var s1 := WithSender(s, h);
      if s.batch.Some? then
        HandleSpec(u, EventFor(ev, s.isPaused), |s.batch.value.files[s.batch.value.index].data|);
        if ev == TogglePressed then s1.(isPaused := !s.isPaused) else s1
      else if ev == TogglePressed then s1.(isPaused := !s.isPaused) else s1
  }

  /** One event, then the continuation it released. */
  function PageStep(s: PageState, ev: PageEvent): (r: PageState)
    requires PageWf(s)
    ensures PageWf(r)
  {
    if ev == TimerFired then TimerEnded(s) else Continued(Dispatched(s, ev))
  }

  function Play(s: PageState, evs: seq<PageEvent>): (r: PageState)
    requires PageWf(s)
    ensures PageWf(r)
    decreases |evs|
  {
    if evs == [] then s else Play(PageStep(s, evs[0]), evs[1..])
  }

  /**
   * handleSendFiles: no files, no channel or a channel that is not open
   * return at once; otherwise the page is `transferring`, unpaused, and the
   * loop starts file 0.
   */
  function BatchStarted(s: PageState, turbo: bool, cipher: Cipher, keys: nat -> Key, ivs: nat -> nat -> Iv): (r: PageState)
    requires PageWf(s) && s.batch.None?
    ensures PageWf(r)
  {
    if s.files == [] || s.channel.None? || s.channel.value.readyState != Open then s
    else FileStarted(s.(status := Transferring, isPaused := false),
                     Batch(s.files, 0, turbo, Settling, cipher, keys, ivs))
  }

  /** handleReset. */
  function PageReset(s: PageState): PageState
  {
    s.(files := [], status := Connected, progress := InitialProgress, overallProgress := 0.0,
       currentFileIndex := 0, isPaused := false)
  }

  // ---------------------------------------------------------------------
  // Properties of the file list, the toggle, the guards and the progress
  // ---------------------------------------------------------------------

  /** handleFileSelect appends the selection in order and ignores a missing or empty one. */
  lemma FileSelectSpec(s: PageState, selected: Option<seq<File>>)
    ensures selected.Some? && |selected.value| > 0 ==>
      && FilesSelected(s, selected).files[..|s.files|] == s.files
      && FilesSelected(s, selected).files[|s.files|..] == selected.value
    ensures selected.None? || selected.value == [] ==> FilesSelected(s, selected) == s
    ensures FilesSelected(s, selected).(files := s.files) == s
  {
  }

  lemma {:induction false} KeepOthersFrom(fs: seq<File>, index: int, k: nat)
    requires k <= |fs|
    ensures KeepOthers(fs, index, k) == if k <= index < |fs| then fs[k..index] + fs[index + 1..] else fs[k..]
    decreases |fs| - k
  {
    if k < |fs| {
      KeepOthersFrom(fs, index, k + 1);
      var rest := KeepOthers(fs, index, k + 1);
      assert KeepOthers(fs, index, k) == (if k == index then [] else [fs[k]]) + rest;
      if k == index {
        assert rest == fs[k + 1..];
        assert fs[k..index] == [];
      } else if k < index < |fs| {
        assert rest == fs[k + 1..index] + fs[index + 1..];
        assert fs[k..index] == [fs[k]] + fs[k + 1..index];
      } else {
        assert rest == fs[k + 1..];
        assert fs[k..] == [fs[k]] + fs[k + 1..];
      }
    }
  }

  /** removeFile(i) drops exactly the file at position i and keeps the others in order; any other i changes nothing. */
  lemma RemoveFileSpec(s: PageState, index: int)
    ensures 0 <= index < |s.files| ==> FileRemoved(s, index).files == s.files[..index] + s.files[index + 1..]
    ensures !(0 <= index < |s.files|) ==> FileRemoved(s, index) == s
    ensures FileRemoved(s, index).(files := s.files) == s
  {
    KeepOthersFrom(s.files, index, 0);
    if 0 <= index < |s.files| {
      assert s.files[0..index] == s.files[..index];
    } else {
      assert s.files[0..] == s.files;
    }
  }

  /**
   * togglePause without a sender does nothing; with one, it resumes it and
   * clears the flag when the page shows paused, and pauses it and sets the
   * flag otherwise.
   */
  lemma TogglePauseSpec(s: PageState)
    requires PageWf(s)
    ensures s.sender.None? ==> PageStep(s, TogglePressed) == s
    ensures s.sender.Some? ==>
      && Dispatched(s, TogglePressed).isPaused == !s.isPaused
      && Dispatched(s, TogglePressed).sender
           == Some(if s.isPaused then Resumed(s.sender.value) else Paused(s.sender.value))
  {
  }

  /** handleSendFiles returns at once, changing nothing, without files or without an open data channel. */
  lemma SendGuardSpec(s: PageState, turbo: bool, cipher: Cipher, keys: nat -> Key, ivs: nat -> nat -> Iv)
    requires PageWf(s) && s.batch.None?
    ensures s.files == [] || s.channel.None? || s.channel.value.readyState != Open ==>
      BatchStarted(s, turbo, cipher, keys, ivs) == s
    ensures s.files != [] && s.channel.Some? && s.channel.value.readyState == Open ==>
      var r := BatchStarted(s, turbo, cipher, keys, ivs);
      && r.status == Transferring && !r.isPaused && r.currentFileIndex == 0
      && r.channel.value.sent == s.channel.value.sent + [MetadataOf(Batch(s.files, 0, turbo, Settling, cipher, keys, ivs), 0)]
      && r.batch == Some(Batch(s.files, 0, turbo, Settling, cipher, keys, ivs))
  {
  }

  lemma FractionBounds(a: real, b: real)
    requires 0.0 <= a <= b && b > 0.0
    ensures 0.0 <= a / b <= 1.0
  {
    assert a / b * b == a;
  }

  lemma FractionGrows(a: real, a': real, b: real)
    requires a <= a' && b > 0.0
    ensures a / b <= a' / b
  {
    assert a / b * b == a;
    assert a' / b * b == a';
  }

  /**
   * The overall figure of file i lies between i/n and (i+1)/n of 100 %,
   * grows with the bytes sent, reaches (i+1)/n when the file is done, and
   * is 100 % exactly at the end of the last file.
   */
  lemma OverallSpec(i: nat, n: nat, p: Progress, q: Progress)
    requires i < n && 0 < p.total && p.transferred <= p.total
    requires q.total == p.total && p.transferred <= q.transferred <= q.total
    ensures 100.0 * (i as real) / (n as real) <= Overall(i, n, p) <= 100.0 * ((i + 1) as real) / (n as real)
    ensures Overall(i, n, p) <= Overall(i, n, q)
    ensures p.transferred == p.total ==> Overall(i, n, p) == 100.0 * ((i + 1) as real) / (n as real)
    ensures p.transferred == p.total && i + 1 == n ==> Overall(i, n, p) == 100.0
  {
    var f := p.transferred as real / p.total as real;
    var g := q.transferred as real / q.total as real;
    FractionBounds(p.transferred as real, p.total as real);
    FractionGrows(p.transferred as real, q.transferred as real, p.total as real);
    assert f * 100.0 / 100.0 == f;
    assert g * 100.0 / 100.0 == g;
    assert Overall(i, n, p) == (i as real + f) / (n as real) * 100.0;
    assert Overall(i, n, q) == (i as real + g) / (n as real) * 100.0;
    FractionGrows(i as real, i as real + f, n as real);
    FractionGrows(i as real + f, (i + 1) as real, n as real);
    FractionGrows(i as real + f, i as real + g, n as real);
    assert 100.0 * (i as real) / (n as real) == (i as real) / (n as real) * 100.0;
    assert 100.0 * ((i + 1) as real) / (n as real) == ((i + 1) as real) / (n as real) * 100.0;
    if p.transferred == p.total {
      assert f == 1.0;
      if i + 1 == n {
        assert ((i + 1) as real) / (n as real) == 1.0;
      }
    }
  }

  /** A batch that ends does so with `complete`, 100 % and no current sender. */
  lemma BatchEndSpec(s: PageState, b: Batch, t: SenderState, before: nat)
    requires b.index < |b.files| && SenderInv(t, |b.files[b.index].data|) && !t.stage.Ready?
    ensures t.stage == Finished && b.index + 1 == |b.files| ==>
      var r := Ran(s, b, t, before);
      r.status == PageStatus.Complete && r.overallProgress == 100.0 && r.sender.None? && r.batch.None?
    ensures t.stage == Stage.Failed ==> Ran(s, b, t, before).status == PageStatus.Failed && Ran(s, b, t, before).batch.None?
    ensures t.stage == Finished && b.index + 1 < |b.files| ==> Ran(s, b, t, before).batch == Some(b.(phase := Spacing))
  {
  }

  /** The channel closes under a batch that waits: only the channel changes, for the page and its sender. */
  lemma ChannelLossKeeps(s: PageState)
    requires PageWf(s) && s.batch.Some? && s.channel.Some?
    ensures var d := PageStep(s, ChannelLost);
      && d.channel == Some(Shut(s.channel.value))
      && ((s.batch.value.phase != Sending || s.sender.value.stage == AwaitingResume || s.sender.value.stage == AwaitingDrain)
            ==> d == s.(channel := d.channel, sender := Some(s.sender.value.(channel := Shut(s.channel.value)))))
  {
    var b := s.batch.value;
    var h := Handle(s.sender.value, ChannelClosed);
    ClosedRunFails(h, b.files[b.index].data, Encryptor(b, b.index));
  }

  /** On a closed channel the end of either delay makes handleSendFiles throw: the metadata, or sendFile's first send. */
  lemma ClosedTimerFails(d: PageState)
    requires PageWf(d) && d.batch.Some? && d.channel.Some? && d.channel.value.readyState == Closed
    requires d.batch.value.phase == Spacing
             || (d.batch.value.phase == Settling && !d.sender.value.isPaused
                 && d.channel.value.bufferedAmount <= BufferThreshold)
    ensures PageStep(d, TimerFired).status == PageStatus.Failed && PageStep(d, TimerFired).batch.None?
  {
    var b := d.batch.value;
    if b.phase == Settling {
      ClosedRunFails(StartSend(d.sender.value, b.turbo), b.files[b.index].data, Encryptor(b, b.index));
    }
  }

  /** On a closed channel the window a drain releases throws, and handleSendFiles with it. */
  lemma ClosedDrainFails(d: PageState)
    requires PageWf(d) && d.batch.Some? && d.batch.value.phase == Sending
    requires d.channel.Some? && d.channel.value.readyState == Closed && d.sender.value.stage == AwaitingDrain
    ensures PageStep(d, BufferDrained).status == PageStatus.Failed && PageStep(d, BufferDrained).batch.None?
  {
    var b := d.batch.value;
    var n := |b.files[b.index].data|;
    HandleSpec(d.sender.value, BufferedAmountLow, n);
    ClosedRunFails(BufferLow(d.sender.value), b.files[b.index].data, Encryptor(b, b.index));
  }

  /**
   * The peer goes away mid-batch. The channel closes and a waiting batch
   * stays where it was; then the next `send` throws and handleSendFiles
   * ends `failed`: the next file's metadata after the 500 ms delay,
   * sendFile's first send after the 100 ms delay (unless it suspends on a
   * pause or on the buffer), or the window a drain releases.
   */
  lemma ChannelLossFailsBatch(s: PageState)
    requires PageWf(s) && s.batch.Some? && s.channel.Some?
    ensures var d := PageStep(s, ChannelLost);
      && d.channel == Some(Shut(s.channel.value))
      && ((s.batch.value.phase != Sending || s.sender.value.stage == AwaitingResume || s.sender.value.stage == AwaitingDrain)
            ==> d.batch == s.batch)
      && (s.batch.value.phase == Spacing ==>
            PageStep(d, TimerFired).status == PageStatus.Failed && PageStep(d, TimerFired).batch.None?)
      && (s.batch.value.phase == Settling && !s.sender.value.isPaused
          && s.channel.value.bufferedAmount <= BufferThreshold ==>
            PageStep(d, TimerFired).status == PageStatus.Failed && PageStep(d, TimerFired).batch.None?)
      && (s.batch.value.phase == Sending && s.sender.value.stage == AwaitingDrain ==>
            PageStep(d, BufferDrained).status == PageStatus.Failed && PageStep(d, BufferDrained).batch.None?)
  {
    ChannelLossKeeps(s);
    var d := PageStep(s, ChannelLost);
    var b := s.batch.value;
    if b.phase == Spacing || (b.phase == Settling && !s.sender.value.isPaused
                              && s.channel.value.bufferedAmount <= BufferThreshold) {
      ClosedTimerFails(d);
    }
    if b.phase == Sending && s.sender.value.stage == AwaitingDrain {
      ClosedDrainFails(d);
    }
  }

  // ---------------------------------------------------------------------
  // The batch puts the files on the channel one after another
  // ---------------------------------------------------------------------

  const CompleteText: Payload := Text(Some(PeerMessage.Complete))

  /** The texts that delimit files: `metadata` and `complete`. */
  predicate IsMarker(p: Payload)
  {
    IsMetadata(p) || IsComplete(p)
  }

  /** The `metadata` and `complete` texts among `ps`, in order. */
  function Marks(ps: seq<Payload>): seq<Payload>
  {
    if ps == [] then []
    else if IsMarker(ps[0]) then [ps[0]] + Marks(ps[1..])
    else Marks(ps[1..])
  }

  lemma {:induction false} MarksAppend(a: seq<Payload>, b: seq<Payload>)
    ensures Marks(a + b) == Marks(a) + Marks(b)
  {
    if a == [] {
      assert a + b == b;
    } else {
      assert (a + b)[0] == a[0];
      assert (a + b)[1..] == a[1..] + b;
      MarksAppend(a[1..], b);
    }
  }

  lemma {:induction false} MarksOfBinaries(parts: seq<Bytes>)
    ensures Marks(AsBinaries(parts)) == []
  {
    if parts != [] {
      assert AsBinaries(parts)[1..] == AsBinaries(parts[1..]);
      MarksOfBinaries(parts[1..]);
    }
  }

  /** What gives a batch its shape on the wire: the delimiters and the binary payloads. */
  predicate Shapes(p: Payload)
  {
    p.Binary? || IsMarker(p)
  }

  /** The stream with its control texts left out: delimiters and binaries, in their order. */
  function Skeleton(ps: seq<Payload>): seq<Payload>
  {
    if ps == [] then []
    else if Shapes(ps[0]) then [ps[0]] + Skeleton(ps[1..])
    else Skeleton(ps[1..])
  }

  lemma {:induction false} SkeletonAppend(a: seq<Payload>, b: seq<Payload>)
    ensures Skeleton(a + b) == Skeleton(a) + Skeleton(b)
  {
    if a == [] {
      assert a + b == b;
    } else {
      assert (a + b)[0] == a[0];
      assert (a + b)[1..] == a[1..] + b;
      SkeletonAppend(a[1..], b);
    }
  }

  lemma {:induction false} SkeletonOfBinaries(parts: seq<Bytes>)
    ensures Skeleton(AsBinaries(parts)) == AsBinaries(parts)
  {
    if parts != [] {
      assert AsBinaries(parts) == [Binary(parts[0])] + AsBinaries(parts[1..]);
      assert AsBinaries(parts)[1..] == AsBinaries(parts[1..]);
      SkeletonOfBinaries(parts[1..]);
    }
  }

  lemma SkeletonOfControl(sent: seq<Payload>, action: string)
    ensures Skeleton(sent + [ControlText(action)]) == Skeleton(sent)
  {
    SkeletonAppend(sent, [ControlText(action)]);
    assert Skeleton([ControlText(action)]) == [];
  }

  /** Leaving out the control texts keeps the delimiters as they were. */
  lemma {:induction false} SkeletonMarks(ps: seq<Payload>)
    ensures Marks(Skeleton(ps)) == Marks(ps)
  {
    if ps != [] {
      SkeletonMarks(ps[1..]);
      if Shapes(ps[0]) {
        assert ([ps[0]] + Skeleton(ps[1..]))[1..] == Skeleton(ps[1..]);
      }
    }
  }

  /** Leaving out the control texts keeps the binaries as they were. */
  lemma {:induction false} SkeletonBinaries(ps: seq<Payload>)
    ensures Binaries(Skeleton(ps)) == Binaries(ps)
  {
    if ps != [] {
      SkeletonBinaries(ps[1..]);
      if Shapes(ps[0]) {
        assert ([ps[0]] + Skeleton(ps[1..]))[1..] == Skeleton(ps[1..]);
      }
    }
  }

  /** A run of the sendFile loop adds the windows it read and, when it returns, `complete`. */
  lemma PumpSkeleton(s: SenderState, data: Bytes, enc: ChunkEncryptor)
    requires SenderInv(s, |data|)
    ensures var r := Pump(s, data, enc);
      Skeleton(r.channel.sent) == Skeleton(s.channel.sent)
        + WindowPayloads(data, ChunkSizeFor(s.turboMode), s.offset, r.offset, enc)
        + (if s.stage.Ready? && r.stage == Finished then [CompleteText] else [])
  {
    var r := Pump(s, data, enc);
    PumpFrames(s, data, enc);
    var cs := ChunkSizeFor(s.turboMode);
    var w := WindowPayloads(data, cs, s.offset, r.offset, enc);
    var fin: seq<Payload> := if s.stage.Ready? && r.stage == Finished then [CompleteText] else [];
    SkeletonAppend(s.channel.sent + w, fin);
    SkeletonAppend(s.channel.sent, w);
    SkeletonOfBinaries(Seal(Chunks(data[s.offset..r.offset], cs), s.offset, enc));
    assert Skeleton(fin) == fin;
  }

  /** Pause, resume and drain events add only control texts. */
  lemma HandleSkeleton(s: SenderState, ev: SenderEvent)
    ensures Skeleton(Handle(s, ev).channel.sent) == Skeleton(s.channel.sent)
  {
    var h := Handle(s, ev);
    assert h.channel.sent == s.channel.sent
      || h.channel.sent == s.channel.sent + [ControlText(PauseAction)]
      || h.channel.sent == s.channel.sent + [ControlText(ResumeAction)];
    SkeletonOfControl(s.channel.sent, PauseAction);
    SkeletonOfControl(s.channel.sent, ResumeAction);
  }

  lemma {:induction false} AsBinariesAppend(a: seq<Bytes>, b: seq<Bytes>)
    ensures AsBinaries(a + b) == AsBinaries(a) + AsBinaries(b)
  {
    if a == [] {
      assert a + b == b;
    } else {
      assert (a + b)[0] == a[0];
      assert (a + b)[1..] == a[1..] + b;
      AsBinariesAppend(a[1..], b);
    }
  }

  /** The windows read up to a boundary and those read on from it are the windows read up to the later point. */
  lemma WindowPayloadsJoin(data: Bytes, cs: nat, enc: ChunkEncryptor, o: nat, r: nat)
    requires cs > 0 && o <= r <= |data| && Aligned(0, o, |data|, cs)
    ensures WindowPayloads(data, cs, 0, o, enc) + WindowPayloads(data, cs, o, r, enc) == WindowPayloads(data, cs, 0, r, enc)
  {
    WindowsExtend(data, cs, enc, 0, o, r);
    AsBinariesAppend(Seal(Chunks(data[0..o], cs), 0, enc), Seal(Chunks(data[o..r], cs), o, enc));
  }

  /** The sealed windows of file j. */
  function SealedFile(c: Batch, j: nat): seq<Bytes>
    requires j < |c.files|
  {
    Seal(Chunks(c.files[j].data, ChunkSizeFor(c.turbo)), 0, Encryptor(c, j))
  }

  /** The sealed windows of files 0 to k - 1, one file after another. */
  function SealedFiles(c: Batch, k: nat): seq<Bytes>
    requires k <= |c.files|
  {
    if k == 0 then [] else SealedFiles(c, k - 1) + SealedFile(c, k - 1)
  }

  /** The delimiters of files 0 to k - 1: each file's metadata, then its `complete`. */
  function Announced(c: Batch, k: nat): seq<Payload>
    requires k <= |c.files|
  {
    if k == 0 then [] else Announced(c, k - 1) + [MetadataOf(c, k - 1), CompleteText]
  }

  /** File j on the wire, control texts left out: its metadata, its sealed windows, then `complete`. */
  function FileLayout(c: Batch, j: nat): seq<Payload>
    requires j < |c.files|
  {
    [MetadataOf(c, j)] + AsBinaries(SealedFile(c, j)) + [CompleteText]
  }

  /** Files 0 to k - 1 on the wire, one whole file after another. */
  function Layout(c: Batch, k: nat): seq<Payload>
    requires k <= |c.files|
  {
    if k == 0 then [] else Layout(c, k - 1) + FileLayout(c, k - 1)
  }

  lemma FileLayoutProjections(c: Batch, j: nat)
    requires j < |c.files|
    ensures Marks(FileLayout(c, j)) == [MetadataOf(c, j), CompleteText]
    ensures Binaries(FileLayout(c, j)) == SealedFile(c, j)
  {
    var m, w := [MetadataOf(c, j)], AsBinaries(SealedFile(c, j));
    MarksAppend(m + w, [CompleteText]);
    MarksAppend(m, w);
    MarksOfBinaries(SealedFile(c, j));
    BinariesAppend(m + w, [CompleteText]);
    BinariesAppend(m, w);
    BinariesOfAsBinaries(SealedFile(c, j));
    assert Marks(m) == m && Binaries(m) == [];
    assert Marks([CompleteText]) == [CompleteText] && Binaries([CompleteText]) == [];
  }

  /** The delimiters of the layout are the announcements. */
  lemma {:induction false} LayoutMarks(c: Batch, k: nat)
    requires k <= |c.files|
    ensures Marks(Layout(c, k)) == Announced(c, k)
  {
    if k > 0 {
      LayoutMarks(c, k - 1);
      MarksAppend(Layout(c, k - 1), FileLayout(c, k - 1));
      FileLayoutProjections(c, k - 1);
    }
  }

  /** The binaries of the layout are the sealed files. */
  lemma {:induction false} LayoutBinaries(c: Batch, k: nat)
    requires k <= |c.files|
    ensures Binaries(Layout(c, k)) == SealedFiles(c, k)
  {
    if k > 0 {
      LayoutBinaries(c, k - 1);
      BinariesAppend(Layout(c, k - 1), FileLayout(c, k - 1));
      FileLayoutProjections(c, k - 1);
    }
  }

  /** Every file lies whole in the layout, after the files before it. */
  lemma {:induction false} LayoutHoldsFile(c: Batch, j: nat, k: nat)
    requires j < k <= |c.files|
    ensures |Layout(c, j + 1)| <= |Layout(c, k)|
    ensures Layout(c, k)[..|Layout(c, j + 1)|] == Layout(c, j) + FileLayout(c, j)
    decreases k
  {
    if k > j + 1 {
      LayoutHoldsFile(c, j, k - 1);
      var n := |Layout(c, j + 1)|;
      assert Layout(c, k)[..|Layout(c, k - 1)|] == Layout(c, k - 1);
      assert Layout(c, k)[..n] == Layout(c, k - 1)[..n];
    }
  }

  /** `c` and `b` are the same batch: captured files, mode, cipher and draws. */
  ghost predicate SameJob(b: Batch, c: Batch)
  {
    b == c.(index := b.index, phase := b.phase)
  }

  /** What precedes the windows of file i: the channel before the batch, files 0 to i - 1, the metadata of file i. */
  function Lead(c: Batch, i: nat, base: seq<Payload>): seq<Payload>
    requires i < |c.files|
  {
    Skeleton(base) + Layout(c, i) + [MetadataOf(c, i)]
  }

  /** The windows of file i read up to the sender's offset follow `lead` on the channel. */
  ghost predicate WindowsSent(u: SenderState, c: Batch, i: nat, lead: seq<Payload>)
    requires i < |c.files|
  {
    var data := c.files[i].data;
    var cs := ChunkSizeFor(c.turbo);
    && u.turboMode == c.turbo
    && u.offset <= |data| && Aligned(0, u.offset, |data|, cs)
    && Skeleton(u.channel.sent) == lead + WindowPayloads(data, cs, 0, u.offset, Encryptor(c, i))
  }

  /**
   * The batch waits at file i: files 0 to i - 1 have gone out whole, each
   * between its metadata and its `complete`; file i has been announced, and
   * what has been sent of it since are its sealed windows up to the
   * sender's offset, then `complete` once sendFile has returned.
   */
  ghost predicate Running(s: PageState, c: Batch, base: seq<Payload>)
  {
    && PageWf(s) && s.status == Transferring && s.batch.Some?
    && var b := s.batch.value;
    && SameJob(b, c)
    && var i := b.index;
    && var u := s.sender.value;
    && match b.phase
       case Settling => u.offset == 0 && Skeleton(u.channel.sent) == Lead(c, i, base)
       case Sending => u.stage != Finished && WindowsSent(u, c, i, Lead(c, i, base))
       case Spacing => u.stage == Finished && Skeleton(u.channel.sent) == Skeleton(base) + Layout(c, i + 1)
  }

  /** The batch has ended well: all files have gone out whole, in index order. */
  ghost predicate AllSent(s: PageState, c: Batch, base: seq<Payload>)
  {
    && s.status == PageStatus.Complete && s.batch.None? && s.sender.None? && s.channel.Some?
    && s.overallProgress == 100.0
    && Skeleton(s.channel.value.sent) == Skeleton(base) + Layout(c, |c.files|)
  }

  ghost predicate BatchInv(s: PageState, c: Batch, base: seq<Payload>)
  {
    Running(s, c, base) || AllSent(s, c, base) || (s.status == PageStatus.Failed && s.batch.None?)
  }

  /** The top of the loop announces file i on a channel that carries files 0 to i - 1. */
  lemma FileStartedKeeps(s: PageState, b: Batch, c: Batch, base: seq<Payload>)
    requires s.channel.Some? && b.index < |b.files| && SameJob(b, c) && s.status == Transferring
    requires Skeleton(s.channel.value.sent) == Skeleton(base) + Layout(c, b.index)
    ensures BatchInv(FileStarted(s, b), c, base)
  {
    var m := MetadataOf(b, b.index);
    assert m == MetadataOf(c, b.index);
    SkeletonAppend(s.channel.value.sent, [m]);
    assert Skeleton([m]) == [m];
  }

  /** Announcing file i + 1 after file i is done. */
  lemma AnnouncedNext(c: Batch, i: nat)
    requires i < |c.files|
    ensures Announced(c, i + 1) == Announced(c, i) + [MetadataOf(c, i)] + [CompleteText]
  {
  }

  /**
   * A sendFile run of file i that has stopped, whose stream is what file
   * i promises: after its metadata, the windows so far, with `complete`
   * once it has returned.
   */
  ghost predicate RunOf(b: Batch, t: SenderState, c: Batch, base: seq<Payload>)
  {
    && b.index < |b.files| && SenderInv(t, |b.files[b.index].data|) && !t.stage.Ready?
    && SameJob(b, c)
    && var data := c.files[b.index].data;
    && var cs := ChunkSizeFor(c.turbo);
    && t.turboMode == c.turbo && Aligned(0, t.offset, |data|, cs)
    && Skeleton(t.channel.sent) == Lead(c, b.index, base) + WindowPayloads(data, cs, 0, t.offset, Encryptor(c, b.index))
         + (if t.stage == Finished then [CompleteText] else [])
  }

  /** Read to its end, file i gives exactly its sealed windows. */
  lemma WholeFileWindows(c: Batch, i: nat, o: nat)
    requires i < |c.files| && o == |c.files[i].data|
    ensures WindowPayloads(c.files[i].data, ChunkSizeFor(c.turbo), 0, o, Encryptor(c, i)) == AsBinaries(SealedFile(c, i))
  {
    assert c.files[i].data[0..o] == c.files[i].data;
  }

  lemma CloseFile(t: seq<Payload>, pre: seq<Payload>, l: seq<Payload>, m: Payload, w: seq<Payload>, f: seq<Payload>)
    requires t == pre + l + [m] + w + f
    ensures t == pre + (l + ([m] + w + f))
  {
  }

  /** A returned run has put file i on the channel whole, after files 0 to i - 1. */
  lemma FinishedRunSent(b: Batch, t: SenderState, c: Batch, base: seq<Payload>)
    requires RunOf(b, t, c, base) && t.stage == Finished
    ensures Skeleton(t.channel.sent) == Skeleton(base) + Layout(c, b.index + 1)
  {
    var i := b.index;
    WholeFileWindows(c, i, t.offset);
    CloseFile(Skeleton(t.channel.sent), Skeleton(base), Layout(c, i), MetadataOf(c, i),
              AsBinaries(SealedFile(c, i)), [CompleteText]);
  }

  lemma RanSpacing(s: PageState, b: Batch, t: SenderState, before: nat, c: Batch, base: seq<Payload>)
    requires RunOf(b, t, c, base) && s.status == Transferring && t.stage == Finished && b.index + 1 < |b.files|
    ensures Running(Ran(s, b, t, before), c, base)
  {
    FinishedRunSent(b, t, c, base);
  }

  lemma RanLast(s: PageState, b: Batch, t: SenderState, before: nat, c: Batch, base: seq<Payload>)
    requires RunOf(b, t, c, base) && t.stage == Finished && b.index + 1 == |b.files|
    ensures AllSent(Ran(s, b, t, before), c, base)
  {
    FinishedRunSent(b, t, c, base);
  }

  lemma RanWaiting(s: PageState, b: Batch, t: SenderState, before: nat, c: Batch, base: seq<Payload>)
    requires RunOf(b, t, c, base) && s.status == Transferring && t.stage != Finished && !t.stage.Failed?
    ensures Running(Ran(s, b, t, before), c, base)
  {
  }

  /**
   * Where a sendFile run of file i leaves the batch: the next delay, the
   * end of the batch, the catch, or sendFile still waiting.
   */
  lemma RanKeeps(s: PageState, b: Batch, t: SenderState, before: nat, c: Batch, base: seq<Payload>)
    requires RunOf(b, t, c, base) && s.status == Transferring
    ensures BatchInv(Ran(s, b, t, before), c, base)
  {
    if t.stage == Finished {
      if b.index + 1 < |b.files| {
        RanSpacing(s, b, t, before, c, base);
      } else {
        RanLast(s, b, t, before, c, base);
      }
    } else if !t.stage.Failed? {
      RanWaiting(s, b, t, before, c, base);
    }
  }

  lemma JoinRun(r: seq<Payload>, u: seq<Payload>, lead: seq<Payload>, w0: seq<Payload>, w1: seq<Payload>,
                w: seq<Payload>, fin: seq<Payload>)
    requires u == lead + w0 && r == u + w1 + fin && w0 + w1 == w
    ensures r == lead + w + fin
  {
  }

  /**
   * A run of sendFile of file i, from any point it waits or resumes at,
   * extends the windows sent so far and adds `complete` when it returns.
   */
  lemma PumpRun(u: SenderState, c: Batch, i: nat, lead: seq<Payload>)
    requires i < |c.files| && SenderInv(u, |c.files[i].data|) && u.stage != Finished
    requires WindowsSent(u, c, i, lead)
    ensures var r := Pump(u, c.files[i].data, Encryptor(c, i));
      var cs := ChunkSizeFor(c.turbo);
      && r.turboMode == c.turbo && Aligned(0, r.offset, |c.files[i].data|, cs)
      && Skeleton(r.channel.sent) == lead + WindowPayloads(c.files[i].data, cs, 0, r.offset, Encryptor(c, i))
           + (if r.stage == Finished then [CompleteText] else [])
  {
    var data := c.files[i].data;
    var enc := Encryptor(c, i);
    var cs := ChunkSizeFor(c.turbo);
    var r := Pump(u, data, enc);
    PumpFrames(u, data, enc);
    PumpSkeleton(u, data, enc);
    AlignedAfter(0, u.offset, r.offset, |data|, cs);
    WindowPayloadsJoin(data, cs, enc, u.offset, r.offset);
    JoinRun(Skeleton(r.channel.sent), Skeleton(u.channel.sent), lead,
            WindowPayloads(data, cs, 0, u.offset, enc), WindowPayloads(data, cs, u.offset, r.offset, enc),
            WindowPayloads(data, cs, 0, r.offset, enc), if r.stage == Finished then [CompleteText] else []);
  }

  /** The 100 ms delay ends and sendFile of file i runs from offset 0. */
  lemma SendStartedKeeps(s: PageState, c: Batch, base: seq<Payload>)
    requires Running(s, c, base) && s.batch.value.phase == Settling
    ensures BatchInv(SendStarted(s), c, base)
  {
    var b := s.batch.value;
    var i := b.index;
    var u := s.sender.value;
    var data := c.files[i].data;
    var u0 := StartSend(u, b.turbo);
    var cs := ChunkSizeFor(c.turbo);
    assert Multiple(0, cs);
    WindowPayloadsEmpty(data, cs, 0, Encryptor(c, i));
    assert WindowsSent(u0, c, i, Lead(c, i, base));
    PumpRun(u0, c, i, Lead(c, i, base));
    RanKeeps(s, b, Pump(u0, data, Encryptor(c, i)), |u.reports|, c, base);
  }

  /** The continuation a released sendFile of file i runs. */
  lemma ContinuedKeeps(s: PageState, c: Batch, base: seq<Payload>)
    requires Running(s, c, base) && s.batch.value.phase == Sending
    ensures BatchInv(Continued(s), c, base)
  {
    var b := s.batch.value;
    var u := s.sender.value;
    PumpRun(u, c, b.index, Lead(c, b.index, base));
    RanKeeps(s, b, Pump(u, c.files[b.index].data, Encryptor(c, b.index)), |u.reports|, c, base);
  }

  /** During the delay after file i, the channel carries files 0 to i whole, one after another. */
  lemma SpacingChannel(s: PageState, c: Batch, base: seq<Payload>)
    requires Running(s, c, base) && s.batch.value.phase == Spacing
    ensures s.channel.Some?
    ensures Skeleton(s.channel.value.sent) == Skeleton(base) + Layout(c, s.batch.value.index + 1)
  {
  }

  /** The 500 ms delay ends and file i + 1 is announced. */
  lemma NextFileKeeps(s: PageState, c: Batch, base: seq<Payload>)
    requires PageWf(s) && s.status == Transferring && s.batch.Some? && s.batch.value.phase == Spacing
    requires SameJob(s.batch.value, c) && s.channel.Some?
    requires Skeleton(s.channel.value.sent) == Skeleton(base) + Layout(c, s.batch.value.index + 1)
    ensures BatchInv(TimerEnded(s), c, base)
  {
    var b := s.batch.value;
    FileStartedKeeps(s, b.(index := b.index + 1), c, base);
  }

  /** An event reaches the sender: it sends no delimiter and no binary, and keeps the sender where it waits. */
  lemma DispatchedKeeps(s: PageState, ev: PageEvent, c: Batch, base: seq<Payload>)
    requires PageWf(s) && ev != TimerFired && BatchInv(s, c, base)
    ensures BatchInv(Dispatched(s, ev), c, base)
    ensures s.batch.Some? ==> Dispatched(s, ev).batch == s.batch
  {
    if s.sender.Some? && s.batch.Some? {
      var u := s.sender.value;
      var e := EventFor(ev, s.isPaused);
      var n := |s.batch.value.files[s.batch.value.index].data|;
      HandleSpec(u, e, n);
      HandleSkeleton(u, e);
      HandleCounts(u, e, n, IsComplete);
    }
  }

  /** Every event keeps the batch on its course. */
  lemma PageStepKeeps(s: PageState, ev: PageEvent, c: Batch, base: seq<Payload>)
    requires PageWf(s) && BatchInv(s, c, base)
    ensures BatchInv(PageStep(s, ev), c, base)
  {
    if ev == TimerFired {
      if s.batch.Some? {
        match s.batch.value.phase
        case Settling => SendStartedKeeps(s, c, base);
        case Spacing =>
          SpacingChannel(s, c, base);
          NextFileKeeps(s, c, base);
        case Sending =>
      }
    } else {
      DispatchedKeeps(s, ev, c, base);
      var d := Dispatched(s, ev);
      if d.batch.Some? && d.batch.value.phase == Sending {
        ContinuedKeeps(d, c, base);
      }
    }
  }

  lemma {:induction false} PlayKeeps(s: PageState, evs: seq<PageEvent>, c: Batch, base: seq<Payload>)
    requires PageWf(s) && BatchInv(s, c, base)
    ensures BatchInv(Play(s, evs), c, base)
    decreases |evs|
  {
    if evs != [] {
      PageStepKeeps(s, evs[0], c, base);
      PlayKeeps(PageStep(s, evs[0]), evs[1..], c, base);
    }
  }

  /** The delimiters of a batch: file j's metadata at position 2j, its `complete` right after. */
  lemma {:induction false} AnnouncedShape(c: Batch, k: nat)
    requires k <= |c.files|
    ensures |Announced(c, k)| == 2 * k
    ensures forall p :: 0 <= p < 2 * k ==>
      Announced(c, k)[p] == if p % 2 == 0 then MetadataOf(c, p / 2) else CompleteText
  {
    if k > 0 {
      AnnouncedShape(c, k - 1);
    }
  }

  /**
   * handleSendFiles, whatever events follow: the files go out in index
   * order, each announced with its own key and position, followed by its
   * sealed windows and then its `complete`, before the next is announced;
   * only control texts come in between. When the page says `complete`,
   * every file has been sent this way and nothing else.
   */
  lemma BatchSendsFilesInOrder(s: PageState, turbo: bool, cipher: Cipher, keys: nat -> Key, ivs: nat -> nat -> Iv,
                               evs: seq<PageEvent>)
    requires PageWf(s) && s.batch.None? && s.files != [] && s.channel.Some? && s.channel.value.readyState == Open
    ensures var c := Batch(s.files, 0, turbo, Settling, cipher, keys, ivs);
      BatchInv(Play(BatchStarted(s, turbo, cipher, keys, ivs), evs), c, s.channel.value.sent)
    ensures var c := Batch(s.files, 0, turbo, Settling, cipher, keys, ivs);
      var r := Play(BatchStarted(s, turbo, cipher, keys, ivs), evs);
      r.status == PageStatus.Complete ==>
        && r.overallProgress == 100.0 && r.sender.None?
        && Skeleton(r.channel.value.sent) == Skeleton(s.channel.value.sent) + Layout(c, |s.files|)
        && Marks(r.channel.value.sent) == Marks(s.channel.value.sent) + Announced(c, |s.files|)
        && Binaries(r.channel.value.sent) == Binaries(s.channel.value.sent) + SealedFiles(c, |s.files|)
  {
    var c := Batch(s.files, 0, turbo, Settling, cipher, keys, ivs);
    var base := s.channel.value.sent;
    var s1 := s.(status := Transferring, isPaused := false);
    FileStartedKeeps(s1, c, c, base);
    var r := Play(BatchStarted(s, turbo, cipher, keys, ivs), evs);
    PlayKeeps(BatchStarted(s, turbo, cipher, keys, ivs), evs, c, base);
    if r.status == PageStatus.Complete {
      var n := |s.files|;
      SkeletonMarks(r.channel.value.sent);
      SkeletonBinaries(r.channel.value.sent);
      SkeletonMarks(base);
      SkeletonBinaries(base);
      LayoutMarks(c, n);
      LayoutBinaries(c, n);
      MarksAppend(Skeleton(base), Layout(c, n));
      BinariesAppend(Skeleton(base), Layout(c, n));
    }
  }

  // ---------------------------------------------------------------------
  // The page as an object
  // ---------------------------------------------------------------------

  /**
   * The SendPage component: its state variables, currentSenderRef and
   * the running handleSendFiles. `dataChannel` is the WebRTC manager's
   * channel, null before there is one. Every handler performs the
   * handler function of the same name on `State()`.
   */
  class SendPage {
    const dataChannel: DataChannel?
    var files: seq<File>
    var status: PageStatus
    var currentFileIndex: nat
    var overallProgress: real
    var progress: Progress
    var isPaused: bool
    var currentSender: FileSender?
    var batch: Option<Batch>

    function State(): PageState
      reads this, dataChannel, currentSender, if currentSender == null then null else currentSender.dataChannel
    {
      PageState(files, status, currentFileIndex, overallProgress, progress, isPaused,
        if dataChannel == null then None else Some(dataChannel.View()),
        if currentSender == null then None else Some(currentSender.State()),
        batch)
    }

    /**
     * The current sender writes to the page's channel; while a batch runs
     * it sends the batch's current file, and once sendFile has started it
     * holds that file's encryptChunk.
     */
    ghost predicate Valid()
      reads this, dataChannel, currentSender, if currentSender == null then null else currentSender.dataChannel
    {
      && (currentSender != null ==>
            dataChannel != null && currentSender.dataChannel == dataChannel && currentSender.Valid())
      && (batch.Some? ==>
            && currentSender != null
            && batch.value.index < |batch.value.files|
            && currentSender.file == batch.value.files[batch.value.index]
            && (batch.value.phase != Settling ==>
                  currentSender.encryptFile == Some(Encryptor(batch.value, batch.value.index))))
      && PageWf(State())
    }

    constructor (dataChannel: DataChannel?)
      ensures this.dataChannel == dataChannel
      ensures State() == NewPage(if dataChannel == null then None else Some(dataChannel.View()))
      ensures Valid()
    {
      this.dataChannel := dataChannel;
      files := [];
      status := Disconnected;
      currentFileIndex := 0;
      overallProgress := 0.0;
      progress := InitialProgress;
      isPaused := false;
      currentSender := null;
      batch := None;
    }

    method HandleFileSelect(selected: Option<seq<File>>)
      requires Valid()
      modifies this
      ensures State() == FilesSelected(old(State()), selected) && Valid()
    {
      if selected.Some? && |selected.value| > 0 {
        files := files + selected.value;
      }
    }

    method RemoveFile(index: int)
      requires Valid()
      modifies this
      ensures State() == FileRemoved(old(State()), index) && Valid()
    {
      files := KeepOthers(files, index, 0);
    }

    method HandleReset()
      requires Valid()
      modifies this
      ensures State() == PageReset(old(State())) && Valid()
    {
      files := [];
      status := Connected;
      progress := InitialProgress;
      overallProgress := 0.0;
      currentFileIndex := 0;
      isPaused := false;
    }

    /** The top of the loop for file `b.index`: a new sender on the channel, then its metadata. */
    method NextFile(b: Batch)
      requires Valid() && dataChannel != null && b.index < |b.files|
      modifies this, dataChannel
      ensures State() == FileStarted(old(State()), b) && Valid()
    {
      currentFileIndex := b.index;
      var sender := new FileSender(b.files[b.index], dataChannel);
      currentSender := sender;
      ghost var view := dataChannel.View();
      var ok := sender.SendMetadata(b.keys(b.index), b.index, |b.files|);
      assert (dataChannel.View(), ok) == Transmit(view, MetadataOf(b, b.index));
      if ok {
        batch := Some(b.(phase := Settling));
      } else {
        status := PageStatus.Failed;
        batch := None;
      }
    }

    /** handleSendFiles up to its first wait; `keys` and `ivs` stand for the key and IV draws. */
    method HandleSendFiles(turbo: bool, cipher: Cipher, keys: nat -> Key, ivs: nat -> nat -> Iv)
      requires Valid() && batch.None?
      modifies this, dataChannel
      ensures State() == BatchStarted(old(State()), turbo, cipher, keys, ivs) && Valid()
    {
      if files == [] || dataChannel == null || dataChannel.readyState != Open {
        return;
      }
      status := Transferring;
      isPaused := false;
      NextFile(Batch(files, 0, turbo, Settling, cipher, keys, ivs));
    }

    /** The onProgress calls of the last run, the latest winning. */
    method TakeReports(before: nat)
      requires batch.Some? && batch.value.index < |batch.value.files| && currentSender != null
      modifies this
      ensures batch == old(batch) && currentSender == old(currentSender) && status == old(status)
      ensures State() == Reported(old(State()), batch.value, currentSender.State(), before)
    {
      var b := batch.value;
      var reports := currentSender.reports;
      if |reports| > before {
        var p := reports[|reports| - 1];
        progress := p;
        if p.total > 0 {
          overallProgress := Overall(b.index, |b.files|, p);
        }
      }
    }

    /** The loop after a sendFile run of the current file stops: the reports, then where the batch goes. */
    method AfterRun(before: nat)
      requires batch.Some? && currentSender != null && dataChannel != null
      requires currentSender.dataChannel == dataChannel && currentSender.Valid() && !currentSender.stage.Ready?
      requires batch.value.index < |batch.value.files| && currentSender.file == batch.value.files[batch.value.index]
      requires currentSender.encryptFile == Some(Encryptor(batch.value, batch.value.index))
      modifies this
      ensures State() == Ran(old(State()), old(batch.value), old(currentSender.State()), before) && Valid()
    {
      var b := batch.value;
      TakeReports(before);
      if currentSender.stage == Finished {
        if b.index + 1 < |b.files| {
          batch := Some(b.(phase := Spacing));
        } else {
          status := PageStatus.Complete;
          overallProgress := 100.0;
          currentSender := null;
          batch := None;
        }
      } else if currentSender.stage == Stage.Failed {
        status := PageStatus.Failed;
        batch := None;
      } else {
        batch := Some(b.(phase := Sending));
      }
    }

    /** A released sendFile runs on to its next wait, and the batch with it. */
    method Continue()
      requires Valid()
      modifies this, currentSender, dataChannel
      ensures State() == Continued(old(State())) && Valid()
    {
      if batch.Some? && batch.value.phase == Sending {
        var before := |currentSender.reports|;
        currentSender.RunPending();
        AfterRun(before);
      }
    }

    /** After the metadata's delay: `sendFile(encryptChunk, turboMode)` runs to its first wait. */
    method StartSend()
      requires Valid() && batch.Some? && batch.value.phase == Settling
      modifies this, currentSender, dataChannel
      ensures State() == SendStarted(old(State())) && Valid()
    {
      var b := batch.value;
      var before := |currentSender.reports|;
      currentSender.SendFile(Encryptor(b, b.index), b.turbo);
      AfterRun(before);
    }

    /** A pending delay of handleSendFiles ends. */
    method OnTimer()
      requires Valid()
      modifies this, currentSender, dataChannel
      ensures State() == PageStep(old(State()), TimerFired) && Valid()
    {
      if batch.Some? {
        var b := batch.value;
        if b.phase == Settling {
          StartSend();
        } else if b.phase == Spacing {
          NextFile(b.(index := b.index + 1));
        }
      }
    }

    /** togglePause: resume when the page shows paused, else pause; then what resuming released. */
    method TogglePause()
      requires Valid()
      modifies this, currentSender, dataChannel
      ensures State() == PageStep(old(State()), TogglePressed) && Valid()
    {
      if currentSender != null {
        if isPaused {
          currentSender.Resume();
          isPaused := false;
        } else {
          currentSender.Pause();
          isPaused := true;
        }
        assert State() == Dispatched(old(State()), TogglePressed);
        Continue();
      }
    }

    /** A peer message reaches the current sender's listener. */
    method OnPeerMessage(p: Payload)
      requires Valid()
      modifies this, currentSender, dataChannel
      ensures State() == PageStep(old(State()), PeerData(p)) && Valid()
    {
      if currentSender != null {
        currentSender.OnMessage(p);
        assert State() == Dispatched(old(State()), PeerData(p));
        Continue();
      }
    }

    /** The peer goes away: the page's channel, which the current sender shares, closes. */
    method OnChannelLost()
      requires Valid()
      modifies this, currentSender, dataChannel
      ensures State() == PageStep(old(State()), ChannelLost) && Valid()
    {
      if dataChannel != null {
        dataChannel.Close();
      }
      if currentSender != null {
        assert State() == Dispatched(old(State()), ChannelLost);
        Continue();
      }
    }

    /** The channel's bufferedamountlow event reaches the current sender. */
    method OnBufferedAmountLow()
      requires Valid()
      modifies this, currentSender, dataChannel
      ensures State() == PageStep(old(State()), BufferDrained) && Valid()
    {
      if currentSender != null {
        currentSender.OnBufferedAmountLow();
        assert State() == Dispatched(old(State()), BufferDrained);
        Continue();
      }
    }
  }
}
