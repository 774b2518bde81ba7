/**
 * FileSender (client/src/webrtc/fileTransfer.js:13-181).
 *
 * The sender walks an offset over the file in windows of one chunk size,
 * encrypts each window and sends it as one binary payload, then sends one
 * `complete` text. Its `sendFile` loop suspends at two points: while paused
 * (until `resume`) and while the channel's buffered amount is above the
 * threshold (until `bufferedamountlow`). Reading and encrypting a chunk are
 * taken as atomic. The point the loop will continue from is the `Stage`.
 *
 * Each operation is first a function on a `SenderState` value; the class
 * performs it on its fields and is proved to reach the state the function
 * describes.
 */
module Sending {
  import opened Base
  import opened Encryption
  import opened Transport
  import opened Chunking

  const BufferThreshold: nat := 16 * 1024 * 1024

  // ---------------------------------------------------------------------
  // FileSender as a state value
  // ---------------------------------------------------------------------

  /** Where a runnable sendFile activation continues: the loop test, past the pause check, past the buffer check. */
  datatype Point = LoopTop | PastPauseCheck | PastBufferCheck

  /**
   * The sendFile activation: not started, runnable at a point, suspended on
   * the resume promise or on `bufferedamountlow`, returned, or thrown.
   */
  datatype Stage = Idle | Ready(at: Point) | AwaitingResume | AwaitingDrain | Finished | Failed

  /** The fields of a FileSender and of its channel, plus the onProgress reports so far. */
  datatype SenderState = SenderState(
    offset: nat,
    isPaused: bool,
    resumeResolve: bool,
    turboMode: bool,
    stage: Stage,
    channel: ChannelView,
    reports: seq<Progress>)

  /** A sendFile activation exists (runnable or suspended). */
  predicate Live(st: Stage)
  {
    st.Ready? || st == AwaitingResume || st == AwaitingDrain
  }

  /** How far a runnable activation is from its next chunk. */
  function Rank(st: Stage): nat
  {
    match st
    case Ready(LoopTop) => 3
    case Ready(PastPauseCheck) => 2
    case Ready(PastBufferCheck) => 1
    case _ => 0
  }

  /** What every sender state reachable for a file of n bytes satisfies. */
  predicate SenderInv(s: SenderState, n: nat)
  {
    && s.offset <= n
    && (Live(s.stage) && s.stage != Ready(LoopTop) ==> s.offset < n)
    && (s.stage == Finished ==> s.offset == n)
    && (s.resumeResolve <==> s.stage == AwaitingResume)
    && (s.stage == AwaitingResume ==> s.isPaused)
  }

  /** The state the FileSender constructor leaves. */
  function NewSender(channel: ChannelView): (s: SenderState)
    ensures forall n: nat :: SenderInv(s, n)
  {
    SenderState(0, false, false, false, Idle, channel, [])
  }

  /** pause(): only the false-to-true transition sets the flag and sends `control/pause`; a failing send is ignored. */
  function Paused(s: SenderState): SenderState
  {
    if s.isPaused then s
    else s.(isPaused := true, channel := Transmit(s.channel, ControlText(PauseAction)).0)
  }

  /**
   * resume(): only while paused: clear the flag, release a pending resume
   * promise (the activation becomes runnable past its pause check), send
   * `control/resume`.
   */
  function Resumed(s: SenderState): SenderState
  {
    if !s.isPaused then s
    else s.(
      isPaused := false,
      resumeResolve := false,
      stage := if s.resumeResolve then Ready(PastPauseCheck) else s.stage,
      channel := Transmit(s.channel, ControlText(ResumeAction)).0)
  }

  /** The control listener: `control` with action pause or resume acts like the local call; anything else is ignored. */
  function OnPeerMessage(s: SenderState, p: Payload): SenderState
  {
    if p == ControlText(PauseAction) then Paused(s)
    else if p == ControlText(ResumeAction) then Resumed(s)
    else s
  }

  /** The one-shot `bufferedamountlow` handler: it exists only while the loop waits for the channel to drain. */
  function BufferLow(s: SenderState): SenderState
  {
    if s.stage == AwaitingDrain then s.(stage := Ready(PastBufferCheck)) else s
  }

  /** The start of sendFile: the mode is fixed for the call and the loop is entered. */
  function StartSend(s: SenderState, turbo: bool): SenderState
  {
    s.(turboMode := turbo, stage := Ready(LoopTop))
  }

  /** One segment of the sendFile loop, from the point the activation is at to its next suspension point. */
  function Step(s: SenderState, data: Bytes, enc: ChunkEncryptor): (r: SenderState)
    requires SenderInv(s, |data|) && s.stage.Ready?
    ensures SenderInv(r, |data|)
    ensures r.turboMode == s.turboMode
    ensures r.offset > s.offset || (r.offset == s.offset && Rank(r.stage) < Rank(s.stage))
  {
    match s.stage.at
    case LoopTop =>
      if s.offset >= |data| then
        var (ch, ok) := Transmit(s.channel, Text(Some(Complete)));
        s.(channel := ch, stage := if ok then Finished else Failed)
      else if s.isPaused then s.(resumeResolve := true, stage := AwaitingResume)
      else s.(stage := Ready(PastPauseCheck))
    case PastPauseCheck =>
      if s.channel.bufferedAmount > BufferThreshold then s.(stage := AwaitingDrain)
      else s.(stage := Ready(PastBufferCheck))
    case PastBufferCheck =>
      var chunk := ReadChunk(data, s.offset, ChunkSizeFor(s.turboMode));
      var (ch, ok) := Transmit(s.channel, Binary(enc(chunk, s.offset)));
      if !ok then s.(channel := ch, stage := Failed)
      else
        var offset := s.offset + |chunk|;
        s.(offset := offset, channel := ch, stage := Ready(LoopTop),
           reports := s.reports + [Progress(offset, |data|, s.isPaused)])
  }

  /** The activation runs until it suspends, returns or throws. */
  function Pump(s: SenderState, data: Bytes, enc: ChunkEncryptor): (r: SenderState)
    requires SenderInv(s, |data|)
    ensures SenderInv(r, |data|) && !r.stage.Ready?
    ensures s.offset <= r.offset && r.turboMode == s.turboMode
    decreases |data| - s.offset, Rank(s.stage)
  {
    if s.stage.Ready? then Pump(Step(s, data, enc), data, enc) else s
  }

  // ---------------------------------------------------------------------
  // Properties of pause, resume and the control listener
  // ---------------------------------------------------------------------

  /** pause is idempotent, and only an unpaused sender changes: one `control/pause` goes out when the channel is open. */
  lemma PauseSpec(s: SenderState)
    ensures Paused(Paused(s)) == Paused(s)
    ensures Paused(s).isPaused
    ensures s.isPaused ==> Paused(s) == s
    ensures !s.isPaused && s.channel.readyState == Open ==>
      Paused(s).channel.sent == s.channel.sent + [ControlText(PauseAction)]
    ensures Paused(s).(isPaused := s.isPaused, channel := s.channel) == s
  {
  }

  /** resume acts only when paused, and then releases a suspended loop and sends one `control/resume`. */
  lemma ResumeSpec(s: SenderState)
    ensures !s.isPaused ==> Resumed(s) == s
    ensures s.isPaused ==> !Resumed(s).isPaused && !Resumed(s).resumeResolve
    ensures s.isPaused && s.resumeResolve ==> Resumed(s).stage == Ready(PastPauseCheck)
    ensures !s.resumeResolve ==> Resumed(s).stage == s.stage
    ensures s.isPaused && s.channel.readyState == Open ==>
      Resumed(s).channel.sent == s.channel.sent + [ControlText(ResumeAction)]
    ensures Resumed(s).offset == s.offset && Resumed(s).reports == s.reports
  {
  }

  /** A suspended loop is always released by resume: it can only be suspended while paused. */
  lemma ResumeReleases(s: SenderState, n: nat)
    requires SenderInv(s, n) && s.stage == AwaitingResume
    ensures Resumed(s).stage == Ready(PastPauseCheck)
  {
  }

  /** Control messages from the peer have the effect of the local calls; other payloads change nothing. */
  lemma PeerMessageSpec(s: SenderState, p: Payload)
    ensures OnPeerMessage(s, ControlText(PauseAction)) == Paused(s)
    ensures OnPeerMessage(s, ControlText(ResumeAction)) == Resumed(s)
    ensures (p.Binary? || p.message.None? || !p.message.value.Control?) ==> OnPeerMessage(s, p) == s
    ensures forall a: string :: a != PauseAction && a != ResumeAction ==> OnPeerMessage(s, ControlText(a)) == s
  {
  }

  // ---------------------------------------------------------------------
  // Properties of the sendFile loop
  // ---------------------------------------------------------------------

  /** `o` lies on a window boundary counted from `start`, or at the end of the file. */
  predicate Aligned(start: int, o: int, n: int, cs: int)
    requires cs > 0
  {
    Multiple(o - start, cs) || o == n
  }

  /** One more window (a full one, or the last one) keeps the offset on a boundary. */
  lemma AlignedAfter(start: int, o: int, r: int, n: int, cs: int)
    requires cs > 0 && start <= o <= r <= n
    requires Aligned(start, o, n, cs) && Aligned(o, r, n, cs)
    ensures Aligned(start, r, n, cs)
  {
    if r != n {
      assert o != n;
      MultipleAdd(o - start, r - o, cs);
      assert (o - start) + (r - o) == r - start;
    }
  }

  /** A full window followed by the rest of the file, or the final window: cutting it off is one unfolding. */
  lemma ChunksCons(c: Bytes, rest: Bytes, cs: nat)
    requires cs > 0 && 0 < |c| && (|c| == cs || (|c| < cs && rest == []))
    ensures Chunks(c + rest, cs) == [c] + Chunks(rest, cs)
  {
    assert (c + rest)[..|c|] == c;
    assert (c + rest)[|c|..] == rest;
  }

  /** What one segment sends: nothing or `complete` without moving, or exactly the window at the offset. */
  lemma StepFrames(s: SenderState, data: Bytes, enc: ChunkEncryptor)
    requires SenderInv(s, |data|) && s.stage.Ready?
    ensures var t := Step(s, data, enc); var cs := ChunkSizeFor(s.turboMode);
      || (&& t.offset == s.offset
          && t.reports == s.reports
          && t.channel.sent == s.channel.sent + (if t.stage == Finished then [Text(Some(Complete))] else [])
          && (t.stage.Ready? ==> t.channel == s.channel)
          && (t.stage == Finished ==> s.offset == |data|))
      || (var c := data[s.offset..t.offset];
          && s.offset < t.offset
          && c == ReadChunk(data, s.offset, cs)
          && (|c| == cs || t.offset == |data|)
          && t.channel.sent == s.channel.sent + [Binary(enc(c, s.offset))]
          && t.reports == s.reports + [Progress(t.offset, |data|, s.isPaused)]
          && t.stage == Ready(LoopTop))
  {
  }

  /** The binary payloads for the windows read from `from` up to `to`, each encrypted with its own draw. */
  function WindowPayloads(data: Bytes, cs: nat, from: nat, to: nat, enc: ChunkEncryptor): seq<Payload>
    requires cs > 0 && from <= to <= |data|
  {
    AsBinaries(Seal(Chunks(data[from..to], cs), from, enc))
  }

  lemma WindowPayloadsEmpty(data: Bytes, cs: nat, o: nat, enc: ChunkEncryptor)
    requires cs > 0 && o <= |data|
    ensures WindowPayloads(data, cs, o, o, enc) == []
  {
    assert data[o..o] == [];
  }

  /** Peeling off the window at `from`. */
  lemma WindowPayloadsCons(data: Bytes, cs: nat, from: nat, mid: nat, to: nat, enc: ChunkEncryptor)
    requires cs > 0 && from < mid <= to <= |data|
    requires mid - from == cs || (mid - from < cs && mid == to)
    ensures WindowPayloads(data, cs, from, to, enc) ==
      [Binary(enc(data[from..mid], from))] + WindowPayloads(data, cs, mid, to, enc)
    ensures |Chunks(data[from..to], cs)| == 1 + |Chunks(data[mid..to], cs)|
  {
    var c := data[from..mid];
    var rest := data[mid..to];
    assert data[from..to] == c + rest;
    ChunksCons(c, rest, cs);
    var tail := Chunks(rest, cs);
    assert ([c] + tail)[1..] == tail;
    var wire := Seal(tail, mid, enc);
    assert Seal([c] + tail, from, enc) == [enc(c, from)] + wire;
    assert AsBinaries([enc(c, from)] + wire)[1..] == AsBinaries(wire);
  }

  /** Payloads appended in two runs are appended in one. */
  lemma AppendRuns(S: seq<Payload>, w: Payload, rest: seq<Payload>, fin: seq<Payload>, T: seq<Payload>, R: seq<Payload>)
    requires T == S + [w] && R == T + rest + fin
    ensures R == S + ([w] + rest) + fin
  {
  }

  /** After a full window, or the last one, a boundary of the rest is a boundary of the whole. */
  lemma AlignedByWindow(so: int, to: int, ro: int, n: int, cs: int)
    requires cs > 0 && so < to <= ro <= n
    requires to - so == cs || to == n
    requires Aligned(to, ro, n, cs)
    ensures Aligned(so, ro, n, cs)
  {
    if to == n {
      assert ro == n;
    } else {
      assert Multiple(0, cs);
      assert Multiple(to - so, cs);
      AlignedAfter(so, to, ro, n, cs);
    }
  }

  /**
   * The payloads one run of the loop appends: one binary per window read,
   * each the encryption of that window, then `complete` exactly when it
   * returned.
   */
  lemma {:induction false} PumpFrames(s: SenderState, data: Bytes, enc: ChunkEncryptor)
    requires SenderInv(s, |data|)
    ensures Aligned(s.offset, Pump(s, data, enc).offset, |data|, ChunkSizeFor(s.turboMode))
    ensures Pump(s, data, enc).channel.sent == s.channel.sent
      + WindowPayloads(data, ChunkSizeFor(s.turboMode), s.offset, Pump(s, data, enc).offset, enc)
      + (if s.stage.Ready? && Pump(s, data, enc).stage == Finished then [Text(Some(Complete))] else [])
    decreases |data| - s.offset, Rank(s.stage)
  {
    var cs := ChunkSizeFor(s.turboMode);
    assert Multiple(0, cs);
    WindowPayloadsEmpty(data, cs, s.offset, enc);
    if s.stage.Ready? {
      var t := Step(s, data, enc);
      StepFrames(s, data, enc);
      PumpFrames(t, data, enc);
      var r := Pump(t, data, enc);
      var fin: seq<Payload> := if r.stage == Finished then [Text(Some(Complete))] else [];
      if t.offset != s.offset {
        WindowPayloadsCons(data, cs, s.offset, t.offset, r.offset, enc);
        AppendRuns(s.channel.sent, Binary(enc(data[s.offset..t.offset], s.offset)),
                   WindowPayloads(data, cs, t.offset, r.offset, enc), fin, t.channel.sent, r.channel.sent);
        AlignedByWindow(s.offset, t.offset, r.offset, |data|, cs);
      } else if !t.stage.Ready? {
        assert r.channel.sent == s.channel.sent + [] + fin;
      }
    }
  }

  /** Reports strictly increase and never exceed the offset. */
  ghost predicate ReportsBelow(rs: seq<Progress>, offset: nat)
  {
    && (forall i, j :: 0 <= i < j < |rs| ==> rs[i].transferred < rs[j].transferred)
    && (forall i :: 0 <= i < |rs| ==> rs[i].transferred <= offset)
  }

  /** A report past every earlier one keeps reports increasing and below the new offset. */
  lemma ReportsBelowSnoc(rs: seq<Progress>, o: nat, p: Progress)
    requires ReportsBelow(rs, o) && o < p.transferred
    ensures ReportsBelow(rs + [p], p.transferred)
  {
  }

  /** A report followed by a run of reports, seen from before the report. */
  lemma ReportsPrepend(S: seq<Progress>, T: seq<Progress>, R: seq<Progress>, p: Progress, o: nat, ro: nat, n: nat)
    requires T == S + [p] && p.transferred == o && p.total == n
    requires |T| <= |R| && R[..|T|] == T
    requires forall k :: |T| <= k < |R| ==> R[k].total == n
    requires |R| > |T| ==> R[|R| - 1].transferred == ro
    requires |R| == |T| ==> ro == o
    ensures |S| <= |R| && R[..|S|] == S
    ensures forall k :: |S| <= k < |R| ==> R[k].total == n
    ensures |R| > |S| ==> R[|R| - 1].transferred == ro
  {
    assert R[..|S|] == T[..|S|];
    assert R[|S|] == T[|S|];
  }

  /** Reported progress is strictly increasing and never ahead of the offset. */
  lemma {:induction false} PumpReportsBelow(s: SenderState, data: Bytes, enc: ChunkEncryptor)
    requires SenderInv(s, |data|) && ReportsBelow(s.reports, s.offset)
    ensures ReportsBelow(Pump(s, data, enc).reports, Pump(s, data, enc).offset)
    decreases |data| - s.offset, Rank(s.stage)
  {
    if s.stage.Ready? {
      var t := Step(s, data, enc);
      StepFrames(s, data, enc);
      if t.offset != s.offset {
        ReportsBelowSnoc(s.reports, s.offset, Progress(t.offset, |data|, s.isPaused));
      }
      PumpReportsBelow(t, data, enc);
    }
  }

  /** One report per window sent. */
  lemma {:induction false} PumpReportCount(s: SenderState, data: Bytes, enc: ChunkEncryptor)
    requires SenderInv(s, |data|)
    ensures |Pump(s, data, enc).reports| - |s.reports|
      == |Chunks(data[s.offset..Pump(s, data, enc).offset], ChunkSizeFor(s.turboMode))|
    decreases |data| - s.offset, Rank(s.stage)
  {
    var cs := ChunkSizeFor(s.turboMode);
    if !s.stage.Ready? {
      assert data[s.offset..s.offset] == [];
    } else {
      var t := Step(s, data, enc);
      StepFrames(s, data, enc);
      PumpReportCount(t, data, enc);
      if t.offset == s.offset {
        if !t.stage.Ready? {
          assert data[s.offset..s.offset] == [];
        }
      } else {
        WindowPayloadsCons(data, cs, s.offset, t.offset, Pump(t, data, enc).offset, enc);
      }
    }
  }

  /**
   * Reports are only appended, each new one carries the file size, and the
   * last is the offset reached.
   */
  lemma {:induction false} PumpReports(s: SenderState, data: Bytes, enc: ChunkEncryptor)
    requires SenderInv(s, |data|)
    ensures |s.reports| <= |Pump(s, data, enc).reports|
    ensures Pump(s, data, enc).reports[..|s.reports|] == s.reports
    ensures forall k :: |s.reports| <= k < |Pump(s, data, enc).reports| ==> Pump(s, data, enc).reports[k].total == |data|
    ensures |Pump(s, data, enc).reports| > |s.reports|
      ==> Pump(s, data, enc).reports[|Pump(s, data, enc).reports| - 1].transferred == Pump(s, data, enc).offset
    decreases |data| - s.offset, Rank(s.stage)
  {
    if s.stage.Ready? {
      var t := Step(s, data, enc);
      StepFrames(s, data, enc);
      var r := Pump(t, data, enc);
      PumpReports(t, data, enc);
      if t.offset != s.offset {
        if |r.reports| == |t.reports| {
          PumpReportCount(t, data, enc);
          assert data[t.offset..r.offset] == [];
        }
        ReportsPrepend(s.reports, t.reports, r.reports, Progress(t.offset, |data|, s.isPaused), t.offset, r.offset, |data|);
      }
    }
  }

  /** A paused sender at its loop test sends no window: it suspends, or returns when the file is done. */
  lemma PausedSendsNoWindow(s: SenderState, data: Bytes, enc: ChunkEncryptor)
    requires SenderInv(s, |data|) && s.stage == Ready(LoopTop) && s.isPaused
    ensures var r := Pump(s, data, enc);
      && Binaries(r.channel.sent) == Binaries(s.channel.sent)
      && r.offset == s.offset
      && (r.stage == AwaitingResume || (s.offset == |data| && (r.stage == Finished || r.stage == Failed)))
  {
    var t := Step(s, data, enc);
    assert Pump(s, data, enc) == t;
    if s.offset >= |data| {
      BinariesAppend(s.channel.sent, [Text(Some(Complete))]);
      assert Binaries([Text(Some(Complete))]) == [];
    }
  }

  /** Above the buffer threshold the loop suspends without sending. */
  lemma BackpressureSendsNothing(s: SenderState, data: Bytes, enc: ChunkEncryptor)
    requires SenderInv(s, |data|) && s.stage == Ready(PastPauseCheck)
    requires s.channel.bufferedAmount > BufferThreshold
    ensures Pump(s, data, enc) == s.(stage := AwaitingDrain)
  {
  }

  /**
   * The pause check comes before the drain wait and is not repeated after
   * it: released by `bufferedamountlow`, the loop sends its window even if
   * a pause arrived meanwhile.
   */
  lemma DrainReleaseIgnoresPause(s: SenderState, data: Bytes, enc: ChunkEncryptor)
    requires SenderInv(s, |data|) && s.stage == AwaitingDrain && s.isPaused
    requires s.channel.readyState == Open
    ensures var t := Step(BufferLow(s), data, enc);
      t.channel.sent == s.channel.sent + [Binary(enc(ReadChunk(data, s.offset, ChunkSizeFor(s.turboMode)), s.offset))]
  {
  }

  /**
   * On a channel that is not open a run sends nothing, moves nothing and
   * never returns normally; unless it suspends on a pause or on the
   * buffer, the throwing `send` (`complete` or a window) ends it Failed.
   */
  lemma {:induction false} ClosedRunFails(s: SenderState, data: Bytes, enc: ChunkEncryptor)
    requires SenderInv(s, |data|) && s.channel.readyState != Open
    ensures var r := Pump(s, data, enc);
      && r.channel == s.channel && r.offset == s.offset && r.reports == s.reports
      && (s.stage != Finished ==> r.stage != Finished)
      && (s.stage.Ready? && !s.isPaused && s.channel.bufferedAmount <= BufferThreshold ==> r.stage == Failed)
      && (s.stage == Ready(PastBufferCheck) ==> r.stage == Failed)
    decreases Rank(s.stage)
  {
    if s.stage.Ready? {
      var t := Step(s, data, enc);
      assert t.channel == s.channel && t.offset == s.offset && t.isPaused == s.isPaused;
      ClosedRunFails(t, data, enc);
    }
  }

  // ---------------------------------------------------------------------
  // A whole transfer: the loop interleaved with pauses, resumes and drains
  // ---------------------------------------------------------------------

  /** What reaches the sender between runs of its loop; the channel may also close under it. */
  datatype SenderEvent = PauseCall | ResumeCall | PeerPayload(p: Payload) | BufferedAmountLow | ChannelClosed

  function Handle(s: SenderState, ev: SenderEvent): SenderState
  {
    match ev
    case PauseCall => Paused(s)
    case ResumeCall => Resumed(s)
    case PeerPayload(p) => OnPeerMessage(s, p)
    case BufferedAmountLow => BufferLow(s)
    case ChannelClosed => s.(channel := Shut(s.channel))
  }

  /** Events keep the invariant, and none of them moves the offset, sends binary data or reports. */
  lemma HandleSpec(s: SenderState, ev: SenderEvent, n: nat)
    requires SenderInv(s, n)
    ensures SenderInv(Handle(s, ev), n)
    ensures Handle(s, ev).offset == s.offset && Handle(s, ev).turboMode == s.turboMode
    ensures Handle(s, ev).reports == s.reports
    ensures Binaries(Handle(s, ev).channel.sent) == Binaries(s.channel.sent)
  {
    TransmitTextKeepsBinaries(s.channel, Some(Control(PauseAction)));
    TransmitTextKeepsBinaries(s.channel, Some(Control(ResumeAction)));
  }

  /** Each event is followed by the runnable continuation it released, as the event loop does. */
  function Replay(s: SenderState, data: Bytes, enc: ChunkEncryptor, evs: seq<SenderEvent>): (r: SenderState)
    requires SenderInv(s, |data|)
    ensures SenderInv(r, |data|)
    ensures s.offset <= r.offset && r.turboMode == s.turboMode
    decreases |evs|
  {
    if evs == [] then s
    else
      HandleSpec(s, evs[0], |data|);
      Replay(Pump(Handle(s, evs[0]), data, enc), data, enc, evs[1..])
  }

  /** The binary stream since a transfer started at `start` is the sealed windows read so far. */
  ghost predicate SentWindows(r: SenderState, data: Bytes, enc: ChunkEncryptor, start: nat, before: seq<Bytes>)
  {
    var cs := ChunkSizeFor(r.turboMode);
    && start <= r.offset <= |data|
    && Aligned(start, r.offset, |data|, cs)
    && Binaries(r.channel.sent) == before + Seal(Chunks(data[start..r.offset], cs), start, enc)
  }

  /** Sealing two runs of windows, the second from where the first ends. */
  lemma SealJoin(ca: seq<Bytes>, cb: seq<Bytes>, start: nat, o: nat, enc: ChunkEncryptor)
    requires start + TotalLength(ca) == o
    ensures Seal(ca, start, enc) + Seal(cb, o, enc) == Seal(ca + cb, start, enc)
  {
    SealAppend(ca, cb, start, enc);
  }

  /** Sealed windows up to a boundary, followed by sealed windows from it, are the sealed windows of the whole span. */
  lemma WindowsExtend(data: Bytes, cs: nat, enc: ChunkEncryptor, start: nat, o: nat, r: nat)
    requires cs > 0 && start <= o <= r <= |data| && Aligned(start, o, |data|, cs)
    ensures Seal(Chunks(data[start..o], cs), start, enc) + Seal(Chunks(data[o..r], cs), o, enc)
      == Seal(Chunks(data[start..r], cs), start, enc)
  {
    var a := data[start..o];
    var b := data[o..r];
    if r == o {
      assert b == [];
      assert data[start..r] == a;
      assert Seal(Chunks(b, cs), o, enc) == [];
    } else {
      assert o != |data|;
      assert data[start..r] == a + b;
      ChunksAppend(a, b, cs);
      ChunksFlatten(a, cs);
      TotalLengthIsFlattenLength(Chunks(a, cs));
      SealJoin(Chunks(a, cs), Chunks(b, cs), start, o, enc);
    }
  }

  /** The binary payloads among sent payloads, the window payloads and an optional `complete`. */
  lemma BinariesOfRun(sent: seq<Payload>, wire: seq<Bytes>, fin: seq<Payload>, r: seq<Payload>)
    requires fin == [] || fin == [Text(Some(Complete))]
    requires r == sent + AsBinaries(wire) + fin
    ensures Binaries(r) == Binaries(sent) + wire
  {
    BinariesAppend(sent + AsBinaries(wire), fin);
    BinariesAppend(sent, AsBinaries(wire));
    BinariesOfAsBinaries(wire);
    assert Binaries(fin) == [];
  }

  lemma ChainStreams(br: seq<Bytes>, bs: seq<Bytes>, before: seq<Bytes>, v: seq<Bytes>, w: seq<Bytes>, x: seq<Bytes>)
    requires br == bs + w && bs == before + v && v + w == x
    ensures br == before + x
  {
  }

  lemma PumpKeepsSentWindows(s: SenderState, data: Bytes, enc: ChunkEncryptor, start: nat, before: seq<Bytes>)
    requires SenderInv(s, |data|) && SentWindows(s, data, enc, start, before)
    ensures SentWindows(Pump(s, data, enc), data, enc, start, before)
  {
    var cs := ChunkSizeFor(s.turboMode);
    var r := Pump(s, data, enc);
    PumpFrames(s, data, enc);
    var wire := Seal(Chunks(data[s.offset..r.offset], cs), s.offset, enc);
    var fin: seq<Payload> := if s.stage.Ready? && r.stage == Finished then [Text(Some(Complete))] else [];
    BinariesOfRun(s.channel.sent, wire, fin, r.channel.sent);
    WindowsExtend(data, cs, enc, start, s.offset, r.offset);
    ChainStreams(Binaries(r.channel.sent), Binaries(s.channel.sent), before,
                 Seal(Chunks(data[start..s.offset], cs), start, enc), wire,
                 Seal(Chunks(data[start..r.offset], cs), start, enc));
    AlignedAfter(start, s.offset, r.offset, |data|, cs);
  }

  lemma {:induction false} ReplayKeepsSentWindows(s: SenderState, data: Bytes, enc: ChunkEncryptor,
                                                  evs: seq<SenderEvent>, start: nat, before: seq<Bytes>)
    requires SenderInv(s, |data|) && SentWindows(s, data, enc, start, before)
    ensures SentWindows(Replay(s, data, enc, evs), data, enc, start, before)
    decreases |evs|
  {
    if evs != [] {
      HandleSpec(s, evs[0], |data|);
      var h := Handle(s, evs[0]);
      PumpKeepsSentWindows(h, data, enc, start, before);
      ReplayKeepsSentWindows(Pump(h, data, enc), data, enc, evs[1..], start, before);
    }
  }

  /**
   * From the start of a sendFile call, whatever pauses, resumes, peer
   * messages and drains arrive, the binary payloads put on the channel are
   * the encrypted windows of the file read so far, in order; once the call
   * has returned it has read the whole file.
   */
  lemma TransferSendsWindows(s: SenderState, data: Bytes, enc: ChunkEncryptor, turbo: bool, evs: seq<SenderEvent>)
    requires SenderInv(s, |data|) && !Live(s.stage)
    ensures SenderInv(StartSend(s, turbo), |data|)
    ensures var r := Replay(Pump(StartSend(s, turbo), data, enc), data, enc, evs);
      && s.offset <= r.offset
      && Binaries(r.channel.sent) == Binaries(s.channel.sent)
           + Seal(Chunks(data[s.offset..r.offset], ChunkSizeFor(turbo)), s.offset, enc)
      && (r.stage == Finished ==> r.offset == |data|)
  {
    var s0 := StartSend(s, turbo);
    assert data[s.offset..s.offset] == [];
    assert SentWindows(s0, data, enc, s.offset, Binaries(s.channel.sent));
    PumpKeepsSentWindows(s0, data, enc, s.offset, Binaries(s.channel.sent));
    ReplayKeepsSentWindows(Pump(s0, data, enc), data, enc, evs, s.offset, Binaries(s.channel.sent));
  }

  // ---------------------------------------------------------------------
  // The single `complete` message and the progress reports of a transfer
  // ---------------------------------------------------------------------

  lemma CountOfRun(sent: seq<Payload>, wire: seq<Bytes>, fin: seq<Payload>, r: seq<Payload>, f: Payload -> bool)
    requires forall b :: !f(Binary(b))
    requires r == sent + AsBinaries(wire) + fin
    ensures Count(r, f) == Count(sent, f) + Count(fin, f)
  {
    CountAppend(sent + AsBinaries(wire), fin, f);
    CountAppend(sent, AsBinaries(wire), f);
    CountAmongBinaries(wire, f);
  }

  /**
   * A run of the loop sends no text but `complete`, and that once if it
   * returns: for any kind of text, its count grows by the `complete` sent.
   */
  lemma PumpCounts(s: SenderState, data: Bytes, enc: ChunkEncryptor, f: Payload -> bool)
    requires SenderInv(s, |data|) && forall b :: !f(Binary(b))
    ensures Count(Pump(s, data, enc).channel.sent, f)
      == Count(s.channel.sent, f)
         + (if s.stage.Ready? && Pump(s, data, enc).stage == Finished && f(Text(Some(Complete))) then 1 else 0)
  {
    var cs := ChunkSizeFor(s.turboMode);
    var r := Pump(s, data, enc);
    PumpFrames(s, data, enc);
    var fin: seq<Payload> := if s.stage.Ready? && r.stage == Finished then [Text(Some(Complete))] else [];
    CountOfRun(s.channel.sent, Seal(Chunks(data[s.offset..r.offset], cs), s.offset, enc), fin, r.channel.sent, f);
  }

  /** Events send only control texts, and none of them finishes or revives an activation. */
  lemma HandleCounts(s: SenderState, ev: SenderEvent, n: nat, f: Payload -> bool)
    requires SenderInv(s, n) && !f(ControlText(PauseAction)) && !f(ControlText(ResumeAction))
    ensures Count(Handle(s, ev).channel.sent, f) == Count(s.channel.sent, f)
    ensures Handle(s, ev).stage == Finished <==> s.stage == Finished
  {
    CountAppend(s.channel.sent, [ControlText(PauseAction)], f);
    CountAppend(s.channel.sent, [ControlText(ResumeAction)], f);
  }

  /** Since the start of a transfer, `complete` has been sent once exactly when the activation returned. */
  ghost predicate CompletedOnce(r: SenderState, c0: nat)
  {
    Count(r.channel.sent, IsComplete) == c0 + (if r.stage == Finished then 1 else 0)
  }

  lemma {:induction false} ReplayCompletes(s: SenderState, data: Bytes, enc: ChunkEncryptor, evs: seq<SenderEvent>, c0: nat)
    requires SenderInv(s, |data|) && CompletedOnce(s, c0)
    ensures CompletedOnce(Replay(s, data, enc, evs), c0)
    decreases |evs|
  {
    if evs != [] {
      HandleSpec(s, evs[0], |data|);
      HandleCounts(s, evs[0], |data|, IsComplete);
      var h := Handle(s, evs[0]);
      PumpCounts(h, data, enc, IsComplete);
      ReplayCompletes(Pump(h, data, enc), data, enc, evs[1..], c0);
    }
  }

  /** Progress reports stay strictly increasing and never ahead of the offset over a whole transfer. */
  lemma {:induction false} ReplayReportsBelow(s: SenderState, data: Bytes, enc: ChunkEncryptor, evs: seq<SenderEvent>)
    requires SenderInv(s, |data|) && ReportsBelow(s.reports, s.offset)
    ensures ReportsBelow(Replay(s, data, enc, evs).reports, Replay(s, data, enc, evs).offset)
    decreases |evs|
  {
    if evs != [] {
      HandleSpec(s, evs[0], |data|);
      var h := Handle(s, evs[0]);
      PumpReportsBelow(h, data, enc);
      ReplayReportsBelow(Pump(h, data, enc), data, enc, evs[1..]);
    }
  }

  /**
   * A fresh sender's transfer, whatever events arrive: the binary payloads
   * are the encrypted windows read so far, reports increase, and once
   * sendFile has returned it has sent ceil(size / chunk size) windows, the
   * whole file, and exactly one `complete`.
   */
  lemma FreshTransfer(ch: ChannelView, data: Bytes, enc: ChunkEncryptor, turbo: bool, evs: seq<SenderEvent>)
    ensures var r := Replay(Pump(StartSend(NewSender(ch), turbo), data, enc), data, enc, evs);
      && ReportsBelow(r.reports, r.offset)
      && Binaries(r.channel.sent) == Binaries(ch.sent) + Seal(Chunks(data[..r.offset], ChunkSizeFor(turbo)), 0, enc)
    ensures var r := Replay(Pump(StartSend(NewSender(ch), turbo), data, enc), data, enc, evs);
      r.stage == Finished ==>
        && r.offset == |data|
        && |Binaries(r.channel.sent)| == |Binaries(ch.sent)| + (|data| + ChunkSizeFor(turbo) - 1) / ChunkSizeFor(turbo)
        && Count(r.channel.sent, IsComplete) == Count(ch.sent, IsComplete) + 1
  {
    var s := NewSender(ch);
    var s0 := StartSend(s, turbo);
    var cs := ChunkSizeFor(turbo);
    TransferSendsWindows(s, data, enc, turbo, evs);
    var p := Pump(s0, data, enc);
    var r := Replay(p, data, enc, evs);
    assert data[0..r.offset] == data[..r.offset];
    PumpReportsBelow(s0, data, enc);
    ReplayReportsBelow(p, data, enc, evs);
    PumpCounts(s0, data, enc, IsComplete);
    ReplayCompletes(p, data, enc, evs, Count(ch.sent, IsComplete));
    if r.stage == Finished {
      assert data[..r.offset] == data;
      ChunksCount(data, cs);
    }
  }

  // ---------------------------------------------------------------------
  // The FileSender object
  // ---------------------------------------------------------------------

  /**
   * A FileSender over one file and one data channel. The `sendFile`
   * activation is the `stage` field; `encryptFile` is the callback the
   * running activation was given. `reports` are the onProgress calls.
   */
  class FileSender {
    const file: File
    const dataChannel: DataChannel
    var offset: nat
    var isPaused: bool
    var resumeResolve: bool
    var turboMode: bool
    var stage: Stage
    var encryptFile: Option<ChunkEncryptor>
    var reports: seq<Progress>

    function State(): SenderState
      reads this, dataChannel
    {
      SenderState(offset, isPaused, resumeResolve, turboMode, stage, dataChannel.View(), reports)
    }

    predicate Valid()
      reads this, dataChannel
    {
      SenderInv(State(), |file.data|) && (Live(stage) ==> encryptFile.Some?)
    }

    constructor (file: File, dataChannel: DataChannel)
      ensures this.file == file && this.dataChannel == dataChannel
      ensures State() == NewSender(dataChannel.View()) && encryptFile == None
      ensures Valid()
    {
      this.file := file;
      this.dataChannel := dataChannel;
      offset := 0;
      isPaused := false;
      resumeResolve := false;
      turboMode := false;
      stage := Idle;
      encryptFile := None;
      reports := [];
    }

    method Pause()
      requires Valid()
      modifies this, dataChannel
      ensures State() == Paused(old(State())) && encryptFile == old(encryptFile)
      ensures Valid()
    {
      if !isPaused {
        isPaused := true;
        var _ := dataChannel.Send(ControlText(PauseAction));
      }
    }

    /** Clears the flag and releases a suspended activation; the released activation runs in `RunPending`. */
    method Resume()
      requires Valid()
      modifies this, dataChannel
      ensures State() == Resumed(old(State())) && encryptFile == old(encryptFile)
      ensures Valid()
    {
      if isPaused {
        isPaused := false;
        if resumeResolve {
          stage := Ready(PastPauseCheck);
          resumeResolve := false;
        }
        var _ := dataChannel.Send(ControlText(ResumeAction));
      }
    }

    /** The `message` listener installed by the constructor. */
    method OnMessage(p: Payload)
      requires Valid()
      modifies this, dataChannel
      ensures State() == OnPeerMessage(old(State()), p) && encryptFile == old(encryptFile)
      ensures Valid()
    {
      if p == ControlText(PauseAction) {
        Pause();
      } else if p == ControlText(ResumeAction) {
        Resume();
      }
    }

    /** The one-shot `bufferedamountlow` handler; the released activation runs in `RunPending`. */
    method OnBufferedAmountLow()
      requires Valid()
      modifies this
      ensures State() == BufferLow(old(State())) && encryptFile == old(encryptFile)
      ensures Valid()
    {
      if stage == AwaitingDrain {
        stage := Ready(PastBufferCheck);
      }
    }

    /** sendMetadata: one `metadata` text; a closed channel makes the call fail (`false`). */
    method SendMetadata(encryptionKey: Key, fileIndex: int := 0, totalFiles: int := 1) returns (ok: bool)
      requires Valid()
      modifies dataChannel
      ensures (dataChannel.View(), ok) == Transmit(old(dataChannel.View()),
        Text(Some(Metadata(FileMeta(file.name, |file.data|, file.mimeType, encryptionKey, Some(fileIndex), Some(totalFiles))))))
      ensures Valid()
    {
      ok := dataChannel.Send(Text(Some(Metadata(FileMeta(file.name, |file.data|, file.mimeType, encryptionKey, Some(fileIndex), Some(totalFiles))))));
    }

    /** sendFile(encryptFile, turboMode): fix the mode, enter the loop and run it to its first suspension. */
    method SendFile(encrypt: ChunkEncryptor, turbo: bool := false)
      requires Valid() && !Live(stage)
      modifies this, dataChannel
      ensures State() == Pump(StartSend(old(State()), turbo), file.data, encrypt)
      ensures encryptFile == Some(encrypt) && Valid()
    {
      turboMode := turbo;
      stage := Ready(LoopTop);
      encryptFile := Some(encrypt);
      RunPending();
    }

    /** The released activation continues until it suspends again, returns or throws. */
    method RunPending()
      requires Valid()
      modifies this, dataChannel
      ensures encryptFile == old(encryptFile) && Valid()
      ensures encryptFile.Some? ==> State() == Pump(old(State()), file.data, encryptFile.value)
      ensures encryptFile.None? ==> State() == old(State())
    {
      if stage.Ready? {
        ghost var target := Pump(State(), file.data, encryptFile.value);
        while stage.Ready?
          invariant Valid() && encryptFile == old(encryptFile) && encryptFile.Some?
          invariant Pump(State(), file.data, encryptFile.value) == target
          decreases |file.data| - offset, Rank(stage)
        {
          Advance();
        }
      }
    }

    /** One segment of the loop body, up to its next await. */
    method Advance()
      requires Valid() && stage.Ready?
      modifies this, dataChannel
      ensures encryptFile == old(encryptFile) && encryptFile.Some?
      ensures State() == Step(old(State()), file.data, encryptFile.value)
      ensures Valid()
    {
      match stage.at
      case LoopTop => AtLoopTest();
      case PastPauseCheck => AtBufferCheck();
      case PastBufferCheck => SendChunk();
    }

    /** `while (offset < size)` and the pause check; at the end, the `complete` message. */
    method AtLoopTest()
      requires Valid() && stage == Ready(LoopTop)
      modifies this, dataChannel
      ensures encryptFile == old(encryptFile) && encryptFile.Some?
      ensures State() == Step(old(State()), file.data, encryptFile.value)
      ensures Valid()
    {
      if offset >= |file.data| {
        var ok := dataChannel.Send(Text(Some(Complete)));
        stage := if ok then Finished else Failed;
      } else if isPaused {
        resumeResolve := true;
        stage := AwaitingResume;
      } else {
        stage := Ready(PastPauseCheck);
      }
    }

    /** The backpressure check. */
    method AtBufferCheck()
      requires Valid() && stage == Ready(PastPauseCheck)
      modifies this
      ensures encryptFile == old(encryptFile) && encryptFile.Some?
      ensures State() == Step(old(State()), file.data, encryptFile.value)
      ensures Valid()
    {
      if dataChannel.bufferedAmount > BufferThreshold {
        stage := AwaitingDrain;
      } else {
        stage := Ready(PastBufferCheck);
      }
    }

    /** Read, encrypt and send one chunk, advance the offset, report progress. */
    method SendChunk()
      requires Valid() && stage == Ready(PastBufferCheck)
      modifies this, dataChannel
      ensures encryptFile == old(encryptFile) && encryptFile.Some?
      ensures State() == Step(old(State()), file.data, encryptFile.value)
      ensures Valid()
    {
      var chunk := ReadChunk(file.data, offset, ChunkSizeFor(turboMode));
      var ok := dataChannel.Send(Binary(encryptFile.value(chunk, offset)));
      if !ok {
        stage := Failed;
      } else {
        offset := offset + |chunk|;
        stage := Ready(LoopTop);
        reports := reports + [Progress(offset, |file.data|, isPaused)];
      }
    }
  }
}
