# A verified model of a peer-to-peer file-sharing service

The system lets one browser send files to another. A small WebSocket
server pairs the two browsers in a room and relays their WebRTC signalling;
the files then travel directly over an RTCDataChannel, cut into chunks and
encrypted end to end with AES-GCM under a fresh key per file. The sender's
page sends a batch of files one after another; the receiver's page collects
them.

This project models, in Dafny, the sequential logic under that plumbing.
There is one module per source file, except that
`client/src/webrtc/fileTransfer.js` is split into its chunking, its
sender and its receiver, with the data channel in a module of its own:

- `RoomManagement` (`room_manager.dfy`): the server's room registry (`server/rooms/roomManager.js`): the `rooms` and `userRooms` maps, room ids, capacity, leaving, disconnects, activity and the expiry sweep.
- `Signaling` (`ws_handler.dfy`): the server's message router (`server/ws/wsHandler.js`): per-socket ready state and outbox, the dispatch on `type`, room creation and joins, forwarding and broadcasts.
- `Encryption` (`encryption.dfy`): the IV-then-ciphertext framing of `client/src/crypto/encryption.js` over an abstract AES-GCM.
- `Transport` (`transport.dfy`): the data channel boundary: peer messages, binary payloads, ready state and the buffered amount (which grows with each send and is never drained, see Left out).
- `Chunking` (`chunking.dfy`): the windows a file is cut into, their encryption and their in-order decryption (`client/src/webrtc/fileTransfer.js`).
- `Sending` (`file_sender.dfy`): `FileSender`: pause, resume, the control listener, metadata and the `sendFile` loop with its pause and backpressure waits.
- `Receiving` (`file_receiver.dfy`): `FileReceiver`: control messages, chunk collection, byte counting and assembly.
- `SignalingClient` (`ws_client.dfy`): the browser's signalling client (`client/src/utils/wsClient.js`): message queue, handler lists, reconnection counter.
- `ReceiverHook` (`receiver_hook.dfy`): the receiving page's state machine (`client/src/hooks/useFileReceiver.js`).
- `SendingPage` (`send_page.dfy`): the sending page (`client/src/components/SendPage.jsx`): file list, pause toggle, the batch loop and overall progress.
- `Base` (`base.dfy`): Option, Result, bytes, and concatenation of byte sequences.

Each stateful piece is modelled twice. First, every operation is a
function on a value (a `Registry`, a `SenderState`, a `ReceiverState`, a
`HookState`, a `PageState`, a `ClientState`), and lemmas state what the source promises
about those functions. Second, a class holds the same fields and updates
them in place, and each of its methods is proved to reach exactly the state
the matching function gives. Time, random draws (room ids, socket ids,
keys, IVs), the cipher and parsed JSON enter as parameters.

The `sendFile` loop and the page's `handleSendFiles` loop are `async`
functions that wait on promises. Each is modelled as a suspended activation
(the point it waits at) plus the events that release it: `resume`,
`bufferedamountlow`, peer messages and timers. The channel may also
close under the loops, as it does when the peer goes away; the next send
then throws. After each event the released code runs on to its next wait.
The main results are:

- reassembly on the receiver gives back the sender's bytes, whatever pauses,
  peer messages and drains arrive in between;
- a batch sends its files strictly in index order, each as its metadata
  with its own key, its sealed windows and its `complete`, before the next;
  if the channel closes mid-batch, the batch ends `failed` at its next send;
- the registry keeps `userRooms` the exact inverse of room membership
  within the capacity cap, for every operation but one;
- that one is a join bug, listed under Findings; the registry and the
  server's handler use the corrected join;
- the signalling client still reconnects after close(), also listed
  under Findings.

## Model

| member | source | states |
|---|---|---|
| RoomManagement.IdOf | server/rooms/roomManager.js:27-34 | a draw of six alphabet indices spells a six-character id over `A-Z0-9`, character i being the alphabet letter of draw i |
| RoomManagement.BuildRoomId | server/rooms/roomManager.js:31-34 | the inner for-loop builds, one character at a time, exactly the id the draw spells, and that id is well formed |
| RoomManagement.FirstFresh | server/rooms/roomManager.js:26-38 | the do-while retry settles on a well-formed id that is not a live room id, spelt by draw k where every earlier draw spelt a taken id |
| Base.OrDefault | server/rooms/roomManager.js:16-17 | JavaScript's `x or d` on a number, here `parseInt` of the environment setting or the default (and, in useFileReceiver.js lines 49-50, a metadata number or its default): a present non-zero value is used, and a missing, unparsable or zero one falls back to the default |
| RoomManagement.RoomManager.constructor | server/rooms/roomManager.js:8-21 | both maps start empty, the timeout and the cap come from the environment through OrDefault (7200000 ms and 2 by default), and the invariants hold |
| RoomManagement.RoomManager.GenerateRoomId | server/rooms/roomManager.js:26-38 | the retry loop returns the first fresh candidate of the random stream, FirstFresh |
| RoomManagement.CreateSpec | server/rooms/roomManager.js:43-55 | createRoom adds exactly the new room, empty and stamped `now` for both createdAt and lastActivity, changes no other room and no userRooms entry, and keeps the registry consistent and within the cap |
| RoomManagement.RoomManager.CreateRoom | server/rooms/roomManager.js:43-55 | the id returned is FirstFresh of the live ids and the new state is Create of the old one; the invariants are kept |
| RoomManagement.JoinRefusals | server/rooms/roomManager.js:60-71 | an unknown room answers `Room does not exist`, a room at the cap answers `Room is full`, both leave both maps unchanged, and the join fails exactly in these two cases |
| RoomManagement.JoinSuccess | server/rooms/roomManager.js:73-91 | a successful join adds the socket to the room's members, maps the socket to the room, stamps lastActivity with `now`, keeps createdAt, reports the new member count and whether it reached the cap, and leaves the socket in no other room |
| RoomManagement.JoinPreservesInvariant | server/rooms/roomManager.js:60-92 | every join outcome keeps userRooms the exact inverse of membership and every occupied room within the cap |
| RoomManagement.AddMemberPreservesInvariant | server/rooms/roomManager.js:79-82 | adding a socket that is in no other room to a room below the cap keeps both invariants |
| RoomManagement.JoinLeavesNoEmptyRoom | server/rooms/roomManager.js:73-82 | after a successful join no empty room is left, as long as the joined room was the only possibly empty one |
| RoomManagement.RejoinSameRoom | server/rooms/roomManager.js:73-91 | in the corrected join, a socket that rejoins its own room stays a member, the room set and userRooms are unchanged, and the reply counts the unchanged membership |
| RoomManagement.JoinAsWrittenLosesRoom | server/rooms/roomManager.js:66-82 | as written, the only member of a room joining it again gets `success`, yet the room is deleted while userRooms still points at it, so the registry becomes inconsistent |
| RoomManagement.JoinAsWrittenAgreesElsewhere | server/rooms/roomManager.js:60-92 | the written join and the corrected one agree whenever the socket is not rejoining the room it is in |
| RoomManagement.RoomManager.JoinRoom | server/rooms/roomManager.js:60-92 | the new maps and the reply are those of the corrected Join; the invariants are kept |
| RoomManagement.LeaveSpec | server/rooms/roomManager.js:97-113 | leaving an unknown room changes nothing; otherwise the socket leaves the room and loses its userRooms entry, the room is deleted exactly when it becomes empty, and no other room or entry changes |
| RoomManagement.LeavePreservesInvariant | server/rooms/roomManager.js:97-113 | leaving the socket's own room, or leaving while in no room, keeps both invariants |
| RoomManagement.LeaveKeepsConsistent | server/rooms/roomManager.js:103-110 | the same leave keeps userRooms the inverse of membership |
| RoomManagement.LeaveKeepsCapacity | server/rooms/roomManager.js:103-110 | leaving never pushes a room over the cap |
| RoomManagement.LeaveKeepsNoEmptyRoom | server/rooms/roomManager.js:108-112 | leaving never leaves an empty room behind |
| RoomManagement.RoomManager.LeaveRoom | server/rooms/roomManager.js:97-113 | the new maps are Leave of the old ones; the invariants are kept when the socket leaves its own room |
| RoomManagement.DisconnectSpec | server/rooms/roomManager.js:118-123 | a disconnect keeps both invariants and leaves the socket in no room and with no userRooms entry |
| RoomManagement.RoomManager.HandleDisconnect | server/rooms/roomManager.js:118-123 | the new maps are Disconnect of the old ones (an empty-string room id, being falsy, is skipped); the invariants are kept |
| RoomManagement.RoomManager.GetRoomUsers | server/rooms/roomManager.js:128-141 | an unknown room gives `[]`; otherwise the result lists each member exactly once, leaving out the excluded socket when a truthy one is given |
| RoomManagement.TouchSpec | server/rooms/roomManager.js:146-150 | updateActivity stamps lastActivity of that room only, changes no membership and no room set, and keeps the invariants |
| RoomManagement.RoomManager.UpdateActivity | server/rooms/roomManager.js:146-150 | the new maps are Touch of the old ones; the invariants are kept |
| RoomManagement.SweepSpec | server/rooms/roomManager.js:155-175 | exactly the rooms idle for strictly longer than the timeout are removed, the others stay untouched, and exactly the sockets in a removed room lose their userRooms entry |
| RoomManagement.SweepKeepsRoomAtTimeout | server/rooms/roomManager.js:160 | the comparison is strict: a room idle for exactly the timeout survives |
| RoomManagement.SweepReleasesOnlyExpiredMembers | server/rooms/roomManager.js:160-164 | on a consistent registry, a member of a surviving room keeps its entry |
| RoomManagement.SweepPreservesInvariant | server/rooms/roomManager.js:155-175 | the sweep keeps both invariants, and keeps every room occupied if that held before |
| RoomManagement.RoomManager.CleanupExpiredRooms | server/rooms/roomManager.js:155-175 | the loop over the room map leaves the state Sweep describes, and the count it logs is the number of rooms deleted |
| RoomManagement.RoomManager.CleanupRoom | server/rooms/roomManager.js:160-169 | one iteration deletes the room and its members' entries exactly when the room has expired, and reports whether it did |
| RoomManagement.RoomManager.ReleaseMembers | server/rooms/roomManager.js:162-164 | the inner loop removes exactly the expired room's members from userRooms and leaves the rooms as they are |
| RoomManagement.DescribeRooms | server/rooms/roomManager.js:193-198 | one entry per live room, no room named twice, each entry giving the room's member count and its age and idle time measured from `now` |
| RoomManagement.RoomManager.GetStats | server/rooms/roomManager.js:189-200 | totalRooms and totalUsers are the sizes of the two maps; the room list is DescribeRooms of the live rooms |
| Signaling.RouteOfSpec | server/ws/wsHandler.js:57-82 | the switch sends create-room, join-room, the three signalling types and the four file-message types to their handlers, and exactly every other or missing type to the default case |
| Signaling.PostIsBroadcastToOne | server/ws/wsHandler.js:189-193 | sendMessage is the one-socket case of a broadcast: only an open socket gets the message |
| Signaling.BroadcastSpec | server/ws/wsHandler.js:175-184 | a broadcast adds and removes no socket and changes no readyState; every open target gets exactly the message appended, and every other socket, closed targets included, is untouched |
| Signaling.BroadcastSkipsSender | server/ws/wsHandler.js:175-177 | the sender never hears its own broadcast, since getRoomUsers leaves out its (non-empty) id |
| Signaling.ParseFailureReplies | server/ws/wsHandler.js:27-35 | a frame that does not parse as JSON gets one `Invalid message format` error to its sender, and nothing else changes |
| Signaling.UnknownTypeReplies | server/ws/wsHandler.js:79-81 | an unknown type gets `Unknown message type: <type>` to the sender only (`undefined` when the type is missing), and the registry is untouched |
| Signaling.MissingRoomIdReplies | server/ws/wsHandler.js:106-112 | join-room, signalling and file messages with a missing or empty room id get `Room ID is required` to the sender only |
| Signaling.CreateRoomJoinsSender | server/ws/wsHandler.js:88-101 | with a cap of at least one, create-room picks a free well-formed id; a sender already in a room first leaves it, and that room goes when it empties; the new room holds exactly the sender, every other room is as the leave left it, the sender maps to the new room, and only the sender is told `room-created` |
| Signaling.CreateRoomWithoutCapacity | server/ws/wsHandler.js:88-101 | with a cap below one, the new empty room stays behind and the sender gets the registry's `Room is full` |
| Signaling.JoinRoomReplies | server/ws/wsHandler.js:106-134 | a refused join leaves the registry alone and tells the joiner why; a successful one tells the joiner `room-joined` with the new count and every other open member `user-joined`, and nobody else hears anything |
| Signaling.ForwardDelivers | server/ws/wsHandler.js:139-170 | a signalling or file message with a room id stamps only that room's activity and reaches every other open member of the room unmodified; nobody outside the room hears it, and the sender's membership is not checked |
| Signaling.ReceivePreservesInvariant | server/ws/wsHandler.js:27-35 | with the corrected join, no inbound frame breaks the registry's consistency or its cap |
| Signaling.WebSocketHandler.constructor | server/ws/wsHandler.js:6-9 | the handler starts with its room manager and no client |
| Signaling.WebSocketHandler.HandleConnection | server/ws/wsHandler.js:14-24 | a new open socket is added and greeted with `connected` carrying its id |
| Signaling.WebSocketHandler.SendMessage | server/ws/wsHandler.js:189-193 | the message lands in the socket's outbox exactly when the socket is open |
| Signaling.WebSocketHandler.SendError | server/ws/wsHandler.js:198-203 | sendError is sendMessage of an `error` message |
| Signaling.WebSocketHandler.SendToMember | server/ws/wsHandler.js:179-182 | the forEach callback sends to a known socket only when it is open |
| Signaling.WebSocketHandler.SendToEach | server/ws/wsHandler.js:178-183 | the loop over a list without duplicates delivers the message to each listed open socket, as Broadcast describes |
| Signaling.WebSocketHandler.BroadcastToRoom | server/ws/wsHandler.js:175-184 | the room's other members, as getRoomUsers gives them, get the message, as Broadcast describes |
| Signaling.WebSocketHandler.HandleCreateRoom | server/ws/wsHandler.js:88-101 | the new registry and outboxes are CreateRoomStep of the old ones; the registry invariants are kept |
| Signaling.WebSocketHandler.HandleJoinRoom | server/ws/wsHandler.js:106-134 | the new registry and outboxes are JoinRoomStep of the old ones; the invariants are kept |
| Signaling.WebSocketHandler.HandleForward | server/ws/wsHandler.js:139-170 | handleSignaling and handleFileMessage reach ForwardStep of the old state; the invariants are kept |
| Signaling.WebSocketHandler.HandleMessage | server/ws/wsHandler.js:52-83 | the switch reaches HandleStep of the old state; the invariants are kept |
| Signaling.WebSocketHandler.OnMessage | server/ws/wsHandler.js:27-35 | the message listener reaches ReceiveStep of the old state; the invariants are kept |
| Signaling.WebSocketHandler.OnClose | server/ws/wsHandler.js:38-41 | on close the registry is Disconnect of the old one and the socket leaves the client set; the invariants are kept |
| Encryption.Combine | client/src/crypto/encryption.js:65-70 | the returned buffer is as long as the IV and the ciphertext together |
| Encryption.Encrypt | client/src/crypto/encryption.js:51-71 | the wire chunk starts with the 12-byte IV drawn for the call, followed by the ciphertext |
| Encryption.SplitIv | client/src/crypto/encryption.js:79-81 | the two slices put back together give the input; an input of 12 bytes or more gives a 12-byte IV, and a shorter one gives an empty ciphertext, since slices clamp |
| Encryption.SplitCombine | client/src/crypto/encryption.js:65-68 | splitting a combined buffer at 12 gives back exactly the IV and the ciphertext |
| Encryption.DecryptEncrypt | client/src/crypto/encryption.js:51-94 | under a cipher that round-trips, decrypt undoes encrypt with the same key |
| Encryption.EncryptLength | client/src/crypto/encryption.js:51-71 | under AES-GCM's 16-byte tag, a wire chunk is 28 bytes longer than its plaintext |
| Encryption.CreateEncryptionUtils | client/src/crypto/encryption.js:99-108 | both closures capture the given key and cipher |
| Encryption.UtilsRoundTrip | client/src/crypto/encryption.js:99-108 | decryptChunk of encryptChunk of a chunk gives the chunk back, for utilities built from one key |
| Transport.AsBinaries | client/src/webrtc/fileTransfer.js:145 | one binary payload per part, in order |
| Transport.BinariesAppend | client/src/webrtc/fileTransfer.js:270-272 | the binary payloads of two streams are those of the first followed by those of the second |
| Transport.BinariesOfAsBinaries | client/src/webrtc/fileTransfer.js:270-272 | keeping only the binary payloads of a run of binaries gives the parts back |
| Transport.CountAppend | client/src/webrtc/fileTransfer.js:235-290 | counting a kind of payload over two streams adds the counts |
| Transport.CountAmongBinaries | client/src/webrtc/fileTransfer.js:235-267 | a kind of text is never counted among binary payloads |
| Transport.Transmit | client/src/webrtc/fileTransfer.js:145 | `send` succeeds exactly on an open channel, appending the payload and adding its bytes to the buffered amount; otherwise it throws and nothing changes |
| Transport.TransmitTextKeepsBinaries | client/src/webrtc/fileTransfer.js:93 | a text payload never changes the binary stream |
| Transport.DataChannel.constructor | client/src/webrtc/fileTransfer.js:16 | a channel in the given state with nothing buffered or sent |
| Transport.DataChannel.Send | client/src/webrtc/fileTransfer.js:145 | performs Transmit on the channel's fields |
| Transport.Shut | client/src/webrtc/fileTransfer.js:145 | the channel a departing peer closes: what it already carried and buffered stays, and its state becomes closed |
| Transport.ShutRefusesSend | client/src/webrtc/fileTransfer.js:145 | on a closed channel every `send` throws and changes nothing, and closing again changes nothing |
| Transport.DataChannel.Close | client/src/webrtc/fileTransfer.js:145 | performs Shut on the channel's fields |
| Chunking.ChunkSizeFor | client/src/webrtc/fileTransfer.js:6-7 | the chunk size of one sendFile call is 64 KiB in turbo mode and 16 KiB otherwise |
| Chunking.ReadChunk | client/src/webrtc/fileTransfer.js:99-106 | reading at an offset inside the file gives the bytes from that offset on, min(size, remaining) of them, as `slice` clamps at the end |
| Chunking.ChunksFlatten | client/src/webrtc/fileTransfer.js:120-146 | concatenating the windows the loop reads gives back the whole file |
| Chunking.ChunksCount | client/src/webrtc/fileTransfer.js:117-146 | a file of n bytes is read in ceil(n / chunk size) windows, none for an empty file |
| Chunking.ChunkAt | client/src/webrtc/fileTransfer.js:139-146 | window i starts inside the file at offset i times the chunk size, is the read of one chunk size there, and has min(chunk size, remaining) bytes |
| Chunking.ChunksNonEmpty | client/src/webrtc/fileTransfer.js:120-146 | no window read by the loop is empty |
| Chunking.ChunksAppend | client/src/webrtc/fileTransfer.js:120-146 | cutting a prefix that is a whole number of windows and the rest separately gives the windows of the whole |
| Chunking.Seal | client/src/webrtc/fileTransfer.js:142 | one wire chunk per window, each encrypted under the draw for its own offset |
| Chunking.SealAppend | client/src/webrtc/fileTransfer.js:139-146 | the wire chunks of two runs of windows are those of the first followed by those of the second, the second read from where the first ends |
| Chunking.DecryptAll | client/src/webrtc/fileTransfer.js:303-307 | decrypting the received chunks in order yields one plaintext per chunk, or a rejection |
| Chunking.DecryptAllSnoc | client/src/webrtc/fileTransfer.js:303-307 | one more chunk is decrypted after the earlier ones and appended, and a rejection of it or of an earlier one rejects the whole |
| Chunking.DecryptAllRejected | client/src/webrtc/fileTransfer.js:303-307 | once a chunk is rejected, the whole assembly is rejected whatever follows |
| Chunking.OpenSealed | client/src/webrtc/fileTransfer.js:303-307 | under a cipher that round-trips, decrypting in order the chunks sealed under one key gives back the plaintext windows |
| Chunking.ReassemblyRoundTrip | client/src/webrtc/fileTransfer.js:303-309 | decrypting every wire chunk of a file in order gives its windows, and their concatenation is the original file |
| Chunking.SealedLength | client/src/crypto/encryption.js:51-71 | with a 12-byte IV and a 16-byte tag every wire chunk is 28 bytes longer than its window |
| Chunking.WireBytes | client/src/webrtc/fileTransfer.js:270-277 | the bytes a receiver counts for a whole file are its size plus 28 per window, not its size |
| Sending.NewSender | client/src/webrtc/fileTransfer.js:14-26 | a new sender is at offset 0, unpaused, with no pending resume and no activation, and satisfies the sender invariant for every file size |
| Sending.Step | client/src/webrtc/fileTransfer.js:120-170 | one segment of the sendFile loop keeps the sender invariant and the mode, and either moves the offset forward or gets closer to the next chunk |
| Sending.Pump | client/src/webrtc/fileTransfer.js:119-180 | a released activation runs until it suspends, returns or throws, keeping the invariant and the mode and never moving the offset back |
| Sending.PauseSpec | client/src/webrtc/fileTransfer.js:48-58 | pause is idempotent and leaves the sender paused; an unpaused sender on an open channel sends one `control/pause` text; nothing else changes |
| Sending.ResumeSpec | client/src/webrtc/fileTransfer.js:63-77 | resume does nothing unless paused; otherwise it clears the flag, releases a pending resume promise so the loop continues past its pause check, and sends one `control/resume` text on an open channel |
| Sending.ResumeReleases | client/src/webrtc/fileTransfer.js:122-124 | a loop waiting on the resume promise is always released by resume, since it can only wait while paused |
| Sending.PeerMessageSpec | client/src/webrtc/fileTransfer.js:28-43 | a peer `control/pause` or `control/resume` acts as the local call, and any other payload (binary, unparsable, another type or action) is ignored |
| Sending.AlignedAfter | client/src/webrtc/fileTransfer.js:139-146 | after one more full window, or the last window, the offset is still on a window boundary or at the end |
| Sending.StepFrames | client/src/webrtc/fileTransfer.js:120-174 | one segment either sends nothing or `complete` without moving (finishing only at the end of the file), or sends exactly the encryption of the window read at the offset, advances by its length and reports the new offset, the size and the pause flag |
| Sending.PumpFrames | client/src/webrtc/fileTransfer.js:119-180 | one run of the loop appends one binary payload per window read, each encrypting its own window, followed by `complete` exactly when the call returned |
| Sending.PumpReportsBelow | client/src/webrtc/fileTransfer.js:151-165 | reported progress stays strictly increasing and never ahead of the offset |
| Sending.PumpReportCount | client/src/webrtc/fileTransfer.js:146-165 | a run reports once per window it sent |
| Sending.PumpReports | client/src/webrtc/fileTransfer.js:151-165 | reports are only appended, each new one carries the file size as its total, and the last is the offset reached |
| Sending.PausedSendsNoWindow | client/src/webrtc/fileTransfer.js:120-124 | a paused sender at the loop test sends no binary data and does not move: it waits on resume, or returns at the end of the file |
| Sending.BackpressureSendsNothing | client/src/webrtc/fileTransfer.js:128-136 | above the 16 MiB threshold the loop waits for `bufferedamountlow` without sending |
| Sending.DrainReleaseIgnoresPause | client/src/webrtc/fileTransfer.js:122-145 | the pause check is not repeated after the drain wait: released by `bufferedamountlow`, a paused sender still sends its window |
| Sending.ClosedRunFails | client/src/webrtc/fileTransfer.js:120-177 | on a channel that is not open, sendFile's loop sends nothing, moves no offset and reports nothing, never returns normally, and, unless it suspends on a pause or the buffer, its throwing `send` ends it failed; it always fails right after the buffer check |
| Sending.HandleSpec | client/src/webrtc/fileTransfer.js:28-77 | pause, resume, peer messages and `bufferedamountlow` keep the invariant and never move the offset, send binary data or report progress |
| Sending.Replay | client/src/webrtc/fileTransfer.js:111-180 | any sequence of events, each followed by the continuation it released, keeps the invariant and the mode and never moves the offset back |
| Sending.WindowsExtend | client/src/webrtc/fileTransfer.js:139-146 | the sealed windows up to a boundary followed by the sealed windows after it are the sealed windows of the whole span |
| Sending.PumpKeepsSentWindows | client/src/webrtc/fileTransfer.js:119-180 | one run of the loop keeps the binary stream equal to the sealed windows read since the transfer started |
| Sending.ReplayKeepsSentWindows | client/src/webrtc/fileTransfer.js:111-180 | the same holds across any sequence of events |
| Sending.TransferSendsWindows | client/src/webrtc/fileTransfer.js:111-180 | from the start of a sendFile call, whatever events arrive, the binary payloads sent are the encrypted windows of the file read so far, in order, and a returned call has read the whole file |
| Sending.PumpCounts | client/src/webrtc/fileTransfer.js:119-180 | a run sends no text but `complete`, and that once when it returns |
| Sending.HandleCounts | client/src/webrtc/fileTransfer.js:28-77 | events send only control texts, and none of them finishes or revives an activation |
| Sending.ReplayCompletes | client/src/webrtc/fileTransfer.js:172-174 | over a transfer, `complete` has been sent once exactly when the activation returned |
| Sending.ReplayReportsBelow | client/src/webrtc/fileTransfer.js:151-165 | reports stay strictly increasing and never ahead of the offset over a whole transfer |
| Sending.FreshTransfer | client/src/webrtc/fileTransfer.js:14-180 | for a fresh sender, whatever events arrive, the binary payloads are the encrypted windows read so far and reports increase; once sendFile has returned it has read the whole file in ceil(size / chunk size) windows and sent exactly one `complete` |
| Sending.FileSender.constructor | client/src/webrtc/fileTransfer.js:14-26 | the new object's fields are the NewSender state over the given channel, with no encryptor yet |
| Sending.FileSender.Pause | client/src/webrtc/fileTransfer.js:48-58 | updates the fields and the channel to the Paused state |
| Sending.FileSender.Resume | client/src/webrtc/fileTransfer.js:63-77 | updates the fields and the channel to the Resumed state |
| Sending.FileSender.OnMessage | client/src/webrtc/fileTransfer.js:28-43 | the control listener takes the object to OnPeerMessage of its state |
| Sending.FileSender.OnBufferedAmountLow | client/src/webrtc/fileTransfer.js:129-135 | the one-shot handler takes the object to BufferLow of its state |
| Sending.FileSender.SendMetadata | client/src/webrtc/fileTransfer.js:82-94 | sends one `metadata` text with the file's name, size, type, the key, the index and the total, and fails on a channel that is not open |
| Sending.FileSender.SendFile | client/src/webrtc/fileTransfer.js:111-180 | fixes the mode, enters the loop and runs it to its first suspension, reaching Pump of StartSend of the old state |
| Sending.FileSender.RunPending | client/src/webrtc/fileTransfer.js:119-170 | a released activation continues until it suspends, returns or throws, reaching Pump of the old state |
| Sending.FileSender.Advance | client/src/webrtc/fileTransfer.js:120-170 | one segment of the loop body reaches Step of the old state |
| Sending.FileSender.AtLoopTest | client/src/webrtc/fileTransfer.js:120-124 | the loop test, the pause check and the final `complete` reach Step of the old state |
| Sending.FileSender.AtBufferCheck | client/src/webrtc/fileTransfer.js:128-136 | the backpressure check reaches Step of the old state |
| Sending.FileSender.SendChunk | client/src/webrtc/fileTransfer.js:139-165 | read, encrypt, send, advance and report reach Step of the old state |
| Receiving.SendControlSpec | client/src/webrtc/fileTransfer.js:208-219 | sendControl acts only with an open channel: one control text, and the flag set by `pause` and cleared by `resume`; otherwise nothing changes, and it never touches chunks, size or deliveries |
| Receiving.TogglePauseSpec | client/src/webrtc/fileTransfer.js:224-230 | on an open channel togglePause flips the flag and sends `resume` when paused and `pause` otherwise |
| Receiving.ReceiveSpec | client/src/webrtc/fileTransfer.js:235-290 | a binary payload is appended to the chunks and its length added to the size; a peer `control/pause` sets the flag and `control/resume` clears it; no text adds a chunk; metadata and channel never change |
| Receiving.CompleteSpec | client/src/webrtc/fileTransfer.js:241-244 | `complete` delivers exactly what assembly yields, a thrown assembly (no metadata, or a rejected chunk) changes nothing, and without metadata assembly fails with "No metadata received" |
| Receiving.ReceiveKeepsInv | client/src/webrtc/fileTransfer.js:270-272 | every payload keeps the received size equal to the byte length of the kept chunks |
| Receiving.ReceiveAllChunks | client/src/webrtc/fileTransfer.js:235-290 | over any stream the kept chunks are the binary payloads in arrival order, the size counts their bytes, and the metadata is untouched |
| Receiving.AssembleSealed | client/src/webrtc/fileTransfer.js:295-317 | a receiver holding metadata and exactly the sealed windows of a file delivers a Blob of that file's bytes typed with the announced MIME type, together with the metadata |
| Receiving.FileArrivesWhole | client/src/webrtc/fileTransfer.js:235-317 | a receiver with metadata and no chunks, fed any stream whose binary payloads are the sender's sealed windows and then `complete`, delivers the original file once more than before |
| Receiving.ReceiveAllSnoc | client/src/webrtc/fileTransfer.js:235-290 | handling a stream and then one more payload is handling the longer stream |
| Receiving.ReceivedSizeIsTotal | client/src/webrtc/fileTransfer.js:270-272 | from a fresh receiver, the received size is the total byte length of the binary payloads |
| Receiving.ReceivedSizeCountsWireBytes | client/src/webrtc/fileTransfer.js:270-287 | after a whole file the received size is the file size plus 28 bytes per window, so it exceeds the file's byte length, and the announced size when the metadata announces that length, for every non-empty file |
| Receiving.FileReceiver.constructor | client/src/webrtc/fileTransfer.js:187-196 | no chunks, no metadata, size 0, unpaused, no channel, no reports and no deliveries |
| Receiving.FileReceiver.SetDataChannel | client/src/webrtc/fileTransfer.js:201-203 | records the channel and changes nothing else |
| Receiving.FileReceiver.SetMetadata | client/src/hooks/useFileReceiver.js:77 | records the announced metadata and changes nothing else |
| Receiving.FileReceiver.SendControl | client/src/webrtc/fileTransfer.js:208-219 | takes the object and channel to WithControl of the old state |
| Receiving.FileReceiver.TogglePause | client/src/webrtc/fileTransfer.js:224-230 | takes the object and channel to Toggled of the old state |
| Receiving.FileReceiver.AssembleFile | client/src/webrtc/fileTransfer.js:295-317 | the loop decrypting chunk by chunk returns what Assemble specifies: the error without metadata, a rejection if any chunk is rejected, and otherwise the Blob and metadata |
| Receiving.FileReceiver.HandleData | client/src/webrtc/fileTransfer.js:235-290 | takes the object to Receive of the old state |
| SignalingClient.IndexOf | client/src/utils/wsClient.js:136 | `indexOf` gives -1 exactly for an absent handler, and otherwise the first position holding it |
| SignalingClient.RemoveFirstSpec | client/src/utils/wsClient.js:134-140 | unsubscribing an absent handler changes nothing; otherwise it removes the first occurrence, keeps every other handler in order, and shortens the list by one |
| SignalingClient.RemoveFirstCounts | client/src/utils/wsClient.js:134-140 | unsubscribing takes away exactly one registration of the handler, if it has one |
| SignalingClient.SubscribeThenUnsubscribe | client/src/utils/wsClient.js:127-140 | subscribing and then unsubscribing a handler restores the list only if it was not registered before; otherwise the earlier registration is removed and the new one stays at the end |
| SignalingClient.IndexOfPrefix | client/src/utils/wsClient.js:136 | a handler in the front part of a list is found there, whatever follows |
| SignalingClient.IndexOfAbsentPrefix | client/src/utils/wsClient.js:136 | a handler appended to a list that lacked it is found at the end |
| SignalingClient.Transmits | client/src/utils/wsClient.js:95 | one transmission per message, in order |
| SignalingClient.TransmitsAppend | client/src/utils/wsClient.js:106-111 | transmitting two runs of messages is transmitting their concatenation |
| SignalingClient.MessageCalls | client/src/utils/wsClient.js:121 | one call per registered handler, in registration order, each with the message |
| SignalingClient.ConnectCalls | client/src/utils/wsClient.js:36 | one call per connect handler, in registration order |
| SignalingClient.DisconnectCalls | client/src/utils/wsClient.js:60 | one call per disconnect handler, in registration order |
| SignalingClient.Reconnect | client/src/utils/wsClient.js:75-88 | below five attempts the counter goes up by one and a timer of 2000 ms times the new count is scheduled; at five nothing happens; the counter never passes five |
| SignalingClient.ReconnectBounded | client/src/utils/wsClient.js:75-88 | however many closes follow, the counter never passes five and is the smaller of the old count plus the closes and five |
| SignalingClient.ReconnectDelaysSpec | client/src/utils/wsClient.js:75-88 | closes in a row schedule at most five minus the count timers, with delays 2000 ms times the new counter each time |
| SignalingClient.HandlersKeepInv | client/src/utils/wsClient.js:22-182 | every handler keeps the client connected only with a socket and the counter at most five |
| SignalingClient.SentSpec | client/src/utils/wsClient.js:93-101 | a message is transmitted at once, the queue untouched, exactly when connected on an open socket, and is otherwise appended to the queue with nothing transmitted; nothing else changes |
| SignalingClient.SentAll | client/src/utils/wsClient.js:93-101 | sending messages one after another changes only the trace and the queue |
| SignalingClient.SentAllQueues | client/src/utils/wsClient.js:93-101 | while disconnected, sends append their messages to the queue in order and transmit nothing |
| SignalingClient.DialSendOpen | client/src/utils/wsClient.js:22-39 | connect(), sends while connecting, then `open`: the queued and the new messages go out in the order they were sent, then the connect handlers run; the client is connected, the counter is 0, the queue is empty and no timer is added |
| SignalingClient.CloseEventStep | client/src/utils/wsClient.js:55-64 | one close event leaves the client disconnected and takes one reconnection step on the counter and the timers |
| SignalingClient.ClosesCount | client/src/utils/wsClient.js:55-88 | k close events in a row keep the invariant, leave the client disconnected and count the attempts as k reconnection steps |
| SignalingClient.ClosesTimers | client/src/utils/wsClient.js:75-88 | k close events in a row append exactly the delays ReconnectDelays gives to the timers |
| SignalingClient.ClosesInARow | client/src/utils/wsClient.js:55-88 | k close events without an open leave the client disconnected with the counter at the smaller of the old count plus k and five, and schedule exactly the ReconnectDelays timers |
| SignalingClient.CloseThenCloseEventReconnects | client/src/utils/wsClient.js:55-64 | after close(), the old socket's close event still runs the disconnect handlers, counts an attempt and schedules a reconnection timer below five attempts |
| SignalingClient.IntendedCloseStaysClosed | client/src/utils/wsClient.js:176-182 | with the close event ignoring a socket the client has let go, a closed client stays closed: no handler runs and no timer is scheduled |
| SignalingClient.WebSocketClient.constructor | client/src/utils/wsClient.js:6-17 | performs NewClient: no socket, disconnected, counter 0, empty queue, no handlers, nothing done |
| SignalingClient.WebSocketClient.Connect | client/src/utils/wsClient.js:22-25 | performs Dialed on all nine fields: a new connecting socket, nothing else changed |
| SignalingClient.WebSocketClient.Send | client/src/utils/wsClient.js:93-101 | performs Sent on all nine fields |
| SignalingClient.WebSocketClient.FlushMessageQueue | client/src/utils/wsClient.js:106-111 | the while loop performs Flushed on all nine fields: the queue goes out in FIFO order and nothing else changes |
| SignalingClient.WebSocketClient.OnOpen | client/src/utils/wsClient.js:27-39 | performs Opened on all nine fields |
| SignalingClient.WebSocketClient.OnClose | client/src/utils/wsClient.js:55-64 | performs CloseEvent on all nine fields, also for the close event of a socket close() has let go |
| SignalingClient.WebSocketClient.AttemptReconnect | client/src/utils/wsClient.js:75-88 | performs Reconnected on all nine fields |
| SignalingClient.WebSocketClient.OnMessage | client/src/utils/wsClient.js:41-48 | performs Received on all nine fields |
| SignalingClient.WebSocketClient.HandleMessage | client/src/utils/wsClient.js:116-122 | performs MessageHandled on all nine fields |
| SignalingClient.WebSocketClient.On | client/src/utils/wsClient.js:127-131 | performs Subscribed on all nine fields |
| SignalingClient.WebSocketClient.Off | client/src/utils/wsClient.js:134-140 | performs Unsubscribed on all nine fields |
| SignalingClient.WebSocketClient.OnConnect | client/src/utils/wsClient.js:146-147 | performs ConnectSubscribed on all nine fields |
| SignalingClient.WebSocketClient.OffConnect | client/src/utils/wsClient.js:150-155 | performs ConnectUnsubscribed on all nine fields |
| SignalingClient.WebSocketClient.OnDisconnect | client/src/utils/wsClient.js:161-162 | performs DisconnectSubscribed on all nine fields |
| SignalingClient.WebSocketClient.OffDisconnect | client/src/utils/wsClient.js:165-170 | performs DisconnectUnsubscribed on all nine fields |
| SignalingClient.WebSocketClient.Close | client/src/utils/wsClient.js:176-182 | performs UserClosed on all nine fields |
| SignalingClient.QueuedThenOpened | client/src/utils/wsClient.js:22-111 | on the object: after connect(), messages sent before the socket opens reach it in the order they were sent, after those already queued and before any connect handler runs; the counter is 0 and nothing stays queued |
| ReceiverHook.JoinSpec | client/src/hooks/useFileReceiver.js:22-28 | with a connection and a room id the hook sends one `join-room` request, and only `disconnected` becomes `connecting`; every other status and field is kept |
| ReceiverHook.ConnectionStateSpec | client/src/hooks/useFileReceiver.js:94-101 | `connected` and `failed` set the status, any other connection state is ignored, and nothing else changes |
| ReceiverHook.MetadataSpec | client/src/hooks/useFileReceiver.js:46-79 | a `metadata` text sets the batch position with the defaults 1 and 0, moves to `receiving`, records the key, and installs a fresh receiver holding that metadata and the channel with no data; received files are kept |
| ReceiverHook.ForwardGuard | client/src/hooks/useFileReceiver.js:86-92 | without a receiver or a key any other payload is dropped; with both, it is handed to the receiver's handleData with the decryptor over that key |
| ReceiverHook.CompletionSpec | client/src/hooks/useFileReceiver.js:59-70 | a delivery is appended to the received files, and the status becomes `complete` exactly for the batch's last file and `waiting-next` otherwise |
| ReceiverHook.AssembledMetadata | client/src/webrtc/fileTransfer.js:311-316 | a delivery always carries the metadata its receiver was given |
| ReceiverHook.CompletionOfBatch | client/src/hooks/useFileReceiver.js:64 | file i of a batch of n is the last exactly when i = n - 1; without an index, exactly when the batch has at most one file; without a total, always |
| ReceiverHook.TogglePauseSpec | client/src/hooks/useFileReceiver.js:171-175 | togglePause does nothing without a receiver and toggles the current receiver otherwise |
| ReceiverHook.ForwardedDelivers | client/src/hooks/useFileReceiver.js:86-92 | a forwarded payload is handled by the receiver, the key is kept, and the received files grow by exactly what the receiver delivered |
| ReceiverHook.ReceiveAllKeepsDelivered | client/src/webrtc/fileTransfer.js:311-316 | a receiver's deliveries only grow |
| ReceiverHook.StreamOfOneFile | client/src/hooks/useFileReceiver.js:40-93 | over a stream without `metadata` the hook's receiver is the receiver fed the whole stream, and the hook appended exactly what it delivered |
| ReceiverHook.ReceivesAnnouncedFile | client/src/hooks/useFileReceiver.js:40-93 | after `metadata`, any stream without another `metadata` whose binary payloads are the file's sealed windows, then `complete`, leaves the original bytes with that metadata as the last received file and settles the status by the completion test |
| ReceiverHook.DataReceivedAllSnoc | client/src/hooks/useFileReceiver.js:40-93 | receiving a stream and then one more payload is receiving the longer stream |
| ReceiverHook.FileReceiverHook.constructor | client/src/hooks/useFileReceiver.js:10-19 | starts `disconnected` with no files, no metadata, a zero batch position, no receiver, no key and no request |
| ReceiverHook.FileReceiverHook.JoinEffect | client/src/hooks/useFileReceiver.js:22-28 | performs Joined on the fields |
| ReceiverHook.FileReceiverHook.OnUserJoined | client/src/hooks/useFileReceiver.js:147-150 | performs UserJoined on the fields: the status becomes `connected` |
| ReceiverHook.FileReceiverHook.OnConnectionState | client/src/hooks/useFileReceiver.js:94-101 | performs ConnectionChanged on the fields |
| ReceiverHook.FileReceiverHook.OnData | client/src/hooks/useFileReceiver.js:40-93 | the data callback performs DataReceived on the fields and the receiver object |
| ReceiverHook.FileReceiverHook.Announce | client/src/hooks/useFileReceiver.js:46-79 | performs Announced, with a new FileReceiver object |
| ReceiverHook.FileReceiverHook.Forward | client/src/hooks/useFileReceiver.js:86-92 | performs Forwarded on the fields and the receiver object |
| ReceiverHook.FileReceiverHook.TogglePause | client/src/hooks/useFileReceiver.js:171-175 | performs ToggledHook on the receiver object and its channel |
| SendingPage.FileStarted | client/src/components/SendPage.jsx:192-219 | the top of the loop for file i leaves a well-formed page: a fresh sender for that file on the page's channel, waiting on the metadata delay |
| SendingPage.Ran | client/src/components/SendPage.jsx:224-243 | wherever a stopped sendFile run of the current file leaves the batch (the next-file delay, the end of the batch, the catch, or still waiting), the page stays well formed |
| SendingPage.SendStarted | client/src/components/SendPage.jsx:221-225 | the end of the 100 ms delay starts sendFile and leaves a well-formed page |
| SendingPage.Continued | client/src/components/SendPage.jsx:225 | a released sendFile runs on to its next wait and the page stays well formed |
| SendingPage.TimerEnded | client/src/components/SendPage.jsx:221-231 | the end of either delay leaves a well-formed page |
| SendingPage.Dispatched | client/src/components/SendPage.jsx:163-173 | handing an event to the current sender leaves a well-formed page |
| SendingPage.PageStep | client/src/components/SendPage.jsx:163-244 | one event and the continuation it released leave a well-formed page |
| SendingPage.Play | client/src/components/SendPage.jsx:176-244 | any sequence of events leaves a well-formed page |
| SendingPage.BatchStarted | client/src/components/SendPage.jsx:176-219 | handleSendFiles up to its first wait leaves a well-formed page |
| SendingPage.FileSelectSpec | client/src/components/SendPage.jsx:128-134 | a non-empty selection is appended after the files already listed, in order; a missing or empty one changes nothing; nothing but the file list changes |
| SendingPage.KeepOthersFrom | client/src/components/SendPage.jsx:137-139 | the filter keeps every position but the removed one, in order |
| SendingPage.RemoveFileSpec | client/src/components/SendPage.jsx:137-139 | removing position i drops exactly that file and keeps the others in order; a position outside the list changes nothing; nothing but the file list changes |
| SendingPage.TogglePauseSpec | client/src/components/SendPage.jsx:163-173 | without a sender nothing happens; with one, the page's flag flips and the sender is resumed when the page showed paused and paused otherwise |
| SendingPage.SendGuardSpec | client/src/components/SendPage.jsx:177-219 | without files or without an open data channel nothing changes; otherwise the page is `transferring`, unpaused, at file 0, the metadata of file 0 is sent and the batch waits on its delay |
| SendingPage.OverallSpec | client/src/components/SendPage.jsx:206-213 | the overall figure for file i of n lies between i/n and (i+1)/n of 100, grows with the bytes sent, reaches (i+1)/n when the file is done, and is exactly 100 at the end of the last file |
| SendingPage.BatchEndSpec | client/src/components/SendPage.jsx:229-243 | a returned last file ends the batch `complete` at 100 with no current sender; a thrown run ends it `failed`; a returned earlier file moves to the 500 ms delay |
| SendingPage.ChannelLossKeeps | client/src/components/SendPage.jsx:216-243 | the channel closing under a waiting batch changes only the channel, the page's and its sender's alike |
| SendingPage.ClosedTimerFails | client/src/components/SendPage.jsx:219-243 | on a closed channel the end of the 500 ms delay (the next metadata) or of the 100 ms delay (sendFile's first send, unless it waits on a pause or the buffer) throws, and the batch ends `failed` |
| SendingPage.ClosedDrainFails | client/src/webrtc/fileTransfer.js:129-145 | on a closed channel the window a drain releases throws, and the batch ends `failed` |
| SendingPage.ChannelLossFailsBatch | client/src/components/SendPage.jsx:216-243 | the channel closing mid-batch closes the page's channel and leaves the batch where it was; then the next file's metadata, the first send after the 100 ms delay, or the window a drain releases throws, and handleSendFiles ends `failed` with no batch running |
| SendingPage.MarksAppend | client/src/components/SendPage.jsx:218-225 | the metadata and complete texts of two streams are those of the first followed by those of the second |
| SendingPage.MarksOfBinaries | client/src/webrtc/fileTransfer.js:145 | binary payloads carry no metadata or complete text |
| SendingPage.SkeletonAppend | client/src/components/SendPage.jsx:218-225 | the delimiters and binaries of two streams, control texts left out, are those of the first followed by those of the second |
| SendingPage.SkeletonOfBinaries | client/src/webrtc/fileTransfer.js:145 | a run of binary payloads is kept whole, in order, when control texts are left out |
| SendingPage.SkeletonOfControl | client/src/webrtc/fileTransfer.js:53 | a control text added to a stream leaves out nothing else and adds nothing |
| SendingPage.SkeletonMarks | client/src/components/SendPage.jsx:218-225 | leaving out the control texts keeps every delimiter, in order |
| SendingPage.SkeletonBinaries | client/src/webrtc/fileTransfer.js:145 | leaving out the control texts keeps every binary payload, in order |
| SendingPage.PumpSkeleton | client/src/webrtc/fileTransfer.js:119-180 | a run of the sendFile loop adds, apart from control texts, exactly the encrypted windows it read and then `complete` when it returns |
| SendingPage.HandleSkeleton | client/src/webrtc/fileTransfer.js:28-77 | pause, resume, peer messages and drains add only control texts |
| SendingPage.WindowPayloadsJoin | client/src/webrtc/fileTransfer.js:119-146 | the windows read up to a window boundary, then the windows read on from it, are the windows read up to the later point, each sealed at its own offset |
| SendingPage.FileLayoutProjections | client/src/components/SendPage.jsx:218-225 | one file on the wire has the two delimiters metadata and `complete`, and its binaries are its sealed windows |
| SendingPage.LayoutMarks | client/src/components/SendPage.jsx:192-233 | the delimiters of files 0 to k - 1 laid out one after another are their announcements |
| SendingPage.LayoutBinaries | client/src/components/SendPage.jsx:192-233 | the binaries of files 0 to k - 1 laid out one after another are their sealed windows, file by file |
| SendingPage.LayoutHoldsFile | client/src/components/SendPage.jsx:192-233 | for j < k, the layout of files 0 to k - 1 starts with files 0 to j - 1 and then file j whole: its metadata, its sealed windows, its `complete` |
| SendingPage.PumpRun | client/src/components/SendPage.jsx:225 | a sendFile run of file i from wherever it waits adds, after the windows sent so far, the next windows it reads (the offset stays on a window boundary) and `complete` when it returns |
| SendingPage.FileStartedKeeps | client/src/components/SendPage.jsx:192-219 | the top of the loop puts the metadata of file i, with its own key and position, right after files 0 to i - 1, and the batch waits on its delay |
| SendingPage.AnnouncedNext | client/src/components/SendPage.jsx:218-225 | the delimiters of files 0 to i are those of files 0 to i - 1, then file i's metadata, then its `complete` |
| SendingPage.FinishedRunSent | client/src/components/SendPage.jsx:225 | a returned sendFile run of file i leaves, control texts aside, files 0 to i on the channel, each as its metadata, its sealed windows and its `complete` |
| SendingPage.RanSpacing | client/src/components/SendPage.jsx:229-232 | a returned run of a file that is not the last moves the batch to the next-file delay with its course intact |
| SendingPage.RanLast | client/src/components/SendPage.jsx:233-237 | a returned run of the last file ends the batch with every file on the channel in index order, each as its metadata, its sealed windows and its `complete`, only control texts in between |
| SendingPage.RanWaiting | client/src/components/SendPage.jsx:225 | a run that is still waiting keeps the batch on its course |
| SendingPage.RanKeeps | client/src/components/SendPage.jsx:224-243 | every way a sendFile run can stop keeps the batch invariant |
| SendingPage.SendStartedKeeps | client/src/components/SendPage.jsx:221-225 | after the 100 ms delay sendFile of file i runs from offset 0 with the batch on its course |
| SendingPage.ContinuedKeeps | client/src/components/SendPage.jsx:225 | a released sendFile continues with the batch on its course |
| SendingPage.SpacingChannel | client/src/components/SendPage.jsx:229-232 | during the delay after file i the channel carries, control texts aside, files 0 to i in order, each as its metadata, its sealed windows and its `complete` |
| SendingPage.NextFileKeeps | client/src/components/SendPage.jsx:229-233 | the end of the 500 ms delay announces file i + 1 with the batch on its course |
| SendingPage.DispatchedKeeps | client/src/components/SendPage.jsx:163-173 | an event reaching the sender adds only control texts and keeps the batch where it waits |
| SendingPage.PageStepKeeps | client/src/components/SendPage.jsx:163-244 | every event keeps the batch invariant |
| SendingPage.PlayKeeps | client/src/components/SendPage.jsx:176-244 | any sequence of events keeps the batch invariant |
| SendingPage.AnnouncedShape | client/src/components/SendPage.jsx:192-233 | the delimiters of k files are 2k texts, file j's metadata at position 2j and its `complete` right after |
| SendingPage.BatchSendsFilesInOrder | client/src/components/SendPage.jsx:176-244 | whatever events follow handleSendFiles, the channel carries, control texts aside, the files in index order, each as its metadata (with its own key and position), then its sealed windows, then its `complete`, and the file being sent as its metadata and its windows so far; at `complete` the overall figure is 100, no sender is left, and exactly every file has gone out this way, so the delimiters are the announcements and the binaries the sealed files |
| SendingPage.SendPage.constructor | client/src/components/SendPage.jsx:15-29 | no files, `disconnected`, file 0, no progress, unpaused, no sender and no batch, over the given channel |
| SendingPage.SendPage.HandleFileSelect | client/src/components/SendPage.jsx:128-134 | performs FilesSelected on the fields |
| SendingPage.SendPage.RemoveFile | client/src/components/SendPage.jsx:137-139 | the filtering loop performs FileRemoved on the fields |
| SendingPage.SendPage.HandleReset | client/src/components/SendPage.jsx:254-261 | performs PageReset: no files, `connected`, no progress, file 0, unpaused |
| SendingPage.SendPage.NextFile | client/src/components/SendPage.jsx:192-219 | a new FileSender on the page's channel and its metadata, performing FileStarted |
| SendingPage.SendPage.HandleSendFiles | client/src/components/SendPage.jsx:176-219 | performs BatchStarted on the fields, the channel and the new sender |
| SendingPage.SendPage.TakeReports | client/src/components/SendPage.jsx:206-213 | takes the latest onProgress report of the last run, performing Reported |
| SendingPage.SendPage.AfterRun | client/src/components/SendPage.jsx:224-243 | performs Ran with the stopped sender's state |
| SendingPage.SendPage.Continue | client/src/components/SendPage.jsx:225 | performs Continued on the page, the sender and the channel |
| SendingPage.SendPage.StartSend | client/src/components/SendPage.jsx:221-225 | performs SendStarted on the page, the sender and the channel |
| SendingPage.SendPage.OnTimer | client/src/components/SendPage.jsx:221-231 | performs PageStep with a timer event |
| SendingPage.SendPage.TogglePause | client/src/components/SendPage.jsx:163-173 | performs PageStep with the toggle |
| SendingPage.SendPage.OnPeerMessage | client/src/webrtc/fileTransfer.js:28-43 | performs PageStep with the peer payload |
| SendingPage.SendPage.OnBufferedAmountLow | client/src/webrtc/fileTransfer.js:129-135 | performs PageStep with the drain event |
| SendingPage.SendPage.OnChannelLost | client/src/components/SendPage.jsx:216-243 | closes the shared channel and performs PageStep with the channel-closing event |

## Left out

- AES-GCM itself: a `Cipher` is a pair of abstract functions, and the round trip and the 16-byte tag are hypotheses (`RoundTrips`, `AppendsTag`) of the lemmas that need them.
- `generateKey`, `exportKey` and `importKey`: a key is its raw exported bytes, so export and import are the identity, and the draws of `generateKey` are a parameter (`keys`).
- The two `await importKey` calls on the receiving page: the import is taken to finish before the next payload is handled.
- Wall-clock time: `now` is a parameter on the server, and the `speed`, `remaining` and percentage fields of progress reports are dropped (they are floating point over elapsed milliseconds). The overall progress of the send page is kept and computed over reals.
- Random draws: room-id characters, socket ids, keys and IVs are all parameters. The IV of a chunk is a function of the offset it was read at, which is distinct for every chunk of one transfer.
- File reads: reading a chunk and encrypting it are taken as one atomic step, and FileReader errors are not modelled.
- The UTF-8 length of JSON texts: a text payload adds nothing to `bufferedAmount`, and only binary chunks count.
- Draining of the data channel: `bufferedAmount` only grows, and `bufferedamountlow` (Sending.BufferLow) is an event that may arrive whenever the loop waits, whatever the amount, and leaves the amount as it is. The browser lowers the amount as data leaves and fires the event only once it falls to `bufferedAmountLowThreshold`, which the source never sets (so 0). This over-approximates the events; the safety properties hold for every arrival, and nothing is claimed about progress.
- JSON parsing and stringifying: messages are datatypes, and a text that does not parse is `None`.
- Sending.FileSender.SendFile: requires that no earlier `sendFile` activation of the same sender is still live. The page never starts a second one.
- Every earlier FileSender keeps its `message` listener on the shared channel. The page model hands peer messages only to the current sender.
- The onProgress and onComplete callbacks are always supplied, as every caller does. Their `if (this.onProgress)` guards are not modelled.
- SignalingClient.WebSocketClient.FlushMessageQueue: requires an open connection. It is only called from `onopen`, and on a closed socket the source loop would not end.
- SignalingClient.WebSocketClient.Off: requires the type to be registered. The closure only exists after `on` created that list.
- SignalingClient.WebSocketClient.OnOpen: requires a current socket. The `open` event of a socket that close() let go while it was connecting is not modelled; the source would then mark the client connected without a socket, and a queued message would make `send` read the ready state of null.
- SignalingClient.WebSocketClient: the client has one socket at a time. An event is taken to come from the current socket, or from the one close() let go; events of a socket that a later connect() replaced are not modelled.
- SignalingClient.WebSocketClient.OnClose: follows the source as written, so after close() it still reconnects (Findings); the intended close event is IntendedCloseEvent.
- What a registered handler does: handlers are identities, and a call is recorded in the client's trace.
- What the server's ws library does on close: OnClose drops the client itself.
- RoomManagement.RoomManager.JoinRoom: performs the corrected join of Findings, not joinRoom as written. When the only member of a room rejoins it, the model keeps the room and membership, where the source deletes the room and leaves `userRooms` pointing at it; JoinAsWrittenLosesRoom states the written behaviour and JoinAsWrittenAgreesElsewhere shows the two agree on every other input.
- Signaling.JoinRoomReplies: the registry after a successful join is the corrected join's, so on the sole-member rejoin of Findings it keeps the room the source deletes.
- Signaling.ReceivePreservesInvariant: holds over the corrected join. With joinRoom as written, a sole member rejoining its own room leaves `userRooms` pointing at a deleted room.
- Signaling.WebSocketHandler.HandleJoinRoom: reaches JoinRoomStep over the corrected join, which differs from the source only on the sole-member rejoin.
- Signaling.WebSocketHandler.HandleMessage: its join-room route is HandleJoinRoom over the corrected join.
- Signaling.WebSocketHandler.OnMessage: its join-room route is HandleJoinRoom over the corrected join.
- RoomManagement.RoomManager.GenerateRoomId: requires that some draw spells a free id. The unbounded do-while retry is a sequence of draws with one free id in it.
- `startCleanupInterval`: the five-minute timer is left to the caller, who calls CleanupExpiredRooms.
- Outside the core: the WebRTC manager (offer, answer, ICE), the page's `initializeWebRTC`, the create-room effect, the room-created and user-joined setters of the send page, and the data channel's open and close callbacks (the channel's closing itself, and what it does to a running batch, is modelled as an event).
- SendingPage.SendPage: the page's data channel is fixed when the page is created, and the manager's channel is not replaced during its life.
- SendingPage.Reported: the branch for a report with a zero total keeps the old figure. It cannot occur, since reports follow a chunk of a non-empty file.
- SendingPage.SendPage.HandleSendFiles: requires that no batch is running. The send button is disabled while one is.
- The 100 ms and 500 ms delays of the batch loop are `TimerFired` events, so any interleaving of events with them is covered.
- `alert` calls, drag-and-drop, the shareable link, copying to the clipboard, and all rendering.

## Findings

| source | as written | input that shows it | evidently intended | confidence | as-written member | corrected member |
|---|---|---|---|---|---|---|
| server/rooms/roomManager.js:66-82 | joinRoom fetches the room object, then leaves the joiner's old room and adds the joiner to the fetched object. When the old room is the target and the joiner is its only member, leaveRoom deletes the room, and the joiner is added to an object no longer in `rooms`. The call reports success while `userRooms` points at a deleted room. | a registry whose only room `ABC123` holds just `s1`, with `userRooms` mapping `s1` to `ABC123`; `s1` joins `ABC123` | a socket rejoining its own room stays in it: skip the leave when the old room is the target | not executed | RoomManagement.JoinAsWrittenLosesRoom | RoomManagement.RejoinSameRoom |
| client/src/utils/wsClient.js:55-64 | close() calls `ws.close()` and drops the socket, but the socket's `onclose` handler stays attached. When the close event arrives it marks the client disconnected, runs the disconnect handlers and calls attemptReconnect, which schedules a new connect(). useWebSocket.js:41-45 calls close() on unmount, so an unmounted client dials the server again. | a client with an open socket and a counter below five; close() is called, then the socket's close event arrives | a client closed by close() stays closed: the close event of a socket it has let go does nothing | not executed | SignalingClient.CloseThenCloseEventReconnects | SignalingClient.IntendedCloseStaysClosed |
