# The signalling client of UbuntuWebrtcDemo, modelled and proved in Dafny

The program is a WebRTC conference client that talks to a Janus server over one web socket. This project
models the part of it that decides: which messages it sends, when, with whose handle, and what it does
with the ones it receives; and two kernels it depends on, the JSON conversions and the I420 frame layout.

## How it is built

| module | what it holds |
|---|---|
| `Watchdog` | the two timers of the socket, the ack table, and time, as a timed transition system |
| `Signalling` | the state of the room manager and its peers as a value, and what each operation does to it |
| `Conference` | the stream maps, the window table and the candidate queues as a value |
| `Client` | manager and conference together: one step for each server message, local WebRTC signal and user command; the assumptions about the environment |
| `Agreement`, `Subscriptions`, `Continuations`, `Roles`, `Candidates` | what holds over every run of `Client` |
| `Rolls`, `Requests`, `Ledgers`, `Streams`, `Descriptions` | what a run does, told from its events alone: a fold over the events says which peers there are, which session, room, role and handle each message carries, and what each stream is handed and says |
| `Deviations` | runs from the start in which an assumption fails, and what comes of them |
| `JanusClient` | the program's classes, fields and loops as they are, each method proved to do what the value model says |
| `WebrtcInterface` | the objects as one program: every method is one event, recorded, so that what holds over runs holds of the fields |
| `JsonTools`, `Messages`, `MessageForms` | the conversions, what the handlers read from a message, and the messages written out member by member |
| `WireDouble` | the cast of 64-bit ids to double before they are printed |
| `I420` | packing a frame, copying it to the renderer, reading it back as textures |

The classes of `JanusClient` change their fields in place. Each method states its effect as
`State() == F(old(State()))`, where `F` is a function of `Signalling`, `Conference` or `Client`;
`JanusVideoRoomManager.onWebSocketReceivedMessage` is proved to be `Client.OnMessage` of the decoded message
for manager and conference together, with new peers and the transactions it drew. `WebRTCInterface` records the
events: its `Valid()` says that the recorded events, every one properly supplied, lead `Client` from its initial
state to the state of the objects, and `Watchdog` from its initial state to theirs. Each of its methods keeps
that and adds its event, so a theorem about runs is a theorem about the fields: the lemmas at the end of the
class state several of them that way.

## What is assumed about the environment

The assumptions come in three steps, and each result makes only the step it needs.

1. `Client.Supplied`: new objects have addresses not in use, and random transactions are not in use when they
   are drawn. The methods of `WebRTCInterface` prove the part about addresses. The results about subscriptions,
   publishers, peers alive, callbacks, sessions, windows and waiting peers need no more, and those about a single stream less.
2. `Client.Orderly`: besides, the server answers each attach with a handle id no peer has and no message has
   named, and the user does not leave while a listed peer waits for its attach reply. The results about peers,
   roles and the ledger of requests need this.
3. `Client.Plausible`: besides, session descriptions come from handles of listed peers. The agreement of streams
   and peers and the results about candidates and local descriptions need this; `Agreement.SdpAgreesExactly` shows that this is
    exactly what the agreement needs of them, and `Deviations.WithdrawnPeerOpensAStream` an orderly run without it.

Further:

- Timers are exact: an active `QTimer` fires at its due time, repeats with its interval, and is restarted
  before its slot runs.
- A handle id that has not arrived is "none" (the program leaves it uninitialised).
- In the value model a callback of a deleted peer does nothing. In the program it would use a deleted object, so
  where a run may leave during a pending attach, what is proved is about the lists and the tables only.
- Camera and decoder frames have tight strides; OpenGL reads texture rows at its default alignment of 4.
- The texts the libraries print that are not integers are parameters (`JsonTools.Library`); `strtol` and
  `strtoul` follow section 7.22.1.4 of ISO C11 with a 64-bit `long`, and `atoll` saturates outside 64 bits.

## What the code does where its names suggest something else

The model follows the code:

- `SendCandidate` searches the video peers only, so candidates of a text stream are dropped when its queue is
  drained (JanusVideoRoomManager.cpp:514-524); `Candidates.EveryCandidateIsSent` is exact about it.
- `private_id` is read at the top level of a message, not in its plugin data (JanusVideoRoomManager.cpp:296).
- An unpublished peer stays alive and its pending attach still completes: it is off the list, and then joins
  (JanusVideoRoomManager.cpp:377-384).
- `strtoul` accepts a minus sign: a string between -2^64 + 1 and -2^64 + 2^32 - 1 is read as a small unsigned
  number (JsonTools.cpp:85-91); `JsonTools.ParsePrintedUInt` gives the exact set.
- The renderer hands OpenGL rows packed without padding, but padded rows are what OpenGL reads: a frame is shown
  as it is exactly in the sizes of `I420.Aligned` (VideoRender.cpp:209-227).
- Opening the socket restarts the ping timer and leaves the timeout timer running (JanusWebSocket.cpp:45-57),
  and nothing calls `Close` before the next login (JanusVideoRoomManager.cpp:72-75 has no caller). A connection
  acked within d is therefore safe exactly when 25000 + d < 60000 and a timer left running is due after the first
  answer of the new connection (`Watchdog.TimeoutIsSafeExactly`); two logins in a row can defeat every d,
  with every keepalive answered at once (`Watchdog.ReopeningDefeatsEveryBound`).
- A second "joined" for a shown stream replaces it by one without a window while the table still names it, and
  setting windows frees them without telling the streams shown; `Agreement.StepAgreesExactly` shows that nothing
  else parts a stream from its window. The login button sets the windows each time (MainWindow.cpp:57-68), so a
  second click can put two streams in one window (`Deviations.SecondLoginSharesAWindow`).
- The renderer never checks the size of a frame: its buffer holds exactly the frames of at most 1920 * 1280
  samples (`I420.FitsExactly`), and copying a larger one writes past its end (VideoRender.cpp:79-84).

## Model

| member | source | states |
|---|---|---|
| Watchdog.TimersStayOk | JanusWebSocket.cpp:45-79 | over any run an active timer carries its configured interval and is never overdue, and an ack callback is pending only once the timeout timer has been configured |
| Watchdog.RestartIsConfigured | JanusWebSocket.cpp:75-79 | in every reachable state the argument-less restart of a matched ack arms the timeout timer for the full 60000 ms |
| Watchdog.KeepalivesConserved | JanusVideoRoomManager.cpp:205-216 | over any run, pending before plus sent equals answered plus still pending, transaction by transaction |
| Watchdog.AckTableSize | JanusVideoRoomManager.cpp:263-272 | the size of the ack table is keepalives sent minus keepalives answered |
| Watchdog.OpeningKeepsTheTimer | JanusWebSocket.cpp:45-66 | from every reachable state opening gives a connection the safety result speaks of, stale callbacks included, with the timeout timer as it was; only a close first is sure to stop it |
| Watchdog.PromptAcksKeepTheConnection | JanusWebSocket.cpp:129-156 | while every keepalive is answered within d < 35000 ms, in any order and with duplicates, the timeout timer never fires, as long as it was due more than d after the next keepalive or an unanswered one to begin with |
| Watchdog.LateAcksLoseTheConnection | JanusWebSocket.cpp:146-156 | from every opened connection outside the condition below some run with all acks within d times out |
| Watchdog.TimeoutIsSafeExactly | JanusWebSocket.h:76-77 | from any opened connection, reopened ones included, no run acked within d times out if and only if 25000 + d < 60000 and a timeout timer still running is due after now + 25000 + d |
| Watchdog.ReopeningDefeatsEveryBound | JanusWebSocket.cpp:45-57 | for every d a reachable reopened connection, acked within d, is closed by the timer of an earlier one |
| Watchdog.SilenceIsDetected | JanusWebSocket.cpp:129-156 | after 60000 ms without an ack when the timeout timer is active, 25000 + 60000 ms otherwise, the socket is no longer connected |
| Watchdog.WatchdogStopsItself | JanusWebSocket.cpp:146-156 | when nothing else touches the socket, at every moment either it is still connected with its ping timer running, or it is closing with both timers stopped |
| Watchdog.SilenceClosesAndStops | JanusWebSocket.cpp:146-152 | past the bound of SilenceIsDetected the socket is closing and both timers are stopped |
| Watchdog.TimeDiverges | JanusWebSocket.cpp:16-17 | every reachable state has a silent run to any later time, so the bounds speak of existing runs |
| Watchdog.DownStopsTheTimer | JanusWebSocket.cpp:141-143 | while the socket is unconnected or closing and its ping timer runs, the timeout timer is stopped within one ping interval, over any silent run |
| Watchdog.SafeAfterAPause | JanusWebSocket.cpp:129-144 | hence a login after a pause of more than one ping interval is safe exactly for acks within d < 35000 ms, whatever an earlier connection left running |
| Watchdog.CloseIsQuiet | JanusWebSocket.cpp:59-66 | after a close, until the next opening, no timer fires and no keepalive is sent, and an unconnected socket stays so |
| Watchdog.NothingSentBeforeUp | JanusWebSocket.cpp:131-138 | until the socket reports its connection no keepalive is sent |
| Agreement.SuccessKeepsPeers | JanusVideoRoomManager.cpp:252-261 | a success reply with a new handle keeps the peer invariant and turns at most "no handle" entries into handles |
| Agreement.SuccessLists | JanusVideoRoomManager.cpp:252-261 | a success reply with any handle changes no list and no subscribe id |
| Agreement.PublishersLists | JanusVideoRoomManager.cpp:294-319 | an announcement appends one handle-less subscriber per positive id, in order, and touches no text peer |
| Agreement.PublishersKeepPeers | JanusVideoRoomManager.cpp:294-319 | an announcement keeps the peer invariant |
| Agreement.UnpublishLists | JanusVideoRoomManager.cpp:365-387 | an unpublish removes the first subscriber of that id, nobody for 0 or an unknown id, and keeps the order of the rest |
| Agreement.HandlesAreDistinct | JanusVideoRoomManager.cpp:500-505 | two positions of the video list never show the same handle |
| Agreement.VideoAndTextHandlesDiffer | JanusVideoRoomManager.cpp:507-512 | the handle of a listed video peer is no listed text peer's |
| Agreement.RunKeepsPeers | JanusVideoRoomManager.cpp:441-466 | over every orderly run, wherever descriptions come from, peers are in one list each, handles are distinct and a join is pending at most once and only for a peer without a handle |
| Agreement.SdpAgreesExactly | ConferenceManager.cpp:237-272 | a session description in any message that carries one keeps every stream the handle of a listed peer if and only if it is empty or its sender is one |
| Agreement.RunKeepsOk | ConferenceManager.cpp:86-110 | every step keeps the peers distinct and consistent and the key of every stream the handle of a listed peer |
| Agreement.EveryStreamHasOnePeer | JanusVideoRoomManager.cpp:498-524 | in every reachable state a mapped video stream is the handle of exactly one listed video peer and of no text peer |
| Agreement.LocalSdpIsSentOnce | ConferenceManager.cpp:177-203 | a local description of a mapped stream leads to exactly one message, from the listed peer with that handle |
| Agreement.LocalTextSdpIsSentOnce | ConferenceManager.cpp:191-201 | the same for a text stream, from the listed text peer with that handle |
| Agreement.RunKeepsWindows | ConferenceManager.cpp:66-73 | over any run, whatever the server does, each window owner is a video stream that owns one window, and window ids change only when windows are set |
| Agreement.StepAgreesExactly | ConferenceManager.cpp:136-159 | a step keeps every stream shown in the window the table assigns it if and only if it is not a "joined" for a shown stream nor a setting of windows while one is shown |
| Agreement.RunAgrees | ConferenceManager.cpp:146-154 | over any run without such a step each stream is shown where the table says, and nowhere when it says nothing |
| Agreement.NoWindowIsShared | ConferenceManager.cpp:146-154 | over any such run with different windows no two streams are ever shown in the same one |
| Deviations.WithdrawnPeerOpensAStream | JanusVideoRoomManager.cpp:377-384 | a reachable state with a stream of no listed peer: withdrawn before its attach reply, attached, then heard from |
| Deviations.WindowsSetAgain | MainWindow.cpp:57-68 | from any state with two listed handles and one window: a stream is shown, the windows are set again, and the next stream is shown in the same window |
| Deviations.SecondLoginSharesAWindow | MainWindow.cpp:57-68 | a plausible run from the start that ends with two streams in the only window |
| Conference.ReassignAt | ConferenceManager.cpp:283-290 | a window loop changes the owner of the first matching window and of no other, and never a window id |
| Conference.RemoveFreesItsWindow | ConferenceManager.cpp:274-300 | freeing the first match alone leaves no window naming the removed stream |
| Conference.ConnectTakesFirstFree | ConferenceManager.cpp:136-159 | a shown stream takes the first free window and only it; without a free window nothing is assigned |
| Conference.ConnectAgreesExactly | JanusVideoRoomManager.cpp:328-334 | connecting without showing keeps streams and table in agreement if and only if the handle owns no window |
| Conference.SetWindowsAgreesExactly | ConferenceManager.cpp:66-73 | streams and table agree after new windows if and only if no stream was shown |
| Subscriptions.RunFeeds | JanusVideoRoomManager.cpp:309-318 | after any run the list of subscribe ids, in order, is a fold over the events alone |
| Subscriptions.RefinesMultiset | JanusVideoRoomManager.cpp:376-386 | the fold on lists refines the fold on multisets: one more per announced id above 0, one fewer per unpublished id if present |
| Subscriptions.RunSubscriptions | JanusVideoRoomManager.cpp:294-319 | after any run from the start the nonzero subscribe ids of the peer list are the multiset the received messages add up to |
| Subscriptions.UnpublishKeepsPublishers | JanusVideoRoomManager.cpp:365-387 | an unpublish takes out at most one peer, one with that nonzero subscribe id, and our own publishers stay in order |
| Subscriptions.RunPublishers | JanusVideoRoomManager.cpp:441-466 | over any run our own publishers are those joined since the last leave, in order, whatever the server unpublishes |
| Continuations.SuccessConserves | JanusVideoRoomManager.cpp:252-261 | pending before plus registered equals run plus pending after, for a success reply |
| Continuations.CallbacksConserved | JanusVideoRoomManager.cpp:77-85 | over any run the callbacks pending and registered are exactly those run and those still pending, transaction by transaction |
| Continuations.EachCallbackRunsOnce | JanusVideoRoomManager.cpp:252-261 | when no transaction is drawn twice every callback runs at most once, only if registered, and is then gone |
| Continuations.RepliesAreIdempotent | JanusVideoRoomManager.cpp:252-261 | a duplicate or unknown success reply leaves the whole state as it was |
| Continuations.MatchedReplyLowersTotal | JanusPeerConnection.cpp:237-283 | a matched success lowers the total rank by exactly one, although its callback may register another; only a peer with a request to send need be alive |
| Continuations.QuiescenceAfterExactly | JanusPeerConnection.cpp:332-398 | matched replies never outnumber the total rank, and the table is empty after them if and only if they are that many |
| Continuations.EveryStateReachesQuiescence | JanusPeerConnection.cpp:332-398 | the same in every reachable state, and there are matched replies that empty the table |
| Continuations.QuiescentPeersHaveHandles | JanusVideoRoomManager.cpp:441-449 | in any reachable state without pending callbacks every listed video peer has its handle |
| Roles.SuccessKeepsRoles | JanusPeerConnection.cpp:237-243 | a success reply keeps the log consistent: the join it sends is the first of its handle, and the peer keeps the room and role it joined with |
| Roles.RunKeepsRoles | JanusPeerConnection.cpp:564-594 | over any run the log stays consistent and every peer with a handle has the room and role its handle joined with |
| Roles.RolesOverARun | JanusPeerConnection.cpp:285-313 | every "configure" follows a publisher join of its handle, every "start" a subscriber join of its handle in the same room, every trickle a join of its handle and every text acknowledgement a setup, all in the session of that join; no handle sends both "configure" and "start", none joins or is set up twice |
| Rolls.PeersOverARun | JanusVideoRoomManager.cpp:441-466 | over any supplied run from the start the listed video peers with their subscribe ids, the text peers with their rooms, the request peer and the peers alive are those on a roll of the events: only leaving deletes peers, and only listed video peers |
| Requests.SubscribeAllSends | JanusVideoRoomManager.cpp:309-318 | subscribing sends exactly one attach for each new peer, in order, in the current session |
| Requests.SessionsOverARun | JanusVideoRoomManager.cpp:218-243 | over any supplied run from the start the session id is the id of the last reply to a create request not answered before, 0 before any, and the creates, keepalives and attaches sent are those the events call for, each with the session of its moment |
| Ledgers.JoinReplyAsks | JanusPeerConnection.cpp:237-259 | an attach reply leads to the one join or setup its request was for, under the replied handle |
| Ledgers.RequestReplyAsks | JanusPeerConnection.cpp:245-275 | the same for creating and destroying a room, in the room asked for last |
| Ledgers.RequestsOverARun | JanusVideoRoomManager.cpp:294-319 | over any orderly run from the start the messages other than descriptions and candidates are those a ledger of the events predicts: a publisher joins the room and under the name of its join, a subscriber the room joined last before its announcement, with the announced id and the private id of the announcing message, each in the session of its moment |
| Streams.StreamsThere | ConferenceManager.cpp:86-97 | exactly which video and text streams there are after an event |
| Streams.JoinedOpens | JanusVideoRoomManager.cpp:321-339 | a "joined" of a listed peer opens its stream anew: no window, no descriptions, asked for an offer |
| Streams.StepOpens | ConferenceManager.cpp:237-272 | a stream that a description opens is handed exactly that description and asked for no offer |
| Streams.VideoStreamOverARun | ConferenceManager.cpp:257-271 | over any run it survives a video stream is handed exactly the nonempty descriptions received from its handle, type and text, in order, remembers the last one it made, and keeps its window |
| Streams.TextStreamOverARun | ConferenceManager.cpp:239-255 | the same for a text stream |
| Streams.WindowsOverARun | ConferenceManager.cpp:66-73 | over any run the local window and the remote ones are those set last, in their order |
| Descriptions.EveryDescriptionIsSent | ConferenceManager.cpp:177-203 | over any plausible run the descriptions sent under a handle are those its streams made, type and text, in order |
| Descriptions.RunSendsEveryDescription | JanusPeerConnection.cpp:564-618 | the same from the start |
| Candidates.DrainTrickles | ConferenceManager.cpp:125-133 | draining a queue sends it in order if a listed video peer has the handle, drops it otherwise, and leaves the trickles of other handles alone |
| Candidates.CandidatesConserved | ConferenceManager.cpp:205-219 | whatever the send flag, over any run a stream survives, sent then queued equals sent and queued before then gathered, in order |
| Candidates.EveryCandidateIsSent | ConferenceManager.cpp:99-110 | over any run every queue is empty after every event and the trickles of a handle are exactly what its video stream gathered |
| Candidates.RunSendsEveryCandidate | ConferenceManager.cpp:302-305 | from the start, one trickle for each candidate gathered, at its position: "completed" for the end marker, the candidate itself otherwise |
| WireDouble.CastIsNearest | JanusVideoRoomManager.cpp:211 | the cast gives a double and no double is nearer |
| WireDouble.CastIsMonotone | JanusPeerConnection.cpp:290-294 | the cast never reverses two ids |
| WireDouble.CastIsExact | JanusPeerConnection.cpp:290-306 | the cast changes nothing if and only if the id has at most 53 significant bits, hence never up to 2^53 |
| WireDouble.TiesToEven | JanusPeerConnection.cpp:290-294 | when a second double is as near to an id, the cast is the one with the even significand |
| WireDouble.DistinctUpTo53Bits | JanusPeerConnection.cpp:305-306 | distinct ids bounded by b stay distinct if and only if b is at most 2^53 |
| WireDouble.RolesOnTheWire | JanusPeerConnection.cpp:568-581 | with handle ids within 2^53, what RolesOverARun says, of the handles as written to the wire |
| JsonTools.JsonArrayToVector | JsonTools.cpp:136-155 | true if and only if the value is an array whose elements all convert; the vector is always the conversions of the longest convertible prefix |
| JsonTools.VectorToJsonArray | JsonTools.cpp:190-199 | the array holds each element wrapped, in order |
| JsonTools.ConversionsAre | JsonTools.cpp:146-152 | the longest convertible prefix is determined by stopping at the first failure |
| JsonTools.IntTexts | JsonTools.cpp:65-73 | a string is read as int n if and only if n is an int and the text up to its first NUL is white space, an optional sign and digits that mean n |
| JsonTools.UIntTexts | JsonTools.cpp:85-92 | the same for unsigned, where the digits must fit 64 bits and the signed number counts modulo 2^64 |
| JsonTools.PlaceValue | JsonTools.cpp:69 | digits mean a number in decimal notation, those on the left weighing more |
| JsonTools.LeadingNumber | JsonTools.cpp:316 | an id is the number its text begins with, whatever follows, cut to 64 bits |
| JsonTools.NulEnds | JsonTools.cpp:66-71 | nothing behind a NUL is read |
| JsonTools.RealsAreTruncated | JsonTools.cpp:57-63 | a real is read as an int or unsigned if and only if it is in range, rounded towards zero |
| JsonTools.ScalarsAreRead | JsonTools.cpp:57-94 | integers are read as themselves in range and not at all outside; true is 1, false and null are 0; arrays and objects are no numbers |
| JsonTools.StringsKeepTheNumber | JsonTools.cpp:38-94 | a boolean or integer turned into a string and read back is what it is itself read as, as int and as unsigned |
| JsonTools.StringsAreRead | JsonTools.cpp:38-55 | a string is read as itself, and only null, arrays and objects are no strings |
| JsonTools.ScanPrinted | JsonTools.cpp:14-28 | a printed integer is scanned as itself with nothing left over |
| JsonTools.ParsePrintedInt | JsonTools.cpp:57-75 | a printed integer is read as int if and only if it is within INT_MIN and INT_MAX, and as itself |
| JsonTools.ParsePrintedUInt | JsonTools.cpp:77-94 | exactly which printed integers are read as unsigned, and as what, negative ones included |
| JsonTools.IntVectorRoundTrip | JsonTools.cpp:136-207 | int vector to JSON, to strings, to JSON, to ints is the identity |
| JsonTools.UIntVectorRoundTrip | JsonTools.cpp:136-215 | the same for unsigned vectors |
| JsonTools.IdExtraction | JsonTools.cpp:311-318 | an id is the integer of any int64 member and 0 for a missing, null, boolean, string, array or object member |
| MessageForms.SuccessIsRead | JanusVideoRoomManager.cpp:177-181 | a success message with a transaction and the id in its "data", written out with its members and any others, is read as just that |
| MessageForms.AckIsRead | JanusVideoRoomManager.cpp:182-183 | the same for an ack |
| MessageForms.JoinedIsRead | JanusVideoRoomManager.cpp:294-334 | the same for "joined" in the data of the plugin data: sender, private id, publisher ids in order |
| MessageForms.AttachedIsRead | JanusVideoRoomManager.cpp:341-358 | the same for "attached": sender and the type and text of its jsep |
| MessageForms.EventIsRead | JanusVideoRoomManager.cpp:365-394 | the same for "event", with the unpublished id |
| MessageForms.TextIsRead | JanusVideoRoomManager.cpp:195-199 | the same for a text room event of any name, if no "videoroom" member is there |
| MessageForms.BareEventsAreRead | JsonTools.cpp:259-268 | what is read for the members that are missing |
| MessageForms.OthersAreIgnored | JanusVideoRoomManager.cpp:167-203 | text that is not JSON, JSON that is no object, and any other "janus" value lead to nothing |
| MessageForms.OtherEventsAreIgnored | JanusVideoRoomManager.cpp:191-200 | nor do an event with another "videoroom" value and one of neither room |
| Messages.MissingIdsDoNothing | JanusVideoRoomManager.cpp:309-312 | a room event without usable ids and without a description subscribes to nobody, removes nobody and leaves the conference alone |
| I420.LayoutAgrees | WebrtcVideoFrame.cpp:35-42 | for every frame the renderer has room for: planes disjoint and inside the buffer, chroma copies inside the source, reader's V offset equal to the writer's, tight chroma inside the bytes written, no int overflow |
| I420.FitsExactly | VideoRender.cpp:31 | the copied bytes fit the renderer's buffer if and only if the frame has at most 1920 * 1280 samples |
| I420.PackedAt | WebrtcVideoFrame.cpp:40-42 | which source byte each packed byte is |
| I420.AlignedTexel | VideoRender.cpp:209-227 | in an aligned size each texel is read from inside the packed bytes and is the sample it stands for |
| I420.ShownExactlyWhenAligned | VideoRender.cpp:209-227 | for every width and height, all frames of that size are shown as they are if and only if the size is aligned |
| I420.SplitIsSlices | VcmCapture.cpp:153-169 | the planes the camera thread passes on are three consecutive slices of its buffer |
| I420.PackAndSplitAreInverse | VcmCapture.cpp:40-47 | for even sizes splitting then packing, and packing then splitting, are the identity |
| I420.PaintsTheFrame | VideoRender.cpp:79-84 | after OnFrame the renderer's texels are the frame's samples, in an aligned size |
| I420.Pack | WebrtcVideoFrame.cpp:35-42 | the three copies leave the packed frame in a new buffer of the size allocated |
| I420.OnFrame | WebrtcVideoFrame.cpp:20-52 | the renderer gets the size, the packed bytes and the flag, and keeps the rest of its buffer; without a widget nothing happens |
| I420.SendFrame | VcmCapture.cpp:63-74 | one camera round puts the camera's bytes into the renderer |
| I420.VideoRender.SetYUVData | VideoRender.cpp:79-84 | the first w*h*3/2 bytes are replaced, the rest kept |
| JanusClient.JanusWebSocket.onPingTimer | JanusWebSocket.cpp:129-144 | the watchdog's ping step on socket, timers and ack table together, and one keepalive sent if connected |
| JanusClient.JanusWebSocket.onPingTimeout | JanusWebSocket.cpp:146-156 | the watchdog's timeout step on socket, timers and ack table together |
| JanusClient.JanusPeerConnection.AttachVideoRoom | JanusPeerConnection.cpp:45-65 | an attach is sent, the room stored, and the join callback registered under the same transaction |
| JanusClient.JanusPeerConnection.RequestRoom | JanusPeerConnection.cpp:130-190 | the same for creating and destroying a video room, with the callback of that request |
| JanusClient.JanusPeerConnection.onAttachVideoRoomJoin | JanusPeerConnection.cpp:237-243 | the handle is stored and the join for it sent |
| JanusClient.JanusPeerConnection.joinVideoRoom | JanusPeerConnection.cpp:285-313 | one join, as publisher or subscriber by the subscribe id |
| JanusClient.JanusPeerConnection.onAttachRoomRequest | JanusPeerConnection.cpp:332-398 | the handle is stored, the request sent, and a second callback registered |
| JanusClient.JanusPeerConnection.SendSDP | JanusPeerConnection.cpp:564-594 | "configure" for a publisher, "start" with its room for a subscriber |
| JanusClient.JanusPeerConnection.SendCandidate | JanusPeerConnection.cpp:620-648 | the candidate, or "completed" for the end marker |
| JanusClient.JanusVideoRoomManager.onWebSocketHeartBeatMessage | JanusVideoRoomManager.cpp:205-216 | one keepalive sent and its ack callback registered under its transaction |
| JanusClient.JanusVideoRoomManager.onMessageSuccess | JanusVideoRoomManager.cpp:252-261 | the value model's success step: the callback is erased before it runs |
| JanusClient.JanusVideoRoomManager.onMessageAck | JanusVideoRoomManager.cpp:263-272 | the watchdog's ack step, and no change to the signalling state |
| JanusClient.JanusVideoRoomManager.onVideoRoomEventPublisher | JanusVideoRoomManager.cpp:294-319 | the loop subscribes once to every announced id above 0, in order, with new peers |
| JanusClient.JanusVideoRoomManager.onVideoRoomEventJoin | JanusVideoRoomManager.cpp:321-339 | announcements first, then the stream of the sender if a listed peer has that handle |
| JanusClient.JanusVideoRoomManager.onVideoRoomEventSdp | JanusVideoRoomManager.cpp:341-358 | a nonempty description reaches the conference, an empty one changes nothing |
| JanusClient.JanusVideoRoomManager.onVideoRoomEventUnpublish | JanusVideoRoomManager.cpp:365-387 | the conference loses the stream and the list the peer of the first match, both or neither |
| JanusClient.JanusVideoRoomManager.onVideoRoomEventEvent | JanusVideoRoomManager.cpp:389-394 | description, announcements and unpublish, in this order, on manager and conference |
| JanusClient.JanusVideoRoomManager.onWebSocketReceivedMessage | JanusVideoRoomManager.cpp:167-203 | for every text, JSON or not, manager and conference become what the value model's message step says, with new, different peers and the transactions in the order drawn, and the watchdog changes only by an ack |
| JanusClient.JanusVideoRoomManager.CreateVideoRoom | JanusVideoRoomManager.cpp:87-103 | the shared request peer is created, new, on first use only, and attaches under the given transaction |
| JanusClient.JanusVideoRoomManager.DestoryVideoRoom | JanusVideoRoomManager.cpp:122-137 | the same for destroying |
| JanusClient.JanusVideoRoomManager.JoinVideoRoom | JanusVideoRoomManager.cpp:441-449 | one new publisher listed last and attached |
| JanusClient.JanusVideoRoomManager.JoinTextRoom | JanusVideoRoomManager.cpp:451-457 | one new text peer listed last and attached |
| JanusClient.JanusVideoRoomManager.LeaveVideoRoom | JanusVideoRoomManager.cpp:459-466 | the loop deletes exactly the listed video peers |
| JanusClient.JanusVideoRoomManager.SendSDP | JanusVideoRoomManager.cpp:498-513 | the first video peer and the first text peer with the handle send, nobody else |
| JanusClient.JanusVideoRoomManager.SendCandidate | JanusVideoRoomManager.cpp:514-524 | the first video peer with the handle sends, nobody else |
| JanusClient.ConferenceManager.SetVideoWindows | ConferenceManager.cpp:66-73 | the table becomes the given windows, all free |
| JanusClient.ConferenceManager.LeaveVideoRoom | ConferenceManager.cpp:86-97 | every window freed and every video stream gone, text streams kept |
| JanusClient.ConferenceManager.sendICEs | ConferenceManager.cpp:125-133 | the queue is drained oldest first and left empty |
| JanusClient.ConferenceManager.ConnectToPeer_VideoAudio | ConferenceManager.cpp:136-159 | a new stream with its flags, the first free window if shown, an offer if connecting |
| JanusClient.ConferenceManager.onLocalSDP | ConferenceManager.cpp:177-203 | stored in the stream, and sent once per map that has the stream and may send |
| JanusClient.ConferenceManager.onLocalIceCandidate | ConferenceManager.cpp:205-235 | queued, and the queue drained if the stream may send |
| JanusClient.ConferenceManager.onRetmoeSDP | ConferenceManager.cpp:237-272 | the description reaches the stream, which is created and given a window if unknown |
| JanusClient.ConferenceManager.onRemoteStreamRemove | ConferenceManager.cpp:274-300 | the streams of the handle and its window are released |
| WebrtcInterface.WebRTCInterface.onWsMessage | JanusVideoRoomManager.cpp:167-203 | every message is one properly supplied event of the recorded run of the client, and an ack one of the watchdog |
| WebrtcInterface.WebRTCInterface.pingTimerFires | JanusWebSocket.cpp:129-144 | a ping is one event of the watchdog, and one of the client if connected |
| WebrtcInterface.WebRTCInterface.timeoutTimerFires | JanusWebSocket.cpp:146-156 | a timeout is one event of the watchdog |
| WebrtcInterface.WebRTCInterface.onWebSocketConnected | JanusVideoRoomManager.cpp:156-160 | a connection is one event of each |
| WebrtcInterface.WebRTCInterface.Login | WebrtcInterface.cpp:13-16 | a login reopens the socket whatever its state, as one event of the watchdog |
| WebrtcInterface.WebRTCInterface.JoinVideoRoom | WebrtcInterface.cpp:23-26 | a join is one properly supplied event under the given transaction |
| WebrtcInterface.WebRTCInterface.LeaveVideoRoom | WebrtcInterface.cpp:28-32 | conference and manager leave together, as one event |
| WebrtcInterface.WebRTCInterface.CreateVideoRoom | WebrtcInterface.cpp:34-37 | a room request is one properly supplied event, the first and every later one |
| WebrtcInterface.WebRTCInterface.JoinDataChannelRoom | WebrtcInterface.cpp:44-48 | a text join is one properly supplied event |
| WebrtcInterface.WebRTCInterface.SubscriptionsAreTheMessages | JanusVideoRoomManager.cpp:294-319 | the nonzero subscribe ids in the listed peer objects are what the messages received so far add up to |
| WebrtcInterface.WebRTCInterface.QuiescentPeersHaveHandles | JanusVideoRoomManager.cpp:252-261 | with an empty callback table every listed video peer object has its handle |
| WebrtcInterface.WebRTCInterface.EveryStreamHasOnePeer | JanusVideoRoomManager.cpp:498-524 | after a plausible run each key of the stream map is the handle of exactly one listed peer object |
| WebrtcInterface.WebRTCInterface.RolesOnTheSocket | JanusPeerConnection.cpp:564-594 | after an orderly run the messages on the socket keep to their roles |
| WebrtcInterface.WebRTCInterface.CandidatesOnTheSocket | ConferenceManager.cpp:205-219 | after a plausible run the trickle messages of a handle on the socket are what its video stream gathered |
| WebrtcInterface.WebRTCInterface.SessionIsTheLastReply | JanusVideoRoomManager.cpp:232-243 | the session id field is that of the last create request answered, and each create, keepalive and attach on the socket carries the session of its moment |
| WebrtcInterface.WebRTCInterface.PeersAreOnTheRoll | JanusVideoRoomManager.cpp:441-466 | the listed peer objects, and those alive, are the ones on the roll of the events |
| WebrtcInterface.WebRTCInterface.RequestsOnTheSocket | JanusVideoRoomManager.cpp:309-318 | after an orderly run the requests on the socket are those the ledger of the events predicts |
| WebrtcInterface.WebRTCInterface.DescriptionsOnTheSocket | ConferenceManager.cpp:177-203 | after a plausible run the descriptions sent under a handle are those its streams made |
| WebrtcInterface.WebRTCInterface.WindowsAreThoseSetLast | ConferenceManager.cpp:66-73 | the window fields are those set last, in their order |
| WebrtcInterface.WebRTCInterface.KeepalivesAreCounted | JanusVideoRoomManager.cpp:205-216 | the ack table object holds as many entries as keepalives sent and not answered, and while it holds one the timeout timer is configured |

## Left out

- JanusClient.JanusVideoRoomManager.LeaveVideoRoom: requires that no callback is pending for a listed peer, because the code deletes the peers and keeps their callbacks (JanusVideoRoomManager.cpp:459-466); running one would use a deleted object.
- WebrtcInterface.WebRTCInterface.LeaveVideoRoom: the same requirement.
- JsonTools.IdExtraction: says nothing about members printed as reals, whose text is the library's.
- I420.PackAndSplitAreInverse: for even sizes only; for odd ones the chroma planes the camera thread passes on overlap or run past its buffer.
- I420.SplitIsSlices: for even sizes only, for the same reason.
- I420.SendFrame: for even sizes only, and frames within the renderer's buffer.
- I420.OnFrame: frames within the renderer's buffer; the code copies larger ones past its end.
- I420.VideoRender.SetYUVData: the same requirement.
- Candidates.CandidatesConserved: speaks of a stream between its creation and its removal or replacement; the other two candidate results cover those too.
- WebrtcInterface.WebRTCInterface.JoinDataChannelRoom: does not store the text room id and display name for the data-channel messages, which are not modelled.
- Text rooms beyond attach, setup and descriptions: CreateTextRoom and DestoryTextRoom, which register a video-room callback and use a second request peer, LeaveTextRoom, which nothing calls, and the data-channel messages.
- What the create and destroy replies print, and that a successful destroy reports a successful creation (JanusPeerConnection.cpp:492-493): their callbacks change no state.
- The random transactions of messages no callback waits for.
- LocalStream_DataChannels, the last data-channel stream created, and the local and text display names that no message carries.
- GetBoolFromJson and GetDoubleFromJson, printing of doubles, and the value an out-parameter keeps or gets when a conversion fails.
- QTimer, QWebSocket, the JSON parser and writer, PeerConnection, ICE and SDP: their implementations are not part of this model.
- Socket errors and server-side disconnection reach the watchdog as a state change only; the registered error callback does nothing to this state.
- Threads, the renderer's mutex, reference counts, and objects used after their deletion.
- Rotation of frames, OpenGL calls other than the offsets and sizes they are given, widgets and windows.
- Destructors, logout and the singleton accessors: they only release what the rest builds.
