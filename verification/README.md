# A verified model of selftunnel

selftunnel is a reverse tunnel. A server turns each HTTP request for
`/t/{tunnelID}/...` into frames on one WebSocket shared by all requests of that
tunnel; a client behind a firewall rebuilds the request, calls its target and
streams the answer back. This project models the protocol between the two, the
registry that decides who owns a tunnel id, and the client's reconnects, and
proves what they promise.

`dafny verify dfyconfig.toml` checks everything.

## How it is modelled

Concurrency is a step machine: a state, one atomic step for each atomic action of
the source (an atomic add, load or swap, one section under a mutex, one enqueue or
dequeue, the closing of a channel), and `Exec` over any sequence of steps. A step
that is not enabled leaves the state alone, so a statement about every sequence is
a statement about every interleaving. Objects that one goroutine at a time updates
are also classes, whose methods are the calls of the source.

| module | what it holds |
|---|---|
| Proto, Fold | frames, request ids modulo 2^32, the frames of one id; runs of any machine |
| Upload | slicing a body into frames, the client's table of pending requests |
| Relay, Wire, Urls | tunnel paths, header filters and canonical names; what net/http makes of a status; the URL the target is asked for |
| Server, HandlerShape, ServerSafety | one server session: handlers, read loop, writer, closers; its invariant |
| Verdicts | what decides a caller's response over a whole run |
| Mailboxes, SentUploads, Turns | live ids, `pending`, backpressure, teardown; who enqueued what, and handlers that hold one id in turn |
| Client, ClientLimits | the client over any number of connections; its concurrency limit |
| System | session and client joined by two FIFO wires |
| Forwards, EndToEnd, Isolation | where forwards come from and what comes back; the end-to-end theorems |
| Runs, Leftover, CleanEnds, Cancels | runs built from parts: exactly which leftovers break isolation, clean ends of incomplete answers, lost cancels |
| RelayLoop | the frame loops of the relay handler and of `forward`, as methods |
| TunnelSession, TunnelServer | the session's and the server's objects, as classes |
| Handover, Takeovers | the session pointer of each tunnel and the online counter; runs in which it drifts |
| Registry, RegistryStore | memory and two disk cells with crashes; the registry object |
| Sticky, SameId | clients that reconnect, against the registry; the run in which one loses its id |
| Timing, Backoff | the two timeouts of a relay, the reconnect delay |

`Server` leaves the client arbitrary, `Client` leaves both the server and the
target arbitrary, and `System` joins the two. `System.Init(c0)` starts a new
session against a client that has any earlier history, so stale `pending` entries
and running forwards of earlier connections are part of every end-to-end
statement. "Fewer than 2^32 ids" is a premise on the increments of the session's
counter where ids must not repeat. The pacing premise is weaker and allows any
number of wraps: fewer than 2^32 ids are handed out between a handler's choosing an
id and its registering it.

Two facts of the libraries are used: an error's text is not empty (an empty
`error` field means success on the wire), and a generated secret and a hash are
not empty strings.

## Where the code departs from its documentation

The model follows the code. Each departure has a run that shows it and the exact
condition.

- `/healthz` is specified to report the online tunnels; its counter goes up on
  every hello and a replaced session never counts itself down. At rest it is the
  online tunnels plus the takeovers (`Handover.OnlineCountDrift`), and for every n
  there is a run that leaves it n too high (`Takeovers.CounterOffBy`).
- The spec promises the same tunnel id back after a restart; the client stores its
  tunnel id but only ever asks for its custom id. It gets the id back if and only if
  its custom id is that id and its secret fits (`Sticky.SameIdIffCustom`,
  `Registry.ReturnedIffAsked`), and a client without a custom id loses its id at the
  next connection (`SameId.WithoutCustomIdLost`).
- A forward that outlives its connection answers with an id that the new session
  hands out again. Isolation holds on all runs exactly when every leftover is past
  its last send, bound to id 0, or about to send an error in the very words the
  server refuses with, which those of the Go libraries are not; from any other
  leftover a run is built in which a caller is shown a status, a body byte, a clean
  end or an error text that is not its own (`Leftover.IsolationIffHarmless`). For what
  is relayed alone a leftover that only has the end of a failed answer to send does no
  harm either (`Leftover.RelayedIffTame`).
- The spec promises that the path arrives unchanged. The client pastes the decoded
  path into a URL that is parsed again: the target is asked for the caller's own path
  and query if and only if the path has no '?', '#', '%' or control character and the
  query no '#' or control character (`Urls.AskedOwnIff`, `Urls.AnswererAsksOwnIff`),
  and a caller that escapes a '?' is answered for another URL
  (`Urls.EscapedQuestionMark`).
- After the status is out, a dropped session and a `response_end` with an error end
  the caller's body like a success. A drop can strike after any pieces, with or
  without more to come (`CleanEnds.DropLooksClean`); a failed answer ends like a
  finished one (`CleanEnds.ErrorEndLooksComplete`), and so does one that a leftover's
  end cuts off (`CleanEnds.ErrorEndLooksClean`). Of the handlers that took a
  `response_end`, exactly those that took one without an error have given their
  callers complete answers (`Isolation.CompleteIffCleanEnd`).
- A cancel frame that overtakes `forward` is lost (`Cancels.CancelLost` is the run): a
  cancel takes effect if and only if the forward has registered in `active` and not
  yet cleaned up (`Cancels.CancelledIffListed`).
- A failing `Register` leaves its new entry behind. It can be "reused" with the
  empty secret, be lost in a crash and be granted to somebody else
  (`Registry.ErrorEntryChangesHands`). An entry lasts if and only if it is in the
  file (`Registry.LastsIffOnDisk`, `Sticky.KeptIffSaved`).

## Model

| member | source | states |
|---|---|---|
| `Isolation.EndToEndIsolation` | internal/server/relay.go:59-205 | In every run of a connection whose leftovers are tame, with any interleaving of requests, cancels, teardown and timeouts: a caller has seen nothing, a 502 or 504 in one of the server's own texts, or an initial part of the answer that a forward started on this connection got for exactly its own request (method, split path, query, filtered headers and body), all of it when its handler ended on a response_end without an error; or else a 502 with the error of a failed answer left over under the same id. A request the client could not make is an empty 502. Without any leftover sender that last case does not happen and every handler that consumed a frame has such a forward. |
| `Urls.AskedOwnIff` | internal/client/client.go:566-578 | For any base path, path and query: the URL built from them asks for exactly that path under the base and that query if and only if the whole path has no '?', '#', '%' or control character and the query no '#' or control character. |
| `Urls.AnswererAsksOwnIff` | internal/client/client.go:566-578 | The forward that answers a caller asks the target for the caller's own decoded path and query under that same condition, and for something else, or nothing, otherwise. |
| `Urls.SameAsAnother` | internal/client/client.go:571-574 | A path with a '?' in it asks for what the part before it with the part after it as the query asks for. |
| `Urls.EscapedQuestionMark` | internal/server/relay.go:209-219 | For every plain path and query, a run in which a caller that escapes the '?' between them is relayed the answer of a forward that asks the target for the path alone with the rest as the query. |
| `Isolation.CleanEndIsComplete` | internal/server/relay.go:181-185 | With tame leftovers, a handler that relayed a status and took a response_end without an error has given its caller the whole body of its own target, read to end of file. |
| `Isolation.CompleteIffCleanEnd` | internal/client/client.go:627-636 | With no leftover sender, a handler that relayed a status and took a response_end has given its caller the whole body, read to end of file, if and only if that response_end has no error. |
| `Leftover.IsolationIffHarmless` | internal/client/client.go:125-129 | After any earlier history of the client, that isolation, refusal texts included, holds on all runs of the new connection if and only if each leftover forward is past its last send, bound to id 0, or about to send an error that is one of the server's own texts. |
| `Leftover.RelayedIffTame` | internal/client/client.go:540-646 | Leaving refusals aside: no caller is ever relayed a status, a body byte or a clean end that is not its own if and only if each leftover is past its last send, bound to id 0, or about to send only the end of a failed answer. |
| `Leftover.ErrorTells` | internal/server/relay.go:123-135 | From a leftover about to send the end of a failed answer, a run in which a caller of the new connection is refused with that error's text. |
| `Leftover.StartMixes` | internal/client/client.go:540-606 | From a leftover that the client alone can bring to its response_start, a run in which a caller of the new connection is relayed that status while no forward has its request. |
| `Leftover.MiddleMixes` | internal/client/client.go:608-636 | From a leftover in the middle of its body, or at its clean end, a run in which a caller whose own answer has begun is given the leftover's chunk or its clean end. |
| `Leftover.FreeSlot` | internal/client/client.go:540-554 | Whatever the eight slot holders are at, some schedule of the client alone frees a slot and leaves a given forward untouched. |
| `Forwards.UploadsAllOrNothing` | internal/client/client.go:470-532 | On a paced session, however often ids wrap and whatever an earlier connection left behind: every forward of this connection was started by a frame of one handler, carries that handler's whole request, which had its request_end if there is a body, and no frame of that handler started another forward. |
| `Isolation.FewAddsPacedMoves` | internal/server/tunnel.go:236-260 | A session that hands out fewer than 2^32 ids is paced, so what is proved of paced sessions holds of every such run. |
| `Forwards.BrokenUploadNeverForwarded` | internal/server/relay.go:106-112 | On a paced session, no frame of a handler whose body upload did not get as far as its request_end ever starts a forward. |
| `Forwards.StartedBy` | internal/client/client.go:514-532 | The frame that starts a forward is the one that completes its author's request: without it the author's frames forward nothing, with it exactly the whole request. |
| `Turns.TurnsReachable` | internal/server/tunnel.go:236-260 | On a paced session, whoever is followed on the queue by another author of its id has returned, and an id's frames of one author are next to each other; of two handlers registered under one id at once, which takes a drained session, one can send nothing. |
| `SentUploads.SignedReachable` | internal/server/relay.go:87-112 | On every schedule each request frame on the queue carries its author's id, and the frames of each handler are its request_start, its chunks numbered from 0, its request_end and its cancel, in that order and as far as it got. |
| `Isolation.DispatchedNotPending` | internal/client/client.go:514-522 | Within one connection no request is both pending and dispatched. |
| `Isolation.NothingLostEndToEnd` | internal/server/tunnel.go:279-290 | On a paced session and against any client: while a mailbox is open, frames consumed, frames in the channel, the frame blocked in routeResponse and frames still on the wire are together exactly what the client sent for the id since the handler registered, in order, and afterwards the first three are an initial part of it; below 2^32 ids and without leftover senders nothing was sent for the id before. |
| `Isolation.PrefixShows` | internal/client/client.go:592-646 | Any initial part of what a forward sent, rendered by a relay handler, shows an initial part of the target's body under the target's own status and filtered headers, or an empty 502 if the target did not answer. |
| `EndToEnd.DispatchedFor` | internal/client/client.go:514-532 | On one connection the client dispatches nothing for an id, or the whole request of the one handler that holds it, once, and then the id is no longer pending. |
| `EndToEnd.ForwardIdsDistinct` | internal/client/client.go:470-532 | Two forwards of one connection never share an id. |
| `EndToEnd.ComposedHolds` | internal/server/tunnel.go:279-290 | In every reachable state of a connection with tame leftovers: since its handler registered, the frames sent for an id are those of its one forward, up to the end of a failed answer that a leftover bound to this id had to send; an id without a forward has brought back at most such ends; without leftover senders both are exact and nothing came before the handler registered; and forwards end only after they have started. |
| `System.PlumbingHolds` | internal/client/client.go:392-465 | Both wires stay FIFO with nothing invented, duplicated or reordered, the client's table is the fold of what it received, and both machines keep their invariants in the composition. |
| `ServerSafety.StepAlways` | internal/server/tunnel.go:236-319 | Every step of handlers, read loop, writer and closers keeps the session's invariant, from any state that has it. |
| `ServerSafety.CloseOnce` | internal/server/tunnel.go:299-311 | No mailbox's done and no session's done is ever closed twice, under any number of concurrent close and unregister calls. |
| `ServerSafety.RelayTraces` | internal/server/relay.go:59-205 | Whatever the client sends: a handler writes a status exactly once, first, and before it returns; a cut is the last thing written; 504 only after the whole request was sent and with no frame consumed; no hop-by-hop name goes either way and every other request header goes unchanged. |
| `Wire.OneFinalStatus` | internal/server/relay.go:243-256 | What net/http makes of it: a returned handler has given its caller one final status exactly when the status it relays, if any, is within 100 to 999 and no cut came right after an informational one, and none otherwise. |
| `Verdicts.ResponseDecided` | internal/server/relay.go:99-203 | On every schedule the response of a handler that has left is: 504 exactly when its wait for a first frame ended by its context, relayTimeout or the caller's leaving; what its consumed frames account for, cut short exactly when streamIdleTimeout struck later and the connection could be hijacked; 502 when it left without a frame for any other reason, with the text "tunnel unreachable", "failed to stream request body" or "tunnel offline" by how far its upload got. |
| `Verdicts.DecidedIffStruck` | internal/server/relay.go:148-198 | At every point of a run a handler is on its way to a 504 or a cut if and only if it took that branch at one of its selects earlier in the run. |
| `ServerSafety.GoneNotPending` | internal/server/tunnel.go:264-271 | A handler that has returned is not pending. |
| `HandlerShape.MoveShape` | internal/server/relay.go:99-203 | Every step of a handler keeps its record in shape: the pieces sent are a prefix of the body, request_end follows only the whole body, a verdict fits what was sent and consumed, and what was written is what the consumed frames account for plus that verdict. |
| `HandlerShape.TakeShape` | internal/server/relay.go:161-188 | The same for taking a frame from the mailbox, in either stage. |
| `HandlerShape.AcceptedShape` | internal/server/relay.go:99-112 | The same for a frame the session accepted. |
| `HandlerShape.ShapeWellFormed` | internal/server/relay.go:122-203 | A handler in shape has written a well-formed response so far, and a non-empty one once it leaves. |
| `HandlerShape.RenderOpen` | internal/server/relay.go:160-188 | Whatever frames follow a response_start, what they make the handler write is one relayed status without stripped names, then body bytes only. |
| `CleanEnds.DropLooksClean` | internal/server/relay.go:190-192 | For every request without a body, all pieces delivered so far and whatever the target has besides, with or without its end, a run that ends in a session drop: the handler has returned, the caller has the status, exactly those pieces and no cut. |
| `CleanEnds.ErrorEndLooksClean` | internal/server/relay.go:181-185 | A response_end with an error, left over from a failed answer of an earlier connection, ends a caller's response in the same way while its own answer is still going on. |
| `CleanEnds.ErrorEndLooksComplete` | internal/client/client.go:627-636 | For every answer, piece by piece, the run in which the target ends it with the last piece and the run in which it fails there show the caller the same response; only the forward knows. |
| `Proto.TicksDistinct` | internal/server/tunnel.go:236-246 | Ids of increments less than 2^32 apart are distinct across the wrap. |
| `Mailboxes.PendingIffOpen` | internal/server/tunnel.go:251-271 | A registered mailbox is in pending under its own id exactly while its done is open. |
| `Mailboxes.NeverOverwrites` | internal/server/tunnel.go:251-260 | RegisterPending never overwrites a live mailbox, if fewer than 2^32 ids are handed out between choosing and registering. |
| `Mailboxes.NothingLost` | internal/server/tunnel.go:279-290 | While a mailbox is open, consumed, buffered (at most 16) and blocked frames are exactly those of its id read since it registered, in order; afterwards still a prefix. |
| `Mailboxes.NobodyLeftWaiting` | internal/server/tunnel.go:215-231 | Once close has drained pending, every handler past sending request_start has its done closed and can leave its select, and a handler that registered late has its send refused by the closed flag. |
| `Mailboxes.StepOpen` | internal/server/tunnel.go:236-319 | Every step keeps "open means pending" and "the id about to be registered is free", on paced schedules. |
| `Mailboxes.StepHears` | internal/server/tunnel.go:279-290 | Every step keeps each mailbox's account of the frames read for it. |
| `Mailboxes.StepDrain` | internal/server/tunnel.go:299-311 | Every step keeps that, after the drain, an open registered mailbox belongs to a handler whose request_start is not yet past the closed check. |
| `SentUploads.SentReachable` | internal/server/relay.go:87-112 | With fewer than 2^32 ids, the frames enqueued for an id are exactly the upload of the one handler that holds it, and nothing was enqueued for an id nobody holds. |
| `SentUploads.IdsDistinct` | internal/server/tunnel.go:236-246 | Two handlers of such a session never hold the same id. |
| `SentUploads.AcceptedFrames` | internal/server/relay.go:99-112 | Each accepted send extends its own request's frames by exactly that frame. |
| `Upload.StreamBody` | internal/server/relay.go:262-289 | The loop sends each non-empty read as one chunk numbered from 0 and request_end only after end of file; it succeeds exactly when the reads reach end of file and the session takes every frame; otherwise it has sent exactly the chunks up to the refusal or the failing read. |
| `Upload.SendPieces` | internal/server/relay.go:262-288 | The read loop itself, with the number of chunks sent and whether the reads ended well. |
| `Upload.PiecesContent` | internal/server/relay.go:262-289 | The pieces sent are, joined, the bytes the reads returned, empty reads and data next to the end included. |
| `Upload.PiecesBounded` | internal/server/relay.go:263-270 | Every chunk is non-empty and at most 256 KiB. |
| `Upload.RequestTable.HandleRequestStart` | internal/client/client.go:470-481 | A request_start replaces any entry of its id and, without a body, is dispatched at once: the new table is the specified step of the old. |
| `Upload.RequestTable.HandleRequestChunk` | internal/client/client.go:485-497 | A chunk is stored under its number; unknown ids and undecodable payloads change nothing. |
| `Upload.RequestTable.HandleRequestEnd` | internal/client/client.go:501-509 | A request_end dispatches a pending request and ignores an unknown id. |
| `Upload.RequestTable.DropPending` | internal/client/client.go:651-654 | A cancel drops the body under assembly. |
| `Upload.RequestTable.DispatchRequest` | internal/client/client.go:514-532 | The entry leaves the table and its chunks 0..n-1 are joined in order into the forwarded body. |
| `Upload.Locality` | internal/client/client.go:470-509 | However frames of other requests interleave, an id's entry and dispatches are those of its own frames alone. |
| `Upload.UploadForwarded` | internal/client/client.go:470-532 | From any stale entry: after any initial part of a handler's frames, the client has forwarded exactly the whole request if all of it arrived, and nothing otherwise; a forwarded request is no longer pending. |
| `Upload.SliceReassemble` | internal/client/client.go:485-532 | Slicing and reassembly is the identity on the body, for every way the reads split it, every stale table and every interleaving with other requests. |
| `Relay.SplitRouted` | internal/server/relay.go:209-219 | The id and the path a caller puts into the URL come out unchanged, and a bare tunnel URL means "/". |
| `Relay.IndexOf` | internal/server/relay.go:211-212 | The split is at the first slash. |
| `Relay.FilterHeaders` | internal/server/relay.go:229-238 | The result has every header but the eight hop-by-hop names in any spelling, values unchanged. |
| `Relay.WriteResponseHeaders` | internal/server/relay.go:243-256 | Every header with a value but the hop-by-hop names and Content-Length is added once, all values in order, under its canonical name and in some order of the map walk; status 0 becomes 502. |
| `Relay.AddedNotStripped` | internal/server/relay.go:247-253 | However spellings merge under their canonical names, no hop-by-hop name and no Content-Length gets to the caller. |
| `Relay.CanonicalUnchanged` | internal/server/relay.go:247-253 | Headers in canonical spelling, as net/http has them, get to the caller as they are, whatever the order of the walk. |
| `Relay.AddValues` | internal/server/relay.go:250-252 | The inner loop adds all values of one name in order. |
| `RelayLoop.RelayFrames` | internal/server/relay.go:122-188 | The handler takes frames up to and including the first that ends the response, writes exactly what they render to, and ends exactly when one of them ends the response. |
| `RelayLoop.StreamFrames` | internal/server/relay.go:160-188 | The stage two loop, from any open beginning. |
| `RelayLoop.SendAnswer` | internal/client/client.go:604-636 | What forward sends is the response_start, one chunk per non-empty read numbered from 0 and a response_end that carries the read error if any, cut where the connection refuses a frame. |
| `RelayLoop.SendChunks` | internal/client/client.go:608-635 | The body loop of it. |
| `Client.MoveFaithful` | internal/client/client.go:592-646 | Each step of a forward keeps: it has sent a response of the protocol whose body is what it read from the target, ends it without an error only at end of file, and reports a failure as an empty 502. |
| `Client.FaithfulReachable` | internal/client/client.go:540-646 | Every forward of every reachable client state, over all its connections, is faithful. |
| `Client.StepKeepsRequests` | internal/client/client.go:540-554 | Nothing but a received frame changes the pending table or the request a forward carries. |
| `ClientLimits.ConcurrencyBound` | internal/client/client.go:540-554 | At most 8 forwards hold a slot, a forward holds one exactly between acquiring and releasing, every active entry belongs to a slot holder with that id, and at most 8 are active, over all connections. |
| `ClientLimits.StepLimits` | internal/client/client.go:540-554 | Every client step keeps it. |
| `ClientLimits.CancelReaches` | internal/client/client.go:651-663 | In any client state, a cancel frame cancels the forward that `active` names for its id and no other, drops the pending and active entries and changes nothing else of any forward. |
| `Cancels.CancelledIffListed` | internal/client/client.go:541-554 | Below 2^32 ids, for a forward whose id no earlier forward still before its clean-up has: a cancel takes effect if and only if the forward has registered in `active` and not cleaned up, and `active` names it if and only if, besides, it was not cancelled yet. |
| `Cancels.CancelLost` | internal/client/client.go:521-549 | For every request without a body, a run in which its handler gives up, answers 504 and sends a cancel that the client reads while the forward waits for a slot, and the forward asks the target all the same. |
| `Cancels.StepExact` | internal/client/client.go:546-554 | Every client step keeps that account of `active` for an id that at most one forward of the connection has. |
| `ClientLimits.EarlyCancelLost` | internal/client/client.go:541-549 | In every reachable state a cancel does nothing to a forward that was dispatched but has not registered in `active`. |
| `TunnelSession.Pigeonhole` | internal/server/tunnel.go:236-246 | Fewer than 2^32 taken ids cannot cover more consecutive increments than their number, across the wrap. |
| `TunnelSession.Session.NextReqID` | internal/server/tunnel.go:236-246 | The loop ends within the number of pending entries plus one increments, at the first free id after the counter. |
| `TunnelSession.Session.RegisterPending` | internal/server/tunnel.go:251-260 | A new, open, empty mailbox under the id and no other change. |
| `TunnelSession.Session.UnregisterPending` | internal/server/tunnel.go:264-271 | The mailbox is closed and removed; an unknown id changes nothing; no channel content changes. |
| `TunnelSession.Session.RouteResponse` | internal/server/tunnel.go:279-290 | A frame is dropped exactly when its id is unknown, blocks exactly when 16 are waiting, and is otherwise appended to its own mailbox only. |
| `TunnelSession.Session.Close` | internal/server/tunnel.go:299-311 | The first call closes done and every pending mailbox and empties pending; a later call changes nothing. |
| `TunnelServer.Server.Close` | internal/server/tunnel.go:299-319 | Only the first close of a session acts on the tunnel, and it clears the pointer and counts down exactly when the pointer holds that session. |
| `TunnelServer.Server.HandleHello` | internal/server/server.go:107-118 | The new session is current and open, the previous one is closed, and the counter is one higher whether or not a session was replaced. |
| `Handover.LastConnectWins` | internal/server/server.go:113-118 | Over any interleaving of hellos and closes a tunnel's pointer is nil or the session most recently swapped in for that tunnel, never one whose close got past the compare-and-swap. |
| `Handover.ClosedNeverCurrent` | internal/server/tunnel.go:299-319 | A session whose close completed is not current in any later state. |
| `Handover.OnlyOwnCloseRemoves` | internal/server/tunnel.go:313-318 | A tunnel's pointer changes only by a swap-in or by the close of the very session it holds. |
| `Handover.BalancedReachable` | internal/server/server.go:113-118 | In every reachable state the counter is the online tunnels plus the takeovers so far, corrected by the hellos and closes between their two updates. |
| `Handover.OnlineCountDrift` | internal/server/tunnel.go:313-318 | With none of those in progress the counter is online tunnels plus takeovers, hence right exactly when there was no takeover. |
| `Takeovers.CounterOffBy` | internal/server/server.go:113-118 | For every n, a run of n takeovers at rest with one tunnel online and the counter at n + 1. |
| `Registry.OwnershipSurvives` | internal/server/registry.go:118-168 | Over every history of registrations, target updates, saves, failures, crashes at any step and restarts, a granted id is on disk, and in memory while the server is up, with the hash of the secret it was granted with. |
| `Registry.GrantsKept` | internal/server/registry.go:189-244 | Later steps never take a success back. |
| `Registry.AllocatedOnceReturnedToOwner` | internal/server/registry.go:189-244 | In a whole history an id is freshly granted at most once and afterwards returned as reused only to a secret with the granted hash. |
| `Registry.GrantedIdDecision` | internal/server/registry.go:202-229 | For a granted id the hash alone decides: its owner gets it back as reused with nothing else changed, anybody else is denied and gets a different free id, or an error. |
| `Registry.ReturnedIffAsked` | internal/server/registry.go:193-230 | In every reachable state and for every granted id: Register returns it if and only if it is the id asked for and the secret hashes like the granted one, and a fresh id is never it. |
| `Registry.LastsIffOnDisk` | internal/server/registry.go:149-168 | Between two calls, an entry keeps its hash through every later history if and only if the file already has it with that hash. |
| `Registry.FixedForever` | internal/server/registry.go:149-168 | Once an id's hash is on disk, in memory and in every snapshot under way, no history changes it. |
| `Registry.AgreesReachable` | internal/server/registry.go:118-168 | Whatever is in the file, or in a snapshot on its way there, is in memory with the same hash, after any history. |
| `Registry.ErrorEntryChangesHands` | internal/server/registry.go:211-240 | A concrete history: a failed registration leaves an entry, the empty secret reuses it, a crash loses it and somebody else is granted it. |
| `Registry.StepOK` | internal/server/registry.go:118-244 | Every step, a crash included, keeps the registry's invariant over memory, both files and the history of successes. |
| `Registry.FirstFree` | internal/server/registry.go:219-230 | A drawn id is the first of those generated that is not in use, and there is none exactly when all of them are in use. |
| `RegistryStore.GenerateID` | internal/server/registry.go:291-301 | Eight random bytes become a well-formed id, each character the byte modulo 36 into the alphabet. |
| `RegistryStore.Store.Register` | internal/server/registry.go:189-244 | The call leaves the state its steps lead to without a crash, and returns exactly the success that run records, or an error. |
| `RegistryStore.Store.Allocate` | internal/server/registry.go:231-244 | The allocation part: entry, secret hash and save, with success exactly when the secret and the save succeed. |
| `RegistryStore.Store.Choose` | internal/server/registry.go:193-230 | The first part: the id a registration comes to, old or new, is the one its step in the machine comes to. |
| `RegistryStore.Store.DrawID` | internal/server/registry.go:219-230 | The retry loop yields the first drawn id that is free, or fails with the random source. |
| `RegistryStore.Store.SaveLocked` | internal/server/registry.go:149-168 | A save goes through the temporary file and either replaces the real file by the whole registry or leaves it as it was. |
| `RegistryStore.Store.Save` | internal/server/registry.go:172-176 | The same as a run of the step machine. |
| `RegistryStore.Store.Load` | internal/server/registry.go:118-145 | A missing file is a fresh start, a torn one an error, and the well-formed records of a whole one are loaded. |
| `RegistryStore.Store.LoadRecords` | internal/server/registry.go:134-143 | The loop adds exactly the records whose id is well formed. |
| `RegistryStore.Store.SetTarget` | internal/server/registry.go:256-268 | A known tunnel gets its target in memory and one save is attempted; an unknown one changes nothing. |
| `Sticky.CustomIdSticky` | internal/client/client.go:311-376 | Once a client has read an ack for its present custom id, whatever other clients do and wherever the server crashes: if the ack granted the id or returned it after a grant, the hash of its stored secret is the registry's for that id in every later state, on disk and in memory; and for any ack, between two registry calls, its secret opens the id in every later state if and only if the file has the id with a hash it matches. |
| `Sticky.KeptIffSaved` | internal/server/registry.go:91-96 | For any id and secret, ack or not: between two registry calls, the secret opens the id in every later state, over crashes and other clients' hellos, if and only if the file has the id with a hash it matches. |
| `Sticky.SameIdIffCustom` | internal/client/client.go:314-376 | A hello of a client whose last tunnel id had been granted is answered with that id if and only if its custom id is that id and its secret hashes like the registry's, and a registration started instead is for another id. |
| `SameId.WithoutCustomIdLost` | internal/client/client.go:314-330 | For any two ids and secrets, the run in which a client without a custom id is granted the first, reconnects and is granted the second, while the first stays registered to nobody else. |
| `Sticky.EachLaterHelloReused` | internal/server/registry.go:202-218 | Each later hello of that client can only be waiting or answered with its own id, reused and not denied, and is answered so when served. |
| `Sticky.HoldsUntilChanged` | internal/client/client.go:276-280 | No event but setting the client's own custom id ends this or changes its stored secret. |
| `Sticky.EventOK` | internal/server/server.go:107-132 | Every hello, ack, registry step, crash and restart keeps the invariant that ties acks in flight and stored secrets to the registry. |
| `Timing.TimeoutsAreEarned` | internal/server/relay.go:116-198 | With the caller connected, a 504 needs relayTimeout since the upload finished and no frame; an idle cut needs streamIdleTimeout since the last consumed frame, at every timing of ticks, frames and slow writes. |
| `Timing.TimeReachable` | internal/server/relay.go:157-169 | The Stop, drain, Reset sequence leaves no stale tick in any reachable state. |
| `Timing.LivelyNeverCut` | internal/server/relay.go:154-169 | A stream that is never silent for the idle limit at the select is never cut. |
| `Timing.NoTotalCap` | internal/server/relay.go:154-157 | For every n there is a stream of n further frames, each just inside the limit, that is still open. |
| `Backoff.ReconnectLoop.SleepBackoff` | internal/client/client.go:700-717 | A call of Reconnect since the last sleep skips this wait and leaves the base; otherwise the base becomes min(2^k s, 60 s) for the k-th wait since the last connect, the delay is within a fifth of it and never above 72 s, and the random range is positive. |
| `Backoff.ReconnectLoop.ConnectSucceeds` | internal/client/client.go:193-197 | A successful connect starts the count again. |
| `Backoff.SkipsAreAsked` | internal/client/client.go:224-227 | Each call of Reconnect skips at most one wait, and one that is still pending has skipped none. |
| `Backoff.DoubleClosedForm` | internal/client/client.go:705-705 | Doubling up to the cap steps the closed form from k to k + 1, within 1 s and 60 s. |
| `Backoff.CapReached` | internal/client/client.go:705-705 | From the sixth wait on the base is 60 s. |

## Left out

- Leftover.IsolationIffHarmless: is about sessions below 2^32 ids; after a wrap two requests of one connection can share an id while a forward of the first still runs.
- Registry.OwnershipSurvives: ownership is stated for fresh grants; for any other entry Registry.LastsIffOnDisk gives the exact condition.
- Registry.GrantedIdDecision: that the retry loop of Register ends is not claimed, since it needs fairness of the random source; the ids it draws are any sequence.
- Sticky.EachLaterHelloReused: is about ids that had been granted, since an entry left by a failed registration can be reused and then lost; Sticky.CustomIdSticky has the exact condition for the rest.
- ServerSafety.RelayTraces: counts what the handler writes; Wire.OneFinalStatus says what becomes of it, but a handler that panics in WriteHeader goes on taking frames here.
- Relay.WriteResponseHeaders: in the machine a relayed status carries the names as they were added; that they are merged by canonical name is stated of the method only.
- Relay.FilterHeaders: nothing is claimed of names listed in Connection (section 7.6.1 of RFC 9110), which the code passes on.
- TunnelServer.Server.HandleHello: hello_ack is queued after the session becomes current, so a relay handler can queue a request_start before it and the client then rejects the connection; the order of the first frames is not modelled.
- Mailboxes.NobodyLeftWaiting: says that a waiting handler can leave, not that the scheduler lets it.
- Timing.TimeoutsAreEarned: the handler's clock runs on its own and is not tied to the frames of System, where a timeout may happen at any time.
- Handover.LastConnectWins: the rest of close, signalling done and draining pending, is in Server, and the two machines are not composed.
- Power loss: a crash is that of the process; the rename is atomic and durable, and fsync is not part of the code.
- Malformed JSON in the registry file beyond "does not parse", createdAt, and file permissions.
- Base64 is a pair of inverse functions with a possible "does not decode"; SHA-256 is any function without empty results.
- JSON encoding of frames, the 4 MB message limit, and non-UTF-8 text.
- Answers before an id is taken: 404 for an unknown or malformed tunnel id and 502 for an offline one.
- Urls.AskedOwnIff: what follows the target's host; the host itself, a non-UTF-8 path, which JSON alters, and redirects are not modelled, and the client machine lets any request be answered or fail.
- The Host header becoming req.Host.
- Lower-casing outside ASCII, apart from the two letters whose lower case is ASCII.
- A cancelled request context makes the target call or a read fail; the model lets them fail at any time and does not force them to.
- A write that fails on the client's connection fails for good until it reconnects, and what a failed write carried is not delivered.
- Ping, pong, stats and set_target frames carry no request and are one kind of frame; the request counters are not modelled.
- Deadlines, pings and writeLoop's promptness: a session may be closed at any time.
- Sockets, TLS, the WebSocket upgrade, origin checks, logging, graphical front ends, power management, ngrok and build scripts.
