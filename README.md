# Audio client node: a Dafny model of its protocol engine

This project models the protocol engine of the audio client in a simulated drone overlay
network (Rusteze-AP client-audio). The client talks to its neighbours over source-routed
packets. It does the following:

- floods the network to discover it;
- answers flood requests;
- splits its own messages into fragments and sends them to a media server along a path
  chosen by a routing oracle;
- keeps a delivery ledger (`packets_history`) of every packet it sent until that packet is
  acknowledged, and retransmits a packet when a drone sends back a negative
  acknowledgement (nack);
- acknowledges each fragment that reaches it, reassembles the fragments, and acts on the
  message they form: a song chunk for a waiting HTTP request, or the server's file list;
- stores song metadata and song segments in a local key-value store;
- serves segments and the catalogue over HTTP.

The model has two layers.

- **A value layer.** `State.Engine` is the client's state as a value. It holds the fields of
  `ClientState` (`State.Node`), the delivery ledger, and a log of everything the engine hands
  to the outside world:
  - packets given to neighbours' channels (`wire`);
  - events given to the simulation controller (`controller`);
  - calls made to the routing oracle (`routingHandler`);
  - notifications sent to waiting HTTP requests (`wakeups`).

  Everything the outside world answers comes from an `Env` parameter, one uninterpreted
  answer per consultation, indexed by a consultation counter `tick`. This covers whether a
  channel or the controller takes a send, the oracle's best path, the codec's session ids,
  disassembly and assembly, and whether a store write succeeds. Each handler is therefore
  a function of `(env, engine)`, and any behaviour of the environment is some `Env`. One
  module per source file holds these functions and the lemmas about them.
- **An object layer.** `Client.ClientState` is the record the handlers update in place,
  with one method per handler. `Database.AudioDatabase` is the store object. Each method's
  postcondition ties the record's new state to the value-layer function applied to its old
  state, so every lemma about the functions holds of the record. `ClientState.Valid()`
  carries the engine invariant `State.Invariant`:
  - the store is well filed;
  - every ledger entry has a destination and sits under its own key;
  - no server is known twice;
  - every waiter told that its chunk arrived finds it cached.

The types of the simulator's shared crate (wg_internal) and of the codec crate
(packet_forge) are modelled in `Wire` and `Forge` by the behaviour the engine relies on.
Their source is not part of this model.

The model keeps these behaviours of the code as written:

- A reassembly buffer is never removed after its message is assembled
  (fragment_handler.rs:18-42). See `Fragments.NoReassemblyAfterCompletion`.
- `add_sender` stores the new channel even when the id is already present, and only then
  reports the error (command_handler.rs:86-92).
- A crash command sets the `terminated` flag, not the status (command_handler.rs:16-21).
- The status only ever becomes `Running`, when a file list arrives
  (fragment_handler.rs:101). No code moves it to `Idle` or `Terminated`.
- There is no periodic refresh loop.
- A flood response whose trace is empty is addressed to node 0
  (flood_handler.rs:101-105).
- The declaration of `ClientState` (client.rs:29-46) has no `terminated` or `server_id`
  field, but the handlers read both (message_handler.rs:13, node_messages.rs:12). The model
  gives the record both fields: `terminated` starts false, and `serverId` starts at 0.

## Model

| member | source | states |
|---|---|---|
| Wire.Reverse | src/client/message_handler/packet_handler/ack_handler.rs:27 | reversing a hop list keeps its length |
| Wire.ReverseAt | src/client/message_handler/packet_handler/ack_handler.rs:27 | position i of the reversed list holds the element at position length-1-i |
| Wire.ReverseReverse | src/client/message_handler/packet_handler/flood_handler.rs:96-100 | reversing a list twice gives the list back |
| Wire.SourceRoutingHeader.GetReversed | src/client/message_handler/packet_handler/ack_handler.rs:27 | the reversed header has as many hops, and its cursor points at the same node, or stays off the route if it was off it |
| Wire.ReversedTwice | src/client/message_handler/packet_handler/ack_handler.rs:27 | reversing a header twice gives the header back |
| Wire.TraceIds | src/client/message_handler/packet_handler/flood_handler.rs:96-99 | the node ids of a path trace, position by position |
| Text.TrimEndMatches | src/client_endpoints.rs:21 | `trim_end_matches` leaves a string that no longer ends with the suffix and is no longer than the input |
| Text.RemoveAll | src/client_endpoints.rs:22 | `replace(pat, "")` never makes a string longer |
| Text.LastDot | src/database.rs:87-90 | the position of the last dot of a file name, with no dot after it; none when the name has no dot |
| Text.ParseUnsigned | src/client_endpoints.rs:23 | an unsigned parse that succeeds yields a value below the type's bound |
| Text.DecimalString | src/database.rs:90 | the decimal spelling of a number is a non-empty string of digits |
| Text.DecimalRoundTrip | src/database.rs:90 | reading back the decimal spelling of n gives n |
| Text.ParseDecimal | src/database.rs:90 | parsing the decimal spelling of a number below the bound gives that number |
| Text.RemoveAllAbsent | src/database.rs:90 | deleting a pattern from a string none of whose characters starts it leaves the string unchanged (the digits of a segment name lose nothing to `replace("segment", "")`) |
| Database.BigEndian2 | src/database.rs:109 | `to_be_bytes` of a u16: two bytes whose big-endian value is the number |
| Database.BigEndian4 | src/database.rs:122 | `to_be_bytes` of a u32: four bytes whose big-endian value is the number |
| Database.MetaKey | src/database.rs:109 | a song's metadata key is the 2-byte big-endian id |
| Database.SegmentKey | src/database.rs:121-123 | a segment key is six bytes: the 4-byte segment number, then the 2-byte song id |
| Database.KeysAreInjective | src/database.rs:109-123 | distinct ids give distinct metadata keys, distinct (id, segment) pairs give distinct segment keys, and no metadata key is a segment key |
| Database.StoreSongMeta | src/database.rs:103-113 | an id of 0 is replaced by the song's hash; a successful write stores the song under the key of the id used and returns that id; a failed write changes nothing and is an error |
| Database.StoreSongSegment | src/database.rs:115-128 | a successful write stores the payload under the segment key; a failed write changes nothing and is an error |
| Database.LookupSongMeta | src/database.rs:132-141 | found exactly when the id's key holds metadata, which is returned; an absent key is "not found" |
| Database.LookupSongSegment | src/database.rs:143-152 | found exactly when the segment key holds a payload, which is returned; an absent key is "not found" |
| Database.SegmentRoundTrip | src/database.rs:115-152 | a stored segment reads back as its payload, and every other segment reads as before |
| Database.MetaRoundTrip | src/database.rs:103-141 | stored metadata reads back under the returned id, which is the song's own id unless that was 0; every other id reads as before |
| Database.WritesKeepFiling | src/database.rs:103-128 | both writes keep every record filed under its own key |
| Database.CatalogueUpToMembers | src/database.rs:155-172 | the songs listed below id n are exactly the stored metadata records with an id below n |
| Database.CatalogueMembers | src/database.rs:155-172 | a song is in the catalogue exactly when its metadata is stored under its id |
| Database.ReadCatalogueUpTo | src/database.rs:155-172 | a listing that reads back is the catalogue; one that fails fails to deserialise |
| Database.ReadCatalogue | src/database.rs:155-172 | the corrected listing over every id: a listing that succeeds is exactly the catalogue, and a failure is a deserialisation error |
| Database.ReadCatalogueUpToFails | src/database.rs:162-164 | the listing fails exactly when some metadata key holds a segment payload |
| Database.ReadCatalogueOfWellFiled | src/database.rs:155-172 | on a well-filed store the listing always succeeds |
| Database.ReadCatalogueStaysFailed | src/database.rs:158-170 | once the listing has failed, reading further ids keeps it failed |
| Database.LowIdsAreNotListed | src/database.rs:161 | the metadata key of a song id below 256 starts with a zero byte, so the listing as written skips it |
| Database.FindMetadataFile | src/database.rs:36-51 | the search ends Ok only with the `.json` file it found among the entries; its errors are "none", "unreadable entry" and "more than one" |
| Database.FindMetadataFileCount | src/database.rs:36-51 | with every directory entry readable, the search succeeds exactly when there is one `.json` file and finds it; no file or two are the two distinct errors |
| Database.LocateMetadataFile | src/database.rs:36-51 | the search loop returns what the search function specifies |
| Database.SegmentOfFile | src/database.rs:87-94 | a playlist is segment 0; a file whose extension is neither `m3u8` nor `ts` is an error |
| Database.ExtensionOfDottedName | src/database.rs:87-90 | the extension of `stem.ext` is `ext` and its stem is `stem` |
| Database.SegmentFileNumber | src/database.rs:89-91 | `segmentN.ts` is filed as segment N + 1 |
| Database.SegmentNameParts | src/database.rs:90 | the extension of `segment<digits>.ts` is `ts`, and the digits are what is left of its stem |
| Database.PlaylistIsSegmentZero | src/database.rs:87-88 | any `.m3u8` file is filed as segment 0 |
| Database.AudioDatabase.constructor | src/database.rs:10-20 | the store opens with what it already holds |
| Database.AudioDatabase.InsertSongMeta | src/database.rs:103-113 | the store afterwards and the result are those of the metadata write, and the store stays well filed |
| Database.AudioDatabase.InsertSongSegment | src/database.rs:115-128 | the store afterwards and the result are those of the segment write, and the store stays well filed |
| Database.AudioDatabase.GetSongMeta | src/database.rs:132-141 | returns the metadata lookup of the id |
| Database.AudioDatabase.GetSongSegment | src/database.rs:143-152 | returns the segment lookup of the (id, segment) pair |
| Database.AudioDatabase.GetAllSongsMeta | src/database.rs:155-172 | as written: fails exactly when a key not starting with 0 holds a payload; otherwise lists the records under exactly the keys not starting with 0, each once |
| Database.AudioDatabase.ListSongs | src/database.rs:155-172 | the listing over metadata keys only: every stored song in id order, or a deserialise error |
| State.LedgerKey | src/client/message_handler/packet_handler.rs:86-88 | a packet is filed under its fragment index (0 for flood packets) and its session id |
| State.New | src/client.rs:122-152 | a new client has the given id and neighbours, flood id 0 and status Starting, is not terminated, and knows no servers, waiters, buffers, ledger entries or chunks; it keeps the store's contents and satisfies the engine invariant when the store is well filed |
| State.HttpPort | src/client.rs:157-159 | each node id has its own HTTP port, 8000 + id, in 8000..8255 |
| Commands.ScSendPacket | src/client/message_handler/command_handler.rs:55-65 | the event is handed to the controller once, with the controller's answer as the result; the client's fields are unchanged |
| Commands.EventDispatcher | src/client/message_handler/command_handler.rs:33-53 | exactly one `PacketSent` report of the packet is handed to the controller; a failure changes nothing else |
| Commands.RemoveSender | src/client/message_handler/command_handler.rs:67-79 | the id is no longer a neighbour and the others are kept; success exactly when it was one; otherwise the error names it |
| Commands.AddSender | src/client/message_handler/command_handler.rs:81-97 | the id maps to the new channel afterwards, even when it was present; success exactly when it was absent; otherwise the error names it |
| Commands.CommandHandler | src/client/message_handler/command_handler.rs:8-30 | a terminated client ignores commands; crash sets the flag; a drop-rate change does nothing; add and remove update the neighbour table |
| Commands.CommandTouchesOnlyNeighbours | src/client/message_handler/command_handler.rs:8-30 | a command changes only the neighbour table and the crash flag; the flag is set afterwards exactly when it was set or the command is a crash; the engine invariant is kept |
| Dispatch.GetSender | src/client/message_handler/packet_handler.rs:104-112 | found exactly when the node is a neighbour, and it is that neighbour's channel; otherwise the error names the node |
| Dispatch.GetPacketType | src/client/message_handler/packet_handler.rs:115-123 | a packet kind's name is one of the five names the log uses |
| Dispatch.PacketTypeNamesDistinct | src/client/message_handler/packet_handler.rs:115-123 | two packet kinds get the same name exactly when they are the same kind |
| Dispatch.SendPacket | src/client/message_handler/packet_handler.rs:94-101 | exactly one delivery to that neighbour is recorded, with the channel's answer; the client's fields are unchanged |
| Dispatch.RecordAllLookup | src/client/message_handler/packet_handler.rs:86-88 | after filing a batch, a key is in the ledger exactly when it was before or a packet of the batch has it; a key no packet has keeps its entry; the last packet with a key is the one filed |
| Dispatch.SentPrefix | src/client/message_handler/packet_handler.rs:74-90 | the channel takes at most the whole batch |
| Dispatch.SentPrefixIsPrefix | src/client/message_handler/packet_handler.rs:74-90 | the packets the channel takes are a leading part of the batch |
| Dispatch.Delivered | src/client/message_handler/packet_handler.rs:80-85 | one successful delivery per packet taken |
| Dispatch.Reports | src/client/message_handler/packet_handler.rs:89 | one controller report per packet taken |
| Dispatch.SendEach | src/client/message_handler/packet_handler.rs:74-90 | a refusal ends the batch with a send error naming the hop; the client's fields are unchanged; no ledger key is lost, and the ledger stays sound for routed packets |
| Dispatch.Take | src/client/message_handler/packet_handler.rs:80-89 | a packet the channel takes is delivered, filed under its key, and reported, in that order |
| Dispatch.SendPacketsVec | src/client/message_handler/packet_handler.rs:62-92 | a batch for a hop that is not a neighbour is refused whole and changes nothing; the only errors are "no neighbour" and "send failed"; the client's fields are unchanged, no ledger key is lost, and the ledger stays sound |
| Dispatch.SendEachBatch | src/client/message_handler/packet_handler.rs:74-90 | the channel takes a leading part of the batch, and the call succeeds exactly when that is the whole batch; that part is delivered, filed and reported in order; the next packet, if any, is the one refused, and nothing after it is touched |
| Dispatch.SendEachTrace | src/client/message_handler/packet_handler.rs:74-90 | the loop, packet by packet: its result, ledger, consultations, deliveries and reports |
| Dispatch.TraceEmpty | src/client/message_handler/packet_handler.rs:74 | an empty batch sends, files and reports nothing |
| Dispatch.TraceRefused | src/client/message_handler/packet_handler.rs:80-85 | a batch whose first packet is refused hands that packet over once, files nothing and reports nothing |
| Dispatch.TakenFiling | src/client/message_handler/packet_handler.rs:86-88 | a taken first packet is filed before the rest of the batch |
| Dispatch.TakenHanding | src/client/message_handler/packet_handler.rs:80-89 | a taken first packet is delivered and reported before the rest of the batch |
| Dispatch.AttemptsSplit | src/client/message_handler/packet_handler.rs:74-90 | what the channel is handed is the deliveries of the taken part, then the refused packet; each taken packet costs two consultations and the refusal one |
| Dispatch.BatchCons | src/client/message_handler/packet_handler.rs:86-89 | filing and reporting a batch starts with its first packet |
| Dispatch.SendEachRefused | src/client/message_handler/packet_handler.rs:80-85 | a refused first packet ends the batch with a send error after one failed delivery |
| Dispatch.BatchLedger | src/client/message_handler/packet_handler.rs:62-92 | every taken packet is filed; a key that was absent and belongs to no taken packet stays absent; a successful batch files every packet |
| Dispatch.SendOne | src/client/message_handler/packet_handler.rs:62-92 | a one-packet batch to a neighbour is either taken (delivered, filed, reported, success) or refused (one failed delivery, send error) |
| Acks.AckHandler | src/client/message_handler/packet_handler/ack_handler.rs:7-19 | the acknowledged key leaves the ledger and every other entry stays; an ack for an absent key changes nothing; the ledger stays sound |
| Acks.AckUndoesSend | src/client/message_handler/packet_handler/ack_handler.rs:7-19 | sending a new packet alone and then receiving its ack leaves the ledger as it was |
| Acks.AckHeader | src/client/message_handler/packet_handler/ack_handler.rs:27-28 | the ack's route is the fragment's route reversed, with the cursor just past the node the fragment's cursor was on |
| Acks.AckGuardAsWritten | src/client/message_handler/packet_handler/ack_handler.rs:27-29 | the check as written holds exactly when the fragment's cursor is on the last hop of its route (or the route is empty and the cursor 0) |
| Acks.AckGuard | src/client/message_handler/packet_handler/ack_handler.rs:27-36 | the corrected check is the check as written plus a route of at least two hops, so hop 1 exists |
| Acks.AckGuardMeaning | src/client/message_handler/packet_handler/ack_handler.rs:27-36 | a fragment is acknowledged exactly when it reached the last hop of a route of two or more hops, and the ack goes to the hop before it |
| Acks.AckGuardsAgree | src/client/message_handler/packet_handler/ack_handler.rs:29-35 | on routes of two or more hops, the check as written is the check that is needed |
| Acks.OneHopPassesAckGuard | src/client/message_handler/packet_handler/ack_handler.rs:29-36 | a one-hop route passes the check as written, yet the reversed route has no hop 1 |
| Acks.AckFor | src/client/message_handler/packet_handler/ack_handler.rs:27-37 | the ack carries the fragment index and the fragment's session, is filed under that pair, and travels the fragment's route reversed |
| Acks.SendAck | src/client/message_handler/packet_handler/ack_handler.rs:22-64 | a fragment that fails the check gets no ack and nothing changes; the client's fields are unchanged, no ledger key is lost and the ledger stays sound |
| Acks.SendAckTaken | src/client/message_handler/packet_handler/ack_handler.rs:36-39 | an ack the previous hop takes is delivered to it, filed in the ledger under its key, and reported |
| Acks.SendAckShortcut | src/client/message_handler/packet_handler/ack_handler.rs:39-56 | an ack that cannot be sent leaves the ledger alone, and the fragment is handed to the controller as a shortcut |
| Flooding.GetFloodId | src/client/message_handler/packet_handler/flood_handler.rs:91-94 | the returned flood id is one more than the last and is remembered as the latest |
| Flooding.FloodIdsIncrease | src/client/message_handler/packet_handler/flood_handler.rs:91-94 | successive flood ids strictly increase, so none is reused |
| Flooding.IdsFrom | src/client/message_handler/packet_handler/flood_handler.rs:19 | the members of a set from n up, each once, in ascending order |
| Flooding.Neighbours | src/client/message_handler/packet_handler/flood_handler.rs:18-19 | exactly the neighbours, each once, in ascending order |
| Flooding.FloodEach | src/client/message_handler/packet_handler/flood_handler.rs:19-32 | the loop changes none of the client's fields and makes two consultations per neighbour |
| Flooding.FloodOne | src/client/message_handler/packet_handler/flood_handler.rs:20-31 | one neighbour's turn: one delivery with the channel's answer, then one report |
| Flooding.FloodWire | src/client/message_handler/packet_handler/flood_handler.rs:25 | one delivery per neighbour |
| Flooding.FloodWireAt | src/client/message_handler/packet_handler/flood_handler.rs:19-29 | the i-th delivery goes to the i-th neighbour, with the answer of consultation t + 2i |
| Flooding.FloodReports | src/client/message_handler/packet_handler/flood_handler.rs:30-31 | one report per neighbour |
| Flooding.FloodReportsAt | src/client/message_handler/packet_handler/flood_handler.rs:30-31 | the i-th report is the packet sent, with the answer of consultation t + 2i + 1 |
| Flooding.FloodEachWire | src/client/message_handler/packet_handler/flood_handler.rs:19-32 | the loop appends exactly its deliveries to the channels' record |
| Flooding.FloodEachReports | src/client/message_handler/packet_handler/flood_handler.rs:19-32 | the loop appends exactly its reports to the controller's record |
| Flooding.NextFlood | src/client/message_handler/packet_handler/flood_handler.rs:11-24 | the flood request carries the id `get_flood_id` returns, this client as initiator and a path trace of this client alone, travels with an empty route at hop index 0, and is keyed by fragment index 0 and the fresh session id |
| Flooding.InitFloodRequest | src/client/message_handler/packet_handler/flood_handler.rs:11-33 | the flood id goes up by one, and nothing else of the client's state or ledger changes |
| Flooding.InitFloodRequestSends | src/client/message_handler/packet_handler/flood_handler.rs:11-33 | what a flood hands out: the request to every neighbour in ascending order, and one report per neighbour |
| Flooding.InitFloodRequestTick | src/client/message_handler/packet_handler/flood_handler.rs:11-33 | a flood consults the environment once for its session id and twice per neighbour (the send and its report) |
| Flooding.FloodFrom | src/client/message_handler/packet_handler/flood_handler.rs:17-32 | the loop started one consultation later appends the same deliveries and reports |
| Flooding.NeighboursCount | src/client/message_handler/packet_handler/flood_handler.rs:18-19 | as many neighbours are flooded as the table holds |
| Flooding.FloodReachesEveryNeighbourOnce | src/client/message_handler/packet_handler/flood_handler.rs:12-32 | every neighbour, and nothing else, is sent the request exactly once; the request carries the new flood id, this client as initiator, and a path trace holding only this client |
| Flooding.BuildFloodResponse | src/client/message_handler/packet_handler/flood_handler.rs:96-108 | the response's route is the request's trace, extended with this client and reversed, with the cursor on hop 1; it is addressed to the node the request came from, or to 0 when the trace was empty |
| Flooding.FloodResponseRetracesRequest | src/client/message_handler/packet_handler/flood_handler.rs:96-100 | walked backwards, the response's route is the request's extended path trace |
| Flooding.SendFloodResponse | src/client/message_handler/packet_handler/flood_handler.rs:49-89 | no channel to the destination is an error and changes nothing; otherwise the response is delivered, or on refusal handed to the controller; it is an error only when both refuse; flood responses are neither filed nor reported |
| Flooding.HandleFloodRequest | src/client/message_handler/packet_handler/flood_handler.rs:36-47 | the response built for the request is sent; the client's fields are unchanged |
| Nacks.Destination | src/client/message_handler/packet_handler/nack_handler.rs:68 | the destination of a filed packet is the last hop of its route |
| Nacks.RetransmitPacketAsWritten | src/client/message_handler/packet_handler/nack_handler.rs:62-94 | as written: without a path nothing is sent |
| Nacks.RetransmitAsWrittenRoutes | src/client/message_handler/packet_handler/nack_handler.rs:71-88 | as written, with a path: the packet takes the new route and is handed to the hop under the cursor if that is a neighbour; if the hop takes it, it replaces the ledger entry under its key, and otherwise the ledger is unchanged |
| Nacks.RetransmitAsWrittenSendsToSelf | src/client/message_handler/packet_handler/nack_handler.rs:81 | with a path that starts at this client, as written, the packet goes to the client's own id, so nothing is sent and the ledger keeps the stale route |
| Nacks.RetransmitAsWrittenExample | src/client/message_handler/packet_handler/nack_handler.rs:68-85 | client 1 with neighbour 2 and path [1, 2, 3]: as written, nothing is delivered and the ledger keeps the old packet |
| Nacks.RetransmitPacket | src/client/message_handler/packet_handler/nack_handler.rs:62-94 | without a path nothing is sent; the client's fields are unchanged; no ledger key is lost and the ledger stays sound |
| Nacks.RetransmitSends | src/client/message_handler/packet_handler/nack_handler.rs:81-85 | with a path, retransmission is a one-packet batch, carrying the new route, to the path's next hop |
| Nacks.RetransmitRoutes | src/client/message_handler/packet_handler/nack_handler.rs:71-88 | the packet with the new route is handed to the next hop if that is a neighbour; if the hop takes it, it replaces the ledger entry under its key, and otherwise the ledger is unchanged |
| Nacks.RetransmitEffect | src/client/message_handler/packet_handler/nack_handler.rs:62-94 | retransmission from any state: without a path nothing is sent and the ledger is kept; with one, the re-routed packet goes to the path's next hop when that is a neighbour and is refiled under its key when taken |
| Nacks.NackHandler | src/client/message_handler/packet_handler/nack_handler.rs:9-59 | a nack for an absent packet, or of kind DestinationIsDrone or UnexpectedRecipient, changes nothing; the flood id goes up by one exactly for ErrorInRouting; the reporter is penalised exactly for Dropped; no ledger key is lost |
| Nacks.NackDroppedResends | src/client/message_handler/packet_handler/nack_handler.rs:33-36 | a Dropped nack for a filed packet resends it at once: the wire and the ledger change exactly as a retransmission of that packet |
| Nacks.NackErrorInRoutingResends | src/client/message_handler/packet_handler/nack_handler.rs:42-51 | an ErrorInRouting nack for a filed packet floods every neighbour and then resends the packet: the resend follows the flood requests on the wire and consults the oracle after them |
| Nacks.NackRefilesSameKey | src/client/message_handler/packet_handler/nack_handler.rs:20-50 | handling a nack leaves the set of ledger keys unchanged |
| Nacks.RetransmitKeepsKeys | src/client/message_handler/packet_handler/nack_handler.rs:62-94 | retransmitting a filed packet leaves the set of ledger keys unchanged |
| Messages.Frames | src/client/message_handler/packet_handler/node_messages.rs:73-83 | one packet per fragment, in order, all on the path and in the codec's session |
| Messages.FramesOf | src/client/message_handler/packet_handler/node_messages.rs:73-81 | one packet per fragment, in order, on one route and in one session |
| Messages.SendMessage | src/client/message_handler/packet_handler/node_messages.rs:56-91 | without a path, or when the codec fails, nothing is sent; the client's fields are unchanged; no ledger key is lost and the ledger stays sound |
| Messages.SendOnPath | src/client/message_handler/packet_handler/node_messages.rs:73-86 | when the codec fails nothing is sent; otherwise the frames go as one batch to the path's next hop; the client's fields are unchanged and the ledger stays sound |
| Messages.SendMessageBatch | src/client/message_handler/packet_handler/node_messages.rs:73-86 | the frames go in order to the path's next hop: a taken leading part is delivered and filed, and the frame after it is refused; a hop that is not a neighbour gets nothing |
| Messages.BatchAfter | src/client/message_handler/packet_handler/node_messages.rs:83 | a batch sent two consultations later has the same outcome as one sent at once |
| Messages.SongFiles | src/client/message_handler/packet_handler/node_messages.rs:15-19 | every song wrapped as song metadata, in order |
| Messages.SendSubscribe | src/client/message_handler/packet_handler/node_messages.rs:10-33 | an unreadable catalogue sends nothing; the client's fields are unchanged and the ledger stays sound |
| Messages.SubscribeAnnouncesCatalogue | src/client/message_handler/packet_handler/node_messages.rs:10-33 | the subscription goes from this client to its server, and names a file exactly when it is a song stored under its id |
| Messages.SendUnsubscribe | src/client/message_handler/packet_handler/node_messages.rs:35-42 | the unsubscription goes from this client to its server: nothing without a path or when the codec fails, and the client's fields are unchanged |
| Messages.SendRequestFilelist | src/client/message_handler/packet_handler/node_messages.rs:48-54 | the file-list request goes from this client to its server: nothing without a path or when the codec fails, and the client's fields are unchanged |
| Messages.SendUpdateFilelist | src/client/message_handler/packet_handler/node_messages.rs:44-46 | updating the file list does nothing |
| Fragments.SongCount | src/client/message_handler/packet_handler/fragment_handler.rs:81-100 | a file list holds at most as many songs as entries |
| Fragments.InsertSongs | src/client/message_handler/packet_handler/fragment_handler.rs:81-100 | one store write is attempted per song and none per video; the store stays well filed; no key is lost |
| Fragments.InsertSongsTouchOnlyTheirKeys | src/client/message_handler/packet_handler/fragment_handler.rs:81-100 | a key that is not the metadata key of a listed song keeps its record |
| Fragments.InsertSongsStoreEverySong | src/client/message_handler/packet_handler/fragment_handler.rs:81-92 | with a store that takes every write, every listed song is stored under its id |
| Fragments.HandleNodeMessage | src/client/message_handler/packet_handler/fragment_handler.rs:45-109 | a chunk that has a waiter is cached and its waiter is told it arrived; a chunk nobody waits for is dropped; a file list is stored song by song and the client is then running; any other message changes nothing |
| Fragments.BufferKey | src/client/message_handler/packet_handler/fragment_handler.rs:13-14 | a fragment is buffered under the first hop of its route and its session id |
| Fragments.FragmentHandler | src/client/message_handler/packet_handler/fragment_handler.rs:8-43 | the fragment is appended to its origin's and session's buffer, and no other buffer changes; below the announced count only the ack follows; no ledger key is lost, the ledger stays sound and the oracle hears nothing |
| Fragments.FragmentCompletesMessage | src/client/message_handler/packet_handler/fragment_handler.rs:28-42 | when the buffer reaches the announced count, the codec is consulted on the whole buffer after the ack, and what it assembles is handled |
| Fragments.NoReassemblyAfterCompletion | src/client/message_handler/packet_handler/fragment_handler.rs:18-29 | a buffer at or past its count only grows, and never reaches the codec again |
| Fragments.ChunkCachedBeforeWakeup | src/client/message_handler/packet_handler/fragment_handler.rs:61-70 | a waiter is told its chunk arrived only once the chunk is cached |
| Fragments.FragmentHandlerKeepsInvariant | src/client/message_handler/packet_handler/fragment_handler.rs:8-43 | reassembly keeps the engine invariant |
| Inbound.AddServers | src/client/message_handler/packet_handler.rs:42-47 | the known servers keep their order and gain only new entries, and stay free of duplicates |
| Inbound.AddServersMembers | src/client/message_handler/packet_handler.rs:42-47 | a node is a known server afterwards exactly when it was one or the trace names it as a server |
| Inbound.ForThisNode | src/client/message_handler/packet_handler.rs:19-30 | a packet is handled exactly when it is a flood request or its route ends at this client |
| Inbound.FloodResponseHandler | src/client/message_handler/packet_handler.rs:36-48 | the oracle's graph is updated with the response, and the trace's servers are added; nothing else changes |
| Inbound.HandleKind | src/client/message_handler/packet_handler.rs:32-58 | every kind of packet keeps the ledger sound and keeps the client's id, neighbours, server, waiters and crash flag; every ledger key is kept except the one an ack names, which is removed; oracle calls are only appended |
| Inbound.PacketHandler | src/client/message_handler/packet_handler.rs:17-59 | every packet's route is first reported to the oracle; a packet for another node changes nothing else; the client's id, neighbours, server, waiters and crash flag are kept and the ledger stays sound; every ledger key is kept except the one an ack for this client names, which is removed |
| Inbound.ForeignPacketDropped | src/client/message_handler/packet_handler.rs:18-30 | a packet that ends elsewhere changes nothing of the client's state: only the oracle hears of its route |
| Inbound.FloodResponseRecordsServers | src/client/message_handler/packet_handler.rs:36-48 | after a flood response, the old servers come first, no id appears twice, and a node is known exactly when it was or the trace names it as a server |
| Inbound.NackPenalisesReporter | src/client/message_handler/packet_handler.rs:55-57 | a Dropped nack for a filed packet penalises the first hop of the nack's route, right after the congestion report |
| Inbound.PacketHandlerKeepsInvariant | src/client/message_handler/packet_handler.rs:17-59 | handling a packet keeps the engine invariant |
| Processing.Step | src/client/message_handler.rs:10-40 | the loop exits exactly when the client is terminated; with nothing received the state is unchanged; without a packet the ledger and log are unchanged; the id is kept, the ledger stays sound, and every ledger key is kept unless the iteration's packet is an ack for it |
| Processing.CrashStillHandlesPacket | src/client/message_handler.rs:13-39 | a crash stops the loop only at the next iteration: the packet received in the same iteration is still handled |
| Processing.CommandBeforePacket | src/client/message_handler.rs:17-39 | the command is handled before the packet, which sees the neighbour table the command left |
| Processing.StepKeepsInvariant | src/client/message_handler.rs:10-40 | every iteration keeps the engine invariant |
| Processing.Run | src/client/message_handler.rs:10-40 | a run of the loop keeps the id and a sound ledger, and a terminated client does nothing |
| Processing.LedgerKeptUntilAck | src/client/message_handler.rs:10-40 | a ledger entry stays filed through every iteration of the loop until one of them receives an ack for it |
| Processing.RunKeepsInvariant | src/client/message_handler.rs:10-40 | every run of the loop keeps the engine invariant |
| Processing.CrashEndsRun | src/client/message_handler.rs:13-15 | after the iteration that handles a crash, nothing the queues yield is handled |
| Endpoints.SegmentIndexAsWritten | src/client_endpoints.rs:18-26 | as written: a playlist request is segment 0, and any other segment number is below 2^16 |
| Endpoints.SegmentIndex | src/client_endpoints.rs:18-26 | a playlist request is segment 0; other names are read as u32 numbers, as the store's file names are |
| Endpoints.Increment | src/client_endpoints.rs:23-25 | succeeds exactly when a number was parsed and its increment fits the type, and then gives that increment |
| Endpoints.RequestNumber | src/client_endpoints.rs:21-22 | the digits read from a request name: `.ts` endings trimmed and `segment` deleted, never longer than the name |
| Endpoints.RequestNameParts | src/client_endpoints.rs:19-22 | the request name `segmentN.ts` is not a playlist, and is read as the digits of N |
| Endpoints.ParseDecimalBound | src/client_endpoints.rs:23 | the decimal spelling of n parses exactly when n fits the bound, and then gives n |
| Endpoints.HighSegmentsUnreachable | src/client_endpoints.rs:18-26 | as written, no segment from `segment65535.ts` on can be requested, although the store files each of them |
| Endpoints.RequestMatchesFiling | src/client_endpoints.rs:18-28 | read as u32, a request name asks for exactly the segment its file was filed under |
| Endpoints.SegmentIndexAgrees | src/client_endpoints.rs:18-26 | the two readings agree wherever the u16 one does not overflow |
| Endpoints.RequestSegment | src/client_endpoints.rs:14-45 | an id or segment name that does not parse is an error and changes nothing; a segment the store holds (a parsed id and name whose lookup succeeds) is served, with its bytes, leaving the engine unchanged and registering no waiter; otherwise the waiter is registered under the song id and chunk 0 |
| Endpoints.FinishGetSong | src/client_endpoints.rs:52-81 | served exactly when told `true` and the chunk is cached, and then the cached chunk is returned; otherwise "not found" |
| Endpoints.WokenRequestIsServed | src/client_endpoints.rs:52-63 | in every state the engine reaches, a waiter told its chunk arrived is served it |
| Endpoints.AudioFiles | src/client_endpoints.rs:86-101 | an unreadable catalogue is listed as empty |
| Endpoints.AudioFilesListsStore | src/client_endpoints.rs:86-101 | on a well-filed store the listing names exactly the songs stored under their ids |
| Endpoints.IsReady | src/client_endpoints.rs:103-108 | ready exactly when the status is Running |
| Endpoints.ReadyAfterFileList | src/client/message_handler/packet_handler/fragment_handler.rs:80-101 | the client is ready once a file list arrives, whatever became of its inserts |
| Client.ClientState.constructor | src/client.rs:122-152 | the record starts as the new-client state and satisfies the engine invariant |
| Client.ClientState.SendPacket | src/client/message_handler/packet_handler.rs:94-101 | the record and the answer are those of sending one packet |
| Client.ClientState.ScSendPacket | src/client/message_handler/command_handler.rs:55-65 | the record and the answer are those of handing the event to the controller |
| Client.ClientState.EventDispatcher | src/client/message_handler/command_handler.rs:33-53 | the record afterwards has the report of the packet appended |
| Client.ClientState.RemoveSender | src/client/message_handler/command_handler.rs:67-79 | the record and the result are those of removing the neighbour |
| Client.ClientState.AddSender | src/client/message_handler/command_handler.rs:81-97 | the record and the result are those of adding the neighbour |
| Client.ClientState.CommandHandler | src/client/message_handler/command_handler.rs:8-30 | the record afterwards is the state the command handler computes |
| Client.ClientState.SendPacketsVec | src/client/message_handler/packet_handler.rs:62-92 | the record and the result are those of the batch send, so every batch lemma holds of the record |
| Client.ClientState.GetFloodId | src/client/message_handler/packet_handler/flood_handler.rs:91-94 | the record and the returned id are those of taking the next flood id |
| Client.ClientState.InitFloodRequest | src/client/message_handler/packet_handler/flood_handler.rs:11-33 | the record afterwards is the state after a flood, and the engine invariant is kept when it held |
| Client.ClientState.FloodEach | src/client/message_handler/packet_handler/flood_handler.rs:19-32 | the record afterwards is the state after the flood loop over the given neighbours |
| Client.ClientState.SendFloodResponse | src/client/message_handler/packet_handler/flood_handler.rs:49-89 | the record and the result are those of sending the flood response |
| Client.ClientState.HandleFloodRequest | src/client/message_handler/packet_handler/flood_handler.rs:36-47 | the record afterwards is the state after answering the flood request |
| Client.ClientState.AckHandler | src/client/message_handler/packet_handler/ack_handler.rs:7-19 | the record afterwards is the state after the ack is handled |
| Client.ClientState.SendAck | src/client/message_handler/packet_handler/ack_handler.rs:22-64 | the record afterwards is the state after acknowledging the fragment |
| Client.ClientState.RetransmitPacket | src/client/message_handler/packet_handler/nack_handler.rs:62-94 | the record afterwards is the state after retransmission to the path's next hop |
| Client.ClientState.NackHandler | src/client/message_handler/packet_handler/nack_handler.rs:9-59 | the record afterwards is the state after the nack is handled, so the resend lemmas (NackDroppedResends, NackErrorInRoutingResends) hold of the record |
| Client.ClientState.FloodResponseHandler | src/client/message_handler/packet_handler.rs:36-48 | the record afterwards is the state after the flood response is handled |
| Client.ClientState.HandleNodeMessage | src/client/message_handler/packet_handler/fragment_handler.rs:45-109 | the record afterwards is the state after the assembled message is handled, and the store stays tied to the environment |
| Client.ClientState.InsertSongs | src/client/message_handler/packet_handler/fragment_handler.rs:81-100 | the store afterwards is the store after inserting the listed songs |
| Client.ClientState.FragmentHandler | src/client/message_handler/packet_handler/fragment_handler.rs:8-43 | the record afterwards is the state after the fragment is handled |
| Client.ClientState.PacketHandler | src/client/message_handler/packet_handler.rs:17-59 | the record afterwards is the state after the packet is handled |
| Client.ClientState.HandleKind | src/client/message_handler/packet_handler.rs:32-58 | the record afterwards is the state after dispatching the packet on its kind |
| Client.ClientState.Step | src/client/message_handler.rs:11-39 | one loop iteration: it reports whether the loop continues, the record is the iteration's result, and the engine invariant is kept |
| Client.ClientState.Run | src/client/message_handler.rs:10-40 | the record afterwards is the result of the run, and the engine invariant is kept |
| Client.ClientState.SendMessage | src/client/message_handler/packet_handler/node_messages.rs:56-91 | the record afterwards is the state after sending the message |
| Client.ClientState.SendOnPath | src/client/message_handler/packet_handler/node_messages.rs:73-86 | the record afterwards is the state after sending the message along the path |
| Client.ClientState.SendSubscribe | src/client/message_handler/packet_handler/node_messages.rs:10-33 | the record afterwards is the state after subscribing, and the engine invariant is kept |
| Client.ClientState.SendUnsubscribe | src/client/message_handler/packet_handler/node_messages.rs:35-42 | the record afterwards is the state after unsubscribing, and the engine invariant is kept |
| Client.ClientState.SendRequestFilelist | src/client/message_handler/packet_handler/node_messages.rs:48-54 | the record afterwards is the state after requesting the file list, and the engine invariant is kept |
| Client.ClientState.RequestSegment | src/client_endpoints.rs:14-45 | the record and the result are those of the first half of `get_song`, and the engine invariant is kept |
| Client.ClientState.FinishGetSong | src/client_endpoints.rs:52-81 | returns the second half of `get_song` on the current record |
| Client.ClientState.AudioFiles | src/client_endpoints.rs:86-101 | returns the catalogue listing of the current record |
| Client.ClientState.IsReady | src/client_endpoints.rs:103-108 | returns whether the current record is running |

## Left out

- Channels, the simulation controller, the routing oracle's graph and scoring, the codec
  (packet_forge) and the store's write failures are outside the model. Their answers come
  from an `Env`, one per consultation. What the engine hands them is recorded. Store reads
  never fail in the model: the `sled` read errors of `get_song_meta`, `get_song_segment`
  and `get_all_songs_meta` (src/database.rs:139, 150, 168) are not modelled.
- The oracle is assumed to return only routes whose cursor has a next hop (`Wire.Route`).
  `srh.next_hop().unwrap()` (node_messages.rs:83) panics on any other route.
- Logging (`Logger`) is not modelled. Every "log and continue" path continues.
- Locks, threads and the HTTP server (`RwLock`, the processing thread, Rocket) are not
  modelled. Each handler runs with exclusive access. `get_song` is split at its blocking
  `recv` into `RequestSegment` and `FinishGetSong`.
- `send_segment_request` (client_endpoints.rs:49) is not part of this model: its source is
  not among the files modelled.
- The message loop runs forever and polls without blocking. `Processing.Run` models a
  finite prefix of it, driven by a given sequence of what each poll yields.
- The termination monitor (client.rs:187-196) and the Rocket launch are not modelled. The
  monitor waits for status `Terminated`, which no modelled code sets.
- `configure` is not modelled beyond the port formula (`State.HttpPort`).
- `get_id` (client.rs:206-214 and client_endpoints.rs:110-115) only reads the id, so it is
  not modelled.
- `init` is not modelled as a whole. The model keeps its metadata-file search
  (`FindMetadataFile`, `LocateMetadataFile`) and its rule for segment file names
  (`SegmentOfFile`). Left out are:
  - clearing and flushing the store;
  - reading files;
  - JSON parsing;
  - the loop that inserts each song and its segment files.
- Database.SegmentOfFile: a `.ts` file whose stem is not `segment` followed by a u32 is
  `Err(BadSegmentName)` here. The source panics on it (`parse::<u32>().unwrap()`,
  database.rs:90). A stem of `segment4294967295` is also `Err(BadSegmentName)` here. In the
  source, `segment+1` overflows there (database.rs:91): it panics in debug builds and wraps
  to segment 0 in release builds.
- Nacks.RetransmitPacketAsWritten: the finding about it assumes the routing oracle returns
  paths whose cursor rests on the client (hop index 0). `send_message` relies on that
  convention when it sends to `next_hop()`. The oracle's source is not part of this model.
  If the oracle instead returned the cursor already past the client (hop index 1, as the
  headers built for acks and flood responses have), `hops[hop_index]` would be the right
  hop and `send_message` would skip one.
- Wire.SourceRoutingHeader.GetReversed: the shared crate's routing-header operations are
  not part of this model, and three of their behaviours are assumed. `get_reversed`
  mirrors the cursor, so it stays on the same node. `generate_response` returns its route
  with the cursor at 0, as the comment at flood_handler.rs:99 says. `get_fragment_index`
  is 0 for flood requests and responses. `Acks.AckGuardMeaning` depends on the first
  assumption: if `get_reversed` reset the cursor instead, the check as written would pass
  whatever the fragment's cursor was.
- Values are stored as typed records. Their bincode serialisation is not modelled, and
  `compact_hash_u16` is an uninterpreted function.
- Database.LookupSongMeta: a record that does not deserialise is an error. The source
  panics there (`unwrap`, database.rs:135).
- Database.LookupSongSegment: a metadata record under a segment key is an error. The source
  returns its serialised bytes. A well-filed store never holds one.
- Flooding.Neighbours: neighbours are flooded in ascending id order. The source iterates a
  `HashMap` in an unspecified order.
- Database.AudioDatabase.GetAllSongsMeta: the store's key order is not modelled. The ghost
  `keys` output reports the order used.
- Flooding.SendFloodResponse: the warning at flood_handler.rs:66 calls
  `current_hop().unwrap()`. That panics for a response addressed to node 0 whose send
  fails, and the model does not capture the panic.
- Fragments.HandleNodeMessage: `sender.send(true).unwrap()` panics when the waiting request
  is gone. The model records the notification and carries on.
- Endpoints.RequestSegment: an id or segment name that does not parse panics in the source
  (`unwrap`). Here it is an error that changes nothing.
- Endpoints.SegmentIndexAsWritten: the u16 increment that overflows is an error here. It
  panics in debug builds and wraps to 0 in release builds.
- Endpoints.FinishGetSong: a closed notification channel is not modelled separately. A
  missing chunk after `true` panics in the source and is "not found" here.
- Flood ids and session ids are `u64` in the source and unbounded here. Wrap-around after
  2^64 floods is not modelled.

## Findings

| source | as written | input that shows it | evidently intended | confidence | as-written member | corrected member |
|---|---|---|---|---|---|---|
| src/database.rs:161 | `get_all_songs_meta` reads back every record whose key does not start with a zero byte | a song with id 5 is stored under key [0, 5] and is never listed, so it is never announced in a subscription | list exactly the metadata records (2-byte keys) | not executed | Database.AudioDatabase.GetAllSongsMeta, Database.LowIdsAreNotListed | Database.AudioDatabase.ListSongs, Database.CatalogueMembers |
| src/client/message_handler/packet_handler/ack_handler.rs:29-36 | `send_ack` checks only that the reversed header's cursor is 1, then reads `hops[1]` | a fragment whose route is [c] alone: reversed [c], cursor 1, check passes, `hops[1]` is out of range | also require a hop 1 (a route of two or more hops) | not executed | Acks.AckGuardAsWritten, Acks.OneHopPassesAckGuard | Acks.AckGuard, Acks.AckGuardMeaning |
| src/client/message_handler/packet_handler/nack_handler.rs:81 | `retransmit_packet` sends to `srh.hops[srh.hop_index]`, the hop under the cursor | client 1 with neighbour 2 and best path [1, 2, 3], cursor 0 (assuming the oracle's paths start with the cursor on the client, as `send_message`'s `next_hop()` requires): the packet goes to 1 itself, no channel exists, nothing is resent | send to the next hop, `hops[hop_index + 1]`, as `send_message` does | not executed; rests on the oracle returning cursor 0 | Nacks.RetransmitPacketAsWritten, Nacks.RetransmitAsWrittenExample | Nacks.RetransmitPacket, Nacks.RetransmitRoutes |
| src/client_endpoints.rs:20-25 | `get_song` parses the segment number as `u16` and adds 1 in `u16` | request `segment65535.ts`: `init` filed that file as segment 65536, but 65535 + 1 overflows `u16` | parse and increment as `u32`, as `init` does for the same names | not executed | Endpoints.SegmentIndexAsWritten, Endpoints.HighSegmentsUnreachable | Endpoints.SegmentIndex, Endpoints.RequestMatchesFiling |

The rest of the model uses the corrected definitions:

- `send_subscribe` and `audio_files` list the catalogue through `ReadCatalogue`, the listing
  `ListSongs` implements.
- `send_ack` uses `AckGuard`.
- Nack handling retransmits through `RetransmitPacket`.
- `get_song` reads segment numbers through `SegmentIndex`.
