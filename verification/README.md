# A model of the t tunnel cluster

`t` is a cluster of tunnel servers. Clients connect to any server; a request that arrives at
one server is passed to the server its client is connected to, in at most one hop. Servers
find each other by gossip, dial each other, elect a leader, and exchange messages over a
dedicated stream. This project models that machinery in Dafny and proves what it guarantees.

Run `dafny verify dfyconfig.toml` to verify everything.

## How the model is built

Code that several goroutines run at once is a state machine: one step per atomic map or
channel operation, any number of goroutines, and a run is any sequence of steps (`Runs`). The
results then hold in every state of every run, that is, under every interleaving. Code that one
goroutine runs by itself is a method or a class with the source's loops and buffers, proved
against a specification function or predicate. Bytes on the wire are bytes: the codecs go down
to big-endian digits, and the protocols rest on them.

| file | what it models |
|---|---|
| `EventCache`, `Leadership`, `Cluster` | values derived from a changing map, the election inside a server, the whole cluster |
| `Messages`, `MessageChannel`, `Rpc` | frames and their reader, the life of a messaging stream, remote calls |
| `Links`, `ServerState`, `Routing` | link headers and handshakes, what a server admits, forwarding through the cluster |
| `PeerMap`, `Checksum`, `PeerGraph`, `ConnectedClients`, `Meta` | the session map, its checksum, the claim index, the gossiped values |
| `MuxChannel` | the stream hand-over channel and the teardown of a QUIC session |
| `BigEndian`, `Results`, `Runs` | shared definitions |

The main results, in one line each:

- If the latest build of the filter, or computation of the leader, disagrees with the map on some
  key, an event for that very key is still on its way, in every interleaving and however many builds
  fail (`EventCache.BehindImpliesOutstanding`, `Leadership.LeaderIsLowest`).
- A key is in the map only as long as a goroutine answers for it or is about to
  (`EventCache.MemberIsKept`); whoever connects can come to be published, and whoever disconnects to
  be published no more, from every state of every run (`EventCache.ConnectingPublishes`,
  `EventCache.DisconnectingUnpublishes`).
- The separate elections of a settled cluster agree, and on the least PeerID, iff the least server
  dials or is the only respond-only one (`Cluster.SettledElection`).
- A remote call returns the addressed server's answer to its own request, or nothing, whatever
  follows, iff no other call of its server under the same key is unresolved when the key is drawn
  (`Rpc.SafeDrawIff`).
- Registering a peer again leaves every stream sound in all that may follow iff the goroutines of
  its earlier streams are done (`MessageChannel.RegisterSafeIff`).
- A request is handled and answered once at most, and an answer ends one call at most
  (`Rpc.NothingHappensTwice`).
- A write is about the stream the peer had when it began, and says gone only if it had none or that
  one is closed (`MessageChannel.WritesToCurrentStream`, `MessageChannel.GoneMeansClosed`).
- However a connection is cut, and whenever the peer is registered again, the far side gets a prefix
  of the messages that entered the stream (`MessageChannel.ReceivedInOrder`).
- From the event of a client, by way of filter, wire and any interleaving of merges and removals, to
  the graphs of the other servers and back along the route: in a settled cluster a client is reached
  in at most one hop (`Routing.SettledClusterDelivers`).
- Whatever the servers do while a stream travels, it takes one hop at most as long as no claim about
  its destination names a wrong server (`Routing.OneHopWhileChanging`), and is delivered as long as
  the session, the claim and the client it depends on stay (`Routing.SteadyDelivers`).

Some of what the code might be expected to guarantee does not hold. Each of these has a run or an
input that shows it, and the exact condition under which the guarantee does hold:

- A failed filter build leaves the gossiped filter wrong with no event outstanding
  (`EventCache.FailedBuildLosesUpdate`). At every quiescent state the filter is right iff it is of the
  keys that the latest build, failed or not, was for (`EventCache.FailedBuildHarmlessIff`).
- A server whose PeerID is 0 leads without its timer ever being told to start
  (`Leadership.TimerFollowsLeader`).
- Reconciliation reuses one `Meta` and takes members for respond-only that are not, so that both
  ends of a pair dial (`Meta.MisreadHappens`, `Meta.SameDialsIff`).
- A server that advertises an IPv6 address gossips its last four bytes as an IPv4 one
  (`Meta.V6ComesBackAsV4`, `Meta.RoundTripIff`).
- A link header read short is taken for the messaging link when the bytes that did arrive are zero
  (`Links.ShortReadMistaken`, `Links.MistakenIff`).
- A call key drawn again while an earlier request under it is unresolved lets the answer to that
  request end the new call (`Rpc.ReusedKeyMixesReplies`, `Rpc.SafeDrawIff`).
- A peer registered again too early has its new stream closed by the old stream's goroutines
  (`MessageChannel.StaleForgetPanicsReader`, `MessageChannel.RegisterSafeIff`).
- Two concurrent `NewPeer` calls for one peer make `Len` too large and leave a session unclosed
  (`PeerMap.RacingNewPeersMiscount`, `PeerMap.LenExactIff`); only concurrent ones do
  (`PeerMap.CheckSafeIff`, `PeerMap.OrderlyLenExact`).
- Removing a client's session goes by client and can take a newer session out of the map
  (`EventCache.SecondSessionOrphaned`, `EventCache.StoreSafeIff`).
- A filter that errs can make two servers pass a stream back and forth for ever
  (`Routing.ErringFilterBounces`, `Routing.HopBoundIff`).

Where code and comments disagree the code is followed: the comment in `server/gossip.go:335-339`
says that only one hop is allowed between peers, but nothing in the forwarding code counts hops.

## Model

| member | source | states |
|---|---|---|
| `EventCache.ChangeOwes` | state/peer_map.go:70-72 | whoever stores or deletes a key owes the event for it from that very step |
| `EventCache.PendingHandedOn` | server/clients.go:157-175 | an owed event is handed on from goroutine to notify queue to goroutine to event queue, never dropped before the consumer takes it |
| `EventCache.RunKeepsInv` | server/backgroud.go:15-39 | the no-lost-update invariant holds in every state of every run, for the client filter and for the leader, with a map walk that is not atomic |
| `EventCache.BehindImpliesOutstanding` | server/backgroud.go:15-39 | a key on which the latest build, failed or not, and the map disagree has an event of its own outstanding |
| `EventCache.StaleImpliesOutstanding` | server/backgroud.go:15-39 | a key on which the published value and the map disagree has an event of its own outstanding, or the latest build was right about it and failed |
| `EventCache.QuiescentIsExact` | server/clients.go:157-175 | with nothing outstanding and no failed build, the published value describes exactly the map |
| `EventCache.FailedBuildLosesUpdate` | server/backgroud.go:28-32 | a run in which a failed build leaves the filter wrong for good although everything is quiet |
| `EventCache.FailedBuildHarmlessIff` | server/backgroud.go:27-39 | at every quiescent state the latest build was for exactly the keys of the map, and the published value describes the map iff it is of the same keys |
| `EventCache.MemberIsKept` | server/clients.go:157-175 | in every interleaving a key in the map has a goroutine that stores, announces, serves or is about to remove it, or a place in the queue, unless its goroutine left at shutdown |
| `EventCache.QuiescentNamesOnlyServed` | server/clients.go:157-175 | at quiescence a value of the latest build names only those whose goroutine still serves them or is about to remove them |
| `EventCache.CanSettle` | server/backgroud.go:15-39 | from every state of every run a quiescent state can be reached with the map as it is, with the published value that of the map unless the last build had failed |
| `EventCache.ConnectingPublishes` | state/peer_map.go:70-72 | from every state of every run, a session that is stored can come to be published |
| `EventCache.DisconnectingUnpublishes` | server/clients.go:164-169 | from every state of every run, one that is served and closes can come to be published no more |
| `EventCache.LeavingUnpublishes` | server/peers.go:190-195 | so can a peer that gossip says has left |
| `EventCache.CanShutDown` | server/clients.go:162-171 | from every state of every run all goroutines and the consumer can come to their end |
| `EventCache.MemberIffKept` | server/clients.go:157-175 | as long as a client has one session at a time, it is in the map iff a goroutine or the queue stands for its session |
| `EventCache.StoreSafeIff` | state/peer_map.go:126-134 | storing a client's session leads to no session being served that is not in the map, before another is stored, iff no other session of that client is being stored, queued, served or removed |
| `EventCache.SecondSessionOrphaned` | server/clients.go:162-171 | a run after which the removal of a client's first session takes its second out of the map |
| `Leadership.LowestOf` | server/leader.go:26-31 | the loop finds the minimum, for every list |
| `Leadership.Election.Recompute` | server/leader.go:24-44 | the leader becomes the minimum of the snapshot and self, and the timer is told exactly when it changes |
| `Leadership.LeaderIsLowest` | server/leader.go:17-47 | in every interleaving the leader is the minimum of the peers map and self unless the startup event or an event of a changed peer is outstanding |
| `Leadership.QuiescentLeader` | server/peers.go:180-195 | at quiescence the leader is the minimum of the peers map and self |
| `Leadership.TimerFollowsLeader` | server/leader.go:33-44 | the latest word to the timer is start iff the server takes itself for the leader, in every state of every run, iff its PeerID is not 0 |
| `Leadership.ElectionCanSettle` | server/leader.go:17-47 | from every state of every run the election can come to its end with the peers as they are, the leader the lowest and the last command sent saying whether that is the server itself |
| `Cluster.ExactlyOneDialer` | server/gossip.go:63-77 | each pair has exactly one dialer, and none iff both are respond-only |
| `Cluster.LeadsIff` | server/leader.go:25-41 | a server leads iff it is below every server it can be connected to |
| `Cluster.RivalsRespondOnly` | server/leader.go:25-41 | two servers that both believe they lead are both respond-only |
| `Cluster.OneLeaderIff` | server/leader.go:25-41 | there is exactly one leader iff at most one respond-only server is below all dialing ones |
| `Cluster.AgreementIff` | server/leader.go:25-41 | all servers name the same leader iff the least dials or is the only respond-only one, and then it is the least |
| `Cluster.SettledElection` | server/leader.go:17-47 | after any runs of all servers that end quiescent and fully connected, the stored leaders agree on the least iff the dial rule's do, and the self-believed leaders and the started timers are those of the dial rule, rivals included |
| `Meta.RoundTripIff` | server/meta.go:40-66 | marshalling and decoding gives the value back iff its address is an IPv4 one and the receiver's RespondOnly was clear or the value's is set |
| `Meta.DecodeOfEncode` | server/meta.go:40-66 | what comes back differs only in the address, of which the last four bytes come back as an IPv4 one, and in a RespondOnly already set |
| `Meta.MetaImage` | server/meta.go:40-51 | the 26 bytes one by one, for all small numbers |
| `Meta.V6ComesBackAsV4` | server/meta.go:40-66 | the address ::1 comes back as 0.0.0.1 |
| `Meta.Meta.MarshalBinary` | server/meta.go:40-51 | the buffer written in place is the 26-byte encoding; an address that does not parse panics, and nothing else does |
| `Meta.Meta.UnmarshalBinary` | server/meta.go:53-66 | the receiver is overwritten except for a RespondOnly already set; a wrong length changes nothing |
| `Meta.ReconcileNode` | server/gossip.go:83-99 | one turn of the loop dials iff the disjunction of all respond-only flags so far says so |
| `Meta.PeerReconciliation` | server/gossip.go:79-101 | the loop dials exactly the members of that rule, with the metadata the reused Meta holds |
| `Meta.StickyVersusFresh` | server/gossip.go:79-101 | it dials every member a fresh decode would, and the extra ones are exactly those misread as respond-only |
| `Meta.SameDialsIff` | server/gossip.go:79-101 | it dials the same members as a fresh decode iff no session-less lower non-respond-only member follows a respond-only one |
| `Meta.MisreadMeansBothDial` | server/gossip.go:63-77 | a misread member dials too, so both ends of the pair dial |
| `Meta.MisreadHappens` | server/gossip.go:79-101 | server 5 meeting respond-only 9 and then 1 dials 1, which a fresh decode would not, and 1 dials 5 |
| `Links.LinkBijection` | multiplexer/link.go:44-62 | links and 18-byte strings correspond one to one |
| `Links.LinkImage` | multiplexer/link.go:44-51 | the 18 bytes one by one, for all small numbers |
| `Links.MarshalBinary` | multiplexer/link.go:44-51 | the buffer written in place is the encoding |
| `Links.ValidProtocol` | server/peers.go:88-98 | the flag loop answers membership |
| `Links.PeerNegotiation` | server/peers.go:57-116 | for every read length, a session is accepted iff all 18 bytes arrived and say the right thing, and the accepted link re-encodes to them |
| `Links.ClientNegotiation` | server/clients.go:59-138 | for every read length, a client is given an identity iff all 18 bytes arrived and say the right thing; the reply is the offer with source and destination filled in |
| `Links.ForwardedBytes` | mux/quic.go:138-160 | over any path, the link that arrives is the bytes up to the shortest read and zeros after them |
| `Links.FullReadsKeepLink` | mux/common.go:10-25 | with full reads the link is unchanged over any number of hops |
| `Links.MistakenIff` | server/peers.go:139-146 | a forwarded link is taken for the messaging link iff all bytes the shortest read let through are zero |
| `Links.GatewayAddresses` | gateway/gateway.go:128-136 | a tunnel goes from the gateway's server to the hash of the host's first label, under the number of its protocol |
| `Links.TunnelNeverMessaging` | gateway/gateway.go:128-136 | no tunnel of a server with a non-zero PeerID is taken for the messaging stream when every read returns the source; with a shorter read, iff the source's leading bytes are zero |
| `Links.ShortReadMistaken` | mux/quic.go:142-151 | a tunnel of server 1 whose header read returns seven bytes is taken for the messaging stream |
| `Messages.MarshalBinary` | messaging/message.go:20-28 | the buffer written in place is the frame |
| `Messages.FrameImage` | messaging/message.go:20-28 | the frame byte by byte, for all small numbers |
| `Messages.ReadFrom` | messaging/message.go:39-68 | two reads give a frame, a stop or a panic, exactly as the frame function says |
| `Messages.Reader` | messaging/channel.go:74-95 | the loop delivers exactly the messages of the specification and stops where it does |
| `Messages.ReaderGetsPrefix` | messaging/message.go:39-68 | from any cut of what was sent, and however reads split or fail, the reader takes a prefix of the messages sent and does not panic |
| `Messages.ReaderGetsAllIff` | messaging/message.go:39-68 | it takes all of them iff every read was filled without an error |
| `Messages.HugeLengthPanics` | messaging/message.go:39-68 | a header that gives a length of 2^63 or more makes the reader panic |
| `Messages.PackInto` | messaging/rpc.go:19-29 | the buffer written in place is the packed payload |
| `Messages.PackImage` | messaging/rpc.go:19-29 | the payload byte by byte, for all small numbers |
| `Messages.UnpackOfPack` | messaging/rpc.go:19-39 | unpacking a packed payload gives it back |
| `Messages.PackOfUnpackIff` | messaging/rpc.go:31-39 | packing again what was unpacked gives the same bytes iff the length field counts what follows and the flag is 0 or 1 |
| `Messages.ParseOfFrame` | messaging/channel.go:86-93 | a whole frame is a request or reply iff it is of that kind; one of that kind whose payload is too short, or gives a length of 2^63 or more, panics |
| `Messages.ParseOfWire` | messaging/channel.go:86-90 | what the reader makes of a framed request or reply is the sender and the payload |
| `Rpc.RunKeepsInv` | messaging/rpc.go:45-112 | everything in flight stems from a call and says so truly: requests, handlers, answers, replies on the wire, on offer and received |
| `Rpc.NoRegistrationLeaks` | messaging/rpc.go:50-56 | a reply channel is registered only for a call still under way, under its own key |
| `Rpc.AtMostOneReply` | messaging/rpc.go:104-111 | the replies a call received and those on their way to it are one at most, and none while it is registered, whatever keys are drawn |
| `Rpc.NothingHappensTwice` | messaging/rpc.go:68-111 | whatever keys are drawn, a request is handed to the application once at most and answered once at most, an answer ends one call at most, and a call that waits has sent its request once |
| `Rpc.CallCanSucceed` | messaging/rpc.go:68-78 | from every state of every run a call about to be sent can end with whatever the addressed application answers |
| `Rpc.CallCanFail` | messaging/rpc.go:68-72 | or with nothing sent, when its request cannot be written |
| `Rpc.CallCanTimeOut` | messaging/rpc.go:73-75 | a call that waits can give up, and its reply channel is registered no more |
| `Rpc.ServerCanGiveUp` | messaging/rpc.go:90-92 | the server asked can give up, and nothing is answered |
| `Rpc.CallGetsOwnReply` | messaging/rpc.go:45-112 | in every run a call that had no unresolved rival under its key when it was drawn never returns anything but the addressed server's answer to its own request, whatever is drawn later |
| `Rpc.NewKeyGetsOwnReply` | messaging/rpc.go:47-56 | so does a call whose key its server had not drawn before |
| `Rpc.SafeDrawIff` | messaging/rpc.go:45-112 | in every reachable state, a drawn key gives its call its own reply or none in all that may follow iff no other call of that server under that key has its request to be written, on the wire or with the application, or its answer on the wire |
| `Rpc.ReusedKeyMixesReplies` | messaging/rpc.go:47-56 | a run after which a key that was drawn before, by a call that timed out, is drawn unsafely |
| `MessageChannel.OnlySubjectChanges` | messaging/channel.go:97-104 | forget, which goes by peer, only ever meets the stream it was started for when the peer is not registered again too early |
| `MessageChannel.ClosedExactlyOnce` | messaging/channel.go:28-104 | in every run in which the peer is not registered again too early, in and out are closed at most once, exactly once when the reader is done, never sent on by the reader afterwards; in and out are first in, first out, without loss |
| `MessageChannel.ReceivedInOrder` | messaging/channel.go:54-95 | at any moment of any run, early re-registration included, and however the far side reads, it takes a prefix of the messages that entered out, and all that were written iff its reads are filled |
| `MessageChannel.NilMeansEntered` | messaging/channel.go:106-122 | in any run, early re-registration included, write returns nil only for a message that entered out of the stream the peer had at the moment the call began |
| `MessageChannel.WritesToCurrentStream` | messaging/channel.go:113-119 | in any run, a call of write is about the stream the map held for the peer when it began, and about no other later |
| `MessageChannel.GoneMeansClosed` | messaging/channel.go:106-118 | in any run, write says gone only if the peer had no stream when the call began, or the one it had is closed |
| `MessageChannel.WriteCanReturn` | messaging/channel.go:106-122 | in any run a call of write can return: nil on an open stream whose writer has not failed, gone on a closed one |
| `MessageChannel.EnteredCanArrive` | messaging/channel.go:54-72 | in any run, all that entered a stream whose writer has not failed can get across, and a far side whose reads are filled takes every message |
| `MessageChannel.FailedWriteMayArrive` | messaging/channel.go:62-70 | a message whose write failed may be on the wire whole |
| `MessageChannel.NoStreamAbandoned` | messaging/channel.go:34-37 | in any run, a stream no longer in the map has its connection closed or is in the hands of a goroutine about to close it |
| `MessageChannel.CanFinish` | messaging/channel.go:45-104 | from every state of every disciplined run the peer can come to have no stream and no goroutines |
| `MessageChannel.ArrivedCanBeConsumed` | messaging/channel.go:74-95 | all that the reader of the current stream has read can get to the consumer of in |
| `MessageChannel.NothingEntersAfterClose` | messaging/channel.go:106-122 | in any run, early re-registration included, nothing enters out once it is closed, and it stays closed |
| `MessageChannel.RegisterSafeIff` | messaging/channel.go:28-104 | wherever a disciplined run has left the peer unregistered, registering it keeps every stream sound in all that may follow, later registrations being disciplined, iff the goroutines of all earlier streams are done; otherwise some continuation makes the new reader send on a closed channel |
| `MessageChannel.StaleForgetPanicsReader` | messaging/channel.go:45-49 | a run in which an old stream's goroutine closes the peer's new stream and its reader sends on a closed channel |
| `MuxChannel.SingleLoopSingleClose` | multiplexer/channel.go:39-74 | one run loop at most; outgoing open while it runs; every channel and the session closed at most once; no panic |
| `MuxChannel.Conservation` | multiplexer/channel.go:57-74 | items accepted are those received, then those buffered, then the one in hand, in order |
| `MuxChannel.AtRestExactlyOnce` | mux/quic.go:213-229 | with every goroutine back or blocked, the run loop on a full outgoing included, each flag says whether its one close was made; a Bye closed closer, the session and timeoutCh once each |
| `MuxChannel.ClosedInOrder` | mux/quic.go:213-229 | closer is closed before the session, the session before timeoutCh unless closeTimeoutCh was called by itself, and outgoing only after closer or the context |
| `MuxChannel.PutOnce` | multiplexer/channel.go:31-33 | every item Put was called with is accepted once or still waits |
| `MuxChannel.PutGetsThrough` | multiplexer/channel.go:57-74 | a loop that waits can take from any waiting Put, and the reader then gets the item after all accepted before |
| `MuxChannel.CancelEnds` | multiplexer/channel.go:57-74 | from every state of every run, cancelling the context lets all but blocked Puts come to their end, with outgoing closed and every accepted item received |
| `MuxChannel.ByeEnds` | mux/quic.go:223-229 | so does a call of Bye, with closer, session and timeoutCh closed once each |
| `PeerMap.CounterEquation` | state/peer_map.go:47-75 | modulo 2^64, the counter and the stores it has yet to count make up the map, the stored-over sessions and the deletions yet to be uncounted |
| `PeerMap.LenExactIff` | state/peer_map.go:95-97 | at quiescence Len is the size of the map iff a multiple of 2^64 stores went over another session |
| `PeerMap.OrderlyLenExact` | state/peer_map.go:47-75 | in every run in which no NewPeer checks while another for that peer has yet to store, no session is stored over, and once the counting is done Len is the size of the map |
| `PeerMap.CheckSafeIff` | state/peer_map.go:48-50 | a check that passes leads to no session stored over in all that may follow, later checks being orderly, iff no other call for the peer is between check and store |
| `PeerMap.LenCanBeNegative` | state/peer_map.go:95-97 | a removal between a store and its counting makes Len -1 |
| `PeerMap.SessionAccountedFor` | state/peer_map.go:47-75 | a session that was built is in exactly one place: waiting, in the map, being removed, closed, stored over, or given up |
| `PeerMap.RemoveFinishes` | state/peer_map.go:126-134 | from every state of every run Remove can take a session out of the map, count it no more and close it once |
| `PeerMap.NewPeerFinishes` | state/peer_map.go:62-75 | and NewPeer can put its session into the map and count it |
| `PeerMap.NewPeerGivesUp` | state/peer_map.go:62-66 | or give it up and change nothing |
| `PeerMap.ByeAtMostOnce` | state/peer_map.go:126-134 | racing removals close a session at most once, and one stored over never |
| `PeerMap.RacingNewPeersMiscount` | state/peer_map.go:47-75 | a run in which two calls for one peer leave one session in the map and two in the counter |
| `Checksum.Snapshot` | state/peer_map.go:104-111 | the walk lists every key of the map once |
| `Checksum.CRC64` | state/peer_map.go:77-89 | the checksum is the last of the states that begin with the initial one and go on by writing the eight bytes of each key, in ascending order, for every such sequence of states |
| `Checksum.DigestFeeds` | state/peer_map.go:84-88 | the digest is the end of feeding the keys one after the other |
| `Checksum.SortedUnique` | state/peer_map.go:79-81 | a sorted list is determined by the set of what it holds |
| `Checksum.OrderIrrelevant` | state/peer_map.go:77-89 | the checksum depends on the key set alone, not on the order of the walk |
| `ConnectedClients.MarshalBinary` | state/connected_clients.go:42-55 | the buffer written in place is the encoding |
| `ConnectedClients.ClaimImage` | state/connected_clients.go:42-55 | the bytes one by one, for all small numbers |
| `ConnectedClients.Decode` | state/connected_clients.go:57-73 | too few bytes are an error, a length of 2^63 or more panics, anything else gives as many fingerprints as the length field says |
| `ConnectedClients.DecodeOfEncode` | state/connected_clients.go:42-73 | decoding an encoding gives the value back |
| `ConnectedClients.HasSurvivesTheWire` | state/connected_clients.go:75-77 | for every membership test and client, the filter that arrives answers as the one that was sent |
| `ConnectedClients.EncodeOfDecodeIff` | state/connected_clients.go:57-73 | encoding again what was decoded gives the same bytes iff the length field is the number of bytes left |
| `PeerGraph.Index.Who` | state/peer_graph.go:15-26 | the walk returns some peer that claims the client, or 0 when none does |
| `PeerGraph.Index.Remove` | state/peer_graph.go:28-30 | the entry is gone and nothing else changes |
| `PeerGraph.Index.Replace` | state/peer_graph.go:32-43 | the entry changes iff it was absent or had another checksum, and its checksum is then the new one |
| `PeerGraph.PresentIff` | state/peer_graph.go:28-43 | after every history a peer is present iff replaced since its last removal, with the checksum of the latest Replace |
| `PeerGraph.PlainIff` | state/peer_graph.go:32-43 | the graph keeps step with a last-write-wins map throughout a history iff no claim arrives under the checksum of a different one |
| `PeerGraph.ReplaceLinearizes` | server/gossip.go:330-346 | with one merging goroutine and any number of removing ones, the graph is always what the operations done one by one leave, although Replace is two map operations |
| `PeerGraph.MergesInOrder` | server/gossip.go:330-346 | in every interleaving the claims take effect once each, in the order they arrived |
| `PeerGraph.OpTakesEffect` | state/peer_graph.go:28-43 | from every state of every run, once the merge under way is done, every Replace and Remove can take effect as on a graph nobody else changes |
| `ServerState.RunKeepsInv` | server/peers.go:110-126 | over every run the peers map never holds 0 or the server itself, and the graph never holds the server itself |
| `ServerState.AdmittedIff` | server/peers.go:57-126 | in every run a session is in the peers map iff an accepted handshake or the dial rule admitted it and it was not removed since; likewise a client |
| `ServerState.GraphIsHistory` | server/gossip.go:330-346 | in every run the graph is what its merges and removals leave |
| `ServerState.EventsOf` | server/peers.go:57-126 | every run has a history of events, so both hold of all runs |
| `ServerState.FindPath` | server/server.go:217-225 | local client first, then whichever peer the graph names if there is a session with it |
| `ServerState.FindAtOnce` | server/server.go:217-225 | if nothing changes meanwhile, the three lookups of findPath spread over a run are those of one state |
| `ServerState.PathIsHonest` | server/server.go:217-225 | over every run, with anything happening between and during its three lookups, a path is local iff the destination is a client at the first; one by way of a peer is by way of one that claimed the destination at some moment of the walk and has a session at the last, never of 0 and never of the server itself |
| `Routing.RunsHaveNoZeroPeers` | multiplexer/const.go:18-29 | servers reached by runs never have a session with 0 or with themselves |
| `Routing.AtMostOneHop` | server/server.go:217-235 | with true claims, in a net that does not change meanwhile, a stream ends at a server its destination is connected to, or not found at the start, after at most one hop, link unchanged, whatever the order of the walks |
| `Routing.SecondStep` | server/peers.go:139-152 | no such route goes on after its second step |
| `Routing.ForwardAlwaysPossible` | server/server.go:227-235 | wherever a stream is, the server there delivers, forwards or fails it |
| `Routing.HopBoundIff` | server/gossip.go:330-346 | no route takes more than one hop iff no server can follow a claim to a server that lacks the destination and can follow a claim itself |
| `Routing.Bounce` | server/server.go:217-235 | two servers with wrong claims about each other pass a stream on for as many hops as one likes |
| `Routing.ErringFilterBounces` | server/gossip.go:330-346 | whatever the filters, if those of two servers with a client each wrongly say yes to the destination, the two reach by runs of their own a settled state in which they pass a stream on for as many hops as one likes |
| `Routing.OneHopWhileChanging` | server/server.go:217-245 | over every run of the cluster, with each lookup of findPath at its own moment: if meanwhile no claim about the destination names another server than its owner and no other server has it, the stream takes one hop at most, keeps its link, and is delivered at the owner or not found, at the start or at the owner |
| `Routing.SteadyDelivers` | server/server.go:217-245 | if besides the destination stays with its owner, and the start keeps its session with and its claim about the owner, every route that ends is a delivery there, whatever else changes |
| `Routing.PairIsSteady` | server/server.go:217-245 | a run of two servers from nothing to a state that meets those conditions |
| `Routing.SettledEntry` | state/peer_graph.go:28-43 | whatever the interleaving of merges and removals, a settled graph holds for each peer it holds what that peer published, and holds every connected peer that has clients |
| `Routing.SettledClaimsExact` | state/peer_graph.go:15-26 | when client events, filters and gossip have settled, every claim about a client is true and none is missing for a connected peer |
| `Routing.ExactClaimsDeliver` | server/server.go:217-245 | with exact claims a stream is only ever at its start, at the owner, or delivered there |
| `Routing.UnconnectedNotFound` | server/server.go:217-235 | from a server not connected to the owner every route that ends is not found at the start |
| `Routing.SettledClusterDelivers` | server/server.go:217-245 | in a settled cluster every route that ends is a delivery to the owner, after no hop or one, with the link unchanged, or is not found at a start not connected to the owner |
| `Routing.OneSidedClusterSettles` | server/gossip.go:188-198 | two connected servers of which only one ever had a client, and which has heard nothing of the other, are settled |

## Left out

- TLS, QUIC, yamux, mplex and memberlist are foreign code; what they do is success, failure or delivery at any moment.
- The binary fuse filter and CRC-64: the filter is any membership test on its stored fields, the checksum any fold; what depends on exact answers says so in its hypotheses.
- The ACME account and certificate handling and the DNS provider: mostly network calls; their state invariants would only add easy members.
- The leader timer's own loop and its channels: no order or progress is guaranteed there, so only the commands sent to it are modelled.
- HTTP proxying, the gateway's accept loops, the client program, configuration and metrics are input, output and plumbing.
- Deadlines and timeouts are steps that may happen at any moment. What can happen next is proved from every state of every run; that it does happen depends on the scheduler and is not claimed.
- Register's panic on a peer that already has a stream: in the model the step is not possible then.
- Message.UnmarshalBinary and Link.Flip have no caller in the parts modelled.
- NewConnectedClients: its unsorted checksum appears as an arbitrary number that goes with a filter.
- Memory limits: a slice may have any length below 2^63; an allocation fails only above that.
- Leadership.TimerFollowsLeader: counts the commands of the election and not those `leaderTimer` queues for itself, because the two channels have no order between them and nothing is promised about it.
- Parsing and printing of IP addresses is library code: an address is what its text parses to, and texts that parse alike are not told apart.
- Routing.AtMostOneHop: over a net that does not change while the stream travels and in which the claimed servers have the destination; it allows several such servers. Routing.OneHopWhileChanging covers nets that change and claims that are out of date.
- Checksum.Snapshot: walks a map that nobody changes meanwhile; a walk under concurrent changes is what the scan of EventCache models.
- PeerGraph.Index.Who: walks a map that nobody changes meanwhile; ServerState.PathIsHonest covers a walk during which the graph changes.
- EventCache.RunKeepsInv: the counter beside the map is left to PeerMap, because it does not affect the events.
- PeerGraph.PresentIff: speaks of operations one after the other; PeerGraph.ReplaceLinearizes carries it to concurrent runs with one merging goroutine, which is what the server has.
