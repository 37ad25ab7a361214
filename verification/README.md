# A model of the Helium light gateway

The gateway sits between a LoRa radio and the Helium network. A packet forwarder hands it packets over UDP. A
*gateway* task sorts them into uplinks and beacons; a *dispatcher* task keeps the table of routers, follows the
network's routing and region updates, and sends each uplink to the routers whose filters match; one *client* task per
router forwards the packets and hands the answers back as downlinks; a *beaconer* task transmits and witnesses
beacons. The tasks talk over bounded first-in first-out channels.

This project models the parts of the repository that compute, parse and coordinate, and proves what they keep. It is
checked as a whole with `dafny verify dfyconfig.toml`.

| module | what it holds |
|---|---|
| `Bits`, `Bytes`, `Wrappers` | 32-bit words and bit fields on integers with explicit wrap-around; little-endian bytes, a reader and a sink; options and results |
| `Lines` | the senders that wait for a slot of a bounded channel, in the order in which they asked |
| `DevaddrCode`, `Subnet` | the DevAddr prefix code, and the packing of NetID blocks into one subnet space |
| `Frame` | the LoRaWAN frame reader and writer, specified by positions in the input |
| `Filter`, `Routing`, `Packet` | packed routing filters, matching, and the classification of received packets |
| `Store`, `Client` | the bounded queue of a router client, and the client's loop |
| `RoutingTable`, `Dispatcher`, `Session` | the table against its update history, the dispatcher's handlers, and its run loop |
| `System` | all tasks and channels as one step relation |
| `RegionSafety`, `PlanSafety`, `Delivery`, `Downlinks` | what every run of that system keeps: regions, channel plans, and each uplink, downlink and beacon once |
| `Waiting`, `Stuck`, `Recovery`, `Witnesses` | who waits for whom, exactly when a wait cannot end, and runs that lead there |
| `Releases` | the paged stream of releases, its filter, and release channels |

Code that only computes is a function here. Code that works in place is a class or a method with loops, proved against
a function or against a property stated on its own. The four kinds of task together are a relation between states: a
task that sends on a full channel waits in line with the channel's other senders, callers of the local API included,
and free slots go to them in the order in which they asked; service calls, timers and the radio may complete at any
time and with any outcome.

## What turned out not to hold as described

Each of these is modelled as coded and stated exactly.

- A DevAddr of the retired NetID is meant to come back from the subnet space under a current NetID
  (lorawan/src/subnet.rs:265-278). It does exactly when its network address is below the total of the listed blocks
  (`Subnet.RetiredComesBack`), which holds for all of them exactly when that total is at least 2^24
  (`Subnet.RetiredAllComeBack`); with the single NetID 0xE00001 listed, 0x90000080 comes back as 0x80, under NetID 0,
  which is neither listed nor local (`Subnet.RetiredGoesAstray`).
- The header writer emits the DevAddr twice and counts it once (lorawan/src/lib.rs:249-259), so writing a data frame
  that was read gives a different frame, and no written data frame reads back as itself (`Frame.WriteAfterRead`,
  `Frame.ReadAfterWrite`). Reading a join accept drops its channel list.
- A proprietary frame is refused below 12 bytes, header included, so no version-0 beacon (5 to 10 bytes) is accepted
  by a receiving gateway (`Packet.VersionZeroNeverHeard`). The transmission's size field does not count the header
  byte (`Packet.BeaconHeard`).
- The comment at src/router/dispatcher.rs:535 says that routers missing from the new list are removed. The guard looks
  at the entry's own routing, so nothing is ever removed and no stop is ever sent
  (`RoutingTable.RemovalRemovesNothing`); code and comment agree exactly when the new routing still lists every router
  of its OUI (`RoutingTable.RemovalAsDescribed`).
- A DevAddr filter compares 23 bits but can carry a 25-bit base; with a base of 2^23 or more it matches nothing
  (`Filter.FilterNonEmpty`).
- The bounded channels can block for good: whatever the settings, the gateway can come to wait in a cycle with the
  beaconer or with the dispatcher (`Witnesses.BeaconerCycle`, `Witnesses.DispatcherCycle`), and where clients keep
  packets also with the dispatcher and a client (`Witnesses.ClientCycle`). `Recovery.WaitsForever` says exactly when a
  waiting gateway never comes nearer to its turn.
- A filtered release stream drops the failure at its end, so the update loop's "failed to fetch releases" branch
  (src/updater/mod.rs:69) sees no failure (`Releases.FilteredStream`).

## Model

| member | source | states |
|---|---|---|
| DevaddrCode.DevaddrClosedForm | lorawan/src/subnet.rs:64-88 | for every valid NetID and in-range address the shifts and ors give the base of the NetID's block plus the address, inside the interval of its class |
| DevaddrCode.ParseClosedForm | lorawan/src/subnet.rs:98-122 | on a class's interval, parsing splits the offset into the id (with the class above it) and the low address bits |
| DevaddrCode.SizeByClass | lorawan/src/subnet.rs:35-50 | class by class and in numbers: which ids are valid, and how large a block is |
| DevaddrCode.DevaddrByClass | lorawan/src/subnet.rs:64-88 | class by class and in numbers: the DevAddr of every valid NetID and address |
| DevaddrCode.ParseByClass | lorawan/src/subnet.rs:98-148 | in numbers: the NetID and the network address of every 32-bit DevAddr |
| DevaddrCode.ReadBack | lorawan/src/subnet.rs:83-148 | a built DevAddr parses back to its NetID and its network address, for every valid NetID and address |
| DevaddrCode.Rebuild | lorawan/src/subnet.rs:83-148 | every DevAddr below 0xFF000000 parses to a valid NetID and is rebuilt by its own parts |
| DevaddrCode.Unassigned | lorawan/src/subnet.rs:98-122 | every DevAddr from 0xFF000000 on parses to 127, which is no valid NetID |
| DevaddrCode.NwkAddrRange | lorawan/src/subnet.rs:143-148 | network addresses have at most 25 bits, and a DevAddr is its own network address exactly when its NetID is 0 |
| Subnet.NetidAddrRange | lorawan/src/subnet.rs:124-141 | the accumulating loop returns the wrapped sums of the block sizes before and through the first occurrence of the NetID, or (0, 0) |
| Subnet.BlockIsOwned | lorawan/src/subnet.rs:83-152 | a NetID's block is exactly the set of assigned DevAddrs that parse to it |
| Subnet.TotalCountsOwned | lorawan/src/subnet.rs:124-152 | for distinct valid NetIDs the sizes add up to the number of DevAddrs that the list owns |
| Subnet.TotalBound | lorawan/src/subnet.rs:124-152 | for every such list the total is at most 2^32 - 2^24 |
| Subnet.RangeExact | lorawan/src/subnet.rs:124-141 | for every such list no 32-bit sum overflows: each range is what unbounded addition gives, below the total |
| Subnet.RangesDisjoint | lorawan/src/subnet.rs:52-62 | ranges of different listed NetIDs share no subnet address |
| Subnet.RangesCover | lorawan/src/subnet.rs:52-62 | every subnet address below the total lies in the range of some listed NetID |
| Subnet.PackedInOrder | lorawan/src/subnet.rs:23-27 | a DevAddr of the NetID at position i maps to the total of the blocks before position i plus its network address |
| Subnet.SearchExact | lorawan/src/subnet.rs:52-62 | the search returns the one NetID whose range holds the address, and 0 past the total |
| Subnet.ListedRoundTrip | lorawan/src/subnet.rs:14-27 | a DevAddr whose NetID is listed maps below the total and comes back unchanged |
| Subnet.PackedRoundTrip | lorawan/src/subnet.rs:14-27 | a subnet address below the total maps to a listed DevAddr and comes back unchanged |
| Subnet.PastTotal | lorawan/src/subnet.rs:14-18 | past the total the address only loses the lower bound of NetID 0, if that is listed |
| Subnet.DevaddrSurvives | lorawan/src/subnet.rs:14-27 | a DevAddr survives the round trip if and only if its NetID is listed, or NetID 0 is not and it lies between the total and 2^25 |
| Subnet.SubnetSurvives | lorawan/src/subnet.rs:14-27 | a subnet address survives if and only if it is below the total, or NetID 0 is not listed and it is below 2^25 |
| Subnet.LocalSurvives | lorawan/src/subnet.rs:1-27 | of the local DevAddrs exactly those of the retired NetID, while it is unlisted, do not survive; they come back under a listed NetID if and only if their network address is below the total |
| Subnet.RetiredComesBack | lorawan/src/subnet.rs:265-278 | what an address of the unlisted retired NetID comes back as: a listed and local one if and only if its network address is below the total, and otherwise the bare network address, under NetID 0 |
| Subnet.RetiredAllComeBack | lorawan/src/subnet.rs:265-278 | all addresses of the unlisted retired NetID come back under listed NetIDs if and only if the total is at least 2^24 |
| Subnet.RetiredGoesAstray | lorawan/src/subnet.rs:265-278 | an input at which the promise fails |
| Subnet.SumFits | lorawan/src/subnet.rs:23-27 | for every DevAddr and every valid list the sum of lower bound and network address is below 2^32, and is the result |
| Subnet.DifferenceFits | lorawan/src/subnet.rs:14-18 | for every subnet address and every valid list the lower bound subtracted is not greater |
| Subnet.LocalExact | lorawan/src/subnet.rs:6-9 | the local DevAddrs are exactly those from 0x90000000 to 0x90FFFFFF and those in the block of a listed NetID |
| Frame.ReadFhdr | lorawan/src/lib.rs:234-247 | reads address, control byte, counter and as many option bytes as the control byte says, or reports the end of input |
| Frame.ReadMacPayload | lorawan/src/lib.rs:344-368 | header, optional port and payload; port 0 beside options is refused |
| Frame.ReadFrame | lorawan/src/lib.rs:179-195 | the body that each message type denotes |
| Frame.ReadPhyPayload | lorawan/src/lib.rs:102-144 | total: accepts exactly the described inputs, with every field cut from its position, and gives every other input its error |
| Frame.BodyIsFields | lorawan/src/lib.rs:102-144 | reading the body in sequence agrees with the description by position, errors included |
| Frame.ReadByHeader | lorawan/src/lib.rs:27-144 | from the value of the first byte and the length: what every input that is no data frame reads as, with all fields, or its error |
| Frame.ReadDataByHeader | lorawan/src/lib.rs:102-144 | the same for data frames: each length and port error, and every field with its position and data tag |
| Frame.MTypeRoundTrip | lorawan/src/lib.rs:27-56 | every message type but the reserved one is decoded from its own code |
| Bytes.LittleEndian | lorawan/src/lib.rs:234-237 | two and four bytes as numbers, least weight first |
| Bytes.LittleEndian64 | lorawan/src/lib.rs:457-465 | eight bytes as a number, least weight first |
| Frame.WriteFhdr | lorawan/src/lib.rs:249-259 | emits the address twice, and reports four bytes fewer than it emits |
| Frame.WritePhyPayload | lorawan/src/lib.rs:146-154 | emits header, frame and integrity code; the count is four short for data frames and exact for all others |
| Frame.WriteAfterRead | lorawan/src/lib.rs:102-154 | writing any accepted input gives it back, without the channel list of a long join accept, and with bytes 1 to 4 repeated for a data frame; it is the identity exactly for the other frames |
| Frame.DirectionOnlyTags | lorawan/src/lib.rs:320-326 | both directions accept the same inputs and differ only in the tag of the control byte |
| Frame.DataNeverReadsBack | lorawan/src/lib.rs:249-259 | no data frame reads back as itself after writing |
| Frame.ReadAfterWrite | lorawan/src/lib.rs:102-168 | a frame reads back as itself after writing if and only if it is no data frame, its type fits, and its parts have their wire widths |
| Frame.ProprietaryReadBack | lorawan/src/lib.rs:90-144 | a written proprietary frame reads back as itself when its payload has 11 bytes or more, and is refused for its size otherwise |
| Filter.DevAddrFilterFromBin | src/router/filter.rs:57-67 | the base is the upper 25 bits and the size is 2^25 less four times the lower 23 bits |
| Filter.BigEndian | src/router/filter.rs:58-61 | six bytes as a number, most weight first |
| Filter.EncodeDecoded | src/router/filter.rs:57-67 | every six-byte string gives a describable filter and is the description of that filter |
| Filter.DecodeEncoded | src/router/filter.rs:57-67 | every describable filter (base below 2^25, size a multiple of 4 up to 2^25) is decoded from its description |
| Filter.FilterMembership | src/router/filter.rs:57-72 | membership in terms of the packed bytes; base plus size never overflows |
| Filter.FilterNonEmpty | src/router/filter.rs:68-72 | a filter matches some address if and only if its base is below 2^23 |
| Filter.EuiFilterFromBin | src/router/filter.rs:25-40 | which inputs are long enough, and the seed, length and every fingerprint that is read; the count is three times the length modulo 2^64, and so the product itself exactly when that fits |
| Packet.DataUplinkMatches | src/packet.rs:40-101 | from received bytes to the decision: a data frame matches a routing if and only if some packed subnet selects the little-endian address in bytes 1 to 4, modulo 2^23 |
| Packet.JoinUplinkMatches | src/router/routing.rs:20-35 | a join request matches if and only if some filter reports its device EUI bytes followed by its application EUI bytes |
| Packet.OthersMatchNothing | src/packet.rs:89-101 | join accepts and proprietary frames match no routing |
| Packet.BeaconTestAgrees | src/packet.rs:103-119 | for every accepted packet the header-only beacon test agrees with the full parse, so nothing handed to the beaconer is refused as no beacon |
| Packet.ChecksumDecides | src/packet.rs:40-68 | a packet with a failed checksum is refused; any other is accepted with its bytes exactly when they are a frame |
| Packet.WitnessByBytes | src/packet.rs:110-203 | the beacon test and the witness report of every packet, from its bytes and data rate |
| Packet.BeaconHeard | src/gateway.rs:281-307 | a transmitted beacon is accepted by a receiver, and witnessed with its own payload, if and only if it has at least 11 bytes |
| Packet.VersionZeroNeverHeard | beacon/src/beacon.rs:10-58 | every beacon of 5 to 10 bytes is refused for its size |
| Store.RouterStore.StoreWaitingPacket | src/router/store.rs:47-54 | the new queue, and the packet's entry in the ledger of fates |
| Store.RouterStore.PopWaitingPacket | src/router/store.rs:56-58 | returns and removes the oldest packet, and records it as popped |
| Store.RouterStore.GcWaitingPackets | src/router/store.rs:66-71 | keeps exactly the packets not older than the duration and returns the exact number removed |
| Store.AccountedStep | src/router/store.rs:47-71 | every call keeps the account: one fate each, lists in arrival order, what left by the front arrived first, the limit is kept |
| Store.Conservation | src/router/store.rs:38-71 | after any calls exactly the stored packets are on record, each waiting, popped, evicted or expired |
| Store.FatesAreFinal | src/router/store.rs:47-71 | no call changes the fate of a packet that no longer waits |
| Store.StoreExact | src/router/store.rs:47-54 | a packet is evicted only from a full queue, and then it is the one that has waited longest |
| Store.PushKeepsNewest | src/router/store.rs:47-54 | the queue keeps the newest packets, as many as there is room for |
| Store.GcExact | src/router/store.rs:66-71 | a pass keeps a packet exactly when its clock reading is not past reception plus duration |
| Store.GcRemovesPrefix | src/router/store.rs:66-71 | with nondecreasing reception times and one clock reading a pass removes exactly a prefix |
| Client.RouterClient.SendWaitingPackets | src/router/client.rs:151-162 | the pop-and-send loop computes the drain, and has emptied the queue when it succeeds |
| Client.RouterClient.HandleUplink | src/router/client.rs:133-141 | storing and draining, as one event of the client |
| Client.RouterClient.Run | src/router/client.rs:100-131 | the loop computes the state after any list of events, up to a stop |
| Client.DrainSendsPrefix | src/router/client.rs:151-180 | a drain sends a prefix of the queue in order and stops short only right after a failed send |
| Client.QueueIsTransparent | src/router/client.rs:100-180 | with room for one packet the client equals a client without a queue: every uplink is sent once, in order, under the region last announced, whatever the answers; the queue is empty after every event and all downlinks are handed on |
| Client.OneDownlink | src/router/client.rs:143-157 | after one uplink the packet of the answer is handed on if there is one, and nothing otherwise |
| Client.DownlinksExact | src/router/client.rs:143-162 | over a run the packets handed on are those of exactly the sends that were answered with one, in order |
| Client.NoRoomNoSends | src/router/client.rs:133-162 | with no room nothing is ever sent |
| RoutingTable.RemovalRemovesNothing | src/router/dispatcher.rs:535-552 | from every consistent table the removal pass removes no router and stops none, and consistency is kept |
| RoutingTable.RemovalExact | src/router/dispatcher.rs:535-549 | for any table: an entry stays exactly if it is of another OUI or its own routing lists it |
| RoutingTable.UpdateAt | src/router/dispatcher.rs:512-534 | what an update does to one key: channel kept, routing replaced exactly when it is listed, other OUIs untouched |
| RoutingTable.TableRefinesHistory | src/router/dispatcher.rs:505-581 | after any history a key is present if and only if some update started its router, with the last routing that listed it |
| RoutingTable.ChannelsAreForever | src/router/dispatcher.rs:520-533 | a key keeps its first channel however the history goes on |
| RoutingTable.DescribedRemovalExact | src/router/dispatcher.rs:535-549 | with the guard that the comment describes, an OUI's routers would be exactly the listed addresses that run |
| RoutingTable.RemovalAsDescribed | src/router/dispatcher.rs:535-549 | code and comment agree on an update if and only if it lists every present router of its OUI |
| RoutingTable.DelistedRouterStays | src/router/dispatcher.rs:535-549 | two updates after which a router that is no longer listed is still in the table |
| Dispatcher.Dispatcher.HandleUplink | src/router/dispatcher.rs:408-429 | a router of the table gets the packet if and only if its routing matches, or no router's does and it is a default router; each gets it once |
| Dispatcher.OrderExact | src/router/dispatcher.rs:408-429 | the same, for the channels in any order in which they are served |
| Dispatcher.Dispatcher.HandleRegionParamsUpdate | src/router/dispatcher.rs:431-467 | an update above the current height that can be decoded sets height and region and goes to the gateway and then once to every router; any other changes nothing |
| Dispatcher.Dispatcher.HandleOuiRoutingUpdate | src/router/dispatcher.rs:505-553 | the two loops apply one update to the table and send nothing |
| Dispatcher.Dispatcher.HandleRoutingUpdate | src/router/dispatcher.rs:469-503 | a response above the current height that can be decoded sets the height; a key is then in the table exactly if it was before or some item started its router, with the routing of the last item that lists it, or its old entry; any other response changes nothing |
| Dispatcher.ResponseExact | src/router/dispatcher.rs:491-500 | that statement about keys and routings, for every table and every list of items |
| Dispatcher.Dispatcher.PrepareGatewayChange | src/router/dispatcher.rs:334-366 | resets both heights, counts the retry, keeps table and region, and in the pause handles at most one message as it would be in a session |
| Session.RunIsSound | src/router/dispatcher.rs:162-366 | over every run: the table is that of all applied updates, accepted heights of a session are positive and strictly increasing, and every routing stream is requested at height 0 |
| Session.RetryCountsChanges | src/router/dispatcher.rs:300-350 | over every run the retry count is the number of gateway changes among the events after the last passing check |
| Session.AcceptedExactly | src/router/dispatcher.rs:436-501 | in a session exactly the decodable updates above zero and above all accepted before are accepted, and others change nothing |
| Session.PhaseRules | src/router/dispatcher.rs:180-213 | which events can happen in each phase and the phase they lead to: messages wait while a gateway is chosen, and a pause handles at most one |
| Session.NeverStopped | src/router/dispatcher.rs:535-552 | no sequence of updates after any history stops a router |
| RegionSafety.RegionConsistency | src/router/dispatcher.rs:408-581 | in every reachable state each packet sent carries the region that the dispatcher held when it dispatched it, the routers of the table are exactly the running tasks, and a client at its select holds no packet |
| RegionSafety.InvStep | src/router/client.rs:100-180 | the inductive invariant behind it: following each client's channel and pending sends in order stamps every uplink as dispatched |
| PlanSafety.BeaconsNeverOutrunPlans | src/gateway.rs:161-182 | in every reachable state the plans of beaconer, gateway and dispatcher are successive prefixes of one sequence, no beacon has met a gateway without a plan, every frequency and power on the air is one of a plan that the gateway has handled, and a beacon is dropped only if such a plan gives no power |
| PlanSafety.SequenceStep | src/beaconer.rs:89-162 | every step of every task keeps the plans in one sequence |
| Delivery.EveryUplinkOnce | src/router/dispatcher.rs:408-429 | in every reachable state, with room for a packet: the uplinks heard are those the dispatcher took, those on its channel and the one in the gateway's hand; and for every channel the uplinks meant for it, with the regions held when they were taken, are those its client sent, with the regions stamped on them, the one in its store and those on the way, each once and in order |
| Delivery.TakenExact | src/router/dispatcher.rs:408-429 | whom a taken uplink is meant for: a router whose routing matches, or, if none does, a default router |
| Delivery.RadioDecides | src/gateway.rs:134-142 | from the checksum, the bytes and the first byte: what is ignored, what goes to the beaconer and what to the dispatcher |
| Delivery.RepliesAgree | src/router/client.rs:153-157 | the system's client waits with a packet exactly if the reply carries it, and that is what the client model hands on |
| Delivery.NoRoomSilent | src/router/store.rs:47-54 | with no room for a packet no run sends one, and no client has a downlink to hand on |
| Delivery.ReceiveIsEvent | src/router/client.rs:106-141 | taking a message in the system is the handler of the client model: an uplink is stored, with the drain to follow, and a region change is complete |
| Delivery.SendIsDrain | src/router/client.rs:151-162 | one send in the system is one turn of the client model's drain |
| Downlinks.EveryDownlinkOnce | src/router/client.rs:143-162 | in every reachable state: the packets a router answered with are those its client handed on and the one in its hand, those handed on are those the gateway took and those on its channel, and likewise for the beacons made; each once and in order |
| Downlinks.DownlinksFindPlan | src/gateway.rs:216-228 | no downlink ever finds the gateway without a plan, and one is dropped only if a plan that the gateway handled gives no power |
| Waiting.TidyStep | src/sync.rs:5-13 | every step keeps the channel bounds and the lines: in each line are exactly the senders with a message, each once |
| Stuck.WaitingCannotStep | src/server.rs:12-14 | a task without the promise of a slot has no other step |
| Stuck.AwaitedCanStep | src/server.rs:12-14 | a task that is waited for, and does not wait itself, has a step |
| Stuck.HopelessChain | src/gateway.rs:116-174 | if a whole chain of waits waits, the gateway's channel is full and the gateway itself waits, for the beaconer or the dispatcher, in a cycle |
| Stuck.StuckChain | src/gateway.rs:116-174 | conversely the chain of waits of a stuck gateway never ends |
| Stuck.WaitIsServed | src/router/dispatcher.rs:408-461 | in every reachable state a chain of waits leads to a task that can step, unless the gateway is stuck |
| Stuck.StuckForever | src/gateway.rs:153-174 | over every run a stuck gateway stays in the same send, with the same channel contents, for ever |
| Recovery.GrantsKept | src/gateway.rs:161-174 | while the gateway takes nothing, every step keeps the promises of slots in its channel, and gives none to those that wait already |
| Recovery.DoomedStep | src/router/client.rs:143-149 | every step keeps a gateway doomed, in the same send and no nearer to its turn, if those it waits for need a slot of its own channel that is not promised to them |
| Recovery.Recovers | src/router/client.rs:143-162 | from every other reachable waiting state some continuation brings the gateway one message nearer to its turn |
| Recovery.WaitsForever | src/server.rs:12-14 | in every reachable waiting state the gateway never comes nearer to its turn if and only if it is doomed; a doomed one waits for ever, and one that is next in turn waits for ever only if it is doomed |
| Recovery.StuckIsDoomed | src/server.rs:12-14 | every cycle of waits is doomed |
| Witnesses.BeaconerCycle | src/beaconer.rs:105-139 | for every setup a run reaches a cycle of gateway and beaconer |
| Witnesses.DispatcherCycle | src/router/dispatcher.rs:431-467 | for every setup a run reaches a cycle of gateway and dispatcher |
| Witnesses.ClientCycle | src/router/client.rs:143-162 | for every setup with room for a packet a run reaches a cycle of gateway, dispatcher and client |
| Witnesses.DoomedNotStuck | src/router/dispatcher.rs:408-429 | for every such setup a run reaches a doomed state that is no cycle of waits yet |
| Witnesses.CapacitiesKept | src/server.rs:12-14 | in every reachable state the channels hold at most 10, 20, 10 and, for each client, 10 messages |
| Witnesses.CapacitiesReached | src/router/dispatcher.rs:564 | each of these bounds is reached by some run |
| Releases.FromVersion | src/updater/releases.rs:138-151 | the channel of the first identifier that is exactly alpha, beta, testnet or devnet, or the release channel if there is none |
| Releases.InChannel | src/updater/releases.rs:183-198 | in the release channel exactly without prerelease identifiers, in another exactly if some identifier contains its name |
| Releases.ContainsExact | src/updater/releases.rs:190 | a tag is contained in an identifier exactly if the text is something, the tag, and something |
| Releases.ChannelIsUnique | src/updater/releases.rs:138-151 | a version has one channel |
| Releases.OwnChannel | src/updater/releases.rs:138-198 | a version is in its own channel if and only if that is not the release channel of a prerelease |
| Releases.ReleaseStream.Next | src/updater/releases.rs:21-42 | yields the next item of the listing, fetching a page when the one before is used up; after a failure or an end it yields nothing |
| Releases.Take | src/updater/releases.rs:21-56 | the first items of the stream are those of page 1 and the later pages in listed order, up to the first failure or the first empty page after page 1 |
| Releases.ListedAt | src/updater/releases.rs:44-52 | where in the listing the release at a position of a page is |
| Releases.EndsExact | src/updater/releases.rs:27-36 | which pages end the stream: failures, and empty pages other than the first |
| Releases.PrefixesAgree | src/updater/releases.rs:21-56 | that description leaves one sequence: first items of equal length are equal |
| Releases.CompleteIsLongest | src/updater/releases.rs:21-56 | a stream that ended has yielded everything that the description allows |
| Releases.FilteredStream | src/updater/releases.rs:11-18 | the filter yields exactly the passing releases, in order, and never a failure |
| Releases.SelectExact | src/updater/releases.rs:11-18 | the passing releases are those at exactly the passing positions, in order |

## Left out

- Network, UDP, file and process access, cryptography, hashing, protocol buffers and the random generator: foreign code; their results are parameters or arbitrary steps.
- Filter.EuiFilterFromBin: the library's membership test and hash are a parameter (`EuiLookup`), so no membership law is stated.
- Routing entries from protocol buffers (src/router/routing.rs:37-60): an update that cannot be decoded is `None`.
- Shutdown and cancelled futures: the system runs without them, as do closed channels.
- Arithmetic that overflows is modelled as wrapping, as in a release build; a debug build panics instead. The retry counter and the page number are unbounded.
- The run loops of the gateway and the beaconer are steps of `System` on values rather than methods of classes, since what is proved of them is about interleavings; the packet forwarder's MAC and connection events are not modelled.
- The collection timer of a client is an event of `Client`, where it always finds an empty queue, and not a step of `System`.
- PlanSafety.BeaconsNeverOutrunPlans: the power that a plan gives, if any, is a field of the plan; its decimal arithmetic from limits and gain is not modelled.
- Recovery.Recovers: states that the gateway can come nearer to its turn; whether it does depends on a scheduler and on services that are not modelled. With callers of the local API ahead of it in line it is about the next message taken, since what later ones need depends on routing updates in between.
- Recovery.WaitsForever: the same holds; that the gateway waits for ever only if doomed is stated for a gateway that is next in turn.
- Cooperative scheduling inside the runtime: a sender asks for its slot in the step that gives it the message.
- RoutingTable.ChannelsAreForever: a channel is a number that is never reused; the client behind it is in `System`.
- Downlink windows, transmit power, fees, hold times, frequencies as floating point and data-rate names: single computations without a law of their own.
- Settings, command line, local API, logging, self-update installation and asset lookup: plumbing.
