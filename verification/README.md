# A verified model of PTPlus

PTPlus is a reverse tunnel. A client opens TCP connections to a server, upgrades them
with an HTTP 101, seals and frames everything that follows into packets, and multiplexes
streams on top; the server spreads incoming TCP connections and UDP flows over the
sessions it has. This project models that code in Dafny 4.11 and proves what it keeps
over every input and every run. `dafny verify dfyconfig.toml` checks all of it.

## What is modelled

| file | what it models |
|---|---|
| `Bytes.dfy`, `Text.dfy` | byte strings and big-endian integers; trimming, lower-casing, splitting |
| `Transport.dfy` | a connection with partial writes and arbitrary read segments; `io.ReadFull`; the connection that cuts its first write in two |
| `Padding.dfy` | both padding formats, with their 16-bit length arithmetic and Go's slice panics |
| `Framing.dfy` | length-prefixed framing over any decoder: cuts, prefixes, unique decoding |
| `Packet.dfy` | the packet format: padding, sealing, 32-bit length; the exact round-trip domain |
| `EncryptedConn.dfy` | the connection object: packet write, burst write, read with its left-over buffer |
| `WriteDomain.dfy` | for which data a Write is safe under every draw of chunks, pads and nonces |
| `StreamRun.dfy` | whole runs: writers taking turns under the lock, one reader, write errors, read errors |
| `Upgrade.dfy` | the HTTP upgrade as a two-party protocol, and the reader that keeps its read-ahead |
| `SessionPool.dfy` | the session slice changed in place, the choice of a session on either side, round-robin balance |
| `HealthScan.dfy` | one tick of the health monitor, session by session under the lock |
| `ClientRun.dfy` | the client's goroutines around its pool: workers, forward streams being opened, health check |
| `ServerRun.dfy` | every server goroutine that touches the pool or a stream counter, one program counter each |
| `ServerRoles.dfy` | where each of them can be by how it was started, what the actions of a run add up to, and that every count can drain |
| `UdpFlows.dfy` | the UDP flow table with its listener, readers and sweeper |
| `StreamHeader.dfy` | the stream tag and target header, including the untagged header of older servers |
| `Failover.dfy` | the client's reconnect loop over several server paths |
| `Relay.dfy` | the two copiers, their channel and the caller that closes both ends |
| `PortMaps.dfy` | port mappings printed as `bind->target` and parsed back |
| `ConfigLoad.dfy`, `LoadedMode.dfy` | the configuration pipeline, and the settings it hands to the packet code |
| `ConfigTables.dfy` | the values behind the pipeline, field by field |

Objects whose methods update fields are classes (`FragmentedConn`, `EncryptedConn`,
`BufferedConn`, `Pool`, `FlowTable`, `Loader`); each method is proved against a function or
predicate, and the larger results are lemmas about those. Goroutines that share state are
state machines whose steps are the accesses between which another goroutine can run; results
about them quantify over every finite list of enabled steps. AES-GCM is a pair of functions
that satisfies what sections 7.1 and 7.2 of NIST SP 800-38D promise: opening undoes sealing,
and a tag adds 16 bytes. Random draws are unconstrained within the bounds of `secureRandInt`.

## What the proofs found

* A payload of 65534 or 65535 bytes (modulo 65536) makes both strip functions slice with an
  upper bound that wrapped to 0 or 1, which panics; longer payloads come back shortened.
  The bound of 65533 is exact (`ObfsStripExact`, `StealthStripExact`).
* With stealth padding alone, a payload of 3 or 4 bytes travels unpadded, and the reader takes
  it for a padded one when its first two bytes read as 1..length-2. Burst splitting can produce
  such a last chunk, and then the stream is corrupted (`ShortTailCorrupts`). Whether that can
  happen depends on the data alone, and the exact condition is `WriteExact`: with the default
  maximum of 4096, a burst is safe exactly when neither its last three nor its last four bytes
  look padded (`TailsDecide`); with a maximum above 65533 no padded burst is
  (`LongChunksDecide`). When all data written is safe, fidelity needs no other assumption
  (`SafeFidelity`).
* An empty Write without key and obfuscation sends a packet of length 0, which the reader
  refuses (`EmptyExact`). Beyond these cases a packet goes wrong only when its body exceeds
  16 MiB (`PacketExact`).
* The UDP listener looks a flow up under the lock, but stores its lastSeen after releasing it.
  The sweep can come in between, evict the flow at the moment its peer speaks again, and the
  datagram in hand is lost (`DatagramLost`). A flow that has been spoken for within the timeout
  can be evicted exactly then (`EvictionExact`).
* The UDP reader deletes its key, not its own entry. After an eviction it can delete the entry
  of the flow that replaced it (`OrphanReachable`), which stays open and out of the sweep's
  reach for good, and hears nothing more from its peer (`OrphanForever`); this is the only step
  that unlists a live flow (`ListedExact`).
* Session choice indexes with `int(uint64) % n`, which is negative for a counter at or above
  2^63 unless n divides 2^64 minus the counter (`PanicExact`, `NegativeExact`). Where the
  client's scan then panics is `OpenPanicExact`.
* The server closes every session it takes out of its pool (`ServerRun.PoolSafety`); the client
  does not. A session on which one stream failed to open is lost to the client's pool while it is
  open and its worker serves it (`LostReachable`), and it never comes back (`LostForever`). This
  and a worker about to close are the only ways out for an open session (`ClientRun.PoolSafety`).
* The relay closes both ends as soon as one direction ends. A peer that hangs up its sending
  direction only may lose what the other side has sent, although nothing failed
  (`HalfCloseDrops`); a copier that reaches the end of file has passed on everything (`RelaySafe`).
* Loading a configuration is a fixed point except in two cases: a fake path of white space
  only, and a server without a listen address whose first port carries white space. An older
  version adds exactly four settings that a reload takes back (`MigrationReverts`). Whatever
  the file says, the second load settles it (`LoadSettles`).

Where the code and its comments disagree, the code is modelled: the server drops a stream
whose tag it cannot read, although a comment speaks of falling back to the old protocol
(`server.go:246`); an open error evicts the session and returns, although a comment speaks of
a retry (`server.go:374`); only the very first write can be cut, although a comment speaks of
the first large one (`tls_fragment.go:38`); and a burst chunk has at least 2048 bytes even when
the configured maximum is smaller (`encrypted_conn.go:136-137`).

## Model

| member | source | states |
|---|---|---|
| Transport.SecureRandInt | encrypted_conn.go:292-301 | the draw is 0 for a non-positive bound, else inside 0..n-1 |
| Transport.NetConn.ReadFull | encrypted_conn.go:163-175 | whatever segments arrive, exactly the next n bytes are returned and consumed; it fails iff fewer than n will ever come |
| Transport.FragmentedConn.Write | tls_fragment.go:47-73 | the bytes counted are the bytes sent, in order; at most one cut, only on the first write, and the count is the sum of both parts |
| Transport.CutExact | tls_fragment.go:47-73 | a long first write is cut in two just after the fragment size, any other is sent whole |
| Transport.CutAtMostOnce | tls_fragment.go:39-73 | over all writes of a connection the byte stream is kept and exactly one extra segment appears, iff the first write is long |
| Transport.ChooseFragmentSize | tls_fragment.go:81-102 | the size is at least 1 and inside the configured range with its defaults, so both parts of a cut are non-empty |
| Padding.AddPadding | encrypted_conn.go:216-229 | prefix, data and a pad whose length is the minimum or below the maximum |
| Padding.AddStealthPadding | encrypted_conn.go:243-252 | prefix, data and a pad whose length is the minimum or at most the maximum |
| Padding.ObfsStripExact | encrypted_conn.go:216-240 | stripping undoes padding iff the payload has at most 65533 bytes, and panics iff its length modulo 65536 is 65534 or 65535 |
| Padding.StealthStripExact | encrypted_conn.go:243-263 | stripping undoes padding iff the payload has 1..65533 bytes, gives up iff the length is 0 modulo 65536, and panics iff it is 65534 or 65535 modulo 65536 |
| Padding.ShortStripExact | encrypted_conn.go:254-263 | an unpadded payload of at most 4 bytes is left alone iff it does not look padded; otherwise it is shortened |
| Framing.FrameSync | encrypted_conn.go:163-190 | cut the wire anywhere: the reader gets exactly the messages wholly inside, and stops on the boundary after them |
| Framing.UniqueDecoding | encrypted_conn.go:163-190 | two packet lists with the same wire carry the same messages |
| Framing.ScanAppend | encrypted_conn.go:163-190 | after a clean prefix, later bytes are decoded as if they stood alone |
| Packet.UnpadExact | encrypted_conn.go:192-204 | with the reader's fallback to the raw payload, unpadding gives the data back iff it is in the strip domain |
| Packet.BodyExact | encrypted_conn.go:83-103 | opening and unpadding what was padded and sealed gives the data back iff it is in the strip domain |
| Packet.PacketExact | encrypted_conn.go:80-116 | a packet is read back with the bytes after it untouched iff its data is in the strip domain and its body has 1 byte to 16 MiB; no length is truncated there |
| Packet.PayloadLayout | encrypted_conn.go:83-89 | with obfuscation on, or stealth padding on and more than 4 bytes, the payload is two length bytes, the data and the pad; else the data |
| Packet.PacketLayout | encrypted_conn.go:91-116 | on the wire: the length of what follows, and with a key the 12-byte nonce and the sealed payload |
| Packet.LengthRule | encrypted_conn.go:163-175 | the reader takes the first four bytes as a big-endian length, refuses 0 and more than 16777216, and waits until all of it is there |
| Packet.EmptyExact | encrypted_conn.go:80-116 | an empty Write is read as an empty message, except that without key and obfuscation its packet is refused |
| Packet.PrefixNeedsMore | encrypted_conn.go:163-175 | a packet cut anywhere is waited for, never misread or refused |
| Packet.NextPacketGrows | encrypted_conn.go:163-212 | a decision of the reader never changes when more bytes arrive |
| Packet.PacketFrames | encrypted_conn.go:91-116 | the framing results hold of a packet iff it is in the domain |
| Packet.ScanOneExact | encrypted_conn.go:80-212 | read alone, a packet is one message equal to its data iff it is in the domain |
| EncryptedStream.EncryptedConn.WritePacket | encrypted_conn.go:80-124 | success: the whole packet on the wire and all data counted; failure: nothing counted, a prefix of the packet on the wire |
| EncryptedStream.EncryptedConn.BurstWrite | encrypted_conn.go:127-149 | terminates; the packets carry the data in order up to the count returned, the count is exactly the chunks fully written, only the last chunk is short, and the chunk that failed has a size the code may draw |
| EncryptedStream.EncryptedConn.Write | encrypted_conn.go:67-78 | one call's packets are contiguous on the wire and carry exactly the counted prefix of its data, then a prefix of the packet that failed; burst mode only above the maximum size |
| EncryptedStream.EncryptedConn.OpenAndStrip | encrypted_conn.go:177-204 | refuses, panics or yields the plaintext exactly as the decoding function says |
| EncryptedStream.EncryptedConn.Read | encrypted_conn.go:153-212 | never returns more than the caller has room for: the front of the buffer, else of one whole packet, as much as fits; the rest stays in the buffer, and it fails without output otherwise |
| EncryptedStream.SingleUnlessLong | encrypted_conn.go:67-78 | a Write sends one packet unless burst splitting is on and the data longer than the configured maximum |
| EncryptedStream.BurstIndexed | encrypted_conn.go:135-147 | every chunk is within the cap and every chunk but the last has at least 2048 bytes |
| WriteDomain.ReceivedExact | encrypted_conn.go:80-212 | the reader gets every packet of a list as sent iff all are in the domain |
| WriteDomain.WriteExact | encrypted_conn.go:67-149 | every list of packets a Write of this data may send, under all draws, is received as sent iff the data is safe |
| WriteDomain.SafeFidelity | encrypted_conn.go:67-212 | if every Write's data is safe, then in every run, under all draws and with failing Writes, delivered is a prefix of written, and without errors delivered, buffered and in-flight bytes are the accepted ones |
| WriteDomain.SafeOutcome | encrypted_conn.go:67-149 | whether a Write of safe data succeeds or fails, every packet it sent or broke off is in the domain |
| WriteDomain.StealthBurst | encrypted_conn.go:83-89 | a stealth-padded burst is safe iff no tail of 3 or 4 bytes that a split can end in looks padded |
| WriteDomain.SplitsExact | encrypted_conn.go:135-147 | n bytes can be cut into long chunks iff the least number of chunks, each at least 2048, fits n |
| WriteDomain.TailsDecide | encrypted_conn.go:135-147 | with a maximum of 4096..65533: safe iff neither the last 3 nor the last 4 bytes look padded |
| WriteDomain.LongChunksDecide | encrypted_conn.go:135-147 | with a maximum above 65533 no padded burst is safe |
| StreamRun.ChunkExact | encrypted_conn.go:80-212 | in every state of a run, a packet adds exactly its own data for the reader iff it is in the domain |
| StreamRun.StepKeeps | encrypted_conn.go:67-212 | every step of writer or reader keeps delivered, buffered and in-flight bytes equal to the accepted ones |
| StreamRun.Fidelity | encrypted_conn.go:67-212 | in every run, delivered bytes are a prefix of the data the Writes were called with, in lock order; without errors delivered, buffered and in-flight bytes are the accepted ones, and all of the data between Writes; a read fails only on an incomplete packet |
| StreamRun.Drain | encrypted_conn.go:153-212 | from any such state, some number of reads of any one positive size delivers every accepted byte |
| StreamRun.WriteIsRun | encrypted_conn.go:67-149 | whatever the connection object's Write puts on the wire, whole packets and the torn one of a failure, is a run of the lock holder |
| StreamRun.ShortTailCorrupts | encrypted_conn.go:83-149 | a burst whose last chunk is 3 bytes that look padded is not delivered as written |
| Upgrade.HeadExact | mimic.go:108-114 | a head of lines ends exactly at its first empty line, whatever follows |
| Upgrade.HeadMeans | mimic.go:108-114 | a head ends at the first empty line, closed by LF or CR LF, and nowhere when there is none |
| Upgrade.BufferedConn.ReadHead | mimic.go:108-121 | reads one head in any segments and loses nothing read past it |
| Upgrade.BufferedConn.Read | mimic.go:41-48 | returns the next pending bytes, buffer before socket, and fails iff none are pending |
| Upgrade.StepUp | server.go:161-193 | each step keeps the server's read-ahead free of tunnel bytes and the upward stream whole |
| Upgrade.StepDown | mimic.go:100-122 | each step keeps buffer and socket together equal to the bytes after the 101 head |
| Upgrade.UpgradeLosesNothing | server.go:150-201 | in every run nothing is thrown away at the hijack, and both directions deliver in order exactly the bytes that the tunnels were given to send |
| Upgrade.UpgradeReached | mimic.go:100-122 | a concrete run brings both ends into the tunnel, with bytes read ahead behind the 101 delivered |
| Upgrade.HijackDiscards | server.go:168-185 | bytes sent behind the request would be thrown away, exactly those |
| SessionPool.RemoveIsDelete | server.go:517-526 | without duplicates, removing the first occurrence is deleting the member; the order stays |
| SessionPool.KeepIsClosedDelete | server.go:541-554 | compaction deletes exactly the sessions found closed |
| SessionPool.OrderedSet | server.go:511-560 | add, remove and compaction refine an insertion-ordered set; remove is idempotent |
| SessionPool.Pool.Add | server.go:511-515 | appends at the end, in place or in a larger array |
| SessionPool.Pool.Remove | client.go:371-380 | the slice becomes itself without the first occurrence, by moving the tail down |
| SessionPool.Pool.Compact | server.go:541-554 | overwriting the array that is being read equals filtering the sequence; evicted and kept add up |
| SessionPool.LeastLoaded | server.go:402-419 | the first of the least loaded open sessions; none iff none is open below the largest load |
| SessionPool.Choose | server.go:335-370 | the first fitting session in cyclic order, else the least loaded open one, else nobody; the counter moves once, and not at all on an empty pool |
| SessionPool.PickMeans | server.go:349-369 | the choice is an open session, one below the limit while there is any, else the first with the least load; nobody only when none is open |
| SessionPool.PanicExact | server.go:346-351 | the start index is negative iff the counter is at or above 2^63 and n does not divide 2^64 minus the counter; below, it is the plain remainder |
| SessionPool.NothingFits | server.go:349-361 | one round of the scan visits every session |
| SessionPool.UnsaturatedPick | server.go:343-361 | when all sessions fit, the start of the scan is chosen |
| SessionPool.OpenOnFirst | client.go:388-417 | the pool left behind, the session returned and the counter are those of one scan over a copy of the pool |
| SessionPool.OpenScanExact | client.go:402-416 | the scan returns the first session in cyclic order that is not closed and opens, nobody iff there is none, and leaves the pool without exactly those that failed to open before it |
| SessionPool.OrderExact | client.go:401-403 | while counter plus pool size stay at or below 2^63, the indexes visit every session once, from the remainder of the counter |
| SessionPool.OpenPanicExact | client.go:402-416 | for every counter the scan panics iff some index is negative and all sessions looked at before are closed or fail to open |
| SessionPool.NegativeExact | client.go:401-403 | the index of a step is negative iff counter plus step, wrapped, is at or above 2^63 and n does not divide its distance to 2^64 |
| SessionPool.RoundRobinBalance | server.go:343-361 | over any m choices with all sessions fitting, each is taken floor or ceiling of m/n times |
| HealthScan.LookKeeps | server.go:541-551 | while sessions go on dying, the kept ones stay the pool looked at without those found closed, among them all closed since the tick began |
| HealthScan.TickExact | server.go:541-554 | a finished tick leaves the pool without all sessions closed at its beginning, and without no session that is open at its end |
| ServerRun.StepBalanced | server.go:235-400 | every step of every goroutine keeps each counter equal to the number of goroutines it counts |
| ServerRun.StepPool | server.go:511-560 | every step keeps the pool equal to the sessions added and not removed, in order, without duplicates |
| ServerRun.StepGone | server.go:226-227 | every step keeps removed sessions closed or about to be closed by their remover |
| ServerRun.StreamConservation | server.go:235-607 | in every run a session's counter is the number of goroutines between increment and decrement; never negative, zero when none is left, whatever fake traffic runs |
| ServerRun.StepMonitor | server.go:540-555 | every step of every goroutine keeps what the monitor has found valid: the lock keeps the pool still |
| ServerRun.PoolSafety | server.go:511-560 | in every run the pool has no duplicates, keeps insertion order and loses only sessions that get closed |
| ServerRun.TickOverRuns | server.go:540-555 | in every run a tick of the monitor evicts every session closed when it began, and only closed ones, and keeps the order |
| ServerRoles.RolesOverRuns | server.go:235-507 | in every run a reverse TCP connection is opening, relaying or ended; a UDP listener never ends; only a reader it spawned reads a flow; each on the session of its start or choice, and at rest exactly when its last action says so |
| ServerRoles.PoolOverRuns | server.go:372-376 | in every run the pool is the sessions announced less those whose accept loop failed, those on which a stream failed to open and those a tick found; closed are exactly those that died or that their remover closed |
| ServerRoles.CountsOverRuns | server.go:235-600 | in every run a counter is the increments less the decrements of the goroutines on its session |
| ServerRoles.CountDrainsFromAnywhere | server.go:235-600 | from every reachable state, steps of the counted goroutines alone bring a counter to zero |
| ServerRoles.TcpLife | server.go:311-400 | a concrete reverse TCP connection is counted while it relays on the session it chose |
| ServerRoles.UdpReads | server.go:462-496 | a UDP listener that holds a stream starts its reader and goes on listening |
| ServerRoles.HandlerLife | server.go:235-240 | a concrete accepted stream is counted while it is handled |
| ClientRun.StepPool | client.go:365-440 | every step of every client goroutine keeps the pool equal to the sessions added and not removed, in order, without duplicates |
| ClientRun.PoolSafety | client.go:365-417 | in every run an open session is out of the pool iff its worker is about to close it or a stream on it failed to open; it always has its worker |
| ClientRun.LostReachable | client.go:405-414 | a concrete run after which an open session with a running worker is in no pool |
| ClientRun.LostForever | client.go:365-417 | over every continuation such a session stays out |
| ClientRun.TickOverRuns | client.go:419-440 | the health check is exact in every run, as on the server |
| ClientRun.ScanSound | client.go:388-417 | among all other goroutines, the session opened is reached in cyclic order, and all before it had been found closed or had failed; giving up means this of every session of the copy |
| ClientRun.OpenOverRuns | client.go:388-417 | in every run, by the pool at the time of the copy and the number of uses of the counter: giving up means every session then in the pool is closed or failed, and a stream is on the first, in cyclic order, that is not |
| ClientRun.TriesLive | client.go:404-409 | a session is passed over when closed at that moment, and opened only when not |
| ClientRun.PoolOverRuns | client.go:365-440 | in every run the pool is the sessions announced less those whose worker failed, those on which a stream failed to open and those a tick found; closed are exactly those that died or that their worker closed |
| UdpFlows.StepKeeps | server.go:436-501 | every step keeps each entry leading to an open flow of its address whose reader has not deleted |
| UdpFlows.FlowTableSafe | server.go:436-501 | in every run entries lead to open flows of their address, and each stream serves one address in both directions |
| UdpFlows.DatagramsExact | server.go:483-499 | in every run a flow has returned exactly the datagrams its reader got, in order, but for the one in hand; and its stream got exactly those looked up for it and written while it was open |
| UdpFlows.ClockExact | server.go:489-498 | lastSeen is the time of the flow's creation or last touch by listener or reader |
| UdpFlows.EvictionExact | server.go:443-446 | in every run, a flow the sweep may evict was spoken for within the timeout iff a datagram taken since is still in hand, its lastSeen not stored yet |
| UdpFlows.DatagramLost | server.go:461-499 | a concrete run in which the sweep comes between look-up and touch, and the datagram reaches no stream |
| UdpFlows.ListedExact | server.go:491-493 | a step keeps every live flow in the table iff it is not a delete by key of another live flow's entry |
| UdpFlows.ListedOverRuns | server.go:476-494 | in runs without such deletes every live flow is in the table |
| UdpFlows.OrphanReachable | server.go:439-494 | a concrete run after which a live flow is in no table |
| UdpFlows.OrphanForever | server.go:439-499 | over every continuation such a flow is never closed by a sweep, listed again, or written to |
| UdpFlows.FlowTable.Sweep | server.go:440-450 | one tick is a run of evictions, one for each idle entry and no other, and leaves exactly the entries that are not idle |
| StreamHeader.HandleStream | server.go:235-277 | dials what a forward header names and leaves the bytes after it; ignores every other tag |
| StreamHeader.HandleReverseStream | client.go:260-344 | takes the tagged, the fake or the old path by the first byte and leaves the bytes after the header |
| StreamHeader.ReadTarget | client.go:319-336 | reads the target behind a length, in any segments, within 1..4096 |
| StreamHeader.SendReverseHeader | server.go:381-399 | success writes the tagged header whole; failure writes a prefix of it |
| StreamHeader.SendForwardHeader | client.go:407-412 | whatever writes fail, the stream gets a prefix of each part, no target after a broken length, and the tagged header iff all three are whole |
| StreamHeader.ServerTags | server.go:251-266 | the server dials behind tag 1 and ignores every other tag |
| StreamHeader.ClientTags | client.go:260-316 | the client discards exactly the streams that begin with 255, dials behind tag 2, and reads all others as untagged |
| StreamHeader.CutHeaderRejected | client.go:260-344 | a header cut short is dialled on neither side |
| StreamHeader.ForwardExact | server.go:251-279 | the server reads back network, address and rest iff the target has 1..4096 bytes |
| StreamHeader.ReverseExact | server.go:317-399 | the client dials the mapped network and address, and leaves the rest, iff scheme and address fit 4096 bytes |
| StreamHeader.LegacyExact | client.go:317-344 | an untagged header is read correctly iff its length is not in 512..767 |
| Failover.AfterAttempt | client.go:114-170 | an attempt of 30 s or more, or without error, keeps the path and clears the count; a shorter failure adds one and waits that many intervals, at most 15 s, or with several paths moves on at the third, after 10 s on the wrap |
| Failover.PoolWorker | client.go:108-172 | the loop over any attempts ends in the state, with the waits, of the turn function |
| Failover.FailCountBounded | client.go:137-141 | with several paths the fail count is below 3 at every loop head |
| Failover.SwitchNeedsThree | client.go:124-149 | a path is left iff this is its third failure within 30 s; the last three attempts were such failures on that path, with no longer session in between |
| Failover.SleepExact | client.go:112-165 | for any number of paths and any state, the 10 s wait comes exactly on the wrap to the first path, and the graduated one is positive and at most 15 s |
| Failover.SinglePath | client.go:127-158 | with one path, n quick failures in a row wait n retry intervals, at most 15 s, on that path |
| Failover.QuickAdvance | client.go:127-141 | from any state, quick failures advance the path by one in every three |
| Failover.FailoverBound | client.go:108-172 | path j is current after n quick failures, n up to the bound, iff n is exactly 3 times its distance less the fail count |
| Relay.StepKeeps | server.go:726-742 | every step keeps the bytes written to one side a prefix of those read from the other, and the token count |
| Relay.RelaySafe | server.go:726-742 | under every schedule each side gets a prefix of what the other sent, and all of it when the copier stopped at end of file; on return both copiers are done and both ends closed; a copier never waits on the channel |
| Relay.HalfCloseDrops | server.go:738-741 | a concrete schedule without a failure of the network in which one side hanging up drops what the other has sent |
| Relay.NextCertain | server.go:738-741 | once a copier has stopped, a step that cannot be held up is possible until the return |
| Relay.RelayReturns | server.go:738-741 | so the relay returns within eight such steps |
| Relay.ClosedDescends | server.go:739-741 | after both closes every further step brings the return closer |
| PortMaps.EntryExact | utils.go:26-41 | an entry parses back to its mapping, 0.0.0.0 added to a bind without a colon, iff both halves are non-empty and free of arrows, else to nothing |
| Text.SplitJoin | utils.go:27-28 | splitting a join gives the parts of both sides: no arrow arises across it |
| Text.TrimExact | utils.go:31-32 | trimming takes all white space off both ends and nothing else |
| PortMaps.ConvertMaps | config.go:446-461 | fills the forward lists from the mappings iff both are empty |
| PortMaps.StartListeners | server.go:70-79 | starts one listener per entry that parses, in order |
| PortMaps.ProtocolsExact | config.go:449-458 | the types udp and both ask for UDP; all but udp ask for TCP |
| PortMaps.MapsAreServed | config.go:446-461 | any list of mappings is served once each, in order, over exactly the protocols asked for |
| ConfigLoad.AdjustPaths | config.go:316-407 | every path gets the bounds of the profile, for any number of paths |
| ConfigLoad.DefaultsExact | config.go:166-314 | the defaults leave exactly the complete configurations alone, and complete all others but those with a blank fake path |
| ConfigLoad.ProfileExact | config.go:316-408 | applying a profile brings every configuration and all its paths within the bounds of the profile, and leaves exactly those alone that were there |
| ConfigLoad.AliasesExact | config.go:410-444 | afterwards an alias is unset only when its counterpart has nothing to give; exactly the configurations in sync stay as they are |
| ConfigLoad.MigratedExact | config.go:467-516 | exactly current versions stay as they are; an older one keeps none of the old values, and changes only its version when it had none |
| ConfigLoad.Loader.LoadConfig | config.go:526-553 | the steps run in the order of the specification |
| ConfigLoad.PathExact | config.go:155-164 | the default and normalised fake path is stable iff the path was not white space only |
| ConfigLoad.TopExact | config.go:301-313 | names and listen ports are stable iff the first port is not loose |
| ConfigLoad.PipelineExact | config.go:536-549 | the pipeline run on its own output changes nothing iff the fake path is not blank and the first port not loose |
| ConfigLoad.MigrationReverts | config.go:467-507 | the second load of every configuration: it takes back of a migration exactly the buffers under lowcpu, the keepalive under latency, the timeout of 15 and the padding under gaming or latency, and repairs a blank fake path and a loose port |
| ConfigLoad.LoadExact | config.go:526-553 | loading twice is loading once iff none of these cases applies |
| ConfigLoad.LoadSettles | config.go:526-553 | for every configuration the third load equals the second |
| LoadedMode.LoadedModeOk | config.go:250-299 | every loaded configuration gives the packet code non-negative paddings and a positive burst size |

## Left out

- AES-GCM, SHA-256 and the random source: only the seal/open law, the lengths and the bounds of the draws are used.
- smux, TLS, utls, YAML, HTTP parsing beyond the end of a head, sockets, deadlines and epoll: library code; their failures are nondeterministic choices.
- Sleeps, delays and jitter as real time: the wait of the reconnect loop is computed, the others have no effect in the model.
- Overflow of durations, stream counters and read lengths beyond 64 bits: these are unbounded integers; the 16-bit, 32-bit and pool-counter arithmetic is modelled exactly.
- EncryptedStream.EncryptedConn.Write: models mutual exclusion by being one call; the runs of several writers under the lock are in StreamRun.
- StreamRun.Fidelity: assumes both ends use the same key and padding settings, and every packet in its round-trip domain; ChunkExact and WriteDomain.WriteExact say exactly when that is so.
- SessionPool.Choose: works on one snapshot of the pool, although the fallback takes the lock a second time; ServerRun lets a goroutine choose any session then in the pool.
- SessionPool.OpenOnFirst: is one call alone, with the answers of IsClosed and OpenStream given; the scan among all other goroutines is ClientRun.ScanSound.
- ClientRun.PoolSafety: the client counts no streams, so there is no conservation result; which path a worker dials is Failover.
- UdpFlows.EvictionExact: reads the clock at each eviction, while the code reads it once per tick; so the model allows more evictions, never fewer. The stream counter of a flow is in ServerRun.
- Upgrade.UpgradeLosesNothing: takes both heads as lists of lines free of CR and LF, which is what both sides print; the status code check is not modelled.
- Failover.FailoverBound: speaks of attempts that return an error. A failed handshake returns none: it leaves a nil connection, on which client.go:221-223 calls Close, and that panics.
- Relay.RelayReturns: assumes that closing an end unblocks reads and writes on it; the copy loop is the buffered one, without the ReadFrom and WriteTo shortcuts.
- ConfigLoad.DefaultsExact: lower-cases ASCII letters only, lists only fields that some step reads or writes, and does not distinguish nil from empty lists; burst_chance is a real number. A section is assigned at once, where the code tests its fields one by one.
- ConfigLoad.MigratedExact: does not write the migrated file back.
- A per-session stream cap: the check and the increment are separate steps and the fallback ignores the cap, so it does not hold.
- Decoy pages, request validation, fake traffic contents, logging, the command line and the setup script.
- ApplyObfuscation, StripObfuscation, the PSK helpers, cipher suite shuffling and RandString: not called by the modelled code.
