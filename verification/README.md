# A verified model of resolvd

resolvd is a DNS stub resolver: a daemon that takes questions from local programs, asks the upstream
servers of whichever network scope a name belongs to, caches what they say, and answers. The parts that
decide anything are free of I/O, and those are what is modelled here:

- **the engine**: a state machine of tasks, upstream transactions and address lookups with a cache keyed
  by scope, driven by questions, replies, failures, ticks and configuration changes;
- **the DNS codec**: the compressed-name reader, the writer, typed record data and whole messages;
- **the native wire**: MessagePack and the map-shaped requests and replies of the local protocol;
- **the glue**: the event loop's tables and admission, incremental framing, the partial-write queue, the
  stub's replies, and the packing of host entries for the name-service library.

## How it is laid out

`Names`, `NameWire`, `Dns`, `Codec`, `CodecLoops`, `ReverseNames` and `Queries` are the DNS library;
`CodecLoops` holds the encoder and decoder as loops over a buffer, proved equal to the functions of `Codec`.
`Aliases`, `Lookups`, `Caches`, `Routing` and `Synthetics` are the engine's parts. `EngineModel` is the
engine as a function from state and input to state and actions. `EngineSteps` to `EngineRuns` prove the
invariant and a ledger of the run's history; `EngineTheorems`, `EngineDrain`, `EngineLifetimes` and
`EngineReplies` state what is true of every run. `ReplyLaws`, `EngineAnswers`, `EngineHits`, `EngineUncached`
and `EngineServers` state what askers are told and which server is asked: from a reply's records, the cache
and the configuration, without the engine's own functions. `Engine.dfy` is the engine as the source has it, a
class updated in place, each method proved to do exactly what `EngineModel` says. `Stub`, `MsgPack`, `MsgPackIo`, `Native*`, `Frames`,
`ReplyQueue`, `NssBuffer` and `Daemon` are the rest.

A *run* is any sequence of inputs from the empty engine. `EngineTheorems.LegalRun` says what callers keep
to: a fresh number for each question, valid names in stub questions, configurations with distinct scope
ids (none called "fallback") and no root search domain, and hash-table walks that visit exactly what they
walk. Time, entropy (34 bytes or a failure, per send), the order in which hash tables are walked and the
results of socket calls are arbitrary inputs. `Daemon.Resolvd` carries, as a ghost, the inputs it has given
the engine, and keeps them a legal run; so the theorems about runs hold of the daemon.

Where documentation and code disagree the model follows the code. The comment at `dns/src/lib.rs:250` says
reading a name terminates because pointers only go backward; a label followed by a pointer to it goes back
for ever. What terminates the reader is the pair of name length left and position, and that is the measure
of `NameWire.Read`; the cap on hops plays no part in it.

## Model

| member | source | states |
|---|---|---|
| EngineTheorems.ExactlyOnce | resolvd/src/engine.rs:410-511 | In every run a question is asked at most once. One abandoned while live is never answered and not live; any other has been answered exactly once or is live, never both |
| EngineTheorems.Conservation | resolvd/src/engine.rs:886-975 | In every run queries sent = in flight + answered + failed (less the error replies among the inputs, which count twice) + cancelled by abandoning; as many are counted as sent as were sent; never more in flight than the ceiling |
| EngineTheorems.SoundActions | resolvd/src/engine.rs:886-1005 | Every send of a run carries its own transaction's query, and every completion is good: records only with Found, well formed and of class IN |
| EngineTheorems.SentOnce | resolvd/src/engine.rs:706-710 | No two sends of a run share a transaction number |
| EngineTheorems.BoundedSends | resolvd/src/engine.rs:784-884 | Any task that has sent was started by an input of the run, and sends at most attempts + candidate names (by the configuration when asked) - 1 queries, whatever was refunded |
| EngineTheorems.RoutedSends | resolvd/src/engine.rs:784-884 | No query of a run names a bare label; each was sent for a task some input started, and if no later input changed the scopes it went to a server of the scope its name routes to |
| EngineTheorems.RoutedTask | resolvd/src/engine.rs:784-843 | The query in flight for a task asks for the task's current name and type and, if the scopes have not changed since the question, in the scope that name routes to |
| EngineLifetimes.EntryFilled | resolvd/src/engine.rs:610-622 | After any run each cached entry is what the reply at one input said and has been held since; the query that reply answers was sent after every input that cleared its scope, to a server the scope still has; never Unavailable |
| EngineLifetimes.NothingStale | resolvd/src/engine.rs:322-385 | After a scope is invalidated, whatever follows, an answer held for it is what a later reply said, to a transaction started and a query sent after that, to a server the scope still has |
| EngineDrain.RunDrains | resolvd/src/engine.rs:689-704 | After any run, as many ticks as attempts are allowed, a timeout apart, leave nothing in flight; every question asked was answered once, and those abandoned while live never |
| EngineDrain.FailedCharges | resolvd/src/engine.rs:656-675 | After a failure the task is over, or has exactly one more attempt behind it |
| EngineLifetimes.CacheHolds | resolvd/src/engine.rs:560-622 | After any run each cached entry is exactly what one accepted reply of the run said, and counted from that reply's arrival lives within the positive cap, every record's TTL and, with no records, the negative cap |
| EngineLifetimes.HitsAge | resolvd/src/cache.rs:66-78 | A hit after any run returns the stored records with TTLs at most the original less the time since the reply arrived |
| EngineLifetimes.CacheBounded | resolvd/src/cache.rs:80-94 | In every run the cache stays within its ceiling |
| EngineLifetimes.NegativeCapIff | resolvd/src/engine.rs:600-609 | A reply with no record of the asked type where its aliases end is held within the negative cap if and only if it has no alias either, or one whose TTL is within the cap |
| EngineLifetimes.BareAliasHeld | resolvd/src/engine.rs:600-609 | The input at which the negative cap fails: an answer that is only an alias with a TTL of a day is held for the day |
| EngineRuns.NextGood | resolvd/src/engine.rs:410-704 | Any legal input keeps every invariant of the engine and its ledger; only a reply stores an answer, and only what the reply says |
| EngineReplies.RepliesMatch | resolvd/src/engine.rs:522-546 | In every run, bytes are taken as the reply to a query in flight if and only if they decode to a response with the id and exactly the question its payload carried; any others change nothing and ask for nothing |
| EngineAnswers.ReplyAnswered | resolvd/src/engine.rs:540-651 | In every run, a reply accepted whole with code 0, or 3 with no name left to try, ends its task with one answer read off the decoded bytes: absent exactly for code 3, else exactly the aliases followed and the records where they end, in order, only the case of the owner changed; code, server, interface, name, source and negative lifetime are the reply's. A resolve is completed with it; a lookup, with the families' addresses together once the last is in |
| EngineAnswers.TruncatedAsksAgain | resolvd/src/engine.rs:557-560 | In every run, a truncated datagram is asked for again over TCP, of the same server, exactly while budget and entropy allow, else the task is given up; nothing is stored and no server demoted |
| EngineAnswers.SettleConcludes | resolvd/src/engine.rs:977-1005 | An answer reaches whoever asked: a resolve at once; a lookup waits for exactly its other tasks and then combines all the answers |
| ReplyLaws.ReplySays | resolvd/src/engine.rs:566-651 | The answer made of a reply is the one it says: outcome, records by their place in the reply, code, and lifetime of an absence |
| ReplyLaws.ReplyHeldFor | resolvd/src/engine.rs:600-609 | The lifetime of a reply is the least of its kept records' and a day; of an absence, none without the zone's record, else the least of its minimum, its TTL, five minutes and the aliases followed |
| EngineHits.QuestionAnswered | resolvd/src/engine.rs:753-843 | In every run, a question for one type is answered locally if it has a local answer; else its names are tried in turn, passing over exactly those the cache denies while others are left, and the first other name is a failure if unrouted, answered from the cache if held and the cache is not barred, and else asked for in its scope, of the right server |
| EngineHits.LookupAnswered | resolvd/src/engine.rs:449-482 | In every run, a lookup starts one task for each type of its family, and each in turn comes to what a question comes to |
| EngineHits.HitAnswered | resolvd/src/engine.rs:817-841 | In every run, a question whose first name is held, found or with no other name left, sends nothing and is completed once with what the reply at an earlier input said: its outcome, code, server, and its records with TTLs no longer than the time left; source cache |
| EngineHits.CandidateWalk | resolvd/src/engine.rs:784-843 | Trying the names comes to what the first name not passed over comes to, and the cache loses nothing still alive |
| EngineHits.DenialMovesOn | resolvd/src/engine.rs:623-631 | In every run, a reply that denies its name while others are left gives its attempt back and has them tried in turn, by cache and network |
| EngineHits.ReplyRemembered | resolvd/src/engine.rs:600-622 | In every run, a reply accepted whole with code 0 or 3 is held for exactly the time it gives itself, unless that is none or its scope was invalidated while it was in flight; then nothing new is held |
| EngineUncached.NeverCached | resolvd/src/engine.rs:817-841 | Whatever the inputs, a question asked with the cache barred is never answered from it |
| EngineServers.ServerChosen | resolvd/src/engine.rs:846-884 | The server asked is one not asked yet for the name while there is one: undemoted if any such is, and the first configured of its kind; once all have been asked, the one in turn, healthy first |
| EngineServers.AttemptAsks | resolvd/src/engine.rs:846-975 | An attempt sends one query, over UDP, for the task's name and type to the right server by the scope's interface, exactly when budget, entropy and servers allow; else the task fails |
| EngineServers.AnotherServer | resolvd/src/engine.rs:656-687 | In every run, after a failure only the failing server is demoted, for half a minute, and not for a local fault; the next query goes to a server not yet asked for that name while the scope has one |
| EngineDeltas.ReceivedDelta | resolvd/src/engine.rs:540-651 | A matching reply ends its own transaction, opens at most numbered new ones, cancels none, and each question stays live or is completed |
| EngineDeltas.TickDelta | resolvd/src/engine.rs:689-704 | A tick ends exactly the overdue transactions, and each question stays live or is completed |
| EngineDeltas.AbandonCloses | resolvd/src/engine.rs:493-511 | Abandoning cancels exactly the question's transactions and leaves it not live |
| Engines.Engine.constructor | resolvd/src/engine.rs:287-306 | A new engine is the model's empty state |
| Engines.Engine.Settle | resolvd/src/engine.rs:977-1005 | The method updates the tables exactly as the model settles a task: complete the question, or its lookup when it was the last |
| Engines.Engine.SendTo | resolvd/src/engine.rs:886-975 | The method refuses at the ceilings, draws its bytes and starts the transaction exactly as the model |
| Engines.Engine.NextAttempt | resolvd/src/engine.rs:846-884 | The method sends to the server the model chooses, or gives up, as the model; which server that is, `EngineServers.ServerChosen` states |
| Engines.Engine.NextCandidate | resolvd/src/engine.rs:784-843 | For each name in turn, route, then cache, then first attempt, with the same recursion as the model; what that comes to, `EngineHits.CandidateWalk` states |
| Engines.Engine.Advance | resolvd/src/engine.rs:753-782 | The method's first step of a task is the model's |
| Engines.Engine.StartTask | resolvd/src/engine.rs:730-751 | The method enters a fresh task under the next number, as the model |
| Engines.Engine.Resolve | resolvd/src/engine.rs:410-430 | The method's actions and new state are the model's, a name that does not parse included |
| Engines.Engine.ResolveQuestion | resolvd/src/engine.rs:432-435 | The method's actions and new state are the model's |
| Engines.Engine.ResolveName | resolvd/src/engine.rs:437-447 | The method's actions and new state are the model's |
| Engines.Engine.LookupAddresses | resolvd/src/engine.rs:449-482 | The method's actions and new state are the model's, a name that does not parse included |
| Engines.Engine.LookupName | resolvd/src/engine.rs:449-482 | Starting one task a family and then advancing each is the model's |
| Engines.Engine.Reverse | resolvd/src/engine.rs:484-491 | The method's actions and new state are the model's |
| Engines.Engine.Abandon | resolvd/src/engine.rs:493-511 | A walk of the whole task table, in any order, finds exactly the question's tasks, and dropping them one by one is the model's |
| Engines.Engine.Received | resolvd/src/engine.rs:540-651 | Matching, the retry over TCP, error codes and usable replies update the engine exactly as the model |
| Engines.Engine.Usable | resolvd/src/engine.rs:560-651 | Remembering, the refund for a denied name and settling are the model's; what is then answered, `EngineAnswers.ReplyAnswered` states |
| Engines.Engine.Read | resolvd/src/engine.rs:566-609 | What the method makes of a reply (outcome, records in the caller's case, lifetime) is the model's |
| Engines.Engine.Remember | resolvd/src/engine.rs:610-622 | The server is forgiven and the entry stored, or not, as the model |
| Engines.Engine.Failed | resolvd/src/engine.rs:656-675 | The method's actions and new state are the model's |
| Engines.Engine.LocalFailed | resolvd/src/engine.rs:677-687 | The method's actions and new state are the model's |
| Engines.Engine.Tick | resolvd/src/engine.rs:689-704 | A walk of the whole transaction table, in any order, finds exactly the overdue, and failing them one by one is the model's |
| Engines.Engine.SetScopes | resolvd/src/engine.rs:322-339 | The two loops that collect stale scopes, and the invalidation, are the model's |
| Engines.Engine.InvalidateScope | resolvd/src/engine.rs:341-348 | The scope's entries go, and its tasks may no longer store |
| Engines.Engine.SetFallback | resolvd/src/engine.rs:354-360 | The method's new state is the model's |
| Engines.Engine.SetHostname | resolvd/src/engine.rs:366-370 | The method's new state is the model's |
| Engines.Engine.SetHosts | resolvd/src/engine.rs:376-378 | The method's new state is the model's |
| Engines.Engine.Flush | resolvd/src/engine.rs:380-385 | The cache is empty and no running task may store |
| Queries.RandomiseCase | dns/src/lib.rs:214-232 | The loop that spends one random bit a letter never runs out of bits on a valid name |
| Queries.RandomCaseSame | dns/src/lib.rs:214-232 | Randomising the case gives the same name |
| Queries.QueryDecodes | resolvd/src/engine.rs:926-949 | A query for a valid name always encodes, and decodes to what was asked |
| EngineReplies.ReplyAccepted | resolvd/src/engine.rs:522-538 | In every run, every encodable reply with the reply header and question made from a sent payload is taken as its reply, whatever else it says |
| EngineReplies.PayloadReads | resolvd/src/engine.rs:926-949 | In every run, the payload of a send in flight decodes to its transaction's query |
| Aliases.RelevantRecords | resolvd/src/engine.rs:1238-1276 | The marking walk keeps exactly the followed aliases and the terminal records, in the server's order, and ends at the effective name |
| Aliases.Chase | resolvd/src/engine.rs:1321-1346 | The chase's loop is the model's, and ends within its bound |
| Aliases.ChaseAgrees | resolvd/src/engine.rs:1238-1346 | The chase over the filtered records ends where the reply's alias path ends and collects exactly the addresses there; on a path that repeats a name neither finds any |
| Lookups.CombineAnswers | resolvd/src/engine.rs:1279-1318 | The fold over a lookup's answers picks the best ranked and gathers all addresses |
| Lookups.BestIsLeast | resolvd/src/engine.rs:1279-1318 | An answer is picked whenever one was found, it is one that was found, and none found ranks below it |
| Lookups.CombineSays | resolvd/src/engine.rs:1279-1318 | A lookup's outcome is found if any family was, else unavailable if any was, else absent; its name and source are those of the preferred family, and its addresses each found family's, in order |
| Lookups.OrderIndependent | resolvd/src/engine.rs:1279-1318 | Outcome, canonical name, source and the multiset of addresses do not depend on which family answers first |
| Synthetics.LoopbackAnswered | resolvd/src/engine.rs:1143-1164 | Any name under localhost has the two loopback addresses, of the type asked |
| Synthetics.HostAnswered | resolvd/src/engine.rs:1143-1167 | A name in the host table has exactly its addresses of the type asked, in order |
| Synthetics.OwnNameAnswered | resolvd/src/engine.rs:1118-1174 | The machine's own name has its scopes' addresses of the type asked, loopback ones left out, in the order of scopes and addresses, each run of equal ones once; or loopback when it has none |
| Synthetics.OthersAnswered | resolvd/src/engine.rs:1175-1213 | Any other name under local is absent; a reverse name is loopback's, the least static name of the address, or the machine's own; every other name has no local answer |
| Synthetics.SynthesiseOrderIndependent | resolvd/src/engine.rs:1132-1213 | Local answers do not depend on the order the host table is walked in |
| Synthetics.PtrOrderIndependent | resolvd/src/engine.rs:1198-1204 | The name for a static address does not depend on the order the host table is walked in |
| Names.ShowLowerInjective | dns/src/lib.rs:316-335 | The escaped lower-case printer is injective up to case |
| Caches.Cache.Get | resolvd/src/cache.rs:66-78 | A lookup drops the expired entry and ages the records of a live one |
| Caches.Cache.Insert | resolvd/src/cache.rs:80-94 | An insert into a full table sweeps the expired, then evicts the first of least expiry |
| Caches.Cache.FlushScope | resolvd/src/cache.rs:96-98 | Exactly the scope's entries go |
| Caches.Cache.Clear | resolvd/src/cache.rs:100-102 | Nothing is left |
| Caches.LiveLossOnlyWhenFull | resolvd/src/cache.rs:80-94 | A live entry is lost to an insert if and only if the table is full of live entries, the key is new and the entry is the one picked, of least expiry; then it alone is lost |
| Caches.AgreesWithIdeal | resolvd/src/cache.rs:66-102 | After any operations from empty, a hit is the last insert not flushed since, unexpired and aged, and the size stays bounded |
| Routing.RouteHasPriority | resolvd/src/engine.rs:1021-1070 | The route is the declared priority: exclusive, longest domain (ties by metric then order), subnet, default claimant, lowest metric with servers, fallback |
| Routing.RouteName | resolvd/src/engine.rs:1021-1070 | The nested loop over scopes and domains computes the route |
| Routing.RouteIgnoresCase | resolvd/src/engine.rs:1021-1070 | Two spellings of a name that differ in case route alike, so randomising a query's case cannot change its route |
| Routing.ServersArePermuted | resolvd/src/engine.rs:1072-1086 | The servers tried are the scope's own, each as often |
| Routing.HealthyFirst | resolvd/src/engine.rs:1072-1086 | Servers not demoted come first, and each group keeps its configured order |
| Routing.CandidateNames | resolvd/src/engine.rs:1089-1114 | The loop that expands a single label is the model's |
| Routing.ExpandSpec | resolvd/src/engine.rs:1089-1114 | Expansion gives each fitting join once, up to case, and nothing else |
| Routing.NoBareLabel | resolvd/src/engine.rs:1089-1114 | With no root search domain, no candidate is a single label |
| Routing.BareLabelIff | resolvd/src/engine.rs:1089-1114 | A single label is tried bare if and only if the root is a search domain |
| Routing.BareUnderRoot | resolvd/src/engine.rs:1089-1114 | The input at which a single label would be tried bare: one search domain, the root |
| NameWire.Read | dns/src/lib.rs:245-288 | The reader's loop terminates on every input without regard to the hop count, and computes the model's reading |
| NameWire.ReadNameIff | dns/src/lib.rs:245-288 | A read succeeds with a name and an end if and only if section 4.1.4 of RFC 1035 reads that name there, within the length and hop limits |
| NameWire.ReadNameValid | dns/src/lib.rs:245-288 | What is read is a valid name, and reading goes on strictly after the start and inside the message |
| NameWire.WriteName | dns/src/lib.rs:234-243 | The writer's loop is the model's |
| NameWire.WriteThenRead | dns/src/lib.rs:234-288 | A valid name written anywhere in a message reads back, to its own end |
| Codec.HeaderRoundTrip | dns/src/lib.rs:440-470 | The flag word's fields come back |
| Codec.RoundTrip | dns/src/lib.rs:849-954 | Every well-formed message that encodes decodes to itself |
| Codec.DecodeWellFormed | dns/src/lib.rs:904-954 | Whatever decodes is well formed |
| Codec.Recode | dns/src/lib.rs:849-954 | Decoding, encoding when it fits, and decoding again is the identity |
| CodecLoops.EncodeMessage | dns/src/lib.rs:849-881 | The encoder over a growing buffer, with its length patched in afterwards, is the model's |
| CodecLoops.DecodeMessage | dns/src/lib.rs:904-954 | The decoder's loops over positions are the model's |
| CodecLoops.PutRecord | dns/src/lib.rs:617-628 | Writing data and patching its length gives the record's own encoding |
| CodecLoops.PutRData | dns/src/lib.rs:630-677 | Each type's data is written as the model |
| CodecLoops.GetRData | dns/src/lib.rs:679-783 | Each type's own case, names read by the reader's loop, gives the model's reading |
| CodecLoops.GetName | dns/src/lib.rs:684-690 | A name inside record data is read against the whole message and refused past the end of the data |
| ReverseNames.ReverseRoundTrip | dns/src/lib.rs:167-212 | The reverse name of an address denotes it |
| ReverseNames.ReverseNameParses | dns/src/lib.rs:91-108 | A reverse name is valid, and parses back from its printed form |
| ReverseNames.ReverseIgnoresCase | dns/src/lib.rs:183-212 | The address a name denotes does not depend on case |
| Stub.QueriesAre | resolvd/src/stub.rs:267-304 | Bytes are a query if and only if they decode to one standard question of class IN |
| Stub.ErrorRepliesDecode | resolvd/src/stub.rs:267-304 | Any error reply decodes, as a response with the query's id and an error code |
| Stub.ShortenedSize | dns/src/lib.rs:885-902 | The truncated form is at most 12 + 259 + 11 octets |
| Stub.ReplyTells | resolvd/src/stub.rs:306-340 | A reply's code is 0, 3 or 2 if and only if the answer is found, absent or unavailable; its answers are the answer's records behind one alias when the name was expanded; it has an OPT exactly when the query has |
| Stub.UdpReplies | resolvd/src/stub.rs:232-340 | A datagram fits the advertised size and decodes with the query's id and question; its code is 0, 3 or 2 as the answer is found, absent or unavailable, truncated or not; it is truncated if and only if the whole reply does not fit, and then has no answers, and else has exactly the answer's |
| Stub.TcpReplies | resolvd/src/stub.rs:257-265 | The length prefix loses no bit and the rest decodes to a reply that is never truncated, with the answer's code and exactly its records |
| MsgPack.UintReads | resolvd-core/src/msgpack.rs:74-90 | An unsigned number written reads back exactly when it is below 2^63, and else is refused |
| MsgPack.IntReads | resolvd-core/src/msgpack.rs:92-111 | A signed number written reads back |
| MsgPack.StrReads | resolvd-core/src/msgpack.rs:275-285 | A string written reads back |
| MsgPack.BinReads | resolvd-core/src/msgpack.rs:287-296 | Bytes written read back |
| MsgPack.SkipsTree | resolvd-core/src/msgpack.rs:328-379 | Skipping consumes any well-formed value within the nesting limit, exactly |
| MsgPack.SkippedTree | resolvd-core/src/msgpack.rs:328-379 | Whatever is skipped was one well-formed value within the nesting limit |
| MsgPackIo.Writer.WriteUint | resolvd-core/src/msgpack.rs:74-90 | The method appends the shortest form the model gives |
| MsgPackIo.Writer.WriteInt | resolvd-core/src/msgpack.rs:92-111 | The method appends the form the model gives |
| MsgPackIo.Writer.WriteStr | resolvd-core/src/msgpack.rs:113-128 | The method appends head and octets |
| MsgPackIo.Writer.WriteBin | resolvd-core/src/msgpack.rs:130-143 | The method appends head and octets |
| MsgPackIo.Writer.WriteArray | resolvd-core/src/msgpack.rs:145-156 | The method appends the shortest head |
| MsgPackIo.Writer.WriteMap | resolvd-core/src/msgpack.rs:158-169 | The method appends the shortest head |
| MsgPackIo.Reader.ReadInt | resolvd-core/src/msgpack.rs:250-268 | The method reads what the model reads and moves past it |
| MsgPackIo.Reader.ReadStr | resolvd-core/src/msgpack.rs:275-285 | The method reads what the model reads and moves past it |
| MsgPackIo.Reader.Skip | resolvd-core/src/msgpack.rs:328-369 | The recursion over position and depth skips what the model skips, and restores the depth |
| NativeFields.MapPadded | resolvd-core/src/lib.rs:615-635 | Reading a map's fields is not changed by well-formed fields of unknown keys put in anywhere |
| NativeRequests.RequestTolerant | resolvd-core/src/lib.rs:151-197 | A request with any well-formed unknown fields put in decodes to the request |
| NativeRequests.RequestRoundTrip | resolvd-core/src/lib.rs:107-197 | A request decodes from its own encoding |
| NativeRequests.EncodeRequest | resolvd-core/src/lib.rs:107-149 | The writer calls produce the model's encoding |
| NativeRequests.DecodeRequest | resolvd-core/src/lib.rs:151-197 | The field loop with its seen set decodes as the model |
| NativeReplies.RecordReads | resolvd-core/src/lib.rs:380-593 | A record padded with unknown fields reads as the record |
| NativeReplies.ScopeReadsBack | resolvd-core/src/lib.rs:380-593 | A scope padded with unknown fields reads as the scope |
| NativeReplies.CountersReadBack | resolvd-core/src/lib.rs:380-593 | Counters padded with unknown fields read as the counters |
| NativeReplies.AddressReadsBack | resolvd-core/src/lib.rs:380-593 | An address padded with unknown fields reads as the address |
| NativeMessages.ReplyTolerant | resolvd-core/src/lib.rs:464-613 | A reply whose maps at every level hold extra unknown fields decodes to the reply |
| NativeMessages.ReplyRoundTrip | resolvd-core/src/lib.rs:380-613 | A reply decodes from its own encoding |
| Frames.Service | resolvd/src/upstream.rs:247-292 | One turn of the receiver keeps what is left of the stream and delivers the first accepted frame |
| Frames.SplitIndependent | resolvd/src/upstream.rs:247-292 | However the stream is cut, the receiver delivers the first accepted frame of the whole, if there is one |
| Frames.ReadRequest | resolvd/src/control.rs:244-271 | The reader's loop is the model's, closed, blocked and interrupted reads included |
| Frames.ReadsOneRequest | resolvd/src/control.rs:244-271 | No octet past the request is taken, and a verdict depends on the stream alone |
| Frames.RequestSplitIndependent | resolvd/src/control.rs:244-271 | However reads and calls are cut, two readers that reach a verdict agree on it and on where it ends |
| Frames.ReadingFinishes | resolvd/src/control.rs:244-271 | Over a complete request, reads of an octet or more reach the verdict |
| ReplyQueue.NoByteLost | resolvd/src/reply_queue.rs:35-92 | In every run each reply handed in, by its place in the order, carries its own frame and waits under one key or has met one fate; its peer holds a prefix of the frame, all of it when it left whole; its deadline is the first one set; the table stays within its ceiling |
| ReplyQueue.WaitingIsOne | resolvd/src/reply_queue.rs:35-92 | In every run what waits under a key is exactly one of the replies handed in |
| ReplyQueue.FateIsFinal | resolvd/src/reply_queue.rs:67-92 | A reply sent whole, given up on or refused stays so, whatever happens next |
| ReplyQueue.Replies.EnqueueReply | resolvd/src/reply_queue.rs:35-58 | The method tries once, then queues or refuses, as the model |
| ReplyQueue.Replies.ServiceReply | resolvd/src/reply_queue.rs:67-82 | The method resumes, finishes or drops the reply, as the model |
| ReplyQueue.Replies.ExpireReplies | resolvd/src/reply_queue.rs:88-92 | Exactly the overdue replies go, and their number is returned |
| NssBuffer.Packer.Reserve | nss/src/buffer.rs:28-43 | Room is given aligned and in bounds, or not at all |
| NssBuffer.Packer.Str | nss/src/buffer.rs:46-57 | The string and its terminator are in place and nothing before them changed; a NUL inside is refused |
| NssBuffer.Packer.PutBytes | nss/src/buffer.rs:60-65 | The octets are in place, aligned, and nothing before them changed |
| NssBuffer.Packer.Pointers | nss/src/buffer.rs:68-79 | The words are zero, aligned, and nothing before them changed |
| NssBuffer.LayoutIff | nss/src/buffer.rs:28-37 | Any sequence of reservations fits from a least length upward, at the same offsets at each |
| NssBuffer.RenderIff | nss/src/lib.rs:293-342 | A host entry is packed if and only if its name has no NUL and the buffer has the least length, at offsets that more room does not change |
| NssBuffer.NulNeverFits | nss/src/lib.rs:293-342 | The input at which the promise to retry fails: a name with a NUL gets the retry status at every length, whatever the addresses. No name printed by the daemon has one, since its printer escapes it |
| NssBuffer.RegionsApart | nss/src/lib.rs:293-342 | The regions of a packed entry are aligned, in bounds and pairwise disjoint |
| NssBuffer.RenderHost | nss/src/lib.rs:293-342 | The packed memory holds the terminated name, no aliases, and a null-ended list of pointers to each address's octets |
| Daemon.Resolvd.constructor | resolvd/src/main.rs:454-472 | The daemon starts at rest, with the hostname, fallback servers and hosts in force and nothing asked |
| Daemon.Resolvd.Perform | resolvd/src/main.rs:136-166 | Whatever fails to send, carrying out the actions ends, and leaves sockets = live transactions and waiters = live questions; what was given to the engine and delivered before stays so |
| Daemon.Resolvd.Deliver | resolvd/src/main.rs:168-182 | The answer goes to the one who waits for it, at the door they asked at, and the waiter is removed; with no waiter nothing goes out |
| Daemon.Resolvd.OnRequest | resolvd/src/main.rs:193-227 | A native request is denied, reported on, or flushed for at once, or is put to the engine as its own question, asked by that client; the tables agree and the budgets hold |
| Daemon.Resolvd.Ask | resolvd/src/main.rs:207-226 | Exactly the request's name, type, family, address and wish to bar the cache are put to the engine under a fresh number, and the client is on record as who asked; the tables agree |
| Daemon.Resolvd.AskStub | resolvd/src/main.rs:240-257 | The query's own question is put to the engine under a fresh number, and its origin is on record as who asked; the tables agree |
| Daemon.Resolvd.OnStubQuery | resolvd/src/main.rs:229-257 | A stub query is admitted if and only if, when it came by datagram, there is room in total and for its peer; admitted, its own question is put to the engine; refused, it is counted and told so and nothing else changes |
| Daemon.Resolvd.OnMessage | resolvd/src/main.rs:591-601 | A message that matches is given to the engine, and any other is ignored; the tables agree |
| Daemon.Resolvd.OnBroken | resolvd/src/main.rs:602-605 | The failure is given to the engine, and the tables stay in agreement |
| Daemon.Resolvd.OnTick | resolvd/src/main.rs:717-719 | The tick is given to the engine, and the tables stay in agreement |
| Daemon.Resolvd.OnHangup | resolvd/src/main.rs:581-588 | The question is abandoned, its asker waits no more, and the tables agree |
| Daemon.Resolvd.OnSnapshot | resolvd/src/main.rs:103-134 | A new hostname and scopes open and close nothing, and keep the tables in agreement |
| Daemon.Resolvd.OnConfig | resolvd/src/main.rs:91-101 | New fallback servers, domains and hosts open and close nothing, and keep the tables in agreement |
| Daemon.Resolvd.OnLeft | resolvd/src/main.rs:678-680 | A client that left without a request frees its place and changes nothing else |
| Daemon.Resolvd.OnStubLeft | resolvd/src/stub.rs:155-216 | A stub client that left before asking frees its place and changes nothing else |
| Daemon.Resolvd.AcceptStub | resolvd/src/main.rs:625-633 | Stub clients are taken while there is room, and refused only when there is none |
| Daemon.Resolvd.AcceptNative | resolvd/src/main.rs:641-668 | Native clients are taken while there is room, and refused only when there is none |
| Daemon.UdpHasCapacity | resolvd/src/main.rs:59-69 | The counting loop says yes exactly when both the total and the peer's share have room |
| Daemon.SendFails | resolvd/src/main.rs:136-166 | A failed send's follow-up actions still agree with the tables, and its task has one more attempt behind it |
| Daemon.Resolvd.NotSent | resolvd/src/main.rs:141-160 | Telling the engine of a failed send leaves the tables in agreement with what is still to be done |
| Daemon.Drives | resolvd/src/main.rs:193-257 | Each thing the daemon gives the engine keeps its inputs a legal run, and each completion of the run is delivered to who asked or still to be |
| Daemon.AnsweredOnce | resolvd/src/main.rs:136-257 | Whatever has happened to the daemon, it waits exactly for the live questions; one it asked and no longer waits for has had its answer delivered exactly once, unless its asker left, and then never |
| Daemon.AnsweredRightly | resolvd/src/main.rs:136-182 | Whatever has happened to the daemon, each answer it gave is one the engine completed that question with, made out to whoever asked it |

## Findings

Properties that the code does not have on all inputs, each with the input and the exact condition.

- **Negative answers behind an alias outlive the negative cap.** A reply that is no denial but has no record
  of the asked type at the end of its aliases takes the positive branch at `resolvd/src/engine.rs:600-609`, and
  is held for the least alias TTL up to a day, not for the 300 seconds of the negative cap. Input:
  `EngineLifetimes.BareAliasHeld`. Exact condition: `EngineLifetimes.NegativeCapIff`.
- **A name with a NUL in it is never packed, yet the caller is told to retry with more room.** Input:
  `NssBuffer.NulNeverFits`. Exact condition: `NssBuffer.RenderIff`. The daemon's own printer escapes NUL
  (`dns/src/lib.rs:326-329`), so no name it sends is such an input.
- **Numbers from 2^63 on are written and cannot be read.** The writer takes any 64-bit value
  (`resolvd-core/src/msgpack.rs:74-90`) and the reader goes through a signed one (lines 250-273). Input and exact
  condition: `MsgPack.UintReads`.
- **A single label would be tried bare under a root search domain.** The expansion does not itself exclude it;
  `resolvd/src/main.rs:330-335` and `resolvd/src/config.rs:62-66` drop root domains before they reach it. Input:
  `Routing.BareUnderRoot`. Exact condition: `Routing.BareLabelIff`.

## Left out

- NativeMessages.ReplyRoundTrip: replies are encoded and decoded by functions, not through the writer and reader objects as requests are; update in place is not captured for them. Unsigned fields are below 2^63, and the text form of addresses is assumed to round trip.
- NativeRequests.RequestRoundTrip: the text form of addresses is assumed to round trip.
- NssBuffer.RenderHost: pointers are eight octets, least significant first; address arithmetic is assumed not to wrap.
- Daemon.Resolvd.Perform: the daemon holds the engine as a value of the model, which `Engines.Engine` refines, rather than as that object.
- Daemon.Resolvd.OnRequest: access control is an arbitrary verdict, and what a status report or an error says is not built.
- EngineTheorems.RoutedSends: says nothing of where queries go for questions asked before the scopes last changed; those keep the scope they were given.
- Daemon.Resolvd.Deliver: who is answered and with what, not the conversion of an answer to its wire form, which `Stub` and `NativeMessages` model apart.
- Sockets, polling, connecting and file descriptors: each call is an arbitrary result.
- Access control, security descriptors and registry reading: thin wrappers over libraries.
- The link to the network daemon: a snapshot is an arbitrary change of scopes.
- The client libraries, the generated bindings and the `resolv` command: conversions and presentation.
- Buffering of stub clients over TCP (`resolvd/src/stub.rs:155-210`): what it drops depends on how reads arrive.
- Classification of answers for the name-service library (`nss/src/lib.rs:259-291`): would only add easy members.
- Printing record data as text, logging, and the derived ordering of names, which the engine does not use.
