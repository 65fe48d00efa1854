# TrueSeal relay: a verified model

The relay stores opaque envelopes in one Inbox per Device key and streams them to the Device
when it connects. Anonymous Push Sessions put blobs in; authenticated Receive Sessions stream
them out; a blob leaves the store when its owner acknowledges it or when its time to live has
passed. This project models that machinery in Dafny and proves what it promises, over every
input and every run. `dafny verify dfyconfig.toml` checks everything.

## The parts

| file | what it models |
|---|---|
| `Base.dfy` | bytes, keys, blobs, a few sequence facts |
| `EnvelopeWire.dfy` | the protobuf walker that finds `recipient_pub`, against a declarative grammar |
| `FrameCodec.dfy` | frames, bodies, big-endian integers, the u16-prefixed transport, the size budget |
| `SessionWriter.dfy` | the outbound half of a Receive Session: queue, producers, cipher nonce, wire |
| `Inbox.dfy` | the inbox table, its statements and its quotas |
| `Limits.dfy` | the token bucket with eviction of idle buckets; the session cap |
| `Notifier.dfy` | subscriber lists as slices over shared backing arrays; one fan-out against everything that may happen to its array |
| `Router.dfy` | the push decision, connecting, and one delivery pass |
| `Delivery.dfy` | all of it together as a step system |
| `DeliverySessions.dfy`, `DeliveryInvariants.dfy`, `DeliveryLists.dfy`, `DeliveryWake.dfy` | what every step keeps: streams and quotas, lists and arrays, wake-ups |
| `DeliveryTheorems.dfy`, `DeliveryProgress.dfy`, `DeliveryCalm.dfy`, `DeliveryRetry.dfy` | what follows for all runs |
| `DeliveryFanOut.dfy` | the step system as one fan-out sees it |
| `DeliveryReach.dfy`, `DeliveryStuck.dfy` | when the relay can still deliver a row, and when it never will |
| `DeliveryBehind.dfy` | which steps lose a wake-up, told from array slots |
| `DeliveryRecovery.dfy` | what a new connection gets |
| `DeliveryEnds.dfy` | how sessions and pushes end |
| `DeliveryWitness.dfy` | runs that show what the relay does lose |
| `SessionLoops.dfy` | the frame loops of the two session kinds, over the objects above |
| `StoreVersion.dfy` | the versioned store open, with crashes between and during starts |
| `HostilePipe.dfy` | the misbehaving delivery pipe of the hostile test build |

## How the pieces fit

**Objects and their specifications.** Code that changes fields in place is a class whose
methods are proved equal to a function of the old state: the store, the rate limiter, the
session cap, the notifier, the writer, the router, the two frame loops, the store file and the
hostile pipe. The theorems are about those functions.

**The step system.** `Delivery.State` holds the table, the token buckets, the session counts,
the subscriber lists with their backing arrays, every Receive Session (program counter, stage of
its subscription, `lastID`, unsent batch, signal slot, 256-slot channel, writer side) and every
push on its way (committed, fanning out at a cursor with a channel in hand, notified, acked). A
fan-out reads the array without the lock, one slot at a time; subscriptions and removals write the
same array, and removed channels are closed, between any two of its steps. `Delivery.Step` is
total: an event that is not enabled changes nothing, so a statement about every finite sequence of
events is a statement about every interleaving of these steps: pushes, peeks, sends, wake-ups, acks,
reaps, connects, disconnects and process restarts. What one step holds that the source does in two
is listed under "Left out". The fields `sent`, `behind`, `accepted`, `taken`,
`written`, `torn` and `cut` are history.

**The main results.** Once a push is Acked, its own frame stored a row with that frame's body and
that push's expiry, and the row stays exactly as long as its owner has not acked it and no reap at
or after its expiry has run (`AckedIsDurable`). What a Device decrypts and decodes from its
connection, wherever its bytes break off, is strictly increasing in id, a prefix of what was sent to
it, and made only of envelopes that name that Device in their own bytes and were pushed to it
(`EndToEnd`). A live
session has seen its whole Inbox, or something will make it look again, or one of its wake-ups is
on record as lost (`StepWake`), and the steps that put one on record are known exactly, from the
slots of the arrays being read (`BehindExactly`). In every reachable state it is decided whether a
stored row can still come to its live session's Device (`DeliverableExactly`): if the session is
going to look, or has looked past the row, or a push can still come to its channel - straight on,
once connects under way overwrite the closed channels in between, or once removals under way shift
it into the fan-out's slots - then the relay's own steps bring it there; and if not, nothing does
without a new connection, a further push or a context that ends. In a run in which no peek of the
key's sessions fails and no channel leaves the key's list during a fan-out over it, it can always
come (`NoRowStranded`); and after any run at all, a new connection that gets a slot receives exactly
what its Inbox holds (`ReconnectRecovers`). Quotas and session slots hold in every state
(`LimitsHold`), and are sharp: puts are refused as full exactly beyond them (`AllStoredExactly`), and
a session whose context has ended gives its slot back by its own steps (`EndedSessionLeaves`).

**Where the code does not do what is written about it.** Six properties do not hold outright;
each is given a run or an input that breaks it, and the exact condition under which it holds.

- A wake-up can be lost in a fan-out. `Notify` iterates over a slice whose backing array removals
  shift in place and later subscriptions overwrite behind the shortened list. For every
  interleaving, a finished fan-out misses a subscriber exactly when some write took the last
  unread slot that held it (`MissedExactly`, `OvertakenIs`), and every run of the relay is such an
  interleaving for each of its fan-outs (`RunFollowed`, `RelayMissesExactly`). Under every
  configuration that takes the push and three sessions, `LostWakeUp` is a run of the whole relay that
  ends with a live session, an unseen row, every push Acked and nothing left to wake it.
- A fan-out can send to a closed channel, which panics. For every interleaving it does so exactly
  when it comes to send to a channel closed since its header was taken (`HitExactly`), one read
  before the close or one read from a slot the list has shrunk away from (`ClosedReadIsStale`,
  `RelayHitsExactly`); `ClosedChannelIsHit` is such a run. The store survives it.
- A peek that fails consumes its signal and leaves the row unseen (`FailedPeekStrands`).
- Eviction of idle buckets is described as indistinguishable from never evicting
  (`internal/relay/limits.go:29-37`). It is so exactly when burst <= 600 * rate, or when burst
  is below one token (`SweepTransparentExactly`); `EvictionWitness` builds the calls that tell
  the two apart in every other case.
- A refusal with bit 7 set means "may succeed later". With a burst below one, or for an
  envelope larger than the byte quota of an empty Inbox, no later moment accepts the body
  (`TemporaryExactly`); in `RefusedForever` a push is refused with bit 7 set and never gets in.
  Configuration takes whole positive bursts only (`internal/config/config.go:240`), so a burst below
  one reaches the limiter through `NewRouterWithLimits` alone; a byte quota of a few bytes is
  accepted. A refusal with bit 7 clear is final (`PermanentForever`).
- `Parse` adds 5 to a declared 32-bit length with wrap-around; its slice is well-formed exactly
  for lengths up to 2^32 - 6 (`ParseSlice`). Above that the slice expression panics
  (`PanicFramePanics`); in the step system the panic restarts the process (`PanicRestarts`), and
  durability is proved across it.

**Modelling choices.** Go's fixed-width integers are written out where they wrap or truncate
(frame lengths, the u16 prefix, blob ids as uint64 and int64). The OR of shifted 7-bit groups in
`readVarint` is an addition because the bits are disjoint, which is proved. Tokens are `real`.
Clock readings, wall-clock times, database failures and the number of bytes a failing write puts
on the wire are parameters. The cipher is any pair of functions that add a 16-byte tag and
invert each other under the same nonce (sections 5.1 and 3 of the Noise Protocol Framework,
revision 34). The spare capacity of a list's new array is a parameter of the subscription that
makes it grow. A session whose wake-up was lost is marked `behind` until a later peek succeeds.

## Model

| member | source | states |
|---|---|---|
| EnvelopeWire.ReadVarint | internal/relay/envelope_recipient.go:99-112 | The loop consumes exactly the varint at the front, or nothing if there is none; the value is the little-endian base-128 number and fits 64 bits |
| EnvelopeWire.VarintFitsIn64Bits | internal/relay/envelope_recipient.go:99-112 | Ten bytes at most and one value bit in the tenth keep every accepted varint below 2^64 |
| EnvelopeWire.SkipPayload | internal/relay/envelope_recipient.go:41-77 | The switch on the wire type fails exactly when the grammar has no payload there; otherwise it skips that payload and finds its data |
| EnvelopeWire.ExtractRecipient | internal/relay/envelope_recipient.go:20-87 | Terminates on every input; returns K exactly when the bytes are some list of valid fields with one length-delimited field 3, 32 bytes long, equal to K; an error means no key is addressed |
| EnvelopeWire.RecipientIsGrammar | internal/relay/envelope_recipient.go:20-87 | The decoding function and the existential grammar agree in both directions |
| EnvelopeWire.DecodeOfPrint | internal/relay/envelope_recipient.go:20-87 | Decoding inverts printing on every list of valid fields, non-minimal varints included |
| EnvelopeWire.SplitUnique | internal/relay/envelope_recipient.go:20-87 | Bytes split into fields in at most one way |
| EnvelopeWire.AddresseeUnique | internal/relay/envelope_recipient.go:20-87 | No envelope addresses two Devices |
| EnvelopeWire.AddressedAmongOthers | internal/relay/envelope_recipient.go:20-87 | On literal bytes: tag 26, length 32 and a key name that Device among a varint, an eight-byte, a counted and a four-byte field, whatever these hold |
| FrameCodec.Frame | internal/session/frame.go:66-76 | The buffer filled index by index is type, big-endian 32-bit length, body |
| FrameCodec.ParseOfFrame | internal/session/frame.go:66-95 | A framed message followed by anything parses back to its type and body, exactly when the buffer length does not wrap below the frame's |
| FrameCodec.FrameOfParse | internal/session/frame.go:66-95 | Whatever parses is the frame of its result, up to ignored trailing bytes |
| FrameCodec.ParseExactly | internal/session/frame.go:80-95 | A buffer parses exactly if it holds a header of type 1 to 6 and the body its four-byte big-endian length declares, and then as those |
| FrameCodec.ParseSlice | internal/session/frame.go:80-95 | With wrapping 32-bit addition the slice bounds cross exactly for declared lengths above 2^32 - 6 |
| FrameCodec.PanicFramePanics | internal/session/frame.go:80-95 | The five bytes of a Push header that declares 2^32 - 1 bytes are such an input |
| FrameCodec.PutU64 | internal/session/frame.go:131-140 | The eight shifted and truncated bytes are the big-endian encoding; the rest of the buffer stays |
| FrameCodec.EncodeDeliverBody | internal/session/frame.go:99-104 | The body is the big-endian id followed by the envelope |
| FrameCodec.BlobIdRoundTrip | internal/session/receive.go:197-248 | Every int64 blob id survives uint64 conversion, Deliver body, DeliverAck body and conversion back; envelope bytes survive |
| Transport.WriteNoiseMsg | internal/session/transport.go:15-21 | One buffer: truncated 16-bit length, then the message |
| Transport.ReadOfWrite | internal/session/transport.go:15-35 | A message is read back, with the rest of the stream intact, exactly when its length fits the prefix |
| Transport.ReadAllOfWriteAll | internal/session/transport.go:15-35 | A stream of fitting messages and a cut-off tail reads as exactly those messages in order |
| Transport.ReadOfCut | internal/session/transport.go:24-35 | A message cut off anywhere yields nothing |
| Transport.SizeBudget | internal/relay/envelope.go:44-51 | A push frame fits the u16 ciphertext length exactly up to the 65,482-byte ceiling and fills it there; a Deliver frame fits up to 24 bytes more |
| SessionWriter.StepOk | internal/session/writer.go:47-98 | Every step of every producer and of the writer keeps: message n on the wire is frame n sealed under nonce n, and Deliver frames are neither lost, repeated nor reordered |
| SessionWriter.WireIsWritten | internal/session/writer.go:47-71 | Opening message i under nonce i gives back exactly the frames written whole, in dequeue order |
| SessionWriter.DeviceSeesPrefix | internal/session/receive.go:190-202 | The blobs a Device decodes are a prefix of those taken from the delivery channel, though trySend drops other frames |
| SessionWriter.LoopKeepsLine | internal/session/writer.go:47-71 | However each turn of the writer's loop ends - written, cut off, not encrypted, stopped - it takes frames off the queue's front and keeps the invariant and the order of all frames |
| SessionWriter.ReturnedStays | internal/session/writer.go:47-71 | A writer that has returned changes nothing any more |
| SessionWriter.TrySendOk | internal/session/writer.go:93-98 | A reply is dropped exactly when the queue is full; the queue keeps its bound and the Deliver frames their line |
| SessionWriter.RepliesExactly | internal/session/receive.go:227-259 | With room among the 16 queued frames an echo is a frame that parses as type 3 without a body, a complaint one that parses as type 5 with the body 2; without room neither is sent |
| SessionWriter.DeliverFrameIs | internal/session/receive.go:195-202 | The frame that carries a blob parses as type 2, its body the eight-byte id and the envelope |
| SessionWriter.EndsOnlyIfStopped | internal/session/writer.go:47-85 | Over any steps: the deliver goroutine has returned only if the stop channel was closed, the writer only if it was or a frame could not be encrypted or written |
| SessionWriter.StopLetsReturn | internal/session/writer.go:55-85 | Once the stop channel is closed both may return |
| SessionWriter.Writer.Run | internal/session/writer.go:47-71 | For every outcome of every turn, the stop branch and an Encrypt error included, the loop's effect is that of the turns up to its return |
| SessionWriter.Writer.Send | internal/session/writer.go:78-85 | Waits exactly when the queue is full and the session not stopped; else enqueues the frame in hand or takes the stop branch |
| Inbox.Store.PutWithLimits | internal/store/sqlite/store.go:80-115 | Stores the row under a fresh id with its expiry, or changes nothing; without a fault it refuses as full exactly when the blobs held are as many as the blob limit or the envelope takes their bytes over the byte limit |
| Inbox.FullExactly | internal/store/sqlite/store.go:88-103 | The refusal told from what a peek from the start returns, one blob for each of the key's rows: full exactly at the blob limit or when the bytes would exceed the byte limit, stored under the next id in every other case |
| Inbox.AllStoredExactly | internal/store/sqlite/store.go:80-115 | Any puts to one key, whatever it holds, are all stored exactly when with it they are within both limits |
| Inbox.FreshPutsExactly | internal/store/sqlite/store.go:80-115 | From an empty store n puts are all stored exactly when n and their sizes together are within the limits |
| Inbox.UnixIsFloor | internal/store/sqlite/store.go:81 | An expiry in whole seconds never rounds up |
| Inbox.Store.Peek | internal/store/sqlite/store.go:127-149 | The row loop returns the key's rows above the mark |
| Inbox.PeekExact | internal/store/sqlite/store.go:127-149 | Ids strictly increase and a blob is returned exactly when it is a row of that key above the mark |
| Inbox.Store.DeleteForRecipient | internal/store/sqlite/store.go:154-172 | Removes exactly the key's own rows with those ids |
| Inbox.Store.ReapExpired | internal/store/sqlite/store.go:176-185 | Removes exactly the rows whose expiry second has come |
| Inbox.IdIdentifies | internal/store/sqlite/store.go:14-23 | An id names one row |
| Inbox.PutWithinQuota | internal/store/sqlite/store.go:80-116 | A put keeps every Inbox within blob and byte quota |
| Inbox.KeepWithinQuota | internal/store/sqlite/store.go:154-185 | Acks and reaps keep every Inbox within quota |
| Inbox.VerdictIsLocal | internal/store/sqlite/store.go:80-116 | Puts and acks on one key never change the verdict on another |
| Limits.RateLimiter.AllowPush | internal/relay/limits.go:73-109 | Answer and buckets are those of the one-call function, sweep included |
| Limits.RateLimiter.SweepIdle | internal/relay/limits.go:80-88 | The deleting loop leaves exactly the buckets used since the cutoff |
| Limits.WindowBound | internal/relay/limits.go:73-109 | With burst <= 600 * rate: over any calls for any keys under a nondecreasing clock, at most burst + rate * (e - s) pushes to one key are allowed in [s, e], eviction included |
| Limits.EvictedBound | internal/relay/limits.go:73-109 | For any burst: the same bound, and one burst more for each time the key's bucket is evicted in [s, e] |
| Limits.SpacedIsAllowed | internal/relay/limits.go:90-109 | A call at least 1/rate after every earlier one for its key is allowed |
| Limits.BurstIsAllowed | internal/relay/limits.go:70-109 | Whatever is called or evicted in between, calls for a key are allowed as long as they are fewer than the whole tokens its bucket holds, or the burst holds if it has none |
| Limits.OffAllowsAll | internal/relay/limits.go:74-76 | With neither rate nor burst positive every call is allowed |
| Limits.OffExactly | internal/relay/limits.go:74-94 | Exactly in every other case a call leaves its key a bucket |
| Limits.CallDatesBucket | internal/relay/limits.go:90-108 | A counted call dates its key's bucket to the moment it read, also when the clock has gone back, when it earns nothing; an allowed one takes one token |
| Limits.EvictsExactly | internal/relay/limits.go:80-88 | A call costs another key its bucket exactly when more than 4,096 are kept and that one is untouched for over 600 seconds |
| Limits.SweepTransparent | internal/relay/limits.go:80-94 | With burst <= 600 * rate the evicting limiter answers every call sequence as one that never evicts, from any two states that agree up to full buckets |
| Limits.SweepTransparentExactly | internal/relay/limits.go:29-94 | Eviction is invisible exactly when burst <= 600 * rate or burst < 1 |
| Limits.EvictionWitness | internal/relay/limits.go:29-94 | Otherwise: a call sequence answered differently |
| SessionCap.Cap.TryAcquire | internal/relay/limits.go:126-137 | Succeeds exactly below the cap, adds one for that key only |
| SessionCap.Cap.GiveBack | internal/relay/limits.go:141-152 | Takes one back from that key only |
| SessionCap.ReleaseUndoesAcquire | internal/relay/limits.go:126-152 | Giving a slot back restores the counts exactly, keys without sessions absent again |
| Notifier.Notifier.Notify | internal/notify/inprocess/notifier.go:25-37 | Uninterrupted, every subscriber of the key ends up with a signal, and no other channel changes |
| Notifier.SubscribedLists | internal/notify/inprocess/notifier.go:42-48 | In place or in a new array, a subscription puts its channel at the end of its key's list and leaves every other list alone |
| Notifier.Notifier.Unsubscribe | internal/notify/inprocess/notifier.go:50-65 | Finds the channel, shifts the backing array down slot by slot, drops an empty list, closes the channel |
| Notifier.UnsubscribedLists | internal/notify/inprocess/notifier.go:50-65 | An unsubscription takes its channel out of its key's list, keeps the others there in order, and leaves every other list alone |
| Notifier.WithoutKeepsOthers | internal/notify/inprocess/notifier.go:50-65 | Without duplicates, exactly the other channels stay |
| FanOut.MissedExactly | internal/notify/inprocess/notifier.go:25-65 | For every interleaving of reads, sends, slot copies, shrinks, appends and closes: a finished fan-out has missed a channel listed at its header exactly when some step took the last unread slot holding it |
| FanOut.OvertakenIs | internal/notify/inprocess/notifier.go:42-58 | Such a step is a removal's copy over that slot or a subscription written into it |
| FanOut.HitExactly | internal/notify/inprocess/notifier.go:25-65 | For every interleaving: the fan-out panics exactly when it sends to a channel in hand that has been closed |
| FanOut.ClosedReadIsStale | internal/notify/inprocess/notifier.go:25-65 | A channel closed before it is read comes from a slot the list has shrunk away from |
| FanOut.RemovalIsShifts | internal/notify/inprocess/notifier.go:56 | The copies and the shorter slice together are the removal the lists are specified by |
| FanOut.RemovalSkipsExactly | internal/notify/inprocess/notifier.go:25-58 | A whole removal, wherever the list and the fan-out's slots end in the array: it takes a channel from the fan-out exactly when the channel's only unread slot is overwritten and its copy lands behind the cursor, and brings one exactly when it is listed right behind the fan-out's slots |
| FanOut.AppendSkipsExactly | internal/notify/inprocess/notifier.go:25-58 | A subscription in place takes a channel from the fan-out exactly when the stale slot it writes was the only unread one that held it, and brings none but its own |
| DeliveryFanOut.RunFollowed | internal/notify/inprocess/notifier.go:25-65 | Every run of the relay, seen by one push and the array it reads, is a run of that fan-out against its array: slots, list length, scan, closed channels, and the channels sent to |
| DeliveryFanOut.BeginTakesHeader | internal/notify/inprocess/notifier.go:26-28 | A committed push whose key has a list begins with that list's array and length, nothing read |
| DeliveryFanOut.RelayMissesExactly | internal/notify/inprocess/notifier.go:25-65 | Over every run of the relay a finished fan-out has not sent to a channel listed at its header exactly when a removal or a subscription of the run took the channel's last unread slot |
| DeliveryFanOut.RelayHitsExactly | internal/notify/inprocess/notifier.go:25-65 | Over every run of the relay the fan-out's next send stops the process exactly when the run has closed the channel in hand since the header was taken |
| Router.Router.OnPush | internal/relay/router.go:172-228 | Screen, rate limit, store, notify: outcome, buckets and table are those of the push function; exactly the recipient's subscribers are signalled, after an accepted push only |
| Router.ScreenExactly | internal/relay/router.go:176-204 | A body passes the screen exactly when it has 32 bytes of key, an envelope within the ceiling - the configured one, or 65,482 bytes - and that envelope addresses the key in the wire grammar; which refusal it gets otherwise |
| Router.AdmissibleExactly | internal/relay/router.go:172-204 | A push is refused for its shape exactly in those cases, and then costs no token and stores nothing |
| Router.PushExactly | internal/relay/router.go:206-228 | Every other push is charged, is rate limited exactly when its bucket does not allow it, and one that is allowed is accepted exactly when the store does not fail and what the Inbox holds leaves room |
| Router.RefusalCode | internal/session/push.go:173-190 | The code byte of every refusal, from the body's shape and from what refused it |
| Router.Router.OnReceiveConnect | internal/relay/router.go:255-283 | Connects exactly when a slot is free and Subscribe succeeds; otherwise, the failed Subscribe included, counts and subscriber lists are as before |
| Router.Router.DeliverNew | internal/relay/router.go:322-336 | One pass sends the peeked blobs in order up to the cut-off and returns the id of the last one sent |
| Router.AcceptedMatches | internal/relay/router.go:172-217 | An accepted body is its row's recipient followed by its envelope, whose own field 3 names that recipient, within the size limit, under the next id with expiry now + ttl; a refusal leaves the table alone |
| Router.PermanentExactly | internal/session/push.go:173-190 | Bit 7 is clear exactly when the body and the size limit alone decide the refusal |
| Router.PermanentForever | internal/session/push.go:173-190 | A body refused with bit 7 clear is refused for the same reason in every other state |
| DeliverySessions.LocalOk | internal/relay/router.go:292-336 | Every step of a session keeps its ids increasing, its coverage of rows up to its mark, the origin of its blobs, and its channel |
| DeliverySessions.PeekOk | internal/relay/router.go:322-336 | After a successful peek every row of the key is at or below the session's mark |
| DeliverySessions.SendsExactly | internal/relay/router.go:256-334 | Inside a batch the next blob goes out exactly while fewer than 256 wait in the session's channel |
| DeliveryInvariants.StepStreams | internal/relay/router.go:292-336 | Every step of the relay keeps all sessions' streams, all rows as their pushes left them, and all quotas |
| DeliveryInvariants.StepSlots | internal/relay/router.go:270-290 | The count of every key is the number of its sessions between acquire and release, never above the cap |
| DeliveryEnds.EndedSessionLeaves | internal/relay/router.go:278-300 | In every reachable state a subscribed session whose context has ended can leave by its own steps, however a pending peek comes out; its key then has one slot fewer in use, and a connection that only this slot kept out gets in |
| DeliveryEnds.FailedSubscribeLeaves | internal/relay/router.go:271-275 | A connect whose Subscribe fails gives its slot back |
| DeliveryEnds.LeavesExactly | internal/relay/router.go:278-300 | No step ends a session but its goroutine's return at the select with the context ended, and that failed Subscribe |
| DeliveryEnds.EndedSubscriptionCloses | internal/notify/inprocess/notifier.go:50-65 | Once its context has ended a session's channel leaves its list, which keeps every other, and is closed |
| DeliveryEnds.PushFinishes | internal/relay/router.go:217-228 | In every reachable state a push whose row is stored comes to its Ack by its own steps, or to a send that would hit a closed channel |
| DeliveryEnds.AnswerIsFinal | internal/session/push.go:141-165 | Over any run, restarts included, a push that was Acked or declined stays so |
| DeliveryLists.StepLists | internal/notify/inprocess/notifier.go:25-67 | Every step keeps: a key's list holds its listening sessions, each once; arrays, stale slots included, hold only their own key's channels; fan-outs stay within arrays of their key |
| DeliveryWake.StepWake | internal/relay/router.go:278-310 | Every step keeps: a live session has seen its Inbox, or is going to look again, or one of its wake-ups is on record as lost |
| DeliveryWake.RunInv | internal/relay/router.go:255-336 | All of this after every run |
| DeliveryBehind.BehindExactly | internal/notify/inprocess/notifier.go:25-65 | A wake-up goes on record as lost exactly by a failed peek of the session, or by a removal from its key's list or a subscription in place when no push of the key is about to begin, some fan-out has the session before it, and every fan-out that has it reads the list's array and has it only in the slot that the shift or the append overwrites, while the shift brings it to no other |
| DeliveryCalm.CalmNeverBehind | internal/notify/inprocess/notifier.go:25-67 | With no failed peek of the key's sessions and no removal from the key's list during a fan-out over it, no wake-up of the key is lost, whatever subscribes and whatever happens to other keys |
| DeliveryCalm.CalmNeverHits | internal/notify/inprocess/notifier.go:30-35 | ... and no fan-out of the key sends to a closed channel |
| DeliveryWitness.LostWakeUp | internal/notify/inprocess/notifier.go:25-58 | For every key, clock and configuration that takes the push and three sessions, with the list's array growing by capacities 1, 2 and 4: a run without a failed peek that ends with a live session that has not seen a stored row, every push Acked, and nothing short of a new connection, a further push or a context that ends that shows it the row |
| DeliveryWitness.FailedPeekStrands | internal/relay/router.go:322-326 | For every such configuration that takes one session, a run with one failed peek that ends the same way |
| DeliveryWitness.ClosedChannelIsHit | internal/notify/inprocess/notifier.go:30-65 | For every such configuration, a run whose last step sends to a closed channel and stops the process, the pushed row stored |
| DeliveryWitness.PanicRestarts | internal/session/frame.go:80-95 | In every state, the five-byte frame stops the process |
| DeliveryTheorems.StepRows | internal/store/sqlite/store.go:154-185 | A step takes an existing row away exactly when it is its owner's ack for it or a reap at or after its expiry |
| DeliveryTheorems.DurableExactly | internal/relay/router.go:217-237 | Over any run a stored row is there, unchanged, exactly as long as no such event has met it |
| DeliveryTheorems.AckedIsDurable | internal/session/push.go:141-165 | Once a push is committed, and so once it is Acked: an event of the run is that push's own frame and stored a row whose recipient and envelope are the frame's body and whose expiry is its wall time + ttl; the row is still there exactly if no later event met it that is its owner's ack or a reap at or after that expiry |
| DeliveryTheorems.StoredWasPushed | internal/relay/router.go:172-217 | Every stored row is the row of some push of the run, with its body and its expiry |
| DeliveryTheorems.AckOfOthersIsSilent | internal/session/receive.go:238-257 | Foreign, unknown and repeated acks leave the store as it is |
| DeliveryTheorems.QuiescentIsDelivered | internal/relay/router.go:278-310 | At rest, with no lost wake-up on record, every remaining row has been sent to its live session, once, with the stored bytes |
| DeliveryTheorems.AcceptedWasPushed | internal/relay/router.go:172-217 | Every recorded body was the body of a Push frame |
| DeliveryTheorems.EndToEnd | internal/relay/router.go:172-336 | What a Device decodes from any prefix of its connection's bytes has increasing ids, is a prefix of what was sent, and consists of envelopes that address it and were pushed to it |
| DeliveryTheorems.StoredFits | internal/relay/router.go:182-217 | Every stored envelope's Deliver frame fits the u16 ciphertext length |
| DeliveryTheorems.LimitsHold | internal/relay/router.go:172-290 | Blob quota, byte quota and session cap after every run |
| DeliveryTheorems.DoneIsFinal | internal/relay/router.go:280-316 | A slot given back is not given back again |
| DeliveryProgress.PassIsSteps | internal/relay/router.go:322-336 | The session's steps through one pass, cut off after n sends, send what DeliverNew sends and leave the same mark |
| DeliveryProgress.DrainedIsSeen | internal/session/receive.go:190-202 | With channel and queue drained the Device has decoded everything sent |
| DeliveryStuck.DeliverableExactly | internal/relay/router.go:278-336 | In every state satisfying the invariant: the relay's own steps - session goroutines, committed pushes, connects that hold a slot, removals and closes of ended contexts - can bring a row to its live session's Device exactly when the session has its first peek to come, has consumed or holds a signal, has looked past the row, or a push can still come to its channel (straight on, over closed slots that joining sessions can overwrite, or by shifts of leaving ones); and exactly then can anything that happens without a new connection, a further push or a context that ends |
| DeliveryRecovery.ReconnectRecovers | internal/relay/router.go:255-336 | After any run, lost wake-ups included, a new session of the key that gets a slot needs only the relay's own steps for its Device to decode exactly the rows of the Inbox, in order of id |
| DeliveryCalm.NoRowStranded | internal/relay/router.go:278-336 | Over every calm run from an empty store, the relay's own steps can bring every stored row to its live session's Device |
| DeliveryRetry.AckEverything | internal/relay/router.go:234-237 | Acks of its own rows on a live session empty an owner's Inbox and change nothing else |
| DeliveryRetry.AcceptedAfterAcks | internal/relay/router.go:172-237 | After the acks of a live session, an acceptable push is stored at any wall time, and at a limiter time not before any given one |
| DeliveryRetry.AcceptedAfterReap | internal/relay/router.go:172-228 | After a reap late enough, an acceptable push is stored, neither clock going back before given readings or between the two |
| DeliveryRetry.TemporaryExactly | internal/session/frame.go:38-63 | With rate > 0 and ids left, a body the screen lets pass can still get in after any run, by a continuation whose clocks never go backwards, exactly when burst >= 1 and its envelope fits the byte quota, while all its refusals say "temporary" |
| DeliveryWitness.RefusedForever | internal/session/frame.go:38-63 | With a burst below one or a byte quota below 34: the run of one push of a 34-byte envelope declines it with bit 7 set, and in no continuation whose clocks go forward does its body get in |
| StoreVersion.InboxSchemaMatches | internal/store/sqlite/version.go:133-158 | The column loop is the adoption test |
| StoreVersion.SchemaMatchesExactly | internal/store/sqlite/version.go:133-158 | The test accepts exactly today's column set |
| StoreVersion.BuildPath | internal/store/sqlite/version.go:299-314 | The two loops find the path function's result |
| StoreVersion.PathShape | internal/store/sqlite/version.go:299-314 | A path has one step per version from found to target, in order; otherwise the first version without a step is named |
| StoreVersion.StoreFile.WithTx | internal/store/sqlite/version.go:226-236 | All operations and the commit, or exactly the old store |
| StoreVersion.StoreFile.Open | internal/store/sqlite/version.go:163-203 | Disk and outcome are those of the attempt function, for every fault |
| StoreVersion.UnversionedExactly | internal/store/sqlite/version.go:190-194 | A version-0 store with a table is opened as it is, stamped with the target, exactly when its columns are id, recipient, envelope and expires_at, and refused as unmigratable and untouched in every other case |
| StoreVersion.UndeclaredResetRefuses | internal/store/sqlite/version.go:165-168 | The reset flag on a release that does not declare one refuses every store untouched |
| StoreVersion.TooNewExactly | internal/store/sqlite/version.go:180-182 | Exactly the stores newer than the target are refused as too new, a declared and requested reset included, and left untouched |
| StoreVersion.ResetExactly | internal/store/sqlite/version.go:186-188 | A start reports a reset exactly when it was requested and declared on an existing store no newer than its target; the store is then new and empty |
| StoreVersion.CurrentExactly | internal/store/sqlite/version.go:197-200 | A store at its target opens as it is, gains its table if it has none, and fails untouched if its indexes' columns are missing |
| StoreVersion.CutOffKeepsStore | internal/store/sqlite/version.go:226-293 | A start cut off before its commit leaves an existing store as it was, or gives a current store its missing empty table |
| StoreVersion.CrashSafe | internal/store/sqlite/version.go:226-332 | Any number of cut-off starts and one successful one make the store one successful start makes |
| StoreVersion.CutOffAfterCommit | internal/store/sqlite/version.go:223-234 | A start cut off after its commit has left what it would have left uninterrupted |
| StoreVersion.MigrationComposes | internal/store/sqlite/version.go:299-332 | A migration leaves the composition of one step per version, stamped with the target, or the old store |
| StoreVersion.MissingStepRefuses | internal/store/sqlite/version.go:299-314 | A step is missing exactly when the open refuses; it names the first one and writes nothing |
| StoreVersion.OpenEndsAtTarget | internal/store/sqlite/version.go:163-203 | Every successful open ends at its target; every refusal leaves an existing store untouched |
| StoreVersion.RowsChangeExactly | internal/store/sqlite/version.go:163-355 | A start changes the rows exactly when it commits a requested and declared reset of a nonempty store no newer than its target, and then none are left |
| StoreVersion.RowsSurvive | internal/store/sqlite/version.go:163-355 | Over any starts of any binaries rows are lost only to such a start |
| HostilePipe.Pipe.EmitBlob | internal/hostile/engine.go:254-285 | Drop, corrupt, duplicate, reorder, in this order, with the rules in force, up to the first send the context cuts |
| HostilePipe.Pipe.Flush | internal/hostile/engine.go:268-281 | The backwards loop sends the reverse of the window, up to the first send the context cuts |
| HostilePipe.Pipe.ReplayHistory | internal/hostile/engine.go:355-368 | The loop sends the last `count` history entries again, oldest first, all of them for count <= 0, up to the first cut, and leaves the history alone |
| HostilePipe.Pipe.RunLoop | internal/hostile/engine.go:304-351 | For every sequence of arrivals, injections, replays and context ends, every rule table met on the way (exact entry, else wildcard, else honest) and every choice of cut sends, the state is that of the run, followed by the closing flush if it is not over |
| HostilePipe.RulesForExactly | internal/hostile/engine.go:131-140 | The key's own rules if it has an entry, also beside a wildcard; else the wildcard's; else the blob passes as it is |
| HostilePipe.ProcessedExactly | internal/hostile/engine.go:254-266 | Dropped, once or twice, each copy the blob with at most its middle byte complemented, and that exactly under the corrupt rule |
| HostilePipe.InjectedVerbatim | internal/hostile/engine.go:330-337 | An injected blob goes out at once and as it is, whatever is held |
| HostilePipe.UnheldGoesOut | internal/hostile/engine.go:263-285 | Without a window every processed blob goes out at once |
| HostilePipe.FullWindowFlushes | internal/hostile/engine.go:264-280 | A blob that fills the window, or finds more held than a window made smaller since, flushes all that is held in reverse |
| HostilePipe.ReplayExactly | internal/hostile/engine.go:353-368 | A replay repeats the last `count` entries of the history, or all, oldest first, up to the first cut, and leaves the history alone |
| HostilePipe.Conservation | internal/hostile/engine.go:254-299 | For all inputs, rule changes and cut sends, sent plus held plus lost is the multiset of what the rules made of the inputs taken |
| HostilePipe.UncutLosesNothing | internal/hostile/engine.go:254-351 | While the pipe runs nothing is lost |
| HostilePipe.StoppedHoldsNothing | internal/hostile/engine.go:298-352 | A pipe that has returned holds nothing; sent and lost are then all it took |
| HostilePipe.CloseFlushes | internal/hostile/engine.go:304-325 | Closing the input sends a subsequence of the reversed window, all of it exactly when no attempt takes the context's branch; sent and lost are then all the pipe took |
| HostilePipe.WindowReverses | internal/hostile/engine.go:254-285 | A window's worth of blobs goes out reversed, and only when the last has arrived: all of it exactly when no attempt is cut, else a prefix |
| HostilePipe.HistoryIsRecent | internal/hostile/engine.go:288-299 | The replay source is always the last 256 sends |
| HostilePipe.CorruptedOnce | internal/hostile/engine.go:372-379 | Exactly the middle byte changes, and corrupting twice restores the blob |
| SessionLoops.PushSession.Loop | internal/session/push.go:117-167 | The frame loop's replies and store are those of serving the frames one by one, until a panic, a refusal after the context's end, or an Ack that cannot be sent ends it |
| SessionLoops.OpenExactly | internal/session/push.go:117-167 | A session is open exactly while no frame has made Parse panic, been refused with the context ended, or been accepted with no way to send its Ack; every frame then has its one reply - Ack to an accepted Push, Error with its reason to a refused one, malformed Error to anything else |
| SessionLoops.EndedExactly | internal/session/push.go:117-167 | A session that has ended did so at the first such frame, with all frames before it answered and none after |
| SessionLoops.RepliesParse | internal/session/push.go:136-165 | An Ack parses as type 4 without a body, an Error as type 5 with its code; a Push is a frame of type 1 |
| SessionLoops.AcksAreStored | internal/session/push.go:117-167 | One reply per frame while the session is open; the store gains exactly one row per Ack, with the Acked body, in order, and one more if the session ended on an Ack that could not be sent |
| SessionLoops.ServeIsStep | internal/session/push.go:117-167 | The step system's push is this serving of one frame: Ack for a committed push, Error with its reason for a declined one, restart for a panic |
| SessionLoops.ReceiveSession.Dispatch | internal/session/receive.go:205-261 | Echo, delete or complain, for each frame as the read loop does |
| SessionLoops.AnsweredInKind | internal/session/receive.go:227-260 | From the bytes of a frame: Heartbeat for a Heartbeat, silence and the deletion of the session's own row for a DeliverAck with an id, malformed Error for anything else, panic exactly where Parse has one |
| SessionLoops.DispatchIsStep | internal/session/receive.go:205-261 | The step system's inbound step is this dispatch |

## Left out

- Noise handshakes, X25519 and the AEAD itself: foreign cryptography, abstracted as a sound seal and open.
- SQL text, WAL, pragmas, indexes and connection handling: the table's statements are atomic functions, and any database error is a `fault` flag that changes nothing.
- The PostgreSQL store and its LISTEN/NOTIFY service: experimental, with ids assigned out of commit order.
- Configuration parsing, logging, the health handler, refusal counters, the CLI and the server's shutdown sequence: I/O or single-branch logic; only the envelope size ceiling of the configuration is used, as `Config.Ok`.
- Deadlines and the version-prefix exchange: one-branch checks around network reads.
- Float64 rounding in the token bucket: tokens and seconds are real numbers.
- Scheduler fairness: instead of "eventually", the model proves that nothing is left behind at rest and exactly when delivery remains possible.
- SessionLoops.ServeIsStep: the rate limiter's answer and the put are one step, though OnPush takes the two locks one after the other (`internal/relay/router.go:199`, `208`), so of two pushes that have both been allowed the step system puts the first one first.
- DeliveryWake.StepWake: the shift inside one removal is a single step of the step system, though a fan-out could read between two of its copies; the FanOut module interleaves single copies, and `RunFollowed` takes a removal of the step system to its copies in a row. A racing read sees one of the values written to its slot: torn or reordered memory accesses are not modelled.
- StoreVersion.CrashSafe: compares stores, not the reported reset flag, which differs when a start with the reset option crashes after creating a missing file; targets are not negative.
- StoreVersion.RowsChangeExactly: migrations of the chain are assumed to keep the rows, which is a matter of each migration's SQL.
- HostilePipe.Pipe.RunLoop: the control socket, the inject and replay channels' capacity and the choice of a session for an injected blob are not modelled.
- The hex encoding of keys in the notifier's map: keys are compared directly.
- The store error that follows the use of the largest id is modelled as a failed put, and retry results ask for ids left.
