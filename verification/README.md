# Verified model of the Machine Payments Protocol library

The library charges for HTTP, SSE and WebSocket traffic: a server issues payment challenges bound
to their contents by a MAC, a client pays and answers with credentials, and both sides meter a
payment channel. This project models the parts where a mistake would lose or invent money or data,
and proves what they promise, for all inputs, all interleavings and all runs.

`dafny verify dfyconfig.toml` checks everything.

| file | what it models |
|---|---|
| `Session.dfy` | one session of the MPP WebSocket translator as pure steps over a log of events, and the safety of every log |
| `Inputs.dfy` | what a session owes its inputs: from the polls alone, everything that must pass through it and how it must end |
| `Translator.dfy` | the select loop as an object updated in place, refined to `Session.dfy`; the connector whose sessions share the fatal latch |
| `Channel.dfy` | a channel's books, and every writer the library runs on it: deduction, open, top-up, refresh, voucher, close and its abort |
| `Adapter.dfy` | `ChannelStoreAdapter`: interleavings of read-modify-write calls over a get/put/delete store with a per-key lock map |
| `Eviction.dfy` | what a racing lock eviction costs: the exact condition and a lost update in full |
| `Deductions.dfy` | concurrent deductions: what the calls were told against what the channel holds |
| `Metering.dfy` | the metering loops `serve` and `ws_session` against an environment that shares the channel |
| `Sessions.dfy` | metered sessions over the adapter's interleavings |
| `AcceptPayment.dfy`, `Ranking.dfy` | the Accept-Payment header: parser, printer, ranking, `compose` and challenge selection |
| `HeaderText.dfy` | what the header parser makes of every text, said of the text's own parts |
| `Challenge.dfy` | challenge issue, the MAC input, two-tier verification, provenance over runs |
| `Amount.dfy`, `Autoswap.dfy` | exact decimal amounts and the slippage bound of the automatic swap |
| `Sse.dfy` | the server-sent event formatters and parser |
| `Proxy.dfy` | the header pipeline of the payment proxy |
| `Prelude.dfy`, `Text.dfy`, `Numerals.dfy` | shared data types, string operations and numerals |

## Reading the model

- Values the code obtains from outside are inputs: what each future of the select loop yields and
  when (`Session.Poll`), which updates others write before each store access and whether the access
  fails (the `script` of `Metering`), whether a send succeeds, the clock, balances and quotes, which
  order a hash map iterates in. The time of one loop iteration is one instant.
- Others may write anything: `Channel.Updater` has every update the session method passes to the
  store, a removal, and any function of a caller's own. Laws that some writer breaks name the
  writers in their condition (`Covered`, `Reopens`, `Known`, `Removes`).
- The MAC, the request codec, the timestamp format and JSON are parameters (`Challenge.World`,
  `Sse.Json`). A theorem that needs the MAC collision-free, or the codec to read back what it
  writes, says so in its `requires` (`IdealMac`, `ReadsBack`, `Faithful`).
- Objects the code updates in place are classes whose methods are proved equal to a function of the
  old state (`View() == Step(old(View()))`); the laws are proved about that function.
- Challenge ids are text; `ConstantTimeEq` is proved to be equality on bytes, and the model then
  compares ids with `==`.
- Quality values are kept in thousandths. Amounts are unbounded integers with the 128-bit limits
  written out where the code checks or saturates.
- A need-voucher frame and a receipt tell of the channel as the loop last looked at it; others may write between
  the look and the frame.
- A reference into a slice is modelled by its index, so "moved out of its slot once" is a statement
  about indices (`Ranking.Compose`).
- `BadRequest` texts of the header parser are collapsed into one failure.
- `hide` statements only keep definitions out of a proof; they change no statement.

## Where the code and its documentation differ, and what fails

The model follows the code. The theorems behind each point are named with it.

- `src/protocol/core/challenge.rs:461-463` says that a challenge with and one without an optional
  field always get different MACs. Absent and empty fields join to the same MAC input
  (`Challenge.EmptyOpaqueConfusion` is a family of accepted credentials), and this is the only
  confusion: `Challenge.AcceptedEchoes`, `Challenge.OpaqueExact`.
- A Stripe handler that binds a recipient or a chain id rejects the challenges it issues itself,
  because those carry neither; `create_stripe` binds neither (`Challenge.StripeChargeVerifies`). A
  Tempo handler accepts its own challenges exactly when its method is named "tempo"
  (`Challenge.TempoChargeVerifies`).
- `src/store.rs:260-262` says that calls on one channel are serialized. A call that
  deletes the channel evicts the lock while others wait for it. From a serialized state exactly these
  evictions put serializability at risk (`Eviction.SerializableExactly`); `Eviction.LostUpdate` is a
  run that loses an update. On a key whose channel no call removes there is no such race
  (`Deductions.KeptRun`).
- A finalized channel can be charged again. A voucher call writes the finalized flag it read from
  the chain before a concurrent close finished (`src/protocol/methods/tempo/session_method.rs:818-833`);
  `Metering.ChargedAfterFinalizing` is that run. `Metering.ClosingExactly` and `Metering.StaysClosed`
  say which writers reopen a closed channel and that without them nothing is charged.
- `spent` also grows without a message or a unit: opening again, topping up and refreshing raise it
  to what the chain has settled. Receipts then state more than the messages, exactly if a settlement
  outran them (`Metering.FinalReceipt`), and `spent` can pass the voucher, exactly if a settlement
  is not covered (`Metering.NeverOverdrawn`).
- A message with a line break does not survive the SSE format: it always loses data, and every other
  message survives (`Sse.MessageRoundTrip`).
- The slippage cap covers the quote only while the quote times 10000 fits 128 bits
  (`Autoswap.CapCoversQuote`); the exact range in which it is quote plus tolerance is
  `Autoswap.CapExactly`.
- The headers forwarded upstream depend on the iteration order of the configured map exactly when two
  configured names differ only in case (`Proxy.OrderIrrelevantExactly`).
- `ws_session` has no special case for a closed channel: unlike `serve` it goes on asking for
  vouchers. That the stream then ends with a receipt is stated for `serve` alone.

## Model

| member | source | states |
|---|---|---|
| Session.EveryRun | crates/alloy-transport-mpp/src/ws.rs:422-599 | after any sequence of iterations, whatever is ready and whatever it yields, the loop variables equal what the log of frames and events says (challenges = pay credentials sent + pay pending, vouchers requested = vouchers sent + voucher pending, handshake complete iff a credential was sent, queue = received minus flushed, published receipt = the latest received, both timers) and every event was legal when it happened |
| Session.StepKeeps | crates/alloy-transport-mpp/src/ws.rs:422-599 | one iteration of the biased select keeps that invariant, for every arm |
| Session.FlushKeeps | crates/alloy-transport-mpp/src/ws.rs:430-441 | flushing sends the oldest queued RPC, in an open session only, and ends the session if the send fails |
| Session.FromFrontendKeeps | crates/alloy-transport-mpp/src/ws.rs:443-450 | an RPC joins the back of the queue; a gone frontend ends the session without an error |
| Session.TaskDoneKeeps | crates/alloy-transport-mpp/src/ws.rs:452-512 | a finished pay or voucher task delivers the one credential it owes, or ends the session with the reason its failure calls for |
| Session.KeepaliveKeeps | crates/alloy-transport-mpp/src/ws.rs:514-528 | a ping goes out only with no pong owed and a full interval after the last beat; otherwise the peer is given up |
| Session.TimeoutKeeps | crates/alloy-transport-mpp/src/ws.rs:530-538 | the handshake timeout fires only while the session is closed and a full timeout after the last spawn |
| Session.HandleTextKeeps | crates/alloy-transport-mpp/src/ws.rs:719-851 | every text frame, including malformed and repeated ones, keeps the invariant |
| Session.FromSocketKeeps | crates/alloy-transport-mpp/src/ws.rs:540-597 | every frame, read error and end of stream keeps the invariant and ends the session with the right reason |
| Session.SafePrefix | crates/alloy-transport-mpp/src/ws.rs:422-599 | what is proved of a whole log holds at every earlier moment of it |
| Session.DataIsGated | crates/alloy-transport-mpp/src/ws.rs:423-441 | no application data before the first credential, and none while a pay or voucher task is in flight |
| Session.DataInOrder | crates/alloy-transport-mpp/src/ws.rs:430-450 | at every moment the data sent (with the one frame whose send failed) is a prefix of the RPCs received, which are those handed over (`Inputs.IntakeKept`) |
| Session.FlushesFirst | crates/alloy-transport-mpp/src/ws.rs:423-441 | from an open state with n queued RPCs the next n steps send exactly those, in order, whatever else is ready |
| Session.PingsSeparated | crates/alloy-transport-mpp/src/ws.rs:514-528 | between two pings there is a pong |
| Session.PongGrace | crates/alloy-transport-mpp/src/ws.rs:514-528 | a missed pong is declared only with a ping unanswered and a full keepalive interval after the latest beat |
| Session.LastBeatMeaning | crates/alloy-transport-mpp/src/ws.rs:430-528 | the keepalive interval runs from the latest ping or RPC sent, or from the start |
| Session.TimeoutJustified | crates/alloy-transport-mpp/src/ws.rs:530-576 | a timeout exit follows a full timeout since the latest spawn, and the session was closed at every moment since: no open session dies of a stale deadline |
| Session.StaysOpen | crates/alloy-transport-mpp/src/ws.rs:423-425 | an open session stays open until a task is spawned |
| Session.LastSpawnMeaning | crates/alloy-transport-mpp/src/ws.rs:564-576 | the deadline runs from the latest pay or voucher spawn, or from the start |
| Session.AwaitingMeaning | crates/alloy-transport-mpp/src/ws.rs:452-512 | the awaiting-receipt flag is set exactly when some credential has no receipt after it |
| Session.ReadSideEnd | crates/alloy-transport-mpp/src/ws.rs:578-716 | a session ended by the read side ends Fatal exactly if a credential is unreceipted or the close code is fatal |
| Session.EndIsLast | crates/alloy-transport-mpp/src/ws.rs:601-619 | nothing happens after the end |
| Inputs.EveryInputHeeded | crates/alloy-transport-mpp/src/ws.rs:422-599 | after any sequence of iterations: everything received, flushed, delivered, challenged, requested, spawned, receipted, pinged and ponged is exactly what the inputs that were due call for, in order, and the session has ended exactly if and as the last of them demands; no input is dropped |
| Inputs.IntakeKept | crates/alloy-transport-mpp/src/ws.rs:422-450 | the RPCs flushed and those still queued are exactly those the frontend handed over, in order, whatever the state of the handshake; and one is flushed at every iteration that can |
| Translator.Translator.RunTranslator | crates/alloy-transport-mpp/src/ws.rs:422-599 | the loop, run on any sequence of polls, computes the specified run and so satisfies its invariant |
| Translator.Connector.Connect | crates/alloy-transport-mpp/src/ws.rs:343-381 | a set latch refuses the connection; otherwise the session runs and a fatal end sets the latch |
| Translator.NothingAfterFatal | crates/alloy-transport-mpp/src/ws.rs:343-349 | over any sequence of connection attempts only the last session can have ended Fatal, and it did iff the latch is set: no session starts and nothing is paid afterwards |
| Translator.UnreceiptedIsLast | crates/alloy-transport-mpp/src/ws.rs:578-619 | a session whose read side ended on an unreceipted credential is the last one of its connector |
| Channel.DeductOne | src/protocol/methods/tempo/session_method.rs:107-129 | a deduction succeeds iff the channel is open and voucher minus spent covers it; then spent grows by the cost and units by one, and nothing else changes |
| Channel.OneWriter | src/protocol/methods/tempo/session_method.rs:579-837 | whatever the library writes moves spent by exactly what a deduction pays or the chain has settled beyond, units by the deductions, and never lowers the voucher; what voucher, deposit and settlement become states `Channel.AmountsOverRun` |
| Channel.BooksBalance | src/protocol/methods/tempo/session_method.rs:579-1087 | conservation over any sequence of the library's writers and neutral functions of a caller's own |
| Channel.AmountsOverRun | src/protocol/methods/tempo/session_method.rs:579-1087 | over any sequence of the library's writers on a channel: the voucher is the highest cumulative amount ever handed in, the settlement the highest ever read, and the deposit the one read last |
| Channel.FlagsOverRun | src/protocol/methods/tempo/session_method.rs:818-1087 | over any sequence of the library's writers: finalized is what the chain or a finished close said last, closing what the last effective begin, abort or finish of a close left |
| Channel.FirstOpen | src/protocol/methods/tempo/session_method.rs:609-631 | without a channel nothing but an open takes effect; the first one makes an open channel with its amounts, no units and nothing spent beyond the settlement, and from there on voucher, settlement, deposit, units and spent follow from what the later writers bring |
| Channel.RefusedExactly | src/protocol/methods/tempo/session_method.rs:107-1200 | which writers are refused, and with what answer: without a channel, on a closed one, or a deduction beyond what is available |
| Channel.FundedStep | src/protocol/methods/tempo/session_method.rs:582-837 | from within the voucher exactly the settlements beyond the voucher overdraw the channel |
| Channel.FundedOpening | src/protocol/methods/tempo/session_method.rs:609-631 | a fresh channel starts within its voucher iff the voucher covers what is settled |
| Channel.ClosedStep | src/protocol/methods/tempo/session_method.rs:824-1087 | a closed channel stays closed under exactly the writers that do not reopen it: a refresh that clears the flag, an aborted close, a removal |
| Adapter.ChannelStoreAdapter.UpdateChannel | src/store.rs:338-408 | a call that nothing interrupts returns the updater's answer on the stored value, or a store failure; stores the result exactly if it is answered; and touches no other key and no other lock |
| Adapter.WellFormedStep | src/store.rs:290-408 | in every interleaving a lock serves one key and has at most one holder |
| Adapter.CoherentStep | src/store.rs:399-402 | from a state in which every unfinished call of a key uses the lock of the map, exactly the evictions of a lock that another call has fetched leave it |
| Adapter.ExclusionExactly | src/store.rs:290-408 | at most one call of a key is past acquiring in all continuations that are race-free on the key if and only if the state is coherent on it |
| Adapter.IncoherentBreaks | src/store.rs:290-297 | once coherence is lost, some calls continue into two holders of one key |
| Adapter.SerializedStep | src/store.rs:363-407 | under exclusion every step keeps: contents and answers are those of running the committed updates one by one in lock-acquisition order, and committed calls and updates correspond one to one |
| Adapter.OthersAccounted | src/store.rs:381-398 | a write by one call leaves the answer of every other call the sequential one |
| Adapter.WriterAccounted | src/store.rs:381-398 | the value written and the writer's answer are those of the sequential run |
| Adapter.TurnsDiffer | src/store.rs:381-398 | no two calls share a committed update, and calls committed in the order they acquired the lock |
| Adapter.EveryRunSerializable | src/store.rs:260-408 | any number of calls in any interleaving race-free on a key, whatever happens on other keys: exclusion and serializability on the key, each call owning its own update |
| Eviction.SerializableExactly | src/store.rs:390-403 | from a coherent, serialized state a step leaves the key serializable in all race-free continuations if and only if it is not a racing eviction |
| Eviction.RaceUnserializable | src/store.rs:399-402 | every racing eviction has a continuation in which a later lock holder's update takes effect before an earlier one's |
| Eviction.LostUpdate | src/store.rs:390-403 | the run on any store in which a racing eviction makes two calls count one unit on a fresh channel: both report one and the store holds one, where the sequential run holds two |
| Deductions.KeptRun | src/store.rs:399-402 | if no call on a key removes its channel, no interleaving races on the key, whatever happens on other keys |
| Deductions.TalliedRun | src/store.rs:338-408 | the deductions that succeed in the sequential run are, in number and amount, those whose calls were answered with success |
| Deductions.ConcurrentDeductions | src/store.rs:773-886 | in every interleaving, beside any of the library's writers and neutral functions that do not remove the channel: units is the start plus the calls answered with success, spent the start plus their amounts and what the chain settled beyond, and without settlements spent stays within the voucher |
| Metering.Serve | src/server/sse.rs:260-321 | the SSE loop against any writers and any failing store access: the log is metered, holds exactly the accesses made with their failures and what others wrote, and ends drained with all items and a receipt if the channel could be read, or at a closed channel after at most one more look and a receipt, or undecided only when the script of others ends |
| Metering.WsSession | src/server/ws_session.rs:69-141 | the WebSocket loop against any writers, any failing store access and any failing send: likewise, and each frame, in order, arrived or not as the network decided; a lost message is followed by one last look and a receipt attempt, a lost need-voucher frame by nothing |
| Metering.LetOthersAct | src/server/sse.rs:265-302 | a whole batch of others' writers takes effect on the channel, in order, and on nothing the loop has done or owes |
| Metering.DeductCovers | src/protocol/methods/tempo/session_method.rs:117-129 | the charge the loops make succeeds exactly when the channel is open and covers the cost |
| Metering.PaidPrefix | src/server/sse.rs:263-306 | at every moment the messages are an in-order prefix of the items, each paid for, with at most one charge ahead; the need-voucher frames are as many as the reads after a refusal that found the channel, but for the one due next; and no access is made but charges, one look per refusal and a last one |
| Metering.AsksAfterRefusal | src/server/sse.rs:283-304 | between a refusal and the next charge attempt the channel is read, and if it was found the client is told, in a frame that arrives, spent + cost, voucher and deposit of what was found; on the stream a closed channel is excepted, in `ws_session` nothing is |
| Metering.AskIsLeast | src/server/sse.rs:283-293 | the amount asked for after a charge beyond the voucher is the least whose voucher lets the charge through on that channel |
| Metering.ClosedEndsStream | src/server/sse.rs:267-282 | on the stream, once a charge was told the channel is closed, the loop does nothing but read once and send a receipt |
| Metering.NeverOverdrawn | src/protocol/methods/tempo/session_method.rs:582-837 | spent is within the voucher at every moment if and only if it starts so and every settlement others take over is covered by the voucher it meets: charges never overdraw |
| Metering.StaysClosed | src/protocol/methods/tempo/session_method.rs:824-1087 | a closed channel is closed at every later moment if and only if nobody reopens it |
| Metering.NothingAfterClosing | src/server/sse.rs:265-305 | while nobody reopens a closed channel no charge is made, so at most the message already charged is sent |
| Metering.ClosingExactly | src/protocol/methods/tempo/session_method.rs:824-1087 | with an item to charge for, a writer on a closed channel is harmless in everything that can follow without further reopenings if and only if it does not reopen it |
| Metering.ChargedAfterFinalizing | src/protocol/methods/tempo/session_method.rs:776-837 | the failing run, on any open channel: a voucher call that had passed its checks clears the flag of a finalized channel, and a charge follows |
| Metering.Accounting | src/server/sse.rs:263-306 | conservation: every unit and every amount on the channel is the start, one of this session's charges, another spender's success, or settled on the chain beyond what was spent |
| Metering.SettledBeyondMeaning | src/protocol/methods/tempo/session_method.rs:583-585 | the settlement term is zero iff no settlement outran what was spent when it was taken over |
| Metering.FinalReceipt | src/server/sse.rs:308-320 | with no other spender the final receipt states, of the channel the loop last looked at, spent0 + cost × messages plus what was settled beyond, units0 + messages, and the voucher; the messages alone iff no settlement outran them |
| Sessions.MeteredOverAdapter | src/server/sse.rs:263-306 | sessions over interleaved adapter calls: a log that keeps the loop's pace and records what the session's own calls were told is metered, and its channel is the stored one |
| AcceptPayment.ParseQParam | src/protocol/core/accept_payment.rs:163-176 | the loop over parameters computes the specified quality value; what that is of any text states `HeaderText.EntryReads` |
| AcceptPayment.QValueMeaning | src/protocol/core/accept_payment.rs:179-195 | accepted are exactly the decimals from 0 to 1 with at most three places, and the result is their value in thousandths |
| HeaderText.EntryReads | src/protocol/core/accept_payment.rs:108-176 | of a text taken apart into white space, token and parameters: it is read as an entry iff the token is the entry's method and intent around a slash, both valid, and its parameters, names and values without their white space, ask for the entry's quality (the last q, 1 without one, none if any q is malformed) |
| HeaderText.EveryText | src/protocol/core/accept_payment.rs:108-176 | every text can be taken apart so |
| HeaderText.HeaderReads | src/protocol/core/accept_payment.rs:92-106 | a header is accepted iff some piece between its commas is not blank and each of those reads as an entry; the result is exactly these entries, in order, indexed by position |
| AcceptPayment.FormatQShape | src/protocol/core/accept_payment.rs:219-224 | quality values print with one to three decimals and no trailing zero, zero as "0" |
| AcceptPayment.QRoundTrip | src/protocol/core/accept_payment.rs:179-224 | all 1000 values below one survive printing and parsing |
| AcceptPayment.EntryRoundTrip | src/protocol/core/accept_payment.rs:108-216 | one entry survives printing and parsing |
| AcceptPayment.ParsedValid | src/protocol/core/accept_payment.rs:92-106 | what the parser accepts is non-empty, valid, and indexed by position |
| AcceptPayment.SerializeThenParse | src/protocol/core/accept_payment.rs:92-217 | every non-empty list of valid entries survives printing and parsing |
| AcceptPayment.ParseSerializeParse | src/protocol/core/accept_payment.rs:92-217 | printing what was parsed, and parsing that, changes nothing |
| AcceptPayment.SerializeInjective | src/protocol/core/accept_payment.rs:204-217 | different preferences never print alike |
| Ranking.FindBestMatch | src/protocol/core/accept_payment.rs:302-330 | the single pass finds the matching entry that is lexicographically best by specificity, q and lowest index, or reports that none matches |
| Ranking.BestMatchUnique | src/protocol/core/accept_payment.rs:314-321 | there is only one best match |
| Ranking.ScoreMeaning | src/protocol/core/accept_payment.rs:302-342 | an offer scores the best q among the entries equal to its method and intent if there is one, whatever wildcards say; else the best among those with one wildcard, whatever the full one says; else that of the full wildcard; else 0 |
| Ranking.Rank | src/protocol/core/accept_payment.rs:265-286 | exactly the offers whose best q is positive, by q descending, then offer position |
| Ranking.RankUnique | src/protocol/core/accept_payment.rs:265-286 | contents and order determine the ranking |
| Ranking.RankIgnoresPreferenceOrder | src/protocol/core/accept_payment.rs:265-330 | reordering the preference list, indices kept, changes no ranking |
| Ranking.RankDistinct | src/server/compose.rs:66-82 | ranked positions are in range and pairwise distinct |
| Ranking.Compose | src/server/compose.rs:46-83 | the input unchanged, or the ranked challenges, each moved out of its slot once: neither `expect` can fail |
| Ranking.SelectRankedIsTop | src/client/challenge_selection.rs:51-59 | selection yields the best-rated candidate, the earliest of the best, or nothing if all are opted out |
| Ranking.SelectionMeaning | src/client/challenge_selection.rs:15-49 | payable iff it is the best-rated, earliest, not opted-out of the supported challenges that have not expired; expired iff there is none and it is the best of the supported; unsupported iff all supported ones are opted out or there is none |
| Challenge.ConstantTimeEq | src/protocol/core/challenge.rs:484-493 | the accumulating comparison is exactly equality |
| Challenge.JoinInjective | src/protocol/core/challenge.rs:464-473 | field lists of equal length with one join are equal if one of them is pipe-free |
| Challenge.PipesJoin | src/protocol/core/challenge.rs:464-473 | a join has at least one pipe per gap, and exactly that many iff its fields are pipe-free |
| Challenge.JoinExactly | src/protocol/core/challenge.rs:464-473 | the join determines its fields, their number given, if and only if none of them holds a pipe |
| Challenge.IdDeterminesExactly | src/protocol/core/challenge.rs:446-481 | among all challenges bound under one secret, the id determines the seven bound fields if and only if none of them holds a pipe |
| Challenge.MacInput | src/protocol/core/challenge.rs:446-481 | the id is the MAC of the seven fields in the source's order with pipes between, absent optional fields as empty text |
| Challenge.PinnedOpaqueRebinds | src/server/mpp.rs:201-216 | re-stamping pins the configured opaque, re-establishes id = MAC and changes nothing else |
| Challenge.IssuedPassesTier1 | src/server/mpp.rs:396-437 | an issued charge challenge is bound, carries its handler's realm and opaque, and passes tier 1 exactly while it is live |
| Challenge.TempoChargeVerifies | src/server/mpp.rs:478-513 | a bound Tempo route accepts what it issued iff its method is named "tempo" and the challenge is live |
| Challenge.StripeChargeVerifies | src/server/mpp.rs:991-1057 | a Stripe route accepts what it issued iff it binds neither recipient nor chain and the challenge is live |
| Challenge.TempoIssues | src/server/mpp.rs:478-513 | a Tempo handler issues only when bound and for accepted amounts; the request, read back, carries the exact amount, the handler's currency, recipient and chain, the options' texts, and the fee-payer flag iff either asks for it |
| Challenge.StripeIssues | src/server/mpp.rs:991-1057 | a Stripe handler issues exactly for accepted amounts; the request carries the exact amount, the bound currency or dollars, no recipient, and metadata iff given |
| Challenge.VerifyExactly | src/server/mpp.rs:307-437 | a credential passes both tiers iff its id is the MAC of what it shows under the route's secret and realm, it is live, and name, intent, realm, opaque and every bound currency, recipient and chain agree; it is told that its expiry has passed, or cannot be read, iff that is the reason, and of a mismatch otherwise |
| Challenge.MalformedExactly | src/server/mpp.rs:576-642 | a request that does not decode, and Tempo transfers that are malformed on either side, are reported as such and never as a mismatch |
| Challenge.AcceptedAcross | src/server/mpp.rs:307-437 | for two routes of one secret: what one issues the other accepts iff name, realm and opaque agree, whatever the second binds of currency, recipient and chain is what the issued request says, and the challenge is live |
| Challenge.TempoAcross | src/server/mpp.rs:307-513 | a Tempo challenge of one route is accepted by another iff their realm and opaque agree and whatever the second binds of currency, recipient and chain equals what the first binds, while live |
| Challenge.StripeAcross | src/server/mpp.rs:307-1057 | likewise of a Stripe challenge, which no route that binds a recipient or a chain accepts |
| Challenge.ExpectedAcross | src/server/mpp.rs:576-642 | where a request is expected, an issued challenge is accepted iff it would be anyway and its amount, currency, recipient and (for Tempo) transfers are the expected ones |
| Challenge.DefaultExpiryWindow | src/server/mpp.rs:1024-1033 | by default a challenge is live for exactly five minutes |
| Challenge.StripeAmountEnforced | src/server/mpp.rs:576-605 | on a Stripe route a credential bought for one amount text is accepted where another is expected iff the two denote the same number |
| Challenge.TempoAmountEnforced | src/server/mpp.rs:576-642 | likewise on a Tempo route under the same options, transfer routing included |
| Challenge.AcceptedEchoes | src/server/mpp.rs:307-437 | an accepted credential that carries the id of a challenge repeats its fields, digest and opaque up to absent against empty |
| Challenge.Provenance | src/server/mpp.rs:645-654 | in every run of routes sharing a secret, an accepted credential repeats a challenge issued earlier in the run |
| Challenge.OpaqueExact | src/server/mpp.rs:286-299 | the accepted opaque is exactly the issued one iff route and challenge agree on whether the empty text is pinned |
| Challenge.EmptyOpaqueConfusion | src/protocol/core/challenge.rs:461-473 | a route that pins the empty text accepts a credential for a challenge issued without opaque |
| Amount.ParseMeaning | src/server/amount.rs:67-142 | success iff the trimmed text is a decimal with at most `decimals` <= 38 places and a scaled value below 2^128; then the canonical numeral of exactly that value |
| Amount.RefusedExactly | src/server/amount.rs:71-137 | each refusal exactly when its reason holds: empty, negative, too many places, unreadable, overflow, in the source's precedence |
| Amount.FractionFits | src/server/amount.rs:114-135 | neither the fraction nor its scaled value can overflow |
| Numerals.ScaledSum | src/server/amount.rs:129-135 | whole and fraction scaled separately add up to the value of all digits scaled at once |
| Amount.EqualValueEqualText | src/server/amount.rs:129-141 | two accepted texts give equal strings iff they denote the same number |
| Autoswap.CapExactly | src/client/tempo/autoswap.rs:113-113 | the cap is quote + floor(quote × bps / 10000) exactly below a stated bound on the product |
| Autoswap.CapCoversQuote | src/client/tempo/autoswap.rs:113-113 | the cap covers the quote exactly while quote × 10000 fits 128 bits |
| Autoswap.CapBounded | src/client/tempo/autoswap.rs:146-175 | no accepted slippage lets the cap pass one and a half times the quote |
| Autoswap.SwapMeaning | src/client/tempo/autoswap.rs:139-192 | a swap is made iff needed, representable, quoted and affordable; it buys exactly what is missing, and its cap is min(2^128 - 1, quote × (10000 + bps)) / 10000 of the quote for just that, the cap found affordable; the same cap is what a refusal for lack of funds asks for |
| Sse.ParseEvent | src/server/sse.rs:161-192 | the loop over lines computes the specified event |
| Sse.EventMeaning | src/server/sse.rs:161-192 | of any lines: the data lines are the payload, a bare `data:` an empty one; the last type decides how it is read, and without a type, or with an unknown one, it is a message of its payload |
| Sse.EveryEvent | src/server/sse.rs:161-192 | every text consists of such lines |
| Sse.EventRoundTrip | src/server/sse.rs:161-192 | a typed event with one data line per payload line delivers exactly the payload, whatever the number of lines |
| Sse.PaymentEventsRoundTrip | src/server/sse.rs:93-122 | need-voucher and receipt events survive the wire whatever their fields hold |
| Sse.MessageRoundTrip | src/server/sse.rs:133-135 | a formatted message parses back to itself iff it has no line break |
| Sse.BrokenMessageShrinks | src/server/sse.rs:161-176 | a message with a line break is read as something strictly shorter |
| Proxy.HeaderList.ApplyProxyRequestHeaders | src/proxy/service.rs:8-11 | scrub first, then strip and inject |
| Proxy.NominatedListed | src/proxy/headers.rs:64-79 | the scrub's membership test holds exactly of the names some Connection header lists, up to case and white space |
| Proxy.ScrubIdempotent | src/proxy/headers.rs:74-87 | scrubbing a scrubbed request or response changes nothing |
| Proxy.RequestMeaning | src/proxy/headers.rs:34-79 | a request is scrubbed to exactly the headers no Connection header lists and whose name is none of the nineteen connection, payment, cookie and framing names and no x-forwarded one, in their order |
| Proxy.ResponseMeaning | src/proxy/headers.rs:54-87 | a response is scrubbed to exactly the headers no Connection header lists and whose name is none of the eleven connection, cookie and framing names, in their order |
| Proxy.ForwardedMeaning | src/proxy/service.rs:8-101 | the forwarded list is exactly the surviving headers in their order followed by the injected ones |
| Proxy.NothingElseForwarded | src/proxy/service.rs:8-101 | every forwarded header is injected with its configured value, or came with the request and is not stripped, nominated or configured |
| Proxy.CredentialsStay | src/proxy/service.rs:8-101 | authorization, cookie, payment, connection and forwarding headers reach the upstream only with a name and value the service configures |
| Proxy.ConfiguredOnce | src/proxy/service.rs:97-100 | every configured name arrives exactly once, ignoring case |
| Proxy.OrderIrrelevantExactly | src/proxy/service.rs:97-100 | the forwarded multiset is the same for every iteration order iff no two configured names differ only in case |

## Left out

- AcceptPayment.QValueMeaning: plain decimals only; the exponent, `inf` and `nan` forms that 32-bit float parsing also reads, and float rounding, are not modelled.
- HeaderText.EntryReads: one failure stands for the code's several error texts.
- Adapter.ChannelStoreAdapter.UpdateChannel: one uninterrupted call; interleaved calls are the steps of `Adapter.Apply`, each tied to a method of the class.
- Adapter.EveryRunSerializable: a failing store call leaves the contents unchanged, and dropping the guard happens with the last step of a call.
- Eviction.SerializableExactly: concerns evictions from coherent states, the only ones a run that has not raced on the key reaches.
- Channel.OneWriter: 128-bit overflow of `spent + amount` and 64-bit overflow of `units + 1` are not modelled; the signer, voucher signature, close request time and addresses of a channel are left out, as are the checks the handlers make before they write.
- Metering.ChargedAfterFinalizing: shows the writes in the order the two handlers can make them; their own reads of chain and store before are not steps of the model.
- Metering.Serve: runs are finite because the script of others is; a run that outlasts it is reported as cut off. Waiting for an update or the poll interval is left out: the next charge may come at any time. The 128-bit overflow of `spent + cost` in a need-voucher frame is not modelled.
- Metering.WsSession: as `Metering.Serve`.
- Challenge.Provenance: supposes a collision-free MAC, pipe-free issued fields, that the empty text is no timestamp, and that ids presented were issued; HMAC, base64 and RFC 3339 parsing are not modelled.
- Challenge.TempoChargeVerifies: the transfer routing of Tempo requests (`get_request_transfers`) is a parameter; the payment method's own on-chain check after both tiers is left out.
- Challenge.ConstantTimeEq: says what is computed, not how long it takes.
- Translator.NothingAfterFatal: sessions of one connector run one at a time; send failures and missed pongs end a session as transient whatever is unreceipted, as in the code.
- Translator.Connector.Connect: request building and the socket handshake are one flag, and retry counts and intervals are left out.
- Session.HandleTextKeeps: JSON decoding is an input; the texts of error events and the optional error note of a challenge are left out.
- Sse.PaymentEventsRoundTrip: JSON printing is supposed compact and faithful; without the `tempo` feature receipts parse as messages, which is not modelled.
- Autoswap.SwapMeaning: chain calls are functions of their arguments; ABI encoding is left out.
- Ranking.SelectionMeaning: `supports` and the clock answer alike however often they are asked.
- `verify_session`, session challenges, `put_if_absent`, `MemoryStore` and `FileStore`: their own operations are easy beside the adapter's.
- `compose_verify`, route parsing and matching, discovery, OpenAPI, event callbacks, MCP helpers: lookups and plumbing.
- `process_incoming_vouchers`: its effect is that of the voucher writers, `Refresh` and `AcceptVoucher`, among those that interfere in `Metering`.
- Sockets, HTTP servers, RPC providers, signing: their outcomes are inputs.
