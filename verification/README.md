# Private Record Certification, modelled in Dafny

A client asks n servers for a commitment to one record of a replicated database without telling any of
them which record. It XOR-shares the two halves of the index. The servers expand the shares to one-hot
vectors in layers of AND gates, evaluated with Beaver triples; retrieve the record bit in two levels;
convert index and bit to arithmetic shares with daBits; and commit jointly to (randomness, index, record).
Party 0 adds constants, deals the correlated randomness, and signs the aggregated commitment.

The project models this protocol as it is implemented, and proves it end to end: for every number of
servers up to 256, every database, every list of requests within the expected number, every choice of all
random values, and every interleaving of the servers' messages, the commitment that is signed is exactly
the one the client computes for its record (`EndToEnd.EveryRunAnswers`).

`dafny verify dfyconfig.toml` checks everything.

## How it is laid out

- `Bits`, `Folds`, `Scalars`: parities, powers of two, XOR of words, folds that do not depend on order, scalars modulo M.
- `Circuit`, `OneHot`, `AndLayer`, `Evaluation`: tickets and routing operations; the builder; a layer of gates
  over all parties; the one-hot theorem.
- `Beaver`, `DaBits`, `Budget`: dealing and handing out correlated randomness, and that the budget suffices.
- `Conversion`, `Retrieval`, `Sharing`, `Commitments`: boolean to arithmetic, the two-level retrieval, the
  client's sharing and what it hides, Pedersen commitments and what they bind.
- `Rounds`: message rounds as a transition system over single sends and receives, for any code of the parties.
- `Party`: one server as code for `Rounds`: what it broadcasts and how it goes on, with every panic a state.
- `Lockstep`, `Answering`, `Certifying`, `Protocol`, `EndToEnd`: what all servers hold after every round of a
  query, of all queries, and in every run.
- `Layers`, `Mpc`, `ConvLayer`, `Servers`: the program's objects and loops (layer, circuit builder, conversion,
  server), proved to broadcast and compute what `Party` does.
- `PackedArray`, `ByteLayers`, `Wire`: bit arrays in 32-byte chunks, the byte code of a layer, and the commands
  on the wire.

Random values, seeds and arrival orders are arbitrary parameters. Inboxes of the object-level methods are
parameters too. Failed assertions of the program are `requires` clauses of methods and explicit failure
values (`Panicked`, `Panic`, `None`) in the state machines, whose absence is proved.

## Findings

- **More than 256 servers.** Party numbers are cast to `u8` (src/prc/connection.rs:434), and `handle_cmd` rejects
  a message that carries its own number. With 257 servers, party 0 takes party 256 for itself and panics
  (`Rounds.ManyPartiesPanic`). No run panics if and only if n <= 256 (`Rounds.NoPanicIff`).
- **Messages of 2^32 bits and more.** Sizes are cast to `u32` (src/prc/connection.rs:177, 187). A command is read
  back exactly when its size is below 2^32 (`Wire.HandlerSizes`, `Wire.RoundTripIff`). On legal dimensions no
  message is that long (`Budget.MessagesFit`), so every message of every run arrives as it was sent
  (`EndToEnd.EveryMessageArrives`).
- **Parity of `ones`.** `ones(n)` also fills the memory after its last byte (src/simd_array/aligned_array.rs:126-145),
  which `parity` counts: it is even for every n and right if and only if n is even (`PackedArray.ParityOfOnes`).
  The protocol takes no parity of such an array.
- **Two shrinks.** `shrink_to_partial_last_byte` keeps the number of bytes. Shrinking 16 bits to 9 and then to 2 leaves
  two bytes for two bits (`PackedArray.ShrinkTwice`). A shrink keeps the array snug if and only if the new size needs as
  many bytes (`PackedArray.BitArray.ShrinkToPartialLastByte`); one shrink of a fresh slice always does
  (`PackedArray.OneShrinkIsSnug`).
- **Dimensions.** `from_seed` accepts a second dimension of one and joint lengths above 32 bits, on which the servers
  panic in `ohe_vec` or `join_boolean`. A query panics if and only if the dimensions are not legal
  (`Servers.QueryPanicsIff`).

Where documentation and code differ the model follows the code: `execute_operations` is documented to run operations
in insertion order but pops them last-in first-out (src/prc/layer.rs:272-289), which makes no difference
(`Circuit.OrderIndependent`); `ArithValue` is documented as arithmetic modulo 2^32 while the type in use is a scalar of
the ristretto255 group (section 4.4 of RFC 9496).

## Model

| member | source | states |
|---|---|---|
| `EndToEnd.EveryRunAnswers` | src/prc/server.rs:161-220 | in every run of any length no assertion fails, no server panics, every server's next exchange is the scheduled one and does broadcast, some step is possible until all are done, the number of steps is bounded, and at the end party 0 has signed exactly the clients' commitments and nobody else anything |
| `EndToEnd.TokenBinds` | src/prc/client.rs:26-29 | the signed commitment equals the client's commitment to the other bit iff the response generator is neutral |
| `EndToEnd.TokenIs` | src/prc/commitment.rs:56-59 | the signed commitment is the randomness, the index and the record's bit, each times its own generator |
| `EndToEnd.TokenBindsIndex` | src/prc/client.rs:26-29 | it is the client's commitment for another index iff the generator takes both indices to the same element; in a group of prime order with room for all indices, iff the index generator is neutral |
| `EndToEnd.TokenBindsRandomness` | src/prc/client.rs:26-29 | the same for other randomness and its generator |
| `EndToEnd.QueryIsDrawn` | src/prc/client.rs:117-135 | every server but the last is sent exactly what was drawn for it, cut to the lengths of the two halves |
| `EndToEnd.RoundsNeeded` | src/prc/mpc.rs:161-177 | every request takes three rounds more than the longer half's length can be halved, rounding up: ceil(log2 k1) + 3 |
| `EndToEnd.StepsNeeded` | src/prc/connection.rs:270-338 | the number of sends, receives and finishes of every finished run |
| `EndToEnd.ScheduleFollowed` | src/prc/server.rs:93-220 | in every round all servers broadcast messages of the scheduled kind, arrays of fewer than 2^32 bits or a commitment out of the group |
| `EndToEnd.EveryMessageArrives` | src/prc/connection.rs:172-202 | in every run a server with rounds left broadcasts a message, which the peers read back and store bit for bit, for every 32-byte codec that carries the group's commitments |
| `EndToEnd.BudgetCovers` | src/prc/config.rs:111-126 | the stored triples and daBits cover every request up to the expected number |
| `Protocol.QueryAnswered` | src/prc/server.rs:161-220 | one query in lockstep: after its rounds party 0 holds the client's commitment, and all servers stand before the next query with the planned randomness used |
| `Protocol.QueryKinds` | src/prc/server.rs:93-220 | which kind of message every round of a query exchanges |
| `Protocol.RunOutcome` | src/prc/server.rs:99-113 | after the run both one-hot vectors can be read by every server and are shared |
| `Party.ServerOrderFree` | src/prc/connection.rs:205-265 | what a server does next does not depend on the order in which a round's messages arrived |
| `Rounds.EveryRun` | src/prc/connection.rs:205-338 | over all interleavings: the invariant, a bound on the steps, progress, and that finished runs end where the lockstep execution ends, with empty queues |
| `Rounds.StepKeeps` | src/prc/connection.rs:270-338 | every send, receive and finish keeps the invariant: storages empty between rounds, one message of the own kind and round per peer heard, queues in order |
| `Rounds.QueuesShort` | src/prc/connection.rs:401-447 | no queue ever holds more than two messages, and no party is more than one round ahead |
| `Rounds.HeadOf` | src/prc/connection.rs:205-213 | the next message from a peer is the peer's message of one's own round |
| `Rounds.Progress` | src/prc/connection.rs:205-213 | while somebody has rounds left, some step is enabled |
| `Rounds.StepWorks` | src/prc/connection.rs:270-280 | every step takes exactly one off a measure that starts at the total work |
| `Rounds.ManyPartiesPanic` | src/prc/connection.rs:284-338 | a run that panics, for every system of more than 256 parties |
| `Rounds.NoPanicIff` | src/prc/connection.rs:284-338 | no run panics iff there are at most 256 parties |
| `Evaluation.OneHotCorrect` | src/prc/mpc.rs:82-177 | for every index length the parties' outputs XOR to the vector whose only one is at the shared index |
| `Evaluation.NodeCorrect` | src/prc/mpc.rs:131-154 | a node's vector is the AND of its halves' vectors, each read at its part of the index |
| `Evaluation.LeavesCorrect` | src/prc/mpc.rs:94-103 | the one-bit case: only the constant party flips |
| `Evaluation.NodeX` | src/prc/layer.rs:219-225 | replicating the low vector puts its bit (j mod 2^s) at j |
| `Evaluation.NodeY` | src/prc/layer.rs:226-239 | expanding the high vector puts its bit (j div 2^s) at j |
| `OneHot.OheFaithful` | src/prc/mpc.rs:85-155 | after any `ohe_vec` the circuit is well formed, keeps what was built, has no empty layer, has the shape of a plan that knows bit lengths only, and holds the whole tree |
| `OneHot.AddPairOk` | src/prc/mpc.rs:131-154 | queueing a pair of operations for a fresh ticket keeps all tickets valid and all writes disjoint |
| `OneHot.GetLayerOk` | src/prc/mpc.rs:47-52 | creating missing layers keeps the circuit well formed and layers contiguous |
| `Circuit.OrderIndependent` | src/prc/layer.rs:277-289 | any order of the operations gives the same X and Y streams |
| `Circuit.LayerStreamBit` | src/prc/layer.rs:212-241 | every stream bit is what the one operation covering it writes, zero where none does |
| `Circuit.ReadOutput` | src/prc/layer.rs:183-197 | the valid bits are the ticket's bits of Z; whole bytes are kept |
| `AndLayer.LayerAnd` | src/prc/layer.rs:295-372 | the XOR of the Z streams is the AND of the XORs of the X and Y streams, on every bit |
| `AndLayer.ReconsAnyOrder` | src/prc/layer.rs:319-333 | reconstruction does not depend on the order of arrival |
| `AndLayer.ReconsOpens` | src/simd_array/d2_bit_array.rs:164-175 | every party opens the same u and v: the XOR over all broadcasts |
| `Beaver.DealerDeals` | src/cor_rnd/beaver.rs:36-65 | the shares XOR to c = a AND b on every bit of every stored byte, whatever was drawn |
| `Beaver.DealerRecovers` | src/cor_rnd/beaver.rs:36-65 | whatever triple of the dealer matches the others' is the one it deals when it draws that a and b: it keeps its draws, and c is determined |
| `Beaver.TakesStayDealt` | src/cor_rnd/beaver.rs:73-92 | after any sequence of equal takes by all parties the slices are good triples |
| `Beaver.TakesAreContiguous` | src/cor_rnd/beaver.rs:73-92 | what any sequence of takes hands out is one contiguous stretch: no byte twice, none skipped |
| `Beaver.ReportsAddUp` | src/cor_rnd/beaver.rs:96-100 | the counters after any sequence of calls: reports sum to 8 times the bytes taken up to the last report |
| `Beaver.Perform` | src/cor_rnd/beaver.rs:73-100 | any sequence of takes and reports made on a provider hands out the next stretches of its storage, and from fresh counters its reports sum to 8 times the bytes taken up to the last report |
| `Beaver.SliceDealt` | src/simd_array/d2_bit_array.rs:75-81 | equal slices of matching triples match |
| `Beaver.BeaverProvider.GenerateWithSeed` | src/cor_rnd/beaver.rs:28-30 | stores what is drawn and leaves the counters |
| `Beaver.BeaverProvider.GenerateAsDealer` | src/cor_rnd/beaver.rs:36-65 | keeps the drawn a and b, stores the c that makes everyone's triples good, and leaves the counters |
| `Beaver.BeaverProvider.Take` | src/cor_rnd/beaver.rs:73-92 | returns the next bytes and advances by them |
| `Beaver.BeaverProvider.ReportThenReset` | src/cor_rnd/beaver.rs:96-100 | 8 times the bytes since the last report |
| `DaBits.DealerDeals` | src/cor_rnd/dabit.rs:94-124 | dealt daBits share the drawn bit in both domains, whatever the others drew |
| `DaBits.DealerRecovers` | src/cor_rnd/dabit.rs:94-124 | whatever daBit of the dealer matches the others' is, as a scalar, the one it deals for the bit they share |
| `DaBits.SliceGood` | src/cor_rnd/dabit.rs:131-151 | equal ranges of matching daBits match |
| `DaBits.DaBitProvider.GenerateWithSeed` | src/cor_rnd/dabit.rs:81-86 | stores what is drawn and resets the counters |
| `DaBits.DaBitProvider.GenerateAsDealer` | src/cor_rnd/dabit.rs:94-124 | the nested loops store shares that make everyone's daBits good and share the drawn bits |
| `DaBits.DaBitProvider.Take` | src/cor_rnd/dabit.rs:131-151 | returns the next daBits and advances by them |
| `DaBits.DaBitProvider.ReportThenReset` | src/cor_rnd/dabit.rs:153-157 | the daBits handed out since the last report |
| `Budget.QueryWithinBudget` | src/prc/config.rs:116-119 | one query's byte-rounded tickets use at most the configured bits, for all legal dimensions |
| `Budget.QueryUse` | src/prc/config.rs:116-118 | in numbers: one query uses at most 2.5 l2 + 1.5 l1 + 96 bits and at least 2 l2 + l1 |
| `Budget.BudgetInNumbers` | src/prc/config.rs:116-118 | what is configured is 2.5 l2 + 1.5 l1 + 96 for even dimensions, and at most one more for any others |
| `Budget.BudgetTight` | src/prc/config.rs:111-121 | the budget covers a query and overshoots it by at most half of l1 + l2, plus 96 bits |
| `Budget.DaBitsTight` | src/prc/config.rs:120 | the configured daBits cover every legal query, with three to spare for the longest index and more for shorter ones |
| `Budget.StoredTight` | src/cor_rnd/beaver.rs:28-30 | the providers store the whole budget, and less than a byte more |
| `Budget.NeverExhausted` | src/prc/config.rs:111-126 | each of the expected queries finds its triples and daBits in the storage |
| `Budget.PlanBytes` | src/prc/layer.rs:116-142 | the layers of a one-hot circuit have exactly the bytes of its tree |
| `Budget.QueryDepth` | src/prc/mpc.rs:82-155 | the two one-hot circuits of a query together have ceil(log2 k1) layers |
| `Budget.SplitBalanced` | src/prc/mpc.rs:106-125 | the lower half of an index gets the odd bit |
| `Budget.AllowanceNeeded` | src/prc/config.rs:118 | without the allowance for alignment the smallest database exceeds the estimate |
| `Budget.MessagesFit` | src/prc/connection.rs:172-191 | on legal dimensions every layer, the select layer and the daBits have fewer than 2^32 bits |
| `Conversion.ConversionCorrect` | src/prc/b2a_conv.rs:18-90 | for every list of values the parties' outputs sum, position by position, to the value their inputs XOR to |
| `Conversion.OpenedBit` | src/prc/b2a_conv.rs:68-82 | e + r - 2er acts as XOR, with the constant e added once |
| `Conversion.OpenedHides` | src/prc/b2a_conv.rs:25-60 | the opened bits are the XOR of the values' bits and the daBits |
| `ConvLayer.Interact` | src/prc/b2a_conv.rs:18-90 | the loops broadcast the blinded bits and compute the arithmetic shares |
| `ConvLayer.DecomposeBits` | src/prc/b2a_conv.rs:30-38 | the nested loops lay out every value's bits one after the other |
| `ConvLayer.ConvertValue` | src/prc/b2a_conv.rs:65-86 | the accumulator holds the weighted sum of the converted bits |
| `Retrieval.RetrievalCorrect` | src/prc/server.rs:93-158 | the XOR over all parties of the bits they return is the record's bit, for every database and index |
| `Retrieval.SelectStreams` | src/prc/mpc.rs:55-79 | the answer's valid bits are in X, the one-hot vector's in Y, and zeros after them |
| `Retrieval.SelectBit` | src/prc/server.rs:138-157 | the AND on valid bits; the padding of the shares cancels |
| `Retrieval.SelectParity` | src/simd_array/bit_array.rs:279-295 | whole-byte parities of the shares share the selected bit, also below eight bits |
| `Retrieval.InnerProdLinear` | src/simd_array/bit_array.rs:343-364 | the inner product with a public row is linear over shares |
| `Retrieval.Lvl1PirRetrieve` | src/prc/db.rs:145-160 | one inner product per row, padding zero |
| `Retrieval.Database.To2DimOk` | src/prc/db.rs:74-79 | both coordinates are in range and determine the index |
| `Sharing.IndexPath` | src/prc/client.rs:86-108 | splitting, sharing, joining each server's halves and XORing gives back the index |
| `Sharing.ShareBooleanCorrect` | src/prc/util.rs:73-86 | every share fits its length and the shares XOR back, whatever was drawn |
| `Sharing.SharesAreDraws` | src/prc/util.rs:78-81 | all shares but the last are the draws modulo 2^length |
| `Sharing.EverySharing` | src/prc/util.rs:73-86 | any words that XOR to the secret are its shares, when all but the last are drawn |
| `Sharing.SharesHide` | src/prc/util.rs:73-86 | whatever all servers but one see of a secret, other draws show them of any other secret of that length |
| `Sharing.ShareArithCorrect` | src/prc/util.rs:56-70 | the shares of a scalar add up to it, whatever was drawn |
| `Sharing.EveryArithSharing` | src/prc/util.rs:56-70 | any scalars that add up to the secret are its shares, when all but the last are drawn |
| `Sharing.ArithSharesHide` | src/prc/util.rs:56-70 | all servers but one learn nothing of a shared scalar either |
| `Sharing.JoinIsSum` | src/cor_rnd/sharing.rs:151-154 | shift and OR lose no bit: higher * 2^len + lower |
| `Sharing.JoinCommutes` | src/cor_rnd/sharing.rs:151-154 | joining commutes with reconstruction |
| `Commitments.AggregateOpens` | src/prc/commitment.rs:56-74 | the aggregate of commitments verifies against any opening equal to the sum of theirs |
| `Commitments.AggregateAnyOrder` | src/prc/commitment.rs:68-74 | the aggregate does not depend on the order |
| `Commitments.CommitUnits` | src/prc/commitment.rs:56-59 | the commitments to (1,0,0), (0,1,0) and (0,0,1) are the three generators |
| `Commitments.SameCommitIff` | src/prc/commitment.rs:56-65 | two openings have one commitment iff their difference commits to nothing |
| `Commitments.BindsIndex` | src/prc/commitment.rs:56-65 | a commitment to one index verifies for another iff the generator takes both to the same element; for prime order, iff the indices are equal as scalars or the generator is neutral |
| `Commitments.BindsRandomness` | src/prc/commitment.rs:56-65 | the same for the randomness |
| `Commitments.BindsResponse` | src/prc/commitment.rs:56-65 | a commitment to one bit verifies for the other iff the generator is neutral |
| `Commitments.AggregateCommits` | src/prc/commitment.rs:68-74 | the loop sums the commitments |
| `Commitments.AggregateOpenings` | src/prc/commitment.rs:39-47 | the loop sums the openings, component by component as scalars |
| `Layers.Layer.RequestTicket` | src/prc/layer.rs:116-142 | a byte-aligned ticket at the end of the layer, which grows by whole bytes |
| `Layers.Layer.AddOperation` | src/prc/layer.rs:151-156 | queues the operation last |
| `Layers.Layer.EndTicketingPhase` | src/prc/layer.rs:260-270 | zero streams, and the next bytes of the triples |
| `Layers.Layer.ExecOperation` | src/prc/layer.rs:212-241 | the copy loops write the operation's bits into its stream and nothing else |
| `Layers.Layer.ExecuteOperations` | src/prc/layer.rs:277-289 | popping the queue leaves the layer's streams |
| `Layers.Layer.BlindAndWithBeaver` | src/prc/layer.rs:295-307 | the blinded streams replace the shares of a and b |
| `Layers.Layer.ReconsBeaverUv` | src/prc/layer.rs:319-333 | the loop XORs in every share of the inbox |
| `Layers.Layer.FinishAndExchange` | src/prc/layer.rs:340-372 | the in-place steps leave [const] uv ^ uy ^ vx ^ c in Z |
| `Layers.Layer.Interact` | src/prc/layer.rs:379-425 | what all phases together broadcast and leave |
| `Layers.Layer.ReadOutput` | src/prc/layer.rs:183-197 | reads the ticket's bits of the finished layer |
| `Mpc.MpcProvider.GetLayer` | src/prc/mpc.rs:47-52 | the loop creates the missing layers and keeps the others |
| `Mpc.MpcProvider.And` | src/prc/mpc.rs:55-79 | builds the specified pair of copies in layer 0 |
| `Mpc.MpcProvider.RecursiveOheVec` | src/prc/mpc.rs:85-155 | the recursion on shared layers builds the specified circuit |
| `Mpc.MpcProvider.Run` | src/prc/mpc.rs:161-177 | the loop broadcasts layer by layer, uses the planned triples and keeps the last layer |
| `Mpc.MpcProvider.GetOutput` | src/prc/mpc.rs:157-159 | reads from the output layer |
| `Servers.RunRefines` | src/prc/mpc.rs:161-177 | fed with a run's inboxes the state machine broadcasts what the run broadcasts and comes out with its output |
| `Servers.PRCServer.RecRetrieve` | src/prc/server.rs:93-158 | given the same messages, the same broadcasts and the same share of the record bit as the state machine |
| `Servers.PRCServer.Certify` | src/prc/server.rs:175-199 | conversion and commitment: the same broadcasts and the same token as the state machine |
| `Servers.PRCServer.PrcProtocol` | src/prc/server.rs:161-220 | the whole query: round by round the same broadcasts, and the same token |
| `Servers.PRCServer.AggregateCommitments` | src/prc/mpc.rs:203-214 | only the constant party aggregates |
| `Servers.SaidAt` | src/prc/server.rs:161-220 | the i-th broadcast is what the machine emits after the first i inboxes |
| `Servers.QueryPanicsIff` | src/prc/db.rs:33-38 | on a valid database a query with all it needs ends idle on legal dimensions and panicked on all others |
| `PackedArray.BitArray.New` | src/simd_array/bit_array.rs:59-67 | all stored bits zero |
| `PackedArray.BitArray.Ones` | src/simd_array/bit_array.rs:70-77 | all stored bits one, those after the last byte too |
| `PackedArray.BitArray.FromByteSlice` | src/simd_array/aligned_array.rs:84-123 | the chunked copy and the zeroed tail hold exactly the bytes, then zeros |
| `PackedArray.BitArray.SetBit` | src/simd_array/bit_array.rs:118-130 | sets that bit and no other; its byte's value moves by 2^(i mod 8), or not at all |
| `PackedArray.BitArray.Get` | src/simd_array/bit_array.rs:134-142 | reads the bit of weight 2^(i mod 8) of byte i div 8 |
| `PackedArray.BitWeight` | src/simd_array/bit_array.rs:134-142 | bit j of a byte is the one of weight 2^j |
| `PackedArray.BitArray.CopyFrom` | src/simd_array/bit_array.rs:155-179 | on either path the target bits are the source's and every other bit is unchanged |
| `PackedArray.BitArray.ShrinkToPartialLastByte` | src/simd_array/bit_array.rs:190-198 | bytes stay; snug iff the new size needs as many |
| `PackedArray.BitArray.ToSlice` | src/simd_array/bit_array.rs:202-216 | whole bytes of the memory in a fresh array |
| `PackedArray.BitArray.MutAnd` | src/simd_array/bit_array.rs:220-238 | the chunk loop computes the AND of all stored bits |
| `PackedArray.BitArray.InplaceAnd` | src/simd_array/bit_array.rs:243-257 | the chunk loop computes the AND of all stored bits |
| `PackedArray.BitArray.InplaceXor` | src/simd_array/bit_array.rs:262-276 | the chunk loop computes the XOR of all stored bits |
| `PackedArray.BitArray.Odd` | src/simd_array/bit_array.rs:279-295 | XOR of all stored bits; of the array's bytes where the rest is zero |
| `PackedArray.BitArray.InnerProd` | src/simd_array/bit_array.rs:343-364 | XOR of the pairwise ANDs of all stored bits; of the arrays' bytes where the rest is zero |
| `PackedArray.BitArray.Equals` | src/simd_array/bit_array.rs:389-407 | equal sizes and equal aligned memories, padding included |
| `PackedArray.FoldParity` | src/simd_array/bit_array.rs:279-295 | XOR-folding 32-byte chunks and counting ones gives the XOR of all bits |
| `PackedArray.FoldInner` | src/simd_array/bit_array.rs:343-364 | the same over chunk-wise ANDs gives the XOR of pairwise ANDs |
| `PackedArray.ParityOfOnes` | src/simd_array/aligned_array.rs:126-145 | the parity of `ones(n)` is even, and right iff n is even |
| `PackedArray.ShrinkTwice` | src/simd_array/bit_array.rs:190-198 | an array that two shrinks leave with a byte too many |
| `PackedArray.OneShrinkIsSnug` | src/simd_array/bit_array.rs:190-198 | one shrink of whole bytes never does |
| `ByteLayers.CopyInto` | src/prc/layer.rs:214-218 | copying into a stream's bytes splices the source's valid bits into the stream |
| `ByteLayers.ReplicateInto` | src/prc/layer.rs:219-225 | the loop of copies writes the source's bits n times, one after the other, and nothing else |
| `ByteLayers.ExpandInto` | src/prc/layer.rs:226-239 | the loop over the source's bits writes n copies of each, from runs made with `new` and `ones` whose padding does not leak |
| `ByteLayers.ExecOperation` | src/prc/layer.rs:212-241 | on the bytes an operation does to the two input streams what it is specified to do |
| `ByteLayers.ExecuteOperations` | src/prc/layer.rs:277-289 | on the bytes popping the queue leaves the layer's streams |
| `ByteLayers.SendBytes` | src/prc/layer.rs:379-411 | on the bytes the phases up to the broadcast leave the blinded streams to send |
| `ByteLayers.ReceiveBytes` | src/prc/layer.rs:413-425 | on the bytes the phases from the received shares on leave the gates' outputs |
| `ByteLayers.FinishBytes` | src/prc/layer.rs:340-372 | the byte operations of the last phase compute the layer's gates |
| `ByteLayers.ReadOutputBytes` | src/prc/layer.rs:183-197 | slicing and one shrink read the ticket's bits, padding kept |
| `Wire.RoundTripIff` | src/prc/connection.rs:54-133 | whatever the codec, a command is read back from its bytes iff its slices have the length its size says, the size fits, and a commitment's encoding decodes to it |
| `Wire.ReadBack` | src/prc/connection.rs:95-133 | such a command is read back whatever follows its bytes |
| `Wire.ReadIff` | src/prc/connection.rs:95-133 | any data is read as a command iff the command is well sized and the data begins with its bytes, or, for a commitment, with bytes that decode to it |
| `Wire.EncodingsDiffer` | src/prc/connection.rs:54-93 | no such command's encoding is another's or its beginning |
| `Wire.CodecExists` | src/prc/commitment.rs:76-84 | every group of at most 2^256 elements has a 32-byte codec that carries all its elements |
| `Wire.HandlerSizes` | src/prc/connection.rs:172-191 | the handler's commands are well sized iff the size fits 32 bits |
| `Wire.SharesArrive` | src/prc/connection.rs:284-327 | what is broadcast is what the peers store, padding included |
| `Wire.SerializeCmd` | src/prc/connection.rs:54-93 | filling the buffer field by field puts the kind (0 to 3), the sender, the size and the arrays at their places |
| `Wire.Le32Bytes` | src/prc/connection.rs:64 | byte i of a size is size / 256^i mod 256 |
| `Wire.MemoryBits` | src/simd_array/bit_array.rs:146-148 | the bits of a packed array are those its bytes are read as on the wire |
| `Wire.BytesSent` | src/prc/connection.rs:172-191 | what is sent of a packed array is its bytes, one by one |

## Left out

- Secrecy of the servers' messages and quality of the randomness: all random values are arbitrary. That a client's
  shares hide its secret from all servers but one is `Sharing.SharesHide` and `Sharing.ArithSharesHide`.
- TCP sockets, the handshake, locks, sleeps and network statistics: channels are reliable first-in first-out queues.
- Point encoding, hashing to the group, and signatures: the group of prime order M is written as integers modulo M, an
  encoding of commitments is any one of 32 bytes that decodes the group's elements, and "signing" a commitment is holding it as a token.
- `get_record` for records of several bits: `lvl1_pir_retrieve` supports one-bit records only.
- Bit lengths of 32 in the sharing helpers: the mask is built with `1 << bit_len`.
- A configuration of zero expected queries: allocating its empty storages panics.
- Allocation, alignment of pointers and the vector instructions themselves: a buffer is bytes padded to whole chunks, and
  a vector operation 32 byte operations.
- The objects of a layer own their bit arrays, so `Layers` holds them as values; `ByteLayers` covers the update in place.
- `MpcMessageHandler` as an object: its storages and channels are the states of `Rounds`.
- `secret_share` and `reconstruct` of bit arrays, `query_single_server`, `transpose`, printing, the command line and
  benchmarks: they would only add easy members.
- `ConvLayer.Interact`: an empty list of values is excluded because allocating an array of no bits panics.
