# Verified models of libdect

libdect implements the network layer of DECT (ETSI EN 300 175) and the ADPCM speech codec it carries.
This project models the parts of it that are hardest to get right as Dafny programs and proves what they
are for. `dafny verify dfyconfig.toml` checks everything.

| part | modules |
|---|---|
| ADPCM coders G.721 and G.723, their arithmetic, G.711 and the tandem adjustment | `G72x`, `G72xInvariant`, `G72xAdaptation`, `Shifts`, `Quantiser`, `G72xCoder`, `CodeRoundTrip`, `G711`, `Companding`, `Tandem`, `G72xMachine`, `G721Steps`, `LoudRun` |
| packing of 3-, 4- and 5-bit codes into octets | `CodePacking` |
| the DSAA block step | `Dsaa`, `DsaaSBox`, `DsaaDiffusion` |
| the Link Control Entity: links, transactions, message buffers | `Lce`, `LceInvariant`, `LceRuns`, `LceOrder`, `LceEndpoints`, `LceTimers`, `LceIdle`, `LceMachine` |
| the Mobility Management procedure arbiter | `Mm`, `MmRuns`, `MmMachine` |
| both together when a link goes down | `LinkDown` |
| the S-format message engine | `SFormat`, `SFormatRoundTrip`, `SFormatElements`, `SFormatSafety`, `SFormatMachine` |
| CLMS-FIXED messages | `Clms` |
| identities, their elements and their printed form | `Identities`, `IdentityElements`, `IpeiText` |
| bits and small types | `Bits`, `Common` |

Each part has the same build. Functions on values say what a step computes, lemmas say what that means
over all inputs and all runs, and methods in the form of the source (loops, cursors, objects and arrays
updated in place) are proved to compute exactly those functions. The `...Machine` modules and the
methods in the other modules are that last layer.

## Conventions

- A C `short` is an integer narrowed to sixteen bits by `Narrow`, wherever the source assigns to one;
  `>>` on a negative number rounds down. `uint8_t`, `uint32_t` and `uint64_t` wrap where the source lets them.
- Assertions and `BUG()` are an outcome of their own (`Aborted`, `Crash`), and so is following a null pointer, a
  link that was freed or a transaction off the list (`Broken` in a loop); none is excluded by a precondition.
- What a message holds is a parameter as far as the handlers look at it: whether it parses, and whether its
  portable identity is absent, wrong or right (`Mm.Contents`). So is whether a message of ours can be built.
- `Mm` is about an endpoint while its link exists. What the link can do (`Mm.Carrier`) changes by operations.
- Buffer counts are natural numbers; `LceRuns.ReachableCounts` says why eight bits hold them.
- Sockets are a trace: transmitting appends to `sent`. Allocation succeeds, and gives out numbers never used
  before. What the environment decides (a refused half-close, the octets behind an element, the release mode
  a shutdown handler uses) is a parameter that every statement holds for.
- User callbacks do nothing. Direct establishment reports success to the user before it flushes the queue
  (`src/lce.c:880-885`), so first-in-first-out there is about a user who does not send from that callback.

## Findings

These properties do not hold as one would expect them to; each has its exact condition below.

- The G.721 encoder halves the wide sum of its two estimates, the decoder the narrowed one: they stay in
  lockstep exactly while the sum fits sixteen bits (`G72xCoder.Lockstep`), and there is ordinary input on
  which it does not: 68 samples at full scale (`LoudRun.LockstepLost`). The rows of `LoudRun` give the
  intermediate values of its 67 steps.
- The 40 kbit/s quantiser does not undo its inverse at some small step sizes (`CodeRoundTrip.ReturnsOutsideGaps`).
- A-law compression takes -7..-1 for a sample near -248 (`G711.AlawSmallNegative`), and u-law compression
  does not return the negative zero (`G711.UlawInverse`).
- The most negative decoder signal comes out as the smallest level below zero in A-law and as silence in u-law
  (`Companding.AlawOutputEnds`, `Companding.UlawOutputEnds`).
- A transaction opened by the peer is taken as its own initiative whatever the F flag says, so values can be
  duplicated (`LceOrder.ArrivalUnique`, `LceOrder.DuplicateWithF`).
- A connectionless message is always refused, because its transaction value 6 is not below the one transaction
  that CLMS may have (`LceOrder.ConnectionlessNeverReceived`).
- An answer to a message of no known transaction, a RELEASE-COM or a page reject, is sent on a transaction that
  goes out of scope: its buffer is never freed (`LceRuns.HeldExactly`, `LceRuns.AnswerLeaks`), and on a link in
  release it aborts (`LceRuns.AnswerInRelease`).
- A page timer outlives a link that is destroyed while it pages, and a release timer one that was released twice
  (`LceTimers.StepTidy`, `LceTimers.PageTimerOutlives`); a page response for a link that connects by itself finds
  no page timer (`LceRuns.AbortsExactly`).
- A message that opens a link and is ignored, or answered without a transaction, leaves the link established with
  no timer to end it; so does a link that connects after its last transaction has gone (`LceIdle.StepIdle`,
  `LceIdle.IgnoredLingers`).
- A link whose last transaction at shutdown is not a call is not destroyed (`LceRuns.ShutdownDestroys`), and
  closing a call on a pending link with other transactions fails an assertion (`LceRuns.AbortsExactly`).
- The shutdown handler of MM ends the procedure in progress and not that of its transaction: a link with MM
  procedures that are not in turn goes down with freed list entries or leaves a transaction
  (`LinkDown.LinkDownExactly`, `LinkDown.ReplacedRegistration`). Encryption indications have the same loop
  (`MmRuns.EncryptedStep`).
- An endpoint that is not the first of its link keeps pointing to the link after it was destroyed
  (`LceEndpoints.StepTied`, `LceEndpoints.SecondEndpointDangles`).
- A third MM transaction would be linked behind a newer one (`LceOrder.InsertOrdered`).
- A timeout, and an answer of the peer, end the procedure in progress even when they are meant for the
  interrupted one (`MmRuns.ExpireEndsCurrent`, `MmRuns.AnswerEndsCurrent`); the retransmission counter is
  never reset (`MmRuns.RetransmitsEvery256`); a refused request leaves its transaction linked
  (`MmRuns.RefusedRequestLeaks`).
- Requests to authenticate or cipher are also taken on a transaction of ours. They start a procedure without a
  transaction, and completing that crashes (`MmRuns.StepHeld`, `MmRuns.CipherOnOurTransaction`). Three answers are
  taken without a procedure in progress, and crash too (`MmRuns.ReceiveStep`, `MmRuns.RejectWithoutProcedure`). A well
  formed detach is completed twice, and crashes unless a procedure of ours was running (`MmRuns.StepInv`).
- An empty identity element passes for a mandatory one and leaves its slot NULL (`SFormatSafety.MandatorySlots`),
  which four requests and an accept follow (`MmRuns.EmptyIdentity`). The fixed part takes an accept of access
  rights apart although it never holds an identity there (`MmRuns.AcceptAtFixedPart`), and cannot accept the
  assignment that it starts itself (`MmRuns.AssignmentAccepted`, `MmRuns.FixedPartAssigns`).
- Repeated elements are lost by the parser, and a mandatory one-character display or keypad cannot be
  received when several characters are sent (`SFormatRoundTrip.RoundTripExactly`, `SFormatSafety.RepeatedLost`).
- CLMS-FIXED payloads of more than twenty octets are sent but never delivered (`Clms.RoundTrip`).
- A change of the eleventh digit of a printed IPEI is not detected (`IpeiText.ChangeDetected`).

## Model

| member | source | states |
|---|---|---|
| `G72x.QuanSearch` | src/ccitt-adpcm/g72x.c:48-60 | the table search finds the first entry above a value; everything before it is at most the value |
| `G72x.ExponentIsQuan` | src/ccitt-adpcm/g72x.c:37-60 | the exponent of a magnitude, the number of its bits, is what searching the table of powers of two finds |
| `G72xInvariant.UpdateInv` | src/ccitt-adpcm/g72x.c:269-457 | one adaptation keeps the state invariant: scale factors, poles and speed in their ranges, every delayed sample with a mantissa of 32 to 63 |
| `G72xInvariant.InitInv` | src/ccitt-adpcm/g72x.c:97-118 | the initial state satisfies the invariant |
| `G72xInvariant.StepSizeBetween` | src/ccitt-adpcm/g72x.c:158-178 | the step size lies between the slow and the fast scale factor |
| `G72xInvariant.ThresholdExact` | src/ccitt-adpcm/g72x.c:293-299 | on the invariant the tone threshold is exact: the only narrowing overflow is never the value used |
| `G72xInvariant.ReconstructShift` | src/ccitt-adpcm/g72x.c:240-261 | the shift of the inverse quantiser is never negative on the step sizes in use |
| `G72xInvariant.ZeroWrapsExactly` | src/ccitt-adpcm/g72x.c:387-399 | a predictor zero leaves sixteen bits, and wraps, exactly at one edge of its range |
| `G72xInvariant.FMultSign` | src/ccitt-adpcm/g72x.c:62-88 | a software product is bounded and has the sign of the product of its operands |
| `G72xCoder.ReachableInv` | src/ccitt-adpcm/g721.c:79-175 | every state that any mix of encoder and decoder steps of the three coders reaches satisfies the invariant |
| `G72xCoder.ReachableArithmetic` | src/ccitt-adpcm/g72x.c:120-261 | on every run the step size stays in 544..5120 between the scale factors, no shift is negative, and the predictor stays in its stability region |
| `G72xCoder.StepLockstep` | src/ccitt-adpcm/g721.c:102-163 | one step: the decoder reaches the encoder's state and signal; always for G.723, for G.721 exactly when the sum of the estimates fits sixteen bits |
| `G72xCoder.Lockstep` | src/ccitt-adpcm/g721.c:79-175 | whole runs: a decoder fed the encoder's codes passes through the same states and signals, for G.721 exactly when the estimates fit at every step |
| `G72xCoder.Lockstep723` | src/ccitt-adpcm/g723_24.c:66-158 | from the initial state the G.723 coders at 24 and 40 kbit/s never fall out of step |
| `LoudRun.LockstepLost` | src/ccitt-adpcm/g721.c:79-163 | the side condition fails on real input: from the initial state, a decoder that is fed the codes of 68 samples of the 14-bit range (all 8191 but four) does not follow the G.721 encoder |
| `LoudRun.UnfitReached` | src/ccitt-adpcm/g721.c:102-125 | so a state in which the estimates do not fit is reached |
| `G72xAdaptation.FiltersClose` | src/ccitt-adpcm/g72x.c:303-444 | each adaptation brings the two energies nearer to what the code contributes, the slow scale factor nearer to the fast one and the fast one nearer to the multiplier of the code, by a fixed part of the gap |
| `G72xAdaptation.TablesOrdered` | src/ccitt-adpcm/g723_40.c:54-78 | in the tables of all three coders reconstructed levels and decision levels take turns, multipliers and energies grow with the level, and the multipliers span every step size |
| `G72xAdaptation.TablesWeigh` | src/ccitt-adpcm/g721.c:54-72 | the sums of all table entries of the three coders, each multiplied by its place |
| `G72xAdaptation.LouderIsFaster` | src/ccitt-adpcm/g72x.c:303-314 | a louder level never leads to a smaller fast scale factor; the lowest level never raises it above the step size and the highest never leaves it below |
| `G72xAdaptation.ToneCleared` | src/ccitt-adpcm/g72x.c:292-301 | a difference above three quarters of the tone threshold while a tone is suspected clears the predictor and sets the speed to 256; otherwise a tone is suspected exactly if the second pole is far out |
| `G72xAdaptation.SignalExact` | src/ccitt-adpcm/g723_40.c:112-125 | the signal is the estimate plus or minus the magnitude of the difference: on the step sizes in use the masks of the coders cut nothing off |
| `G72xAdaptation.PolesFollow` | src/ccitt-adpcm/g72x.c:325-380 | the poles follow the gradient of ITU-T G.726 section 2.7: leak, a step by the agreement of three signs, and the limits of stability |
| `G72xAdaptation.ZerosFollow` | src/ccitt-adpcm/g72x.c:382-400 | every zero leaks, half as fast at 40 kbit/s, and steps by the agreement of the signs of the difference and its delayed one |
| `G72xAdaptation.ZerosOfCoder` | src/ccitt-adpcm/g723_40.c:112-125 | in a step of a coder the zeros leak by a 512th at 40 kbit/s and by a 256th otherwise |
| `G72xAdaptation.LinesMove` | src/ccitt-adpcm/g72x.c:402-430 | the delay lines move by one, and the newest difference and signal enter as sign and six leading bits of their magnitudes |
| `G72xAdaptation.SpeedControl` | src/ccitt-adpcm/g72x.c:441-456 | the speed falls by a sixteenth of itself in a calm step, climbs by a sixteenth of what is left to 512 in any other, and is 256 after a tone breaks off |
| `G72xAdaptation.SettledIsCalm` | src/ccitt-adpcm/g72x.c:441-456 | once the energies have settled on a contribution, voice at a step size that is not small is calm exactly if the contribution is at least 2 |
| `G72xAdaptation.CalmRunsSlowDown` | src/ccitt-adpcm/g72x.c:158-178 | from any state eleven calm steps bring the speed below 256, and sixty-four bring the step size to the slow scale factor alone |
| `G72xAdaptation.RestlessRunsSpeedUp` | src/ccitt-adpcm/g72x.c:158-178 | from any state eleven steps that are not calm bring the step size to the fast scale factor |
| `G72xAdaptation.SpeedOnRuns` | src/ccitt-adpcm/g72x.c:441-456 | both on every run of the coders, from wherever eleven or sixty-four such steps begin |
| `G721Steps.StepIs` | src/ccitt-adpcm/g721.c:79-125 | one step of the G.721 encoder field by field: estimates, code, difference and signal determine every field of the next state of a voice signal |
| `G721Steps.Times` | src/ccitt-adpcm/g72x.c:62-88 | a software product from its exponent, mantissa, product of mantissas and magnitude |
| `G721Steps.LevelBy` | src/ccitt-adpcm/g72x.c:189-232 | the code of a difference from its exponent and logarithm |
| `Quantiser.CodeRange` | src/ccitt-adpcm/g72x.c:189-232 | every codeword is in 1..2*size+1 and never 0 |
| `Quantiser.QuantizeMonotone` | src/ccitt-adpcm/g72x.c:189-232 | in the order of biased codes the quantiser is monotone in the difference |
| `Quantiser.MostNegative` | src/ccitt-adpcm/g72x.c:206-216 | the most negative difference, outside that order, is coded like -1 |
| `Quantiser.SignAndMagnitude` | src/ccitt-adpcm/g72x.c:240-261 | a reconstructed difference is a magnitude with the sign bit of its code, and the magnitude is zero exactly below the least logarithm |
| `Quantiser.LogOfAntilog` | src/ccitt-adpcm/g72x.c:196-207 | the logarithm of a truncated antilogarithm is the exponent and mantissa less exactly the bits the shift lost |
| `Quantiser.QuantizeReconstructExact` | src/ccitt-adpcm/g72x.c:189-261 | a reconstructed difference is requantised to its code exactly when its logarithm less the lost bits stays inside the decision interval |
| `CodeRoundTrip.ReturnsExactly` | src/ccitt-adpcm/g72x.c:189-261 | the same for every code of the three coders, with the tables' own decision levels |
| `CodeRoundTrip.AlwaysReturns` | src/ccitt-adpcm/g721.c:54-72 | for every step size 544..5120 every code the G.721 and 24 kbit/s encoders emit is its own requantisation |
| `CodeRoundTrip.ReturnsOutsideGaps` | src/ccitt-adpcm/g723_40.c:54-78 | at 40 kbit/s this fails exactly on the listed intervals of small step sizes |
| `CodeRoundTrip.LargeStepsReturn` | src/ccitt-adpcm/g723_40.c:54-78 | at 40 kbit/s it holds at all larger step sizes |
| `G72xMachine.G72xState.constructor` | src/ccitt-adpcm/g72x.c:97-118 | initialisation sets every field and array as specified |
| `G72xMachine.G72xState.UpdateInPlace` | src/ccitt-adpcm/g72x.c:269-457 | the in-place adaptation is the adaptation function of the old state |
| `G72xMachine.G72xState.AdaptPredictor` | src/ccitt-adpcm/g72x.c:325-400 | poles and zeros are cleared or adapted in place as specified |
| `G72xMachine.G72xState.Delay` | src/ccitt-adpcm/g72x.c:402-430 | the delay lines shift by one and take the new floats in front |
| `G72xMachine.G72xState.PredictZero` | src/ccitt-adpcm/g72x.c:127-138 | the loop over the six zeros computes the zero estimate |
| `G72xMachine.G72xState.CurrentStep` | src/ccitt-adpcm/g72x.c:158-178 | the step size is interpolated as specified |
| `G72xMachine.G72xState.EncodeSample` | src/ccitt-adpcm/g721.c:79-125 | an encoder call returns the specified code and leaves the specified state; an unknown coding returns -1 and changes nothing |
| `G72xMachine.G72xState.DecodeCode` | src/ccitt-adpcm/g721.c:137-175 | a decoder call returns the specified output in each coding and leaves the specified state |
| `G711.SearchTable` | src/ccitt-adpcm/g711.c:80-92 | the segment search finds the first segment end not below a value |
| `G711.AlawInverse` | src/ccitt-adpcm/g711.c:114-173 | compressing an expanded A-law code returns it, for all 256 codes |
| `G711.AlawOrder` | src/ccitt-adpcm/g711.c:114-173 | expansion preserves the order of A-law levels |
| `G711.AlawSmallNegative` | src/ccitt-adpcm/g711.c:121-133 | the samples -7..-1 lose their sign when the magnitude is formed and expand to -248 |
| `G711.UlawInverse` | src/ccitt-adpcm/g711.c:206-265 | compressing an expanded u-law code returns it exactly if it is not negative zero |
| `G711.UlawOrder` | src/ccitt-adpcm/g711.c:206-265 | expansion preserves the order of u-law levels |
| `Companding.AlawCompressionOrder` | src/ccitt-adpcm/g711.c:114-147 | A-law compression keeps the order of samples, except for the seven below zero whose sign is lost |
| `Companding.AlawAccuracy` | src/ccitt-adpcm/g711.c:114-173 | a sample expands, after A-law compression, to at most half a step from itself, eight lower for negative ones |
| `Companding.AlawOutputNearest` | src/ccitt-adpcm/g72x.c:494-496 | the plain A-law output of a decoder is a level nearest to four times its signal |
| `Companding.AlawOutputEnds` | src/ccitt-adpcm/g72x.c:494-496 | signals beyond the range of the code give its extreme levels, but the most negative one gives -8 |
| `Companding.UlawCompressionOrder` | src/ccitt-adpcm/g711.c:206-242 | u-law compression keeps the order of all samples |
| `Companding.UlawAccuracy` | src/ccitt-adpcm/g711.c:206-265 | a sample expands, after u-law compression, to at most half a step from itself |
| `Companding.UlawOutputNearest` | src/ccitt-adpcm/g72x.c:541-543 | the plain u-law output of a decoder is a level nearest to four times its signal |
| `Companding.UlawOutputEnds` | src/ccitt-adpcm/g72x.c:541-543 | signals beyond the range of the code give its extreme levels, but the most negative one gives silence |
| `Tandem.AlawAdjustment` | src/ccitt-adpcm/g72x.c:477-524 | the adjustment moves the A-law code by at most one level, saturating, and never takes a requantised code further to the side it is already on, for every received code, 0 included |
| `G72xMachine.DecodedAdjusted` | src/ccitt-adpcm/g721.c:137-175 | on every run, for every received code, the decoded PCM code is at most one level from the plain conversion of the signal, and equal to it if that requantises to the received code |
| `G72xMachine.CodingsScale` | src/ccitt-adpcm/g721.c:92-107 | the coders work at a quarter of the linear scale: a linear output encoded again is the signal, samples of both laws are cut to fourteen bits, and an unknown coding gives no output |
| `G72xMachine.TandemInput` | src/ccitt-adpcm/g72x.c:477-567 | what a following encoder takes from the plain output of a decoder is its signal to within an eighth of a step of the law |
| `Tandem.UlawAdjustment` | src/ccitt-adpcm/g72x.c:526-567 | the same for u-law |
| `Tandem.AlawExact` | src/ccitt-adpcm/g72x.c:477-524 | the adjusted A-law code requantises to the received code exactly if some code within one level of the plain one does, and passes it only if no A-law code at all requantises to it |
| `Tandem.UlawExact` | src/ccitt-adpcm/g72x.c:526-567 | the same for u-law |
| `G72xMachine.DecodedExact` | src/ccitt-adpcm/g721.c:137-175 | both on every run of the coders, for every received code |
| `CodePacking.Packer.PackOutput` | src/ccitt-adpcm/encode.c:16-34 | one call appends exactly the bits of the code to what has been packed |
| `CodePacking.Flush` | src/ccitt-adpcm/encode.c:107-117 | the flush loop ends, having appended fewer than eight zero codes up to an octet boundary |
| `CodePacking.FlushStep` | src/ccitt-adpcm/encode.c:107-117 | each flush call brings the bit count strictly nearer to an octet boundary |
| `CodePacking.Encode` | src/ccitt-adpcm/encode.c:107-117 | the octets written spell the codes and then fewer than eight zero codes |
| `CodePacking.Unpacker.UnpackInput` | src/ccitt-adpcm/decode.c:16-37 | one call takes exactly the next code off the pending bits, or reports the end |
| `CodePacking.Decode` | src/ccitt-adpcm/decode.c:102-111 | the read loop returns every whole code of the stream in order |
| `CodePacking.EncodeThenDecode` | src/ccitt-adpcm/decode.c:102-111 | packing and then unpacking any codes of width 3, 4 or 5 returns them, then fewer than eight zero codes |
| `CodePacking.StreamInjective` | src/ccitt-adpcm/encode.c:16-34 | no two code sequences of the same length have the same bits |
| `DsaaSBox.Bijection` | src/dsaa.c:21-54 | the substitution table is a permutation of the octets |
| `DsaaSBox.TableWeight` | src/dsaa.c:21-54 | the sum of all octets of the table, each multiplied by its place |
| `DsaaSBox.ExchangeShows` | src/dsaa.c:21-54 | no exchange of two different entries of a table leaves that sum |
| `Dsaa.BitPermInPlace` | src/dsaa.c:56-70 | the loop moves every bit to its target position |
| `Dsaa.TargetBijection` | src/dsaa.c:64-69 | with an odd step every one of the 64 positions is the target of exactly one bit |
| `Dsaa.BitPermBijection` | src/dsaa.c:56-70 | with an odd step the bit permutation has an inverse on both sides |
| `Dsaa.EvenStepLosesBits` | src/dsaa.c:56-70 | with an even step two different blocks are permuted to the same one |
| `Dsaa.MixInPlace` | src/dsaa.c:84-107 | the loop mixes every octet with its partner as specified, pair by pair |
| `Dsaa.MixPairs` | src/dsaa.c:72-92 | the three mixings pair octets four, two and one apart: the first x and second y of a pair become y + 2x and x + 3y modulo 256 |
| `DsaaDiffusion.ThreeMixings` | src/dsaa.c:94-107 | what every octet counts for in every octet after all three mixings |
| `DsaaDiffusion.MixingsCommute` | src/dsaa.c:94-107 | without the substitutions between them the order of the mixings would not matter |
| `Dsaa.MixBijection` | src/dsaa.c:72-107 | each mixing is invertible, its pairs having a determinant invertible modulo 256 |
| `Dsaa.SubInPlace` | src/dsaa.c:109-115 | the loop substitutes every octet under the key octet |
| `Dsaa.SubBijection` | src/dsaa.c:109-115 | substitution under any key is invertible |
| `Dsaa.CassableInPlace` | src/dsaa.c:117-135 | the six rounds in place are the specified rounds |
| `DsaaDiffusion.RoundPairs` | src/dsaa.c:119-135 | one round octet by octet: rounds 1 and 4 mix substituted octets four apart, 2 and 5 two apart, 3 and 6 neighbours, under the key half permuted once more each time |
| `DsaaDiffusion.ChangeSpreads` | src/dsaa.c:119-135 | a changed octet reaches exactly named octets after one, two and three rounds, and certainly the mirrored one after three, under every key half |
| `Dsaa.CassableBijection` | src/dsaa.c:117-135 | for every key half the block transformation has an explicit inverse on both sides |
| `Dsaa.CassableRecoversBothHalves` | src/dsaa.c:117-135 | with an odd step both the block and the key half can be recovered from what is left in place |
| `LceRuns.ReachableInv` | src/lce.c:637-932 | every state any run reaches satisfies the invariant: establishing, opening, arriving messages that the protocol takes, declines or answers, sending, retransmitting, closing, releasing, timing out, shutting down, allocating and destroying MM endpoints |
| `LceRuns.ReachableBuffers` | src/lce.c:106-111 | on every run a buffer exists exactly while a queue or a transaction holds it or a reference to it was lost, its count says how many of both there are, and an established link has nothing queued |
| `LceRuns.ReachableCounts` | include/dect/libdect.h:45 | on every run a buffer has one or two references, held or lost, and three while it is retransmitted, so its eight-bit count never wraps |
| `LceInvariant.FreedWithLastHolder` | src/lce.c:106-111 | a buffer is freed exactly when its last holder lets go, unless a reference to it was lost |
| `LceRuns.StepLost` | src/lce.c:686-716 | a step loses a reference exactly if it answers a message on a transaction that is never linked |
| `LceRuns.HeldExactly` | src/lce.c:1402-1440 | on a run every buffer is counted by its holders alone, and freed with the last, exactly if no step answers such a message |
| `LceRuns.LostStays` | src/lce.c:686-716 | a buffer with a lost reference is never freed, whatever follows |
| `LceRuns.AnswerLeaks` | src/cc.c:1908-1925 | one message to an unknown call leaves a buffer without a holder |
| `LceRuns.AnswerInRelease` | src/cc.c:1908-1925 | the same message on a link that is being released aborts |
| `LceRuns.AbortsExactly` | src/lce.c:439-932 | exactly which operations fail an assertion or BUG, or follow a NULL page timer or a freed link, by conditions that can be checked beforehand |
| `LceTimers.StepTidy` | src/lce.c:439-499 | while no timer has outlived its link and none has two release timers, a step keeps it so exactly if it neither gives up a call on a link that is being paged nor releases a link once more |
| `LceTimers.TidyRunsKept` | src/lce.c:439-499 | so on runs of other steps no timer ever follows a freed link |
| `LceTimers.PageTimerOutlives` | src/lce.c:1353-1370 | a call given up while its link is being paged leaves the page timer, which then follows the freed link |
| `LceIdle.TimerEnds` | src/lce.c:512-519 | the SDU and maintain timers take a link without transactions off the list, with its endpoint and its queue's references; with transactions the first aborts and the second only stops |
| `LceIdle.ReleaseTimersEnd` | src/lce.c:472-478 | the release timers do the same, and one that a later one replaced does not go on |
| `LceIdle.StepIdle` | src/lce.c:521-533 | an established link is left with neither transaction nor timer exactly by a message that its protocol ignores or answers without a transaction, or by connecting after the last transaction has gone |
| `LceIdle.RunsUsed` | src/lce.c:521-533 | on runs without such steps every established link is in use or its timer will end it |
| `LceIdle.IgnoredLingers` | src/lce.c:823-852 | one ignored message leaves a link that no timer ends |
| `LceRuns.ClosePendingKeepsQueue` | src/lce.c:1796-1828 | closing a transaction other than a call on a pending link keeps the queue |
| `LceRuns.ShutdownDestroys` | src/lce.c:535-558 | when every handler closes its own transaction, as all but that of MM do, a link going down ends its transactions in list order and is destroyed exactly if it had none or the last is a call; otherwise it stays behind empty |
| `LinkDown.LinkDownExactly` | src/mm.c:3268-3281 | with the handler of MM, which ends the procedure in progress instead, and the list in any order: the loop ends with the same result exactly if on the turn of each MM transaction its procedure is the one in progress; it leaves the first MM transaction exactly if the second's procedure is ended on its turn and is not right behind; otherwise it ends no procedure or goes on with an entry off the list |
| `LinkDown.DownExactly` | src/lce.c:551-557 | the same about the whole state that the loop leaves: in turn, it is what closing in list order leaves |
| `LinkDown.ReplacedRegistration` | src/mm.c:363-405 | a registration, a request to cipher from the peer and an authentication that replaces the registration leave the procedures out of turn, and an encryption indication then crashes |
| `LinkDown.LinkShutdown` | src/lce.c:535-558 | the loop in place, with the MM endpoint beside it, computes what is foreseen |
| `LceRuns.CloseReleasesLast` | src/lce.c:1832-1841 | a normal close on an established link releases it exactly when no transaction is left |
| `LceRuns.RetransmitRepeats` | src/lce.c:686-761 | a message of an established link goes out at once, and retransmitting sends it again |
| `LceRuns.RetransmitAfterWait` | src/lce.c:700-761 | a message that waited for its link goes out when it is established, and is still there to be retransmitted |
| `LceRuns.OthersSent` | src/lce.c:718-747 | connectionless messages go out with value 6 and without F, answers without a transaction with F and the value of the message; on a pending link both wait |
| `LceInvariant.SendInv` | src/lce.c:686-716 | sending keeps all reference counts exact: the old message is let go, the new one is held by its transaction and by the queue until transmitted |
| `LceInvariant.RetransmitInv` | src/lce.c:750-761 | a retransmission leaves every reference count as it was |
| `LceInvariant.CloseInv` | src/lce.c:1796-1841 | closing a transaction keeps the invariant |
| `LceInvariant.DestroyInv` | src/lce.c:439-470 | destroying a link releases its queue and keeps the invariant |
| `LceInvariant.DirectSendsQueue` | src/lce.c:855-885 | when a connecting link is established everything queued is sent once, first in first out |
| `LceInvariant.IndirectInv` | src/lce.c:891-932 | moving everything of a paging link to the answered one keeps the invariant |
| `LceOrder.AnswerConservesWork` | src/lce.c:891-932 | an answered link without transactions ends up with exactly those of the paging link, in order and relinked; queued messages are sent once in order, the MM endpoint follows, the paging link goes with an empty list |
| `LceOrder.JoinOrder` | src/lce.c:910-915 | if the answered link has transactions, MM stays last exactly if it has none of MM or receives nothing else |
| `LceOrder.ValuesLimited` | src/lce.c:823-835 | by number: CC and CISS may have seven transactions of each side and LCE, MM and CLMS one; one of ours is opened exactly while such a value is free, and a header with any other value is ignored |
| `LceOrder.ReachableValues` | src/lce.c:1708-1722 | no transaction of any run has a value beyond its protocol's limit, or another link than the one it is on |
| `LceOrder.LeastFreeTv` | src/lce.c:1708-1720 | an initiator's value is the least that none of the protocol's initiators uses, and none is given only when all are used |
| `LceOrder.PoliteRunsGood` | src/lce.c:1722-1794 | on runs in which the messages that open a transaction have F clear, and answers arrive on a link of their own, no two transactions of a link share protocol, role and value, and MM comes last with the newest first |
| `LceOrder.ArrivalUnique` | src/lce.c:823-852 | a new transaction of the peer keeps values unique exactly if F is clear or no responder has the value |
| `LceOrder.DuplicateWithF` | src/lce.c:841-850 | two opening messages with F set give two transactions with the same protocol, role and value |
| `LceOrder.InsertOrdered` | src/lce.c:1722-1745 | a new MM transaction keeps the newest first exactly while at most one other is linked, and MM last always |
| `LceOrder.AtMostTwoMm` | src/lce.c:1722-1745 | while values are unique there are never more than two MM transactions on a link |
| `LceOrder.MessageReachesMirror` | src/lce.c:668-673 | a message reaches the peer's transaction of the same value and the opposite role |
| `LceOrder.OpeningKeepsMirror` | src/lce.c:823-852 | the first message of a newly opened transaction opens its mirror at the peer |
| `LceOrder.ConnectionlessNeverReceived` | src/lce.c:828-838 | no header reaches the connectionless branch: its transaction value is refused before |
| `LceMachine.DataLink.TransactionLookup` | src/lce.c:403-414 | the loop finds the first transaction of a protocol, value and role |
| `LceMachine.DataLink.AllocateTv` | src/lce.c:1708-1720 | the loop finds the least free value |
| `LceMachine.DataLink.TransactionLink` | src/lce.c:1722-1745 | a transaction is linked at its specified place |
| `LceMachine.Entity.MbufFree` | src/lce.c:106-111 | one reference is dropped, and the buffer with the last one; the count stays below four (`LceRuns.ReachableCounts`) |
| `LceMachine.Entity.TransactionOpen` | src/lce.c:1747-1767 | opening in place is the opening step |
| `LceMachine.Entity.EstablishLink` | src/lce.c:944-1000 | creating a link in place is the establishing step, for a link of the peer, one that connects and one that pages |
| `LceMachine.Entity.ReceiveMessage` | src/lce.c:815-853 | receiving a header in place is the receiving step, whether the protocol takes the transaction, declines, or answers, and aborts exactly when that does |
| `LceMachine.Entity.SendReply` | src/lce.c:686-716 | sending on a transaction of the caller's is the step that loses its reference |
| `LceMachine.Entity.SendMessage` | src/lce.c:686-716 | sending in place is the sending step, and aborts exactly when that does |
| `LceMachine.Entity.SendConnectionless` | src/lce.c:718-748 | the same for a connectionless message |
| `LceMachine.Entity.Retransmission` | src/lce.c:750-761 | retransmitting in place is the retransmission step |
| `LceMachine.Entity.TransactionClose` | src/lce.c:1796-1841 | closing in place is the closing step with its fall-through, and aborts exactly when that does |
| `LceMachine.Entity.LinkDestroy` | src/lce.c:439-470 | destroying in place is the destroying step, and aborts exactly on a link with transactions |
| `LceMachine.Entity.LinkShutdown` | src/lce.c:535-558 | the loop over the transactions, each closed by its own handler, is the shutdown step |
| `LceMachine.Entity.TimerEvent` | src/lce.c:512-519 | the SDU timer in either of its uses is the timing out step, and aborts exactly when that does |
| `LceMachine.Entity.DirectEstablished` | src/lce.c:855-889 | completing a direct establishment in place is its step |
| `LceMachine.Entity.IndirectEstablished` | src/lce.c:891-932 | stopping the page timer, rebinding, transferring, flushing and destroying in place is the step of an indirect establishment, which aborts exactly if there is no page timer |
| `LceEndpoints.StepTied` | src/mm.c:525-560 | while every MM endpoint has a link that exists and no link has two, a step keeps it so exactly if it gives no link a second one |
| `LceEndpoints.CarefulRunsTied` | src/mm.c:3226-3230 | so it holds on every run of such steps, through destroying, rebinding and shutting down |
| `LceEndpoints.SecondEndpointDangles` | src/mm.c:3283-3297 | of two endpoints of one link the second stays behind when the link is destroyed |
| `LceMachine.Entity.EndpointFor` | src/mm.c:3226-3230 | an opening message gets the first endpoint of its link, or a new one if it has none |
| `LceMachine.Entity.RebindEndpoint` | src/mm.c:3283-3297 | the first endpoint of a link moves to the other link, or goes |
| `MmRuns.Run` | src/mm.c:363-481 | every run of requests, answers, peer messages on transactions of either role, timeouts, encryption indications, IWU messages and link changes stops at a crash or keeps the invariant: current is null exactly if both slots are idle, the running procedure strictly outranks the interrupted one, an initiator slot is active exactly while its transaction is linked, only active slots are timed, and only the portable part keeps a TPUI |
| `MmRuns.StepInv` | src/mm.c:3155-3262 | an operation crashes exactly if it is fatal, by conditions on the state before it, and otherwise keeps the invariant |
| `MmRuns.StepHeld` | src/mm.c:3158-3182 | an operation keeps every responder procedure on a transaction of its own exactly if it is no request that starts one on a transaction of ours |
| `MmRuns.OrderlyRunsHold` | src/mm.c:407-437 | so without such requests every responder procedure has its transaction |
| `MmRuns.ReceiveStep` | src/mm.c:3155-3262 | exactly which messages crash the arbiter, by their contents, on a new transaction or an existing one of either role |
| `MmRuns.RequestStep` | src/mm.c:1057-1098 | exactly which requests of the user crash: those whose message cannot be sent on a link that is down, and a key set before there is a socket |
| `MmRuns.AnswerStep` | src/mm.c:2479-2502 | exactly which responses of the user crash: without a procedure, its transaction, or what its request brought, and on a link that takes no message or key |
| `MmRuns.AssignmentAccepted` | src/mm.c:2479-2502 | an assignment can be accepted only by a portable part whose registration was accepted with a TPUI; the fixed part fails its assertion or has kept nothing |
| `MmRuns.FixedPartAssigns` | src/mm.c:1966-1978 | a fixed part that accepts a registration with an assignment, and then that assignment, fails the assertion |
| `MmRuns.AcceptAtFixedPart` | src/mm.c:1498-1513 | an accept of access rights crashes the fixed part, whatever it holds |
| `MmRuns.EmptyIdentity` | src/mm.c:1459-1459 | a request whose identity element is empty crashes every side that takes it up |
| `MmRuns.EncryptedStep` | src/lce.c:599-611 | an encryption indication crashes exactly if some ciphering procedure's transaction is linked while the procedure in progress has none, or has the one right behind; otherwise it keeps the invariant |
| `MmRuns.CompleteResumes` | src/mm.c:439-458 | completing crashes exactly if there is no procedure or an unlinked responder's is in progress; otherwise it frees the slot and its transaction and resumes exactly the procedure that was interrupted |
| `MmRuns.InitiateSucceeds` | src/mm.c:363-405 | a procedure starts exactly if this side may initiate it and it strictly outranks the one in progress |
| `MmRuns.StartsExactly` | src/mm.c:3028-3148 | by name: the fixed part starts its eight procedures, with nothing in progress or over anything of the portable part but authentication; the portable part starts authentication over all but its own and its others only with nothing in progress; the same for what each side takes from the other |
| `MmRuns.ExpireEndsCurrent` | src/mm.c:462-481 | the first expiry retransmits; another ends the procedure in progress, so the slot that timed out is freed exactly if it was not interrupted |
| `MmRuns.RetransmitsEvery256` | src/mm.c:473-476 | over any run the expiries that retransmit are exactly the first and every 256th after it |
| `MmRuns.RequestLeaves` | src/mm.c:3200-3262 | what a request that is taken leaves: its procedure in progress with its transaction, or what was there before; a well formed detach ends our procedure as well |
| `MmRuns.SuggestionLeaves` | src/mm.c:2910-2945 | a suggestion ends the procedure in progress if that is ours, and otherwise leaves its transaction behind |
| `MmRuns.UserRequestLeaves` | src/mm.c:1057-1098 | what a request of the user leaves: the procedure in progress, or over at once if nothing was sent or no answer is due, with the peer's as it was; otherwise all as it was |
| `MmRuns.UserAnswerLeaves` | src/mm.c:2479-2502 | what a response of the user leaves: the procedure in progress over and what it had interrupted going on, but for a registration that goes on as an assignment |
| `MmRuns.AnswersTaken` | src/mm.c:3155-3200 | by name: which procedure each answer is about; a well formed answer changes nothing exactly if that procedure is not there |
| `MmRuns.RegistrationAccepted` | src/mm.c:2050-2095 | an accepted registration goes on as an assignment, in its slot and with its rank, exactly if a temporary identity was accepted or the network assigns one; otherwise the procedure in progress is over |
| `MmRuns.AnswerEndsCurrent` | src/mm.c:943-975 | every answer of the peer that is looked at, does not crash and begins no assignment ends the procedure in progress, which is ours exactly if it was not interrupted |
| `MmRuns.RefusedRequestLeaks` | src/mm.c:3232-3236 | a request for a new transaction leaves that linked whether its procedure starts or is refused |
| `MmRuns.CipherOnOurTransaction` | src/mm.c:1145-1156 | a request to cipher on the transaction of our registration starts a procedure without a transaction, whose completion crashes |
| `MmRuns.RejectWithoutProcedure` | src/mm.c:1233-1256 | a rejection of ciphering on the transaction that a refused request left crashes with no procedure in progress |
| `MmMachine.MmEndpoint.ProcedureInitiate` | src/mm.c:363-405 | initiating in place is the initiating step, and reports success exactly when that starts the procedure |
| `MmMachine.MmEndpoint.ProcedureRespond` | src/mm.c:407-437 | responding in place is the responding step |
| `MmMachine.MmEndpoint.ProcedureComplete` | src/mm.c:439-458 | completing in place is the completing step, and crashes exactly when that does |
| `MmMachine.MmEndpoint.ProcedureTimeout` | src/mm.c:462-481 | a timeout in place is the expiry step |
| `MmMachine.MmEndpoint.ReceiveRequest` | src/mm.c:888-925 | a request of the peer responds, fails or, during a key allocation, does neither, and goes on by its contents as specified |
| `MmMachine.MmEndpoint.Proceed` | src/mm.c:1445-1490 | a request taken up is rejected, followed into its identity, ended or indicated, by its contents as specified |
| `MmMachine.MmEndpoint.ReceiveAnswer` | src/mm.c:2050-2090 | an answer of the peer relabels a slot, ends the current procedure or crashes as specified |
| `MmMachine.MmEndpoint.ReceiveMessage` | src/mm.c:3155-3262 | a message is dispatched on its existing transaction, or confirmed on a new one, as specified |
| `MmMachine.MmEndpoint.RequestProcedure` | src/mm.c:1057-1098 | a request of the user initiates, sends, and cancels if that fails, as specified |
| `MmMachine.MmEndpoint.AnswerProcedure` | src/mm.c:1947-1981 | a response of the user looks up what was kept, sends, and relabels or ends the current procedure as specified |
| `MmMachine.MmEndpoint.EncryptionIndicated` | src/lce.c:599-611 | the loop over the link's transactions, with the successor it has noted, is the encryption indication |
| `SFormatRoundTrip.RoundTripExactly` | src/s_msg.c:2710-2918 | of everything faithful element codecs build from a descriptor with distinct types the peer reads back exactly the messages without repeated elements on which it does not insist on a line it cannot get |
| `SFormatRoundTrip.HeaderOfFinished` | src/s_msg.c:2585-2641 | a finished element is found again at the head of any buffer with its type and length |
| `SFormatRoundTrip.ParseBuilt` | src/s_msg.c:2710-2790 | from every line on the greedy parser reads what the builder wrote from that line on, or reports a missing element |
| `SFormatRoundTrip.OffsetGrows` | src/s_msg.c:2542-2551 | the slots of a message structure do not overlap |
| `SFormatSafety.ParseSafe` | src/s_msg.c:2710-2790 | on any buffer the parser stays inside it, matches elements one behind the other to ever later lines, and accepts only if every mandatory line got an element of its own type |
| `SFormatSafety.ParseFirstFit` | src/s_msg.c:2734-2763 | every element goes to the first line after the one before it that has its type, and no mandatory line is passed over |
| `SFormatSafety.ForbiddenRefused` | src/s_msg.c:2740-2742 | an element of a type that is not allowed in this direction is refused at its line |
| `SFormatSafety.TruncatedRefused` | src/s_msg.c:2724-2728 | a buffer that ends within an element is refused wherever the parser stands |
| `SFormatSafety.CorruptElement` | src/s_msg.c:2768-2772 | contents that their handler does not take are an error on a mandatory line and left out on any other |
| `SFormatSafety.MandatorySlots` | src/s_msg.c:2760-2766 | in an accepted message the slot of a plain mandatory line is NULL exactly if the element that matched it was empty |
| `SFormatSafety.ParseFillsStructure` | src/s_msg.c:2553-2568 | an accepted message has every slot of its structure set, and nothing is written outside it |
| `SFormatSafety.ParsedAllFreed` | src/s_msg.c:2920-2939 | freeing an accepted message releases every element in it exactly once |
| `SFormatSafety.RepeatedLost` | src/s_msg.c:2542-2551 | a received repeated element is stored where the next line's slot is initialised, and lost |
| `SFormatMachine.ParseLoop` | src/s_msg.c:2710-2790 | the nested loops with their cursors are the parser, at the specified offset on every line |
| `SFormatMachine.BuildLoop` | src/s_msg.c:2863-2918 | the loop with its cursor is the builder, at the same offsets |
| `SFormatMachine.BuildListLoop` | src/s_msg.c:2894-2899 | the loop over a list appends its elements in order or stops at the first error |
| `SFormatMachine.FreeLoop` | src/s_msg.c:2920-2939 | the loop with its cursor releases the specified slots, at the same offsets |
| `SFormatElements.FoundExactly` | src/s_msg.c:2585-2620 | an element is found exactly if the buffer holds all of it, with the type and length that its first octets say |
| `SFormatElements.FoundIsFinished` | src/s_msg.c:2585-2641 | every element found that is not empty is what finishing its contents gives |
| `SFormatElements.ElementSent` | src/s_msg.c:2806-2845 | on the octets: a display or keypad line is sent as 28 or 2C exactly if its value needs several characters and as E8 or E9 otherwise, every other line keeps its type, and empty variable elements vanish |
| `SFormatElements.ListSent` | src/s_msg.c:2878-2900 | a list is sent as an indicator with its order, if there are several items, and the items in their order, or as the first error of an item |
| `SFormatElements.ListAlone` | src/s_msg.c:2863-2918 | a message may consist of one list alone, and is what the list adds |
| `SFormatElements.IndicatorFound` | src/s_msg.c:51-66 | the parser finds the order of an indicator again if it is one of the two there are |
| `SFormatElements.MissingExactly` | src/s_msg.c:2863-2918 | a message whose elements can be built is refused exactly if a mandatory line has no value, with that as the reason |
| `SFormatElements.TextSent` | src/s_msg.c:166-174 | a text of one character is sent behind E8 or E9, a longer one behind 28 or 2C and its length |
| `SFormatElements.TextReturns` | src/s_msg.c:1131-1153 | a text comes back whole through its element exactly if it has 1 to 253 characters |
| `SFormatElements.TextsArrive` | src/s_msg.c:2710-2918 | so whole texts arrive in messages of displays and keypads of which the peer does not insist on a single character |
| `Clms.RoundTrip` | src/clms.c:62-177 | a payload of 1 to 20 octets is delivered exactly as sent, one of 21 to 96 octets not at all |
| `Clms.SentLayout` | src/clms.c:139-177 | the octets that are broadcast: header with the section form, broadcast address, discriminator and length, then sections that begin with their numbers and carry the payload in fours, filled up with zeros |
| `Clms.ReceiveExactly` | src/clms.c:62-137 | a section stream is delivered exactly in the two specified forms: sections numbered from zero without gaps, below five, covering the length, and with exactly their octets |
| `Clms.SectionsDelivered` | src/clms.c:104-128 | from any section on the receiving loop delivers exactly numbered sections that cover the length |
| `Clms.SendFixed` | src/clms.c:139-177 | the loop writes the address section and the padded data sections |
| `Clms.ReceiveFixed` | src/clms.c:62-137 | the loop is the receiving function |
| `Identities.AriRoundTrip` | src/identities.c:62-123 | parsing undoes building, for all five classes, exactly on identities whose fields fit their widths |
| `Identities.AriLayout` | src/identities.c:95-123 | the number an identity is built to: class in the three highest bits, fields side by side below |
| `Identities.AriRefused` | src/identities.c:62-93 | a number is refused exactly if its three highest bits name none of the five classes |
| `IdentityElements.FixedRoundTrip` | src/s_msg.c:588-641 | a fixed identity survives its element, with the one-bit shift and whatever three octets follow the five written, exactly if it fits and its kind is known |
| `IdentityElements.IpuiRoundTrip` | src/identities.c:239-309 | a type N identity survives its five octets, whatever three follow, exactly if its serial number fits twenty bits |
| `IdentityElements.PortableRoundTrip` | src/s_msg.c:499-565 | the same through the portable identity element |
| `IdentityElements.FixedAccepted` | src/s_msg.c:588-624 | which fixed identity elements are taken, octet by octet, and as what |
| `IdentityElements.PortableAccepted` | src/s_msg.c:499-537 | which portable identity elements are taken, octet by octet, and which of them are kept without a number, with the empty one |
| `IdentityElements.ElementOctets` | src/s_msg.c:540-641 | the octets of both finished elements: type and length, then kind and number of bits with their groups ended, then the identity |
| `IdentityElements.IpuiOctets` | src/identities.c:274-309 | the five octets of a type N identity |
| `IdentityElements.WriteIpui` | src/identities.c:274-309 | the loop writes the five octets and nothing else |
| `IdentityElements.IdentitiesFaithful` | src/s_msg.c:499-641 | both identity elements are faithful codecs in the sense of the message engine |
| `IdentityElements.PageResponseArrives` | src/lce.c:43-50 | the answer to a page, built by the portable part with any fitting identities, is read by the fixed part as it was sent |
| `IpeiText.TextRoundTrip` | src/identities.c:145-199 | reading a printed IPEI returns it exactly if its serial number has at most seven digits, and refuses it otherwise |
| `IpeiText.ChangeDetected` | src/identities.c:177-199 | a change of one digit is detected exactly if it is not the eleventh, whose weight vanishes |
| `IpeiText.SwapDetected` | src/identities.c:177-199 | an exchange of two different neighbouring digits is always refused |
| `IpeiText.FormatString` | src/identities.c:145-163 | the loop computes the weighted check digit and appends it |
| `IpeiText.ParseString` | src/identities.c:177-199 | the loop and the comparisons are the parser |

## Left out

- Sockets, file descriptors, the event loop, ciphering and MAC parameters: foreign calls.
- Lookup of links by IPUI and paging itself (`src/lce.c:391-401`, `1353-1370`): operations name their link.
- Link and transaction pointers and intrusive lists: transactions are values in a sequence of their link. Where a
  pointer or a list entry may be followed that is gone, that is a crash in `Mm`, `LinkDown` and for timers.
- The call control state machine (`src/cc.c`) and supplementary services: their guards decide little.
- `LceMachine.Entity.LinkShutdown`: takes each handler to close its own transaction; with the handler of MM the
  loop is `LinkDown.LinkShutdown`. A loop that goes on with a freed entry, or that leaves a transaction, is no
  operation of `LceRuns`.
- MM endpoints after their link went down, and endpoints that the user destroys while they run a procedure.
- Contents of MM messages other than the portable identity, and the abort callbacks.
- Element handlers other than those of identities, displays and keypads: the message engine is proved for any
  handlers, and its round trip for those that are faithful.
- Messages of more than 255 octets, whose length the buffer's octet cannot hold, and so display texts of more than
  253 characters.
- How long timers run (`src/mm.c:3028-3148`): the model says which are started and what happens when they run out.
- The list head of an invalid repeat indicator, which the source frees although it is static
  (`src/s_msg.c:2680-2683`).
- IPUI types other than N: the builder of type O drops trailing bits or shifts by a negative amount unless
  the length of the number is 4 modulo 8.
- CLMS-FIXED payloads of no octets (the octet sent is whatever lies in the buffer) and of more than 96 (they
  do not fit the buffer).
- Characters beyond seven bits in a printed IPEI.
- The code buffer after encoding no samples, whose residual count the source does not initialise.
- The rest of DSAA (`src/dsaa.c:137-208`): compositions of the block step and copies.
- The G.711 cross tables, the command lines of the coder programs, and debug output.
