# MT6878 camera capture path, GNSS boot protocol and sparse expander: a verified model

The repository brings up the CAMSV capture path of the MT6878: a userspace composer turns a
capture job into a command queue (CQ) that the camera hardware executes, a kernel owner talks to it
through queued messages and 75-byte ACKs, and a one-shot transaction programs, completes and stops the
hardware while two video buffers stay pinned.  Beside it stand a host model of the GNSS boot
protocol and an expander for Android sparse images.  This project models those parts and proves what
they promise, over all inputs, all failures of the code below them, and all runs.

| file | models |
|---|---|
| `Words.dfy`, `Errno.dfy` | bytes, little-endian words, bitwise packing, errno values |
| `CommandQueue.dfy` | the two-ended CQ builder, the hardware's view of its bytes |
| `Capture.dfy` | jobs, buffers, layouts and their validation |
| `Recipe.dfy`, `RegisterImage.dfy` | the 59 register writes of a job, and the register file after executing them |
| `Composer.dfy`, `Worker.dfy` | the composer session, and the cache-synchronized worker step around it |
| `Gate.dfy`, `CcdOwner.dfy`, `Protocol.dfy`, `OwnerHistory.dfy`, `Lossless.dfy` | the kernel's reply gate, ACK parser and transport owner; runs of both parties together, the history of requests, and sessions without failures |
| `Bus.dfy`, `Transaction.dfy`, `Vb2.dfy` | backend calls, the hardware transaction, and buffer ownership above it |
| `WorkerOwner.dfy` | worker registration and retirement, mapping and fd ownership |
| `GnssFrames.dfy`, `GnssBoot.dfy` | GNSS framing, acknowledgements and the download exchange |
| `Crc32.dfy`, `Sparse.dfy`, `SparseExpand.dfy` | CRC-32 of RFC 1952, the sparse format, and its streaming expansion |

`dafny verify dfyconfig.toml` checks everything.

How it is built: what the source updates in place is a class (or an array) whose methods are proved
equal to a function of the old state; the whole-run theorems are about those functions.  Results of system
calls, backend calls and timeouts are inputs, so a theorem over all inputs ranges over every
failure.  A message once sent may be delivered at any later time, any number of times, or never.

The main safety results are `Protocol.EndToEnd`, `Protocol.CaptureReady`, `Protocol.DrainSafety`, `Protocol.Attribution`,
`OwnerHistory.RequestsOrdered`, `CommandQueue.BuildImage`, `Recipe.Compose`, `RegisterImage.RecipeImage`, `Worker.CacheBracket`,
`Transaction.SubmitTrace`, `Transaction.StopTrace`, `Transaction.StopQuiesced`, `Vb2.BufferOwnership`, `WorkerOwner.ReleaseRules`,
`WorkerOwner.CloseRules`, `GnssFrames.DecoderSound`, `GnssBoot.ExchangeRuns` and `GnssBoot.CorruptionRejected`.  Their
counterparts, which say that what should happen does, are `Lossless.LosslessCapture`, `Lossless.LosslessDrain`,
`Protocol.DrainComplete`, `Gate.ComposerAndConsumerAgree`, `Vb2.CompletionDelivered`, `Vb2.WillingPair`, `WorkerOwner.LosslessLife`,
`WorkerOwner.NothingLeft`, `GnssFrames.FramingRoundTrip`, `GnssBoot.LosslessBoot` and `SparseExpand.Expand` with
`Sparse.ParsedIsWellFormed`, `Sparse.WellFormedParses` and `Crc32.CrcIsRemainder`.

## Model

| member | source | states |
|---|---|---|
| `Words.Put32` | patches/camera-ccd-cq/mt6878-camera-ccd-cq.h:34-40 | the four bytes stored read back as the word, and no other byte changes |
| `Words.Put64` | patches/camera-ccd-cq/mt6878-camera-ccd-cq.h:42-46 | the two words stored are the low and high halves, and no other byte changes |
| `CommandQueue.CommandRoundTrip` | patches/camera-ccd-cq/mt6878-camera-ccd-cq.h:122-123 | every register of the 2 MiB aperture and every count up to 511 can be read back from the packed command, which is never END |
| `CommandQueue.CommandSum` | patches/camera-ccd-cq/mt6878-camera-ccd-cq.h:122-123 | the packed command is the low register half, the count less one from bit 16, and five register bits from bit 27 |
| `CommandQueue.DescriptorsAre` | patches/camera-ccd-cq/mt6878-camera-ccd-cq.h:104 | a run takes one descriptor for every 511 words begun |
| `CommandQueue.DecodeFinished` | patches/camera-ccd-cq/mt6878-camera-ccd-cq.h:86-194 | decoding a finished image from any descriptor on gives the writes recorded from there on, and stops at END |
| `CommandQueue.AppendDescriptor` | patches/camera-ccd-cq/mt6878-camera-ccd-cq.h:124-129 | writing one descriptor below the tail adds exactly its run of writes and keeps the meaning of the earlier ones |
| `CommandQueue.Seal` | patches/camera-ccd-cq/mt6878-camera-ccd-cq.h:187-189 | writing END makes the image decode to exactly the recorded writes |
| `CommandQueue.Queue.Init` | patches/camera-ccd-cq/mt6878-camera-ccd-cq.h:59-80 | refused with EINVAL exactly for a bad aperture, mapping or capacity; otherwise an empty queue over the given slice |
| `CommandQueue.Queue.Space` | patches/camera-ccd-cq/mt6878-camera-ccd-cq.h:103-131 | in every reachable queue head is a multiple of 12 and tail of 4, END still fits, the length fits 16 bits, every value address lies in the 34-bit mapping |
| `CommandQueue.Queue.Fail` | patches/camera-ccd-cq/mt6878-camera-ccd-cq.h:48-53 | the first error is latched and returned |
| `CommandQueue.Queue.Values` | patches/camera-ccd-cq/mt6878-camera-ccd-cq.h:86-133 | all or nothing: a failing append leaves bytes and cursors untouched; a good one appends exactly its run, split at 511 words, and touches nothing outside its slice |
| `CommandQueue.Queue.PutDescriptors` | patches/camera-ccd-cq/mt6878-camera-ccd-cq.h:115-131 | descriptors of at most 511 words together describe the whole run |
| `CommandQueue.Queue.OneWordFits` | patches/camera-ccd-cq/mt6878-camera-ccd-cq.h:95-109 | the space and range test of the callers implies that a one-word append cannot fail |
| `CommandQueue.Queue.FrameCookie` | patches/camera-ccd-cq/mt6878-camera-ccd-cq.h:140-170 | all eight cookie registers are written, or nothing changes: after the up-front test no inner append can fail |
| `CommandQueue.Queue.Finish` | patches/camera-ccd-cq/mt6878-camera-ccd-cq.h:175-194 | fails only on a latched error, a finished or an empty queue; otherwise the bytes decode to exactly the writes appended so far |
| `CommandQueue.BuildImage` | patches/camera-ccd-cq/mt6878-camera-ccd-cq.h:86-194 | any list of appends followed by finish: if all succeed the image decodes to the requested writes in order, otherwise to those before the first failure |
| `Capture.LayoutExact` | patches/camera-camsv/mt6878-camsv-capture.h:38-60 | a layout is accepted if and only if its true sizes fit: 8 or 10 bits a pixel, a stride that holds a row and is a multiple of 2, 4, ... 32 bytes, the unwrapped product within capacity |
| `Capture.RowsInside` | patches/camera-camsv/mt6878-camsv-capture.h:52-58 | the packed pixels of every row lie inside that row's stride and the buffer |
| `Capture.OverlapExact` | patches/camera-camsv/mt6878-camsv-capture.h:123-127 | for mapped buffers the overlap test means a shared address |
| `Capture.PartitionExact` | patches/camera-camsv/mt6878-camsv-capture.h:155-161 | group masks are accepted if and only if they are pairwise disjoint and together exactly the two tags |
| `Capture.ValidateExact` | patches/camera-camsv/mt6878-camsv-capture.h:129-162 | validation accepts exactly the capturable jobs, stated without rounding, wrap-around or tables: mapped below 2^34, pairwise separate, groups dividing the two tag bits |
| `Capture.TagBitIs` | patches/camera-camsv/mt6878-camsv-capture.h:155 | the tag mask is a shift of one |
| `Capture.CheckGroups` | patches/camera-camsv/mt6878-camsv-capture.h:155-161 | the scan over the four groups decides that partition |
| `Recipe.CheckInputs` | patches/camera-ccd-cq/mt6878-camera-camsv-recipe.h:24-97 | the scan over slots, tags and MRAW inputs returns the code of the first violated condition |
| `Recipe.InputsExact` | patches/camera-ccd-cq/mt6878-camera-camsv-recipe.h:24-97 | the inputs are accepted if and only if job, banks and every cell of the configuration are those the recipe is written for |
| `Recipe.CollectWrites` | patches/camera-ccd-cq/mt6878-camera-camsv-recipe.h:141-197 | the loops produce 59 writes: both tags in ascending order, the engine, eight cookies |
| `Recipe.RecipeAligned` | patches/camera-ccd-cq/mt6878-camera-camsv-recipe.h:141-197 | every write of a recipe goes to a word-aligned register, so no inner append can be refused for alignment |
| `Recipe.Preflight` | patches/camera-ccd-cq/mt6878-camera-camsv-recipe.h:130-204 | every check that can refuse a recipe is made before anything is published |
| `Recipe.CheckTargets` | patches/camera-ccd-cq/mt6878-camera-camsv-recipe.h:201-204 | true exactly if every target lies in the aperture |
| `Recipe.PublishWrites` | patches/camera-ccd-cq/mt6878-camera-camsv-recipe.h:205-209 | preflighted one-word appends cannot fail, and leave exactly the given writes |
| `Recipe.Compose` | patches/camera-ccd-cq/mt6878-camera-camsv-recipe.h:111-211 | all 59 writes and END are published, 720 descriptor bytes that decode to the recipe, or nothing changes |
| `RegisterImage.LastWins` | patches/camera-ccd-cq/mt6878-camera-camsv-recipe.h:153-170 | the last write to a register decides its value |
| `RegisterImage.RecipeTargets` | patches/camera-ccd-cq/mt6878-camera-camsv-recipe.h:201-204 | a recipe stays inside the 0x11000 bytes of its own banks |
| `RegisterImage.RecipePlane` | patches/camera-ccd-cq/mt6878-camera-camsv-recipe.h:146-175 | after the recipe the RAW tag's size, format, stride and address registers hold those of the RAW plane, the PDAF tag's those of PDAF, and FBC0 holds 0x8080 |
| `RegisterImage.ClosedWhileProgrammed` | patches/camera-ccd-cq/mt6878-camera-camsv-recipe.h:157-170 | FBC0 of a plane stays closed, at 0x8000, until every other register of the plane is written |
| `RegisterImage.RecipeCookie` | patches/camera-ccd-cq/mt6878-camera-camsv-recipe.h:196-197 | all eight cookie registers hold the sequence |
| `RegisterImage.EngineMeaning` | patches/camera-ccd-cq/mt6878-camera-camsv-recipe.h:143-144 | the accumulated masks are sums over the two tags, and the first-tag word is the lower one |
| `RegisterImage.EngineImage` | patches/camera-ccd-cq/mt6878-camera-camsv-recipe.h:176-195 | every engine-wide register holds the value for exactly these two tags |
| `RegisterImage.RecipeFrame` | patches/camera-ccd-cq/mt6878-camera-camsv-recipe.h:141-197 | every register that is not on the exact list (thirteen per tag, nineteen of the engine, eight cookies) keeps its value |
| `RegisterImage.RecipeStatus` | patches/camera-ccd-cq/mt6878-camera-camsv-recipe.h:183-186 | DONE_STATUS and the error status beside it are not on that list, so they keep their values |
| `RegisterImage.RecipeImage` | patches/camera-ccd-cq/mt6878-camera-camsv-recipe.h:141-197 | for every accepted job and every prior register file: planes, engine and cookies as described, and every register not on the exact list untouched |
| `Composer.AckFields` | patches/camera-ccd-cq/mt6878-camera-ccd-composer-session.h:84-95 | session, cookie, ACK, command, result, offset and length stand where the parser reads them, the other slots are zero |
| `Composer.CanonicalHeader` | patches/camera-composer/mt6878-camera-composer.h:186-188 | the first two words of the only frame a job may carry are the work offset and size |
| `Composer.CanonicalPlanes` | patches/camera-composer/mt6878-camera-composer.h:186-196 | the frame describes each plane in its own slot at the offsets of the ABI, and is zero everywhere else |
| `Composer.VaOverlapExact` | patches/camera-ccd-cq/mt6878-camera-ccd-composer-session.h:27-33 | for non-empty ranges the pointer test is interval intersection |
| `Composer.PreparedIsConsistent` | patches/camera-ccd-cq/mt6878-camera-ccd-composer-session.h:47-82 | a successful preparation yields a consistent session that has seen no message |
| `Composer.PrepareExact` | patches/camera-ccd-cq/mt6878-camera-ccd-composer-session.h:47-68 | preparation accepts exactly the mappings that are large, aligned, below 2^34 and separate from buffers, scratch and state |
| `Composer.DispatchKeeps` | patches/camera-ccd-cq/mt6878-camera-ccd-composer-session.h:166-240 | every message keeps the session consistent and its prepared part unchanged, never undoes a step, never replaces a latched error |
| `Composer.FlagsEarned` | patches/camera-ccd-cq/mt6878-camera-ccd-composer-session.h:173-240 | every flag is set only by its own command for this session, after those before it; CREATE only with the prepared mappings |
| `Composer.CanonicalComposes` | patches/camera-ccd-cq/mt6878-camera-ccd-composer-session.h:108-153 | a configured session with a canonical frame and a slice of at least 956 bytes cannot fail to compose |
| `Composer.ComposerSession.Prepare` | patches/camera-ccd-cq/mt6878-camera-ccd-composer-session.h:35-82 | refused with the source's code, or a fresh session over the two buffers |
| `Composer.ComposerSession.Frame` | patches/camera-ccd-cq/mt6878-camera-ccd-composer-session.h:97-160 | a frame is consumed before validation; a refused one leaves the work buffer alone, an accepted one puts the job's recipe into the named slice and changes nothing else |
| `Composer.ComposerSession.ComposeSlice` | patches/camera-ccd-cq/mt6878-camera-ccd-composer-session.h:146-153 | composition in place fills the slice with bytes that decode to the recipe, or changes nothing |
| `Composer.ComposerSession.Receive` | patches/camera-ccd-cq/mt6878-camera-ccd-composer-session.h:166-240 | one envelope: new state, result, ACK and work buffer are those of the dispatch function |
| `Composer.ComposerSession.Configure` | patches/camera-ccd-cq/mt6878-camera-ccd-composer-session.h:193-208 | CONFIG is accepted once, for inputs the recipe supports; a refusal is latched |
| `Composer.ComposerSession.ReceiveFrame` | patches/camera-ccd-cq/mt6878-camera-ccd-composer-session.h:229-240 | FRAME: an ACK carries the slice or the latched error, ESTALE stays silent |
| `Worker.CacheBracket` | patches/camera-ccd-cq/mt6878-camera-ccd-worker.c:56-111 | for every combination of ioctl failures: successful STARTs get one END each in reverse order, the work buffer changes only inside both, a FRAME ACK leaves only if all four syncs succeeded |
| `Worker.FailureSeen` | patches/camera-ccd-cq/mt6878-camera-ccd-worker.c:86-109 | no failed sync or write goes unnoticed: it is latched in the session or the step returns ESTALE |
| `Worker.NothingReceived` | patches/camera-ccd-cq/mt6878-camera-ccd-worker.c:31-45 | a closed session, a failed READ and an empty envelope leave session, log and buffer alone, each with its own result |
| `Worker.ForeignRefused` | patches/camera-ccd-cq/mt6878-camera-ccd-worker.c:63-67 | a request for another session or endpoint, or a malformed one, does nothing |
| `Worker.Reply` | patches/camera-ccd-cq/mt6878-camera-ccd-worker.c:56-111 | the step's result, session, ordered ioctls and buffer effect are those of the step function |
| `Worker.ReceiveReply` | patches/camera-ccd-cq/mt6878-camera-ccd-worker.c:31-45 | one blocking READ: a closed session, a failed or an empty READ changes nothing |
| `Gate.ReplyGate.Start` | patches/camera-composer/mt6878-camera-ccd-session.h:19-50 | each of FRAME, FLUSH and DESTROY can be started once, DESTROY only after an accepted FLUSH |
| `Gate.BeginExact` | patches/camera-composer/mt6878-camera-ccd-session.h:22-44 | exactly when each of FRAME, FLUSH and DESTROY may be started |
| `Gate.ReplyGate.Deliver` | patches/camera-composer/mt6878-camera-ccd-session.h:55-95 | a reply completes the pending command or changes nothing; destruction of the endpoint closes the gate |
| `Gate.ReplyGate.End` | patches/camera-composer/mt6878-camera-ccd-session.h:97-107 | a failed or timed-out command is consumed |
| `Gate.CaptureReply.Accept` | patches/camera-composer/mt6878-camera-composer.h:59-118 | one acceptance only; stale replies do not poison the frame, other errors are latched; the queue is the slice of the work buffer that the ACK names |
| `Gate.CaptureReply.CheckResult` | patches/camera-composer/mt6878-camera-composer.h:82-101 | command, result and the seven unused slots are checked in the source's order |
| `Gate.AckParses` | patches/camera-composer/mt6878-camera-composer.h:59-118 | the consumer reads back exactly the slice that the composer filled |
| `Gate.AckExact` | patches/camera-composer/mt6878-camera-composer.h:68-113 | the parser accepts exactly an ACK of this frame without error, all of whose result bytes but the camsv[0] slot are zero, and whose slot lies in the mapped work buffer |
| `Gate.HeaderExact` | patches/camera-composer/mt6878-camera-composer.h:34-53 | a reply header is good exactly for an ACK of this command under this cookie with result zero |
| `Gate.ComposedJobValidates` | patches/camera-camsv/mt6878-camsv-capture.h:129-162 | a job that the composer accepted passes the capture checks with that queue |
| `Gate.ComposerAndConsumerAgree` | patches/camera-ccd-cq/mt6878-camera-ccd-composer-session.h:108-160 | with a canonical frame and room for the recipe the FRAME is composed, its ACK parses to the composed slice, and the job may be submitted |
| `CcdOwner.TransportOwner.Create` | patches/camera-composer/mt6878-camera-ccd-owner.c:102-130 | CREATE is queued once, with the exact envelope; every failure after validation is latched |
| `CcdOwner.TransportOwner.Configure` | patches/camera-composer/mt6878-camera-ccd-owner.c:132-154 | CONFIG is queued once, after CREATE |
| `CcdOwner.TransportOwner.Exchange` | patches/camera-composer/mt6878-camera-ccd-owner.c:157-179 | a command is begun and sent, or consumed by a failed send |
| `CcdOwner.TransportOwner.FrameStart` | patches/camera-composer/mt6878-camera-ccd-owner.c:181-202 | one FRAME per session, inside the message buffer |
| `CcdOwner.TransportOwner.FrameFinish` | patches/camera-composer/mt6878-camera-ccd-owner.c:171-209 | success hands out the gate's stored reply; failures are latched |
| `CcdOwner.TransportOwner.DrainStart` | patches/camera-composer/mt6878-camera-ccd-owner.c:237-252 | starts FLUSH or DESTROY; a failure ends the drain with the first error |
| `CcdOwner.TransportOwner.FlushFinish` | patches/camera-composer/mt6878-camera-ccd-owner.c:246-252 | a successful FLUSH goes on to DESTROY at once; anything else ends the drain with the first error |
| `CcdOwner.TransportOwner.DestroyFinish` | patches/camera-composer/mt6878-camera-ccd-owner.c:253-261 | only a successful DESTROY clears the session, and cleanup cannot hide an earlier failure |
| `Protocol.ReceiveAttribution` | patches/camera-composer/mt6878-camera-ccd-session.h:55-95 | a truthful ACK completes exactly the pending command that it names; any other leaves the gate alone |
| `Protocol.ComposedOnce` | patches/camera-ccd-cq/mt6878-camera-ccd-composer-session.h:108-112 | nothing is composed after the frame was consumed or the session flushed or closed |
| `Protocol.AckTruthful` | patches/camera-ccd-cq/mt6878-camera-ccd-composer-session.h:216-240 | every ACK the composer writes is true: flushed, closed, or the recipe lies at the offset it names |
| `Protocol.WorkerKeeps` | patches/camera-ccd-cq/mt6878-camera-ccd-worker.c:56-111 | a worker step only advances the session, and sends only the ACK of the request it dispatched |
| `Protocol.WorkFrozen` | patches/camera-ccd-cq/mt6878-camera-ccd-composer-session.h:209-231 | once the frame is consumed or the session flushed, no step of either party changes the work buffer |
| `Protocol.StepKeeps` | patches/camera-composer/mt6878-camera-ccd-owner.c:52-262 | every step of owner, gate, channel, worker and composer keeps the joint invariant |
| `Protocol.RunInv` | patches/camera-composer/mt6878-camera-ccd-session.h:7-107 | the joint invariant holds in every state of every run |
| `Protocol.EndToEnd` | patches/camera-ccd-cq/mt6878-camera-ccd-composer-session.h:97-240 | in every run: a reply that the frame call returned and the ACK parser accepts names bytes that decode to the job's 59 recipe writes, then and in every later state |
| `Protocol.CaptureReady` | patches/camera-camsv/mt6878-camsv-capture.h:129-162 | in every run such a reply makes the job valid for submission, and executing the named queue in any later state, from any register file, leaves each plane's own layout and address, the engine, the sequence, and everything else untouched |
| `Protocol.DrainSafety` | patches/camera-composer/mt6878-camera-ccd-session.h:28-93 | in every run: an accepted FLUSH means the composer flushed, no request ever sent is composed any more and the work buffer is frozen; an accepted DESTROY means it closed |
| `Protocol.DrainComplete` | patches/camera-composer/mt6878-camera-ccd-owner.c:245-261 | in every run a drain that returns success is complete: FLUSH and DESTROY each sent once and accepted, the composer closed, the owner's session forgotten |
| `Protocol.FlushGoesOn` | patches/camera-composer/mt6878-camera-ccd-owner.c:249-252 | a FLUSH that succeeded never ends the drain with success: DESTROY is sent next |
| `Protocol.CommandsOnce` | patches/camera-composer/mt6878-camera-ccd-session.h:28-44 | in every run FRAME, FLUSH and DESTROY are sent at most once each, DESTROY only after an accepted FLUSH |
| `Protocol.Attribution` | patches/camera-composer/mt6878-camera-composer.h:34-53 | in every run a delivered ACK completes exactly the pending command and answers a request that was sent, or changes nothing |
| `OwnerHistory.RequestsOrdered` | patches/camera-composer/mt6878-camera-ccd-owner.c:102-262 | in every run the requests are CREATE, CONFIG, FRAME, FLUSH, DESTROY in that order, each at most once; the frame asked for lies in the message buffer that CREATE announced, whose IOVA is hidden |
| `OwnerHistory.FirstErrorStays` | patches/camera-composer/mt6878-camera-ccd-owner.c:95-100 | in every run the owner's first error is never replaced |
| `OwnerHistory.TurnKeepsError` | patches/camera-composer/mt6878-camera-ccd-owner.c:258-259 | a drain that ends reports the first error |
| `Lossless.LosslessCapture` | patches/camera-composer/mt6878-camera-ccd-owner.c:102-209 | when nothing is lost or fails, CREATE, CONFIG and FRAME are read, served and accepted, the frame call returns the composer's ACK, the queue it names makes the job valid for submission, and both parties are ready to drain |
| `Lossless.LosslessDrain` | patches/camera-composer/mt6878-camera-ccd-owner.c:237-262 | when nothing is lost or fails, FLUSH and then DESTROY are sent, served and accepted, the composer is closed, and the drain returns the owner's first error |
| `Lossless.SampleCapture` | patches/camera-ccd-cq/mt6878-camera-ccd-composer-session.h:35-82 | a concrete 4000 x 3000 job, configuration and mapping meet those hypotheses |
| `Bus.PollSound` | patches/camera-camsv/mt6878-camsv-capture.h:279-298 | a successful poll ends in a read with bit 1 set, within the bound; nothing but reads and delays happens |
| `Bus.PollExact` | patches/camera-camsv/mt6878-camsv-capture.h:287-297 | a read with bit 1 set ends the poll with success, any other successful read is followed by a delay, and a poll fails only with its last call's error or after all its reads |
| `Bus.IdleMeans` | patches/camera-camsv/mt6878-camsv-capture.h:291 | the idle test is bit 1 of the value |
| `Bus.MergeBits` | patches/camera-camsv/mt6878-camsv-capture.h:191 | an update keeps every bit of the word read outside the mask and has the given value under it |
| `Bus.RunGrows` | patches/camera-camsv/mt6878-camsv-capture.h:194-363 | for every backend only the last call of a plan can have failed |
| `Bus.RunTraces` | patches/camera-camsv/mt6878-camsv-capture.h:164-192 | the calls of a plan are a prefix of one fixed sequence; a masked update writes back, bit by bit, what it read, changed only under the mask |
| `Bus.RunHonest` | patches/camera-camsv/mt6878-camsv-capture.h:164-192 | the log carries the backend's own answers |
| `Bus.Backend.Do` | patches/camera-camsv/mt6878-camsv-capture.h:70-97 | one call: answered as the backend pleases, and recorded |
| `Transaction.SubmitOrder` | patches/camera-camsv/mt6878-camsv-capture.h:212-248 | no register is touched before five successful checks; START is written only after the size and both halves of this job's queue address |
| `Transaction.SubmitTrace` | patches/camera-camsv/mt6878-camsv-capture.h:194-253 | for every backend a submission makes a prefix of its 28 calls up to the first failure; it counts as a hardware attempt exactly if the five checks passed, and as submitted only after all calls |
| `Transaction.WillingSubmit` | patches/camera-camsv/mt6878-camsv-capture.h:194-253 | against a backend that answers well every valid submission succeeds after its 28 calls |
| `Transaction.StopQuiesced` | patches/camera-camsv/mt6878-camsv-capture.h:300-363 | a stop succeeds only if every one of its calls was made in order and succeeded: both idle bits seen within the poll bound after their resets, the core reset and the enables toggled between, the clamp released last |
| `Transaction.StopTrace` | patches/camera-camsv/mt6878-camsv-capture.h:300-363 | for every backend the calls of a stop are those of its seven stages in order, up to the first failure; quiesced exactly if none failed; a refused stop makes no call |
| `Transaction.WillingStop` | patches/camera-camsv/mt6878-camsv-capture.h:300-363 | against a backend that answers well and is idle the first stop quiesces the hardware and reports the earlier error |
| `Transaction.FlagMeans` | patches/camera-camsv/mt6878-camsv-capture.h:268-269 | group g is reported by bit 16 + g of the status |
| `Transaction.CaptureTransaction.Write` | patches/camera-camsv/mt6878-camsv-capture.h:164-175 | an access outside its bank is refused without a call |
| `Transaction.CaptureTransaction.Update` | patches/camera-camsv/mt6878-camsv-capture.h:177-192 | read, change under the mask, write back; a failed read writes nothing |
| `Transaction.CaptureTransaction.PollIdle` | patches/camera-camsv/mt6878-camsv-capture.h:279-298 | at most 100000 reads, then ETIMEDOUT |
| `Transaction.CaptureTransaction.CheckOwners` | patches/camera-camsv/mt6878-camsv-capture.h:212-216 | the five owners are verified in order, none after a failing one |
| `Transaction.CaptureTransaction.Submit` | patches/camera-camsv/mt6878-camsv-capture.h:194-253 | state, result and backend log are those of the submission function, for every backend |
| `Transaction.CaptureTransaction.Done` | patches/camera-camsv/mt6878-camsv-capture.h:259-277 | only the tags of flagged groups are completed, under the submitted sequence, and 1 is returned exactly when both tags are |
| `Transaction.CaptureTransaction.Stop` | patches/camera-camsv/mt6878-camsv-capture.h:300-363 | state, result and backend log are those of the stop plan; a stop after an error can still quiesce, and reports that error |
| `Vb2.CompleteReported` | patches/camera-camsv/mt6878-camsv-capture.h:259-277 | a tag is complete only if an interrupt of the run, after submission and under its sequence, flagged a group with that tag |
| `Vb2.StepKeeps` | patches/camera-camsv/mt6878-camsv-vb2.c:117-204 | every call keeps the ownership invariant, the first error, the pinned buffers and whatever was given back |
| `Vb2.BufferOwnership` | patches/camera-camsv/mt6878-camsv-vb2.c:117-204 | in every run with every backend: each buffer is given back at most once, both together; DONE only after both tags were reported, ERROR only after a quiesced stop, otherwise pinned once hardware was attempted; and the hardware was given each plane's own buffer |
| `Vb2.CompletionDelivered` | patches/camera-camsv/mt6878-camsv-vb2.c:159-184 | in every run without a stop, once interrupts under the submitted sequence reported both tags, both buffers have been given back as DONE |
| `Vb2.WillingPair` | patches/camera-camsv/mt6878-camsv-vb2.c:117-157 | a usable pair whose own sizes fit is submitted and pinned, with each buffer's own address and size, by a backend that answers well |
| `Vb2.WillingRelease` | patches/camera-camsv/mt6878-camsv-vb2.c:186-204 | a stop against a willing and idle backend gives back what was not given back before |
| `Vb2.SubmitGuarded` | patches/camera-camsv/mt6878-camsv-vb2.c:125-142 | a submission changes anything only for distinct active buffers of two queues on the owning device in the verified domain |
| `Vb2.DoneOnce` | patches/camera-camsv/mt6878-camsv-capture.h:273-276 | completion is not reported a second time |
| `Vb2.BufferPair.Submit` | patches/camera-camsv/mt6878-camsv-vb2.c:117-157 | state, result and backend log are those of the submission: RAW is mapped for RAW and PDAF for PDAF, and buffers are kept exactly if hardware may have been touched |
| `Vb2.BufferPair.Done` | patches/camera-camsv/mt6878-camsv-vb2.c:159-184 | both buffers are completed with sequence, timestamp and payload, or none |
| `Vb2.BufferPair.Stop` | patches/camera-camsv/mt6878-camsv-vb2.c:186-204 | buffers come back as failed only from a quiesced stop, and only if not given back before |
| `WorkerOwner.RegisteredWorker.Register` | patches/camera-ccd-bus/ccd-worker-owner.c:13-44 | one attempt only: any failure is terminal |
| `WorkerOwner.RegisteredWorker.Step` | patches/camera-ccd-bus/ccd-worker-owner.c:46-132 | retirement is queried before anything else; state, result and acts are those of the step function |
| `WorkerOwner.RegisteredWorker.Receive` | patches/camera-ccd-bus/ccd-worker-owner.c:81-101 | a session error, or any result but success, ETIMEDOUT, EINTR and ESHUTDOWN, is recorded as a failed composition |
| `WorkerOwner.RegisteredWorker.Retire` | patches/camera-ccd-bus/ccd-worker-owner.c:104-125 | only a genuine ticket without any composition failure is acknowledged, after the session was closed to dispatch |
| `WorkerOwner.MappedWorker.Release` | patches/camera-ccd-bus/ccd-mapped-worker.c:16-72 | both unmaps are tried, fds are closed only after both succeeded, never twice |
| `WorkerOwner.MappedWorker.Prepare` | patches/camera-ccd-bus/ccd-mapped-worker.c:74-143 | fds are taken only after validation, and every later failure is unwound |
| `WorkerOwner.ReleaseSafety` | patches/camera-ccd-bus/ccd-mapped-worker.c:16-143 | the acts of every run of prepare, register, step and release obey the auditor's rules on tickets, receive results, fd numbers and mapping lengths, and the owner's fields agree with the acts |
| `WorkerOwner.BooksMean` | patches/camera-ccd-bus/ccd-mapped-worker.c:16-143 | everything the auditor knows is a fact about the acts: registration tried and as what, retirement acknowledged, receive failed, which fd each side holds, which mapping is still there |
| `WorkerOwner.ReleaseRules` | patches/camera-ccd-bus/ccd-mapped-worker.c:22-25 | in every run nothing is unmapped or closed after a registration attempt unless the ticket the kernel just offered for that registration was acknowledged, nor after any receive that recorded a failure; a mapping is removed at the length it was made; fds are closed at most as often as taken |
| `WorkerOwner.CloseRules` | patches/camera-ccd-bus/ccd-mapped-worker.c:47-70 | in every run a close names the fd taken for its side and not closed since, a take stands between any two closes of one side, and every mapping made before was successfully removed |
| `WorkerOwner.NothingLeft` | patches/camera-ccd-bus/ccd-mapped-worker.c:26-71 | in every run a release that returns success has removed every mapping and closed every fd ever taken |
| `WorkerOwner.FirstCleanup` | patches/camera-ccd-bus/ccd-mapped-worker.c:10-71 | in every run the cleanup error is the code of the first unmap or close that ever failed |
| `WorkerOwner.FirstErrorsStay` | patches/camera-ccd-bus/ccd-worker-owner.c:29-130 | no call replaces the first error of the registration or of the mappings |
| `WorkerOwner.IdlingIsHarmless` | patches/camera-ccd-bus/ccd-worker-owner.c:65-130 | any number of steps that are woken without an envelope, or follow a clean closure, change nothing: the genuine ticket still retires the worker and release is not refused |
| `WorkerOwner.LosslessLife` | patches/camera-ccd-bus/ccd-mapped-worker.c:16-143 | without failures preparation, registration, retirement and release succeed, and release removes exactly those mappings and closes exactly those fds |
| `WorkerOwner.PrepareGuarded` | patches/camera-ccd-bus/ccd-mapped-worker.c:84-103 | files are touched only for a free owner, with distinct fds of distinct files that are long enough |
| `WorkerOwner.ReleaseGuarded` | patches/camera-ccd-bus/ccd-mapped-worker.c:22-24 | release does anything only outside a step, without failures, unregistered or retired |
| `GnssFrames.ReplaceEscapes` | scripts/check-gnss-boot-protocol.py:27 | the two replacements in that order escape each byte on its own |
| `GnssFrames.BootFrameDecoder.Feed` | scripts/check-gnss-boot-protocol.py:42-80 | frames, fault and new state are those of taking the chunk byte by byte; a failed decoder stays failed |
| `GnssFrames.BootFrameDecoder.TakeByte` | scripts/check-gnss-boot-protocol.py:48-79 | one byte of the state machine, including the overflow check after it |
| `GnssFrames.ChunksIrrelevant` | scripts/check-gnss-boot-protocol.py:42-80 | feeding chunks within bounds is feeding their concatenation |
| `GnssFrames.TakeFrame` | scripts/check-gnss-boot-protocol.py:20-28 | a decoder between frames, even after a stray mark, reads one encoded frame and emits exactly its body |
| `GnssFrames.FramingRoundTrip` | scripts/check-gnss-boot-protocol.py:20-80 | any frames with noise that never starts one, cut into any chunks of at most 512 bytes, decode to exactly their bodies in order without failing |
| `GnssFrames.DecoderSound` | scripts/check-gnss-boot-protocol.py:42-80 | whatever is accepted, in any chunks, is quiet noise and proper frames whose bodies of 7 to 508 bytes are exactly what was emitted, then an unfinished end |
| `GnssFrames.EscapeIs` | scripts/check-gnss-boot-protocol.py:27 | AA travels as DE DF, DE as DE E0, every other byte as itself |
| `GnssFrames.KnownRequest` | scripts/check-gnss-boot-protocol.py:163-167 | the vendor's version request has the known bytes |
| `GnssBoot.EncodedDecodes` | scripts/check-gnss-boot-protocol.py:96-111 | every encoded body decodes: FE31 with ten bytes and FE32 with two as acknowledgements, other sizes of those as errors, other commands as none |
| `GnssBoot.DecodeExact` | scripts/check-gnss-boot-protocol.py:96-111 | exactly which bodies are accepted |
| `GnssBoot.CorruptionRejected` | scripts/check-gnss-boot-protocol.py:96-111 | changing any one byte of any well-formed body makes it rejected |
| `GnssBoot.CorruptionHolds` | scripts/check-gnss-boot-protocol.py:128-146 | such a body leaves the exchange where it was |
| `GnssBoot.BootExchange.Create` | scripts/check-gnss-boot-protocol.py:115-121 | a count outside 1..256 is refused |
| `GnssBoot.BootExchange.MarkSubmitted` | scripts/check-gnss-boot-protocol.py:123-126 | one outstanding request, none after completion |
| `GnssBoot.BootExchange.Accept` | scripts/check-gnss-boot-protocol.py:128-146 | advances exactly on the pending request's acknowledgement; a malformed body raises and changes nothing |
| `GnssBoot.FragmentOffered` | scripts/check-gnss-boot-protocol.py:148-151 | in every run the driver is offered fragment k exactly when k + 1 requests are acknowledged, none is outstanding and the image has such a fragment; those submitted before are 0, ..., k - 1 |
| `GnssBoot.ExchangeRuns` | scripts/check-gnss-boot-protocol.py:114-151 | in every run the k-th accepted acknowledgement is that of request k, each with its own submission; fragments are offered in the order 0, 1, ...; complete exactly after count + 1 of them |
| `GnssBoot.LosslessBoot` | scripts/check-gnss-boot-protocol.py:196-205 | a dialogue without losses goes through every request, offers every fragment, and completes |
| `Crc32.Piecewise` | scripts/inspect_ci_sparse.py:65 | continuing the checksum of a prefix over the rest gives the CRC-32 of the whole, as in section 8 of RFC 1952 |
| `Crc32.CrcIsRemainder` | scripts/inspect_ci_sparse.py:65 | the checksum is the bit-serial remainder by the CRC-32 polynomial, started from and complemented with all ones |
| `Crc32.TableDivides` | scripts/inspect_ci_sparse.py:65 | each table step divides by the polynomial over the eight bits of its byte |
| `Sparse.ChunkThere` | scripts/inspect_ci_sparse.py:37-60 | a parsed chunk is the one laid out there |
| `Sparse.ChunkParsed` | scripts/inspect_ci_sparse.py:37-60 | a chunk laid out is parsed as itself |
| `Sparse.ParsedIsWellFormed` | scripts/inspect_ci_sparse.py:28-75 | whatever is accepted is byte for byte the layout of a well-formed image |
| `Sparse.WellFormedParses` | scripts/inspect_ci_sparse.py:28-75 | every well-formed image within the bound is accepted and read back as itself |
| `Sparse.HeaderIs` | scripts/inspect_ci_sparse.py:28-31 | the fixed bytes of the header |
| `Sparse.ChunkTypes` | scripts/inspect_ci_sparse.py:41-60 | the type bytes of the four kinds of chunk |
| `SparseExpand.Source.ReadExactly` | scripts/inspect_ci_sparse.py:18-26 | short reads are collected, all bytes reach the digest, and only a truncated stream fails |
| `SparseExpand.Target.Write` | scripts/inspect_ci_sparse.py:68-69 | a full write appends its bytes after any hole; a short one is noticed |
| `SparseExpand.Target.Seek` | scripts/inspect_ci_sparse.py:66-67 | skipped bytes read as zeros |
| `SparseExpand.Copy` | scripts/inspect_ci_sparse.py:61-70 | copying in pieces of at most 1 MiB appends the whole data and continues the checksum over it |
| `SparseExpand.ExpandChunk` | scripts/inspect_ci_sparse.py:37-71 | a chunk is expanded to its meaning exactly if it is valid here and no write was short |
| `SparseExpand.ExpandChunks` | scripts/inspect_ci_sparse.py:34-71 | after all chunks the file shows the concatenation of their meanings and the running checksum is its CRC-32 |
| `SparseExpand.Expand` | scripts/inspect_ci_sparse.py:15-80 | accepts exactly the well-formed images with the expected digest (unless a write was short); the output is blocks x 4096 bytes, the concatenation of the chunks' meanings, with its CRC-32 in the summary |

## Left out

- Null-pointer checks: values and objects of the model exist, except where a missing value is meaningful (a destroyed endpoint, absent video buffers).
- Locks, interrupt context and real time: each locked region is one atomic step, a timeout is a choice that a waiting step may make at any moment.
- CcdOwner.TransportOwner.Exchange: begin, the closed test of `ccd_send` and the send are three separate regions in the source and one step here; a hangup that falls between them is the same as one right after a failed send, and no reply can match before its request is sent.
- Endpoint identity (`mt6878_camera_ccd_bind`, the source filter of `mt6878_camera_ccd_rx`): replies in the model come from the bound endpoint; hangups may come at any time.
- `mt6878_camera_ccd_capture` and the capture owner above it: only the parts they call are modelled.
- Reuse of an endpoint by a second session: one fresh session per run, as the source demands of its callers.
- Protocol.Run: worker retirement, which closes a session without FLUSH, is modelled in `WorkerOwner` and not interleaved with the kernel's messages.
- Request payloads: the union behind the command byte is a record with one field per view, since each command reads one view; frame messages and ACKs are bytes.
- The scratch frame: the canonical frame is a value of 92291 bytes instead of a buffer filled in place; that it cannot overlap the incoming one is the placement test of preparation.
- The overlap of request, reply and session in `mt6878_ccd_composer_dispatch`: the model's objects are distinct.
- Composer.ComposerSession: a preparation creates a new object where the source clears and refills the caller's structure.
- Vb2.BufferPair: a video buffer is a description with an identity, and completion is recorded in a list, so the fields that vb2 itself updates later are not modelled.
- Transaction.CaptureTransaction: the straight-line chains of submit and stop are cut into short methods, and a failing barrier, check or clamp is latched at once instead of at the end of its chain, with the same outcome.
- WorkerOwner.MappedWorker: virtual addresses appear only in the placement test; the session is a value here, and its effect on the work buffer is that of `Worker.Reply`.
- `mt6878_camsv_get_resources` and other probing: device-model calls without visible semantics.
- GNSS: exception texts are reduced to one case per message, and `ack_body` (a helper of the tests) is covered by the encoder's body.
- SHA-256: an arbitrary function of the bytes.  Exceptions raised by the stream or the file, and the ZIP and command-line wrapping around `expand`, are not modelled.
- CI staging, packaging, device-tree and live-check scripts: file handling and subprocesses.
- IMX882 stream control and the sensor-proxy ABI: correct but simple, they would add only easy members.
