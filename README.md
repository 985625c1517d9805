# PISS screenshot scheduler: a Dafny model

PISS takes two kinds of screenshots in VR on a wall-clock schedule:

- one at the start of every hour (the hourly cadence);
- one at a pseudo-random instant inside every hour (the random cadence).

The random instant is derived from the hour index alone with the ChaCha20
block function (RFC 8439). The same hour therefore always gets the same
instant, between XX:05:00 and XX:54:59.

This project models the three parts of `PISS.c` that decide when a
screenshot is taken, and proves properties of them.

- `chacha20.dfy`, module `ChaCha20`: the `ROTL`/`QR` macros and `chacha_block`.
  - Pure functions give the specification: `QuarterRound`, `QuarterRoundAt`, column and diagonal rounds, `DoubleRounds`, `AddStates` and `Block`.
  - The source's imperative routine works on arrays: a copy loop, a ten-iteration round loop updating a local array in place, and a feed-forward loop.
  - That routine is the method `ChaChaBlock`, built from `CopyState`, `RoundsInPlace` and `FeedForward` and proved equal to `Block`.
- `vectors.dfy`, module `ChaChaVectors`: the block function agrees with RFC 8439.
  - It checks the test vectors of sections 2.1.1 (quarter round), 2.2.1 (quarter round on a state) and 2.3.2 (full block).
  - The 2.3.2 block is proved one quarter round at a time through the 80 intermediate states.
- `timegen.dfy`, module `TimeGen`: `PRNGTimeGen`.
  - `PrngTime` is the specification.
  - The method `PrngTimeGen` follows the source: it fills the input array, calls `ChaChaBlock` and turns word 0 into an instant.
- `scheduler.dfy`, module `Scheduler`: the polling loop of `main`.
  - `Step` is the specification of one pass, and `Events`/`Run` the specification of a sequence of passes.
  - The class `Scheduler` holds the loop variables `sshour` and `PRNGTime`.
  - Its constructor is the start-up code before the loop, and `Poll(now)` is one pass, returning whether the hourly and the random cadence fired.
  - `PollAll` runs the loop over a sequence of clock readings.

Clock readings are parameters. `time(NULL)`, `gmtime` and `Sleep` are not
modelled, and neither is the screenshot capture itself.

The configuration flags `takehourlyscreenshot` and `takerandomscreenshot`
only decide whether a capture is taken. The state changes happen either
way. So a pass returns which cadences fired, independent of the flags.

Three consequences of the code are worth stating up front:

- A single pass never fires both cadences (`StepFacts`): a re-armed target is always strictly after `now`.
- A backward clock jump into a different hour fires the hourly cadence again, because PISS.c:272 compares with `!=` (`HourlyIffNewHour` holds for any sequence of readings).
- When the hour's instant has already passed, `PRNGTimeGen` returns the start of the same hour one day later (PISS.c:184), although the comment above it (PISS.c:143) speaks of a "max value".

## Model

| member | source | states |
|---|---|---|
| ChaCha20.Rotl | PISS.c:103 | the `ROTL` macro on a 32-bit word for a shift of 1 to 31; its contract is the lemma `RotlInverse`, and its values at 16, 12, 8 and 7 are fixed by the RFC 8439 vectors |
| ChaCha20.QuarterRound | PISS.c:104-108 | the twelve add-xor-rotate steps of `QR` in the source's order; its values are fixed by `ChaChaVectors.QuarterRoundVector` and `ChaChaVectors.QuarterRoundAtVector` |
| ChaCha20.RotlInverse | PISS.c:103 | `ROTL` by `n` followed by `ROTL` by `32 - n` gives back the original word, so the macro is a rotation that loses no bit |
| ChaCha20.QuarterRoundAt | PISS.c:104-108 | `QR` on four distinct words of a 16-word state yields a 16-word state in which every other word is unchanged |
| ChaCha20.QuarterRoundInPlace | PISS.c:104-108 | the macro applied to `x[a], x[b], x[c], x[d]` in place leaves the array equal to `QuarterRoundAt` of its old contents |
| ChaCha20.ColumnRoundInPlace | PISS.c:121-125 | the four column calls (0,4,8,12) … (3,7,11,15) compute the column round: column `j` is words j, j+4, j+8, j+12, left to right |
| ChaCha20.DiagonalRoundInPlace | PISS.c:126-130 | the four diagonal calls (0,5,10,15), (1,6,11,12), (2,7,8,13), (3,4,9,14) compute the diagonal round: diagonal `j` starts at word j and moves one column right per row, cyclically |
| ChaCha20.DoubleRoundInPlace | PISS.c:120-131 | one loop iteration is a column round followed by a diagonal round |
| ChaCha20.CopyState | PISS.c:114-118 | the local array `x` is a fresh array holding exactly the words of `in` |
| ChaCha20.RoundsInPlace | PISS.c:119-131 | the loop `for (i = 0; i < ROUNDS; i += 2)` applies exactly ROUNDS / 2 = 10 double rounds to `x` |
| ChaCha20.FeedForward | PISS.c:132-133 | `out[i] = x[i] + in[i]` modulo 2^32 for all 16 words, also when `out` is `in` |
| ChaCha20.ChaChaBlock | PISS.c:111-134 | `out` receives `Block` of the old `in`, and `in` is unchanged unless it is `out` itself |
| ChaCha20.Block | PISS.c:111-134 | the block of a 16-word state is a 16-word state; its words are fixed by `ChaChaVectors.BlockVector` and `ChaCha20.ChaChaBlock` |
| ChaChaVectors.QuarterRoundVector | PISS.c:104-108 | the quarter round maps the RFC 8439 section 2.1.1 input to its published output |
| ChaChaVectors.QuarterRoundAtVector | PISS.c:104-108 | `QR(2, 7, 8, 13)` on the RFC 8439 section 2.2.1 state gives the published state |
| ChaChaVectors.RoundsVector | PISS.c:119-131 | the twenty rounds take the RFC 8439 section 2.3.2 input state to the published state after 20 rounds |
| ChaChaVectors.FeedForwardVector | PISS.c:132-133 | adding the input back to that state gives the published section 2.3.2 output |
| ChaChaVectors.BlockVector | PISS.c:111-134 | the block function maps the RFC 8439 section 2.3.2 input state to the published output state |
| TimeGen.HourIndex | PISS.c:171 | `currentTime / 3600` is the hour `h` with `h * 3600 <= t < h * 3600 + 3600` |
| TimeGen.HighWord | PISS.c:172 | `(hours & 0xFFFFFFFF00000000) >> 32` is the quotient of the 64-bit hour index by 2^32 |
| TimeGen.LowWord | PISS.c:173 | `hours & 0xFFFFFFFF` is the remainder of the 64-bit hour index modulo 2^32 |
| TimeGen.SeedState | PISS.c:150-173 | the input state `chachainit` has 16 words |
| TimeGen.SeedStateLayout | PISS.c:152-173 | words 0-3 are "expand 32-byte k", words 4-13 are zero, and words 14 (high) and 15 (low) rejoin to the 64-bit hour index, so equal input states mean equal hour indices |
| TimeGen.Offset | PISS.c:177-178 | `(chachaout[0] % 3000) + 300` lies in [300, 3299] |
| TimeGen.CandidateInHour | PISS.c:176-179 | `hoursSinceEpoch * 3600 + addedSeconds` lies between XX:05:00 and XX:54:59 of the current hour |
| TimeGen.CandidateSameHour | PISS.c:169-179 | two readings in the same hour get the same candidate instant |
| TimeGen.HourStart | PISS.c:179 | `hoursSinceEpoch * 3600` is the multiple of 3600 at or below `t`, less than an hour before it |
| TimeGen.RandomWord | PISS.c:174-175 | `chachaout[0]` for the hour of `t`; its contract is the lemma `TimeGen.BlockWord`, and it depends only on the hour (`TimeGen.CandidateSameHour`) |
| TimeGen.Candidate | PISS.c:176-179 | the candidate instant lies between the hour's start plus 300 and the hour's start plus 3299 |
| TimeGen.PrngTime | PISS.c:171-186 | the returned instant is strictly after `currentTime` and at most a day later |
| TimeGen.PrngTimeInFuture | PISS.c:179-186 | the result is strictly after `currentTime` and at most a day later; it is the candidate exactly when the candidate is after `currentTime`, and otherwise the hour's start plus 86400 |
| TimeGen.PrngTimeStable | PISS.c:179-186 | calling again later in the same hour, before the returned instant, returns the same instant |
| TimeGen.NewSeedArray | PISS.c:150-173 | the filled array `chachainit` holds `SeedState` of the hour index |
| TimeGen.BlockWord | PISS.c:174-175 | `chachaout[0]` after `chacha_block` is word 0 of `Block(SeedState(hours))` |
| TimeGen.PrngTimeGen | PISS.c:147-187 | the routine returns `PrngTime(currentTime)` |
| Scheduler.DisarmTarget | PISS.c:297 | the disarm target computed without wrap-around, the hour's start plus a day, is at or past the end of the hour |
| Scheduler.Start | PISS.c:250-255 | start-up sets `sshour` to the hour index of `now` and arms a target strictly after `now` |
| Scheduler.Pass | PISS.c:266-297 | a pass with a given disarm target fires hourly exactly when `now / 3600 != sshour`, then holds the current hour; a rollover re-arms as at start-up and does not fire random |
| Scheduler.Step | PISS.c:266-297 | one pass of the loop with the corrected disarm target `DisarmTarget` (not the 32-bit product of PISS.c:297): the armed target stays after `now`, and after a random fire it is past the end of the hour |
| Scheduler.Run | PISS.c:262-304 | after a non-empty sequence of passes, `sshour` is the hour of the last reading and the armed target is after it |
| Scheduler.Events | PISS.c:262-304 | the loop reports one pair of fired flags per pass |
| Scheduler.StepFacts | PISS.c:268-297 | a pass fires hourly exactly when `now / 3600 != sshour`; afterwards `sshour` is the current hour and the armed target is in the future; the two cadences never fire on the same pass; a rollover pass fires hourly alone and leaves the start-up state `Start(now)` |
| Scheduler.StepSameHour | PISS.c:272-297 | in the hour already handled, a pass fires random exactly when `now >= PRNGTime`; a fire disarms the target to the hour's start plus a day, past the hour's end; no fire leaves the state unchanged |
| Scheduler.HourlyIffNewHour | PISS.c:266-284 | over any sequence of readings, hourly fires on a pass exactly when its hour differs from the previous reading's hour (for the first pass, from `sshour`) |
| Scheduler.HourlyAtMostOncePerHour | PISS.c:266-284 | with a non-decreasing clock, no pass after the first one of an hour fires hourly |
| Scheduler.QuietRestOfHour | PISS.c:286-297 | once the target is at or past the end of the handled hour, with the clock non-decreasing and not before that hour, no pass in that hour fires anything |
| Scheduler.RandomAtMostOncePerHour | PISS.c:286-297 | with a non-decreasing clock, no two passes in the same hour both fire random |
| Scheduler.FirstReach | PISS.c:272-297 | within the handled hour, random fires exactly on the first pass at or after the armed target, and hourly never fires |
| Scheduler.RolloverHour | PISS.c:266-297 | the first pass of a new hour fires hourly alone; later passes of that hour never fire hourly, and fire random exactly on the first one reaching the hour's instant, if that instant was still ahead at the rollover |
| Scheduler.StartTarget | PISS.c:250-255 | the target armed at start-up is reached by a later reading in the same hour exactly when the hour's instant was still ahead at start-up and has now been reached |
| Scheduler.StartHour | PISS.c:247-297 | after start-up, passes in the start hour never fire hourly, and fire random exactly on the first pass reaching the hour's instant if it was still ahead at start-up, otherwise never |
| Scheduler.Int32Wrap | PISS.c:297 | the two's-complement wrap of a product to a 32-bit `int` lies in the `int` range, is congruent to the product modulo 2^32, and is the product itself when that fits |
| Scheduler.DisarmTargetAsWritten | PISS.c:297 | the disarm target as written is congruent modulo 2^32 to the corrected one, and equal to it up to hour 596523 |
| Scheduler.StepAsWritten | PISS.c:266-297 | the pass as written fires as the corrected pass does and holds the same hour; only the disarmed target can differ, and then by a multiple of 2^32 |
| Scheduler.StepAsWrittenAgrees | PISS.c:297 | up to hour 596523, the pass with the wrapped disarm target is the corrected pass |
| Scheduler.RandomRefiresAsWritten | PISS.c:297 | in hour 596524, the pass as written leaves a negative target after a random fire, so the next pass of the hour fires random again; the corrected pass does not |
| Scheduler.Scheduler.constructor | PISS.c:247-255 | start-up sets `sshour` to `now / 3600` and `PRNGTime` to `PRNGTimeGen(now)` |
| Scheduler.Scheduler.Poll | PISS.c:266-297 | one pass updates `sshour` and `PRNGTime` as `Step` does and returns the fired flags of `Step`, with the corrected disarm target |
| Scheduler.Scheduler.PollAll | PISS.c:262-304 | the loop over a sequence of readings ends in state `Run` and reports `Events`, with the corrected disarm target |

## Left out

- Capture and I/O: `takescreenshot`, OpenVR initialisation, manifest registration, executable-path discovery and `printf`. These are foreign runtime calls and file-system work; a capture is modelled as a fired flag.
- `time(NULL)`, `gmtime` and `Sleep(500)`: the clock is a parameter of `Poll`, and the delay between passes has no effect on the state.
- The configuration flags: they gate only the capture, not the state changes.
- Clock range: readings are non-negative and at least a day below the largest `time_t` (`ValidTime`). Negative `time_t` values are outside the model.
- Scheduler.Scheduler.Poll: `hoursSinceEpoch` and `sshour` are C `int` in `main`, and the model does not truncate them. The hour index only stops fitting in an `int` some 245,000 years after 1970.
- Scheduler.Scheduler.Poll: the disarm target of PISS.c:297 is taken without the 32-bit wrap of `hoursSinceEpoch * 3600`. From hour 596524 `Poll` is the corrected pass; `StepAsWritten` is the pass as written (see Findings).
- Scheduler.Scheduler.PollAll: like `Poll`, it uses the corrected disarm target, so from hour 596524 it follows `Step` and not `StepAsWritten`.
- Structure of `chacha_block`: the three loops of `chacha_block` are split into the methods `CopyState`, `RoundsInPlace` and `FeedForward`. Each loop iteration of the round loop calls the eight quarter rounds through `DoubleRoundInPlace`.
- Filling `chachainit`: the sixteen separate stores into `chachainit` are written as one array initialisation with the same values.
- Width of `addedSeconds`: it is computed on unbounded integers. The `uint32_t` sum is at most 3299 and cannot wrap, so nothing is lost.
- Invertibility of the quarter round: that `QuarterRound` is a permutation of four words is not proved. Only the inverse of `ROTL` is.
- The RFC 8439 appendix A.1 keystream vector, which is the input state of hour 0, is not checked. It would need another 80-step chain like section 2.3.2.

## Findings

| source | as written | input that shows it | evidently intended | confidence | as-written member | corrected member |
|---|---|---|---|---|---|---|
| PISS.c:297 | `(time_t)(hoursSinceEpoch * 3600) + (3600 * 24)` multiplies two `int`s before widening. From hour 596524 (2038-01-19 04:00 UTC) the product exceeds 2^31 - 1 and wraps negative on two's-complement targets (signed overflow is undefined in C), leaving a target in the past | a state in hour 596524 whose target has been reached at `now1`, then a second pass `now2` in the same hour, `now2 >= now1`: both passes fire random, because the disarm target is -2147394496 | the product computed in 64 bits (`uint64_t`), as `PRNGTimeGen` does at PISS.c:184, so the target is the hour's start plus a day and random fires at most once per hour | high (not executed) | Scheduler.RandomRefiresAsWritten | Scheduler.RandomAtMostOncePerHour |
