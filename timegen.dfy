/*
 * PRNGTimeGen (PISS.c): the instant of the hour's "random" screenshot.
 *
 * The hour index `currentTime / 3600` is written into the last two words
 * of an otherwise fixed ChaCha20 input state (the "expand 32-byte k"
 * constants, an all-zero key, counter and nonce). The first word of the
 * block is reduced to an offset of 300 to 3299 seconds into the hour. If
 * that instant has already passed, the target is pushed to the same hour
 * of the next day instead, so the result always lies in the future.
 *
 * PrngTime is the specification; PrngTimeGen is the routine of the
 * source, filling the input array and calling ChaChaBlock.
 */
module TimeGen {
  import opened ChaCha20

  const SECONDS_PER_HOUR := 3600
  /** `3600 * 24`: how far a passed or spent target is pushed. */
  const SECONDS_PER_DAY := 86400
  /** The block word is taken modulo this many seconds ... */
  const OFFSET_SPAN := 3000
  /** ... and this many seconds (five minutes) are added to it. */
  const OFFSET_BASE := 300
  /** `time_t` is a signed 64-bit count of seconds since the Unix epoch. */
  const TIME_MAX := 0x7FFF_FFFF_FFFF_FFFF

  /**
   * The clock readings the scheduler works with: non-negative `time_t`
   * values at least a day below the largest one, so that every instant the
   * scheduler computes (at most one day ahead) is a `time_t` too.
   */
  predicate ValidTime(t: int) {
    0 <= t && t + SECONDS_PER_DAY <= TIME_MAX
  }

  /** `currentTime / 3600`: whole hours since the epoch (truncation is floor for `t >= 0`). */
  function HourIndex(t: int): (h: nat)
    requires ValidTime(t)
    ensures h * SECONDS_PER_HOUR <= t < h * SECONDS_PER_HOUR + SECONDS_PER_HOUR
  {
    t / SECONDS_PER_HOUR
  }

  /** The first second of the hour containing `t`. */
  function HourStart(t: int): (r: int)
    requires ValidTime(t)
    ensures r <= t < r + SECONDS_PER_HOUR && r % SECONDS_PER_HOUR == 0
  {
    HourIndex(t) * SECONDS_PER_HOUR
  }

  /** Words 0-3 of the input state: "expand 32-byte k" as four little-endian words. */
  const SIGMA: seq<Word> := [0x61707865, 0x3320646e, 0x79622d32, 0x6b206574]

  /** `(hoursSinceEpoch & 0xFFFFFFFF00000000) >> 32`: the high half of the hour index. */
  function HighWord(h: bv64): (r: Word)
    ensures r as bv64 == h / 0x1_0000_0000
  {
    ((h & 0xFFFF_FFFF_0000_0000) >> 32) as Word
  }

  /** `hoursSinceEpoch & 0xFFFFFFFF`: the low half of the hour index. */
  function LowWord(h: bv64): (r: Word)
    ensures r as bv64 == h % 0x1_0000_0000
  {
    (h & 0xFFFF_FFFF) as Word
  }

  /** The 64-bit value whose high and low halves are `hi` and `lo`. */
  function JoinWords(hi: Word, lo: Word): bv64 {
    ((hi as bv64) << 32) | (lo as bv64)
  }

  /** The largest hour index plus one: `hoursSinceEpoch` is a `uint64_t`. */
  const HOUR_LIMIT := 0x1_0000_0000_0000_0000

  /**
   * The input state `chachainit` for hour index `hours`, which the source
   * holds in the `uint64_t` `hoursSinceEpoch`.
   */
  function SeedState(hours: nat): (s: seq<Word>)
    requires hours < HOUR_LIMIT
    ensures IsState(s)
  {
    var h := hours as bv64;
    [ SIGMA[0], SIGMA[1], SIGMA[2], SIGMA[3],
      0, 0, 0, 0, 0, 0, 0, 0,    // key
      0,                         // counter
      0,                         // nonce
      HighWord(h), LowWord(h) ]
  }

  /**
   * The layout of the input state: the constants, ten zero words, and the
   * hour index split into words 14 (high) and 15 (low), which put back
   * together give the hour index again. So two hours get equal input
   * states exactly when their indices are equal.
   */
  lemma SeedStateLayout(hours: nat)
    requires hours < HOUR_LIMIT
    ensures SeedState(hours)[..4] == SIGMA
    ensures forall i :: 4 <= i < 14 ==> SeedState(hours)[i] == 0
    ensures JoinWords(SeedState(hours)[14], SeedState(hours)[15]) == hours as bv64
  {
  }

  /** `chachaout[0]`: the first word of the block for the hour of `t`. */
  function RandomWord(t: int): (w: Word)
    requires ValidTime(t)
  {
    Block(SeedState(HourIndex(t)))[0]
  }

  /**
   * `addedSeconds = (chachaout[0] % 3000) + 300`. The sum is at most 3299,
   * so the `uint32_t` arithmetic never wraps.
   */
  function Offset(w: Word): (r: int)
    ensures OFFSET_BASE <= r < OFFSET_BASE + OFFSET_SPAN
  {
    (w as int) % OFFSET_SPAN + OFFSET_BASE
  }

  /** `hoursSinceEpoch * 3600 + addedSeconds`: the hour's random instant. */
  function Candidate(t: int): (r: int)
    requires ValidTime(t)
    ensures HourStart(t) + OFFSET_BASE <= r < HourStart(t) + OFFSET_BASE + OFFSET_SPAN
  {
    HourStart(t) + Offset(RandomWord(t))
  }

  /** The value PRNGTimeGen returns for `currentTime == t`. */
  function PrngTime(t: int): (r: int)
    requires ValidTime(t)
    ensures t < r <= t + SECONDS_PER_DAY
  {
    if Candidate(t) <= t then HourStart(t) + SECONDS_PER_DAY else Candidate(t)
  }

  /**
   * The random instant lies in the same hour, between XX:05:00 and
   * XX:54:59, and depends on nothing but the hour.
   */
  lemma CandidateInHour(t: int)
    requires ValidTime(t)
    ensures HourStart(t) + OFFSET_BASE <= Candidate(t) < HourStart(t) + OFFSET_BASE + OFFSET_SPAN
    ensures Candidate(t) / SECONDS_PER_HOUR == HourIndex(t)
  {
  }

  /** Two readings in the same hour get the same random instant. */
  lemma CandidateSameHour(t1: int, t2: int)
    requires ValidTime(t1) && ValidTime(t2) && HourIndex(t1) == HourIndex(t2)
    ensures Candidate(t1) == Candidate(t2)
  {
  }

  /**
   * PRNGTimeGen always returns an instant strictly after `currentTime`, at
   * most one day ahead: the hour's random instant when that is still to
   * come, and otherwise the start of the same hour on the next day.
   */
  lemma PrngTimeInFuture(t: int)
    requires ValidTime(t)
    ensures t < PrngTime(t) <= t + SECONDS_PER_DAY
    ensures PrngTime(t) == Candidate(t) <==> t < Candidate(t)
    ensures PrngTime(t) != Candidate(t) ==> PrngTime(t) == HourStart(t) + SECONDS_PER_DAY
  {
  }

  /**
   * Re-arming later in the same hour, before the armed instant, arms the
   * same instant again.
   */
  lemma PrngTimeStable(t1: int, t2: int)
    requires ValidTime(t1) && ValidTime(t2) && HourIndex(t1) == HourIndex(t2)
    requires t1 <= t2 < PrngTime(t1)
    ensures PrngTime(t2) == PrngTime(t1)
  {
    CandidateSameHour(t1, t2);
  }

  /**
   * The first half of PRNGTimeGen: a fresh `chachainit` array holding the
   * constants, the zero key, counter and nonce, and the two halves of the
   * hour index.
   */
  method NewSeedArray(hours: nat) returns (chachainit: array<Word>)
    requires hours < HOUR_LIMIT
    ensures fresh(chachainit)
    ensures chachainit[..] == SeedState(hours)
  {
    var hoursSinceEpoch: bv64 := hours as bv64;
    chachainit := new Word[] [0x61707865, 0x3320646e, 0x79622d32, 0x6b206574,
      0, 0, 0, 0, 0, 0, 0, 0, 0, 0, HighWord(hoursSinceEpoch), LowWord(hoursSinceEpoch)];
  }

  /**
   * `chacha_block(chachaout, chachainit)` on the input state of the hour
   * `hoursSinceEpoch`, keeping `chachaout[0]`.
   */
  method BlockWord(hours: nat) returns (w: Word)
    requires hours < HOUR_LIMIT
    ensures w == Block(SeedState(hours))[0]
  {
    var chachainit := NewSeedArray(hours);
    var chachaout := new Word[STATE_WORDS];
    ChaChaBlock(chachaout, chachainit);
    w := chachaout[0];
  }

  /**
   * PRNGTimeGen(currentTime): build the input state for the hour, run the
   * block function and turn its first word into an instant.
   */
  method PrngTimeGen(currentTime: int) returns (t: int)
    requires ValidTime(currentTime)
    ensures t == PrngTime(currentTime)
  {
    var hours := currentTime / SECONDS_PER_HOUR;
    var w := BlockWord(hours);
    var addedSeconds := (w as int) % OFFSET_SPAN + OFFSET_BASE;
    t := hours * SECONDS_PER_HOUR + addedSeconds;
    if t <= currentTime {
      t := hours * SECONDS_PER_HOUR + SECONDS_PER_DAY;
    }
  }
}
