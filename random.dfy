/**
 * The generator behind `rand.New(rand.NewSource(seed))`, modelled abstractly.
 *
 * Go's algorithm is not modelled: a generator is an arbitrary stream of raw
 * values and a position in it. `Intn(n)` consumes one value and maps it into
 * `[0, n)`. Every property proved about the builders therefore holds for every
 * possible stream, and a generation run depends on nothing but the stream.
 */
module Random {

  /** Go's `int64`. */
  newtype int64 = x: int | -0x8000_0000_0000_0000 <= x < 0x8000_0000_0000_0000

  /** The raw values a seeded source produces, by draw number. */
  type Stream = nat -> nat

  /** A generator state: the stream and the number of draws already taken. */
  datatype Rng = Rng(stream: Stream, pos: nat)

  /** A value together with the generator state after drawing it. */
  datatype Drawn<T> = Drawn(value: T, rng: Rng)

  /**
   * `rand.New(rand.NewSource(seed))`: the seeding algorithm `source` is a
   * parameter, so nothing is assumed about how a seed becomes a stream.
   */
  function NewRand(source: int64 -> Stream, seed: int64): (r: Rng)
    ensures r.stream == source(seed) && r.pos == 0
  {
    Rng(source(seed), 0)
  }

  /** `rng.Intn(n)`; Go panics for `n <= 0`, hence the precondition. */
  function Intn(rng: Rng, n: nat): (d: Drawn<nat>)
    requires n > 0
    ensures d.value < n
    ensures d.rng.stream == rng.stream && d.rng.pos == rng.pos + 1
  {
    Drawn(rng.stream(rng.pos) % n, Rng(rng.stream, rng.pos + 1))
  }

  /** `pool[rng.Intn(len(pool))]`, the uniform draw from a fixed pool used throughout the builders. */
  function Pick<T>(pool: seq<T>, rng: Rng): (d: Drawn<T>)
    requires |pool| > 0
    ensures d.value in pool
    ensures d.rng.stream == rng.stream && d.rng.pos == rng.pos + 1
  {
    var k := Intn(rng, |pool|);
    Drawn(pool[k.value], k.rng)
  }
}
