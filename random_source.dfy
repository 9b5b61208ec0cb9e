/** The randomness the simulator draws, made explicit. Python's global
    generator is replaced by an arbitrary stream of raw draws, so every
    property proved of the simulator holds whatever the draws are. Each
    helper below is the `random` module function of the same name and keeps
    its promise: a value in the range, an element of the population. */
module RandomSource {

  /** The `k`-th raw draw of the stream is `rng(k)`. */
  type Stream = nat -> nat

  /** `random.randint(lo, hi)`, drawn from position `k`. */
  function RandInt(rng: Stream, k: nat, lo: int, hi: int): (r: int)
    requires lo <= hi
    ensures lo <= r <= hi
  {
    lo + rng(k) % (hi - lo + 1)
  }

  /** `random.choice(xs)`, drawn from position `k`. */
  function Choice<T>(rng: Stream, k: nat, xs: seq<T>): (x: T)
    requires |xs| > 0
    ensures x in xs
  {
    xs[rng(k) % |xs|]
  }

  /** `random.choices(xs, k=n)`: `n` independent choices, drawn from
      positions `k` to `k + n - 1`. */
  function Choices<T>(rng: Stream, k: nat, xs: seq<T>, n: nat): (s: seq<T>)
    requires |xs| > 0
    ensures |s| == n && forall i | 0 <= i < n :: s[i] in xs
    decreases n
  {
    if n == 0 then [] else [Choice(rng, k, xs)] + Choices(rng, k + 1, xs, n - 1)
  }

  /** Every value of the range is drawn by some stream: the model does not
      rule out any outcome the Python generator could produce. */
  lemma RandIntReachesRange(k: nat, lo: int, hi: int, r: int)
    requires lo <= r <= hi
    ensures RandInt((_: nat) => (r - lo) as nat, k, lo, hi) == r
  {
  }

  /** Every element of the population is chosen by some stream. */
  lemma ChoiceReachesAll<T>(k: nat, xs: seq<T>, j: nat)
    requires j < |xs|
    ensures Choice((_: nat) => j, k, xs) == xs[j]
  {
  }
}
