/** The window test in 64-bit arithmetic. */
module WindowArithmetic {

  const WORD: int := 0x1_0000_0000_0000_0000

  /** Subtraction as the machine does it. */
  function Sub64(a: int, b: int): int {
    (a - b) % WORD
  }

  predicate InW64(n: nat, h: nat, logSize: nat) {
    Sub64(n, h) > 0 && Sub64(n, h) <= logSize
  }

  lemma Sub64Is(a: nat, b: nat)
    requires a < WORD && b < WORD
    ensures Sub64(a, b) == if b <= a then a - b else a - b + WORD
  {
  }

  /** The test with wrapping subtraction means h < n <= h + L for every word n exactly if h + L is
      itself a word: beyond that, small numbers pass it. */
  lemma WindowTestIsExact(h: nat, logSize: nat)
    requires h < WORD && 0 < logSize < WORD
    ensures (forall n: nat :: n < WORD ==> (InW64(n, h, logSize) <==> h < n <= h + logSize)) <==> h + logSize < WORD
  {
    if h + logSize < WORD {
      forall n: nat | n < WORD ensures InW64(n, h, logSize) <==> h < n <= h + logSize {
        Sub64Is(n, h);
      }
    } else {
      Sub64Is(0, h);
      assert InW64(0, h, logSize);
    }
  }
}
