/** Machine words. */
module Words {
  const WORD: nat := 0x1_0000_0000_0000_0000

  /** The value of `x` in an unsigned machine word. */
  function Wrap(x: int): nat {
    x % WORD
  }
}
