/** The value types shared by the services (`ports::types`). */
module Types {

  /** Rust's `u32`. */
  newtype u32 = x: int | 0 <= x < 0x1_0000_0000

  /** Rust's `NonZeroU32`: the type of the commit interval, which can never be zero. */
  type NonZeroU32 = n: u32 | n != 0 witness 1

  /** Rust's `u8`. */
  newtype u8 = x: int | 0 <= x < 0x100

  /** A 32-byte block hash. */
  type Hash = h: seq<u8> | |h| == 32 witness seq(32, _ => 0)

  /** A height on the destination chain (L1); kept unbounded here. */
  type L1Height = nat

  /** A block of the source chain. */
  datatype FuelBlock = FuelBlock(hash: Hash, height: u32)

  /** One checkpoint: the block submitted, the L1 height at which it was submitted, and whether it was confirmed. */
  datatype BlockSubmission = BlockSubmission(block: FuelBlock, submittalHeight: L1Height, completed: bool)

  /** A confirmation event read from the L1 contract's event stream. */
  datatype FuelBlockCommittedOnL1 = FuelBlockCommittedOnL1(fuelBlockHash: Hash, commitHeight: nat)

  /** The number that the decimal digit string `s` denotes, most significant digit first. */
  function DigitsValue(s: string): nat
    requires forall i :: 0 <= i < |s| ==> '0' <= s[i] <= '9'
    decreases |s|
  {
    if s == [] then 0 else 10 * DigitsValue(s[..|s| - 1]) + (s[|s| - 1] - '0') as nat
  }

  /**
   * The decimal rendering of `n`, as Rust's `{}` formatting writes an integer: digits only,
   * denoting `n`, with no leading zero.
   */
  function DecimalString(n: nat): (s: string)
    ensures |s| > 0
    ensures forall i :: 0 <= i < |s| ==> '0' <= s[i] <= '9'
    ensures DigitsValue(s) == n
    ensures n == 0 || s[0] != '0'
  {
    var digit := ['0' + ((n % 10) as char)];
    if n < 10 then
      assert digit[..0] == [];
      digit
    else
      var prefix := DecimalString(n / 10);
      assert (prefix + digit)[..|prefix|] == prefix;
      prefix + digit
  }
}
