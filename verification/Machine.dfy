/** Integer widths of the wasm targets. */
module Machine {

  const U32_MAX: nat := 0xFFFF_FFFF
  // usize is 32 bits wide.
  const USIZE: nat := 0x1_0000_0000

  // The four base-256 digits of a u32.
  lemma FourDigits(n: nat)
    ensures n == n % 0x100 + 0x100 * (n / 0x100 % 0x100)
                 + 0x1_0000 * (n / 0x1_0000 % 0x100) + 0x100_0000 * (n / 0x100_0000)
  {
    var a, b := n / 0x100, n / 0x1_0000;
    assert a / 0x100 == b && b / 0x100 == n / 0x100_0000;
    assert n == 0x100 * a + n % 0x100 && a == 0x100 * b + a % 0x100;
  }

  lemma SameDigits(a: nat, b: nat, c: nat, d: nat, p: nat, q: nat, r: nat, s: nat)
    requires a < 0x100 && b < 0x100 && c < 0x100 && p < 0x100 && q < 0x100 && r < 0x100
    requires a + 0x100 * b + 0x1_0000 * c + 0x100_0000 * d == p + 0x100 * q + 0x1_0000 * r + 0x100_0000 * s
    ensures a == p && b == q && c == r && d == s
  {
  }
}
