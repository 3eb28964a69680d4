/** Numbers as they are written. */
module Decimals {
  /** The decimal digits of a number. */
  function Decimal(n: nat): string {
    if n < 10 then [('0' as int + n) as char] else Decimal(n / 10) + [('0' as int + n % 10) as char]
  }
}
