/** Runs of ASCII characters. */
module Ascii {

  /** `n` characters in order. */
  function Range(first: char, n: nat): (s: string)
    requires first as int + n <= 128
    ensures |s| == n
  {
    seq(n, i requires 0 <= i < n => (first as int + i) as char)
  }
}
