/**
 * Address shortening: the first and last few characters of an address
 * around a separator, cut with `String.prototype.substr` as section B.2.2.1
 * of ECMA-262 defines it.
 */
module AddressFormat {
  function Min(a: int, b: int): int { if a <= b then a else b }
  function Max(a: int, b: int): int { if a >= b then a else b }

  /**
   * `s.substr(start, length)` for integer arguments: a negative start counts
   * from the end and stops at the first character, the length is clamped to
   * `0..|s|`, and the end never passes the end of the string.
   */
  function Substr(s: string, start: int, length: int): (r: string)
  {
    var size := |s|;
    var intStart := if start < 0 then Max(size + start, 0) else Min(start, size);
    var intLength := Min(Max(length, 0), size);
    var intEnd := Min(intStart + intLength, size);
    s[intStart..intEnd]
  }

  /**
   * What `substr` means to a caller: a negative start counts back from the
   * end and stops at the first character, a start at or past the end or a
   * length of zero or less gives "", a start and length inside the string
   * give exactly those characters, and the result is always one contiguous
   * piece of `s` no longer than the length asked for.
   */
  lemma SubstrFacts(s: string, start: int, length: int)
    ensures start < 0 && -start <= |s| ==> Substr(s, start, length) == Substr(s, |s| + start, length)
    ensures start < 0 && -start > |s| ==> Substr(s, start, length) == Substr(s, 0, length)
    ensures start >= |s| || length <= 0 ==> Substr(s, start, length) == ""
    ensures 0 <= start && 0 <= length && start + length <= |s| ==> Substr(s, start, length) == s[start..start + length]
    ensures |Substr(s, start, length)| <= Max(length, 0) && |Substr(s, start, length)| <= |s|
    ensures exists i :: 0 <= i <= |s| && Substr(s, start, length) <= s[i..]
  {
    var from := if start < 0 then Max(|s| + start, 0) else Min(start, |s|);
    var r := Substr(s, start, length);
    assert r == s[from..from + |r|];
    assert r <= s[from..];
  }

  /** `beautifyAddress(addr, size, separator)`. */
  function BeautifyAddress(addr: string, size: int, separator: string): string {
    Substr(addr, 0, size) + separator + Substr(addr, -size, size)
  }

  /** The call with its default arguments: four characters either side of `...`. */
  function BeautifyAddressDefault(addr: string): string {
    BeautifyAddress(addr, 4, "...")
  }

  /**
   * For a non-negative size the result is the first `min(size, |addr|)`
   * characters, the separator verbatim, then the last `size` characters;
   * an address shorter than `size` appears whole on both sides.
   */
  lemma BeautifyShape(addr: string, size: int, separator: string)
    requires size >= 0
    ensures var n := Min(size, |addr|);
      var suffix := if |addr| >= size then addr[|addr| - size..] else addr;
      && BeautifyAddress(addr, size, separator) == addr[..n] + separator + suffix
      && |BeautifyAddress(addr, size, separator)| == 2 * n + |separator|
  {
  }

  /** A negative size keeps nothing of the address: only the separator is left. */
  lemma BeautifyNegativeSize(addr: string, size: int, separator: string)
    requires size < 0
    ensures BeautifyAddress(addr, size, separator) == separator
  {
  }

  /** With the defaults, a 42-character `0x` address becomes eleven characters that still start with `0x`. */
  lemma BeautifyDefaultAddress(addr: string)
    requires |addr| == 42 && addr[..2] == "0x"
    ensures |BeautifyAddressDefault(addr)| == 11
    ensures BeautifyAddressDefault(addr)[..2] == "0x"
    ensures BeautifyAddressDefault(addr)[4..7] == "..."
  {
    BeautifyShape(addr, 4, "...");
    assert addr[..4][..2] == addr[..2];
  }
}
