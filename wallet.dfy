/**
 * The player's display identity, derived from what the wallet provider and
 * the name service return.
 */
module Wallet {
  import opened Wrappers
  import opened AddressFormat

  /** The wallet address, or none when the user or its wallet has none or it is empty. */
  function EvmAddress(walletAddress: Option<string>): (r: Option<string>)
  {
    if walletAddress.Some? && walletAddress.value != "" then walletAddress else None
  }

  /** The address as shown: shortened when there is one, a placeholder while there is none. */
  function FormattedAddress(evmAddress: Option<string>): (r: string)
  {
    if evmAddress.Some? then BeautifyAddressDefault(evmAddress.value) else "Loading..."
  }

  /** The name-service name: looked up only when there is an address, none otherwise. */
  function EnsName(evmAddress: Option<string>, lookup: Option<string>): (r: Option<string>)
  {
    if evmAddress.Some? then lookup else None
  }

  /** `s.split(c)[0]`: the text before the first `c`, or all of `s`. */
  function BeforeFirst(s: string, c: char): (r: string)
    ensures r <= s && c !in r
    ensures |r| < |s| ==> s[|r|] == c
    decreases |s|
  {
    if s == [] then []
    else if s[0] == c then []
    else [s[0]] + BeforeFirst(s[1..], c)
  }

  /**
   * A standard 42-character `0x` address shows as its first four and last
   * four characters around "...", eleven characters in all, and never as the
   * placeholder.
   */
  lemma FormattedAddressShape(a: string)
    requires |a| == 42 && a[..2] == "0x"
    ensures FormattedAddress(Some(a)) == a[..4] + "..." + a[38..]
    ensures |FormattedAddress(Some(a))| == 11
    ensures FormattedAddress(Some(a)) != "Loading..."
  {
    BeautifyShape(a, 4, "...");
  }

  const DEFAULT_USERNAME: string := "PlayerOne"

  /** The display name: the name-service name, else the mailbox part of the e-mail, else the default. */
  function Username(ens: Option<string>, email: Option<string>): string {
    if ens.Some? && ens.value != "" then ens.value
    else if email.Some? && BeforeFirst(email.value, '@') != "" then BeforeFirst(email.value, '@')
    else DEFAULT_USERNAME
  }

  /** The fallback chain, in order; the name is never empty. */
  lemma UsernameChoice(ens: Option<string>, email: Option<string>)
    ensures Username(ens, email) != ""
    ensures ens.Some? && ens.value != "" ==> Username(ens, email) == ens.value
    ensures (ens.None? || ens.value == "") && email.Some? && |email.value| > 0 && email.value[0] != '@' ==>
      && Username(ens, email) <= email.value
      && '@' !in Username(ens, email)
      && (|Username(ens, email)| < |email.value| ==> email.value[|Username(ens, email)|] == '@')
    ensures (ens.None? || ens.value == "") && (email.None? || email.value == [] || email.value[0] == '@') ==>
      Username(ens, email) == DEFAULT_USERNAME
  {
    if (ens.None? || ens.value == "") && email.Some? && |email.value| > 0 && email.value[0] != '@' {
      assert BeforeFirst(email.value, '@') != "";
    }
  }

  /** What the hook returns for display. */
  datatype Identity = Identity(username: string, evmAddress: Option<string>, formattedEvmAddress: string)

  function UseAuth(walletAddress: Option<string>, email: Option<string>, ensLookup: Option<string>): Identity {
    var evm := EvmAddress(walletAddress);
    Identity(Username(EnsName(evm, ensLookup), email), evm, FormattedAddress(evm))
  }

  /**
   * An empty wallet address counts as no address: the name-service answer is
   * ignored, whatever it is, and what is shown is the same as without a
   * wallet.
   */
  lemma EmptyAddressIsNoAddress(email: Option<string>, lookup1: Option<string>, lookup2: Option<string>)
    ensures UseAuth(Some(""), email, lookup1) == UseAuth(None, email, lookup2)
    ensures UseAuth(None, email, lookup1).evmAddress.None?
  {
  }

  /**
   * With a non-empty wallet address the address is passed through and the
   * name-service name, when non-empty, is the display name.
   */
  lemma AddressUsesNameService(address: string, email: Option<string>, name: string)
    requires address != "" && name != ""
    ensures UseAuth(Some(address), email, Some(name)).evmAddress == Some(address)
    ensures UseAuth(Some(address), email, Some(name)).username == name
  {
  }

  /**
   * Without a wallet address the name service is not consulted and the
   * address shows the placeholder; with a standard address it shows eleven
   * characters.
   */
  lemma UseAuthIdentity(walletAddress: Option<string>, email: Option<string>, ensLookup: Option<string>)
    ensures EvmAddress(walletAddress).None? ==>
      && UseAuth(walletAddress, email, ensLookup).formattedEvmAddress == "Loading..."
      && UseAuth(walletAddress, email, ensLookup).username == Username(None, email)
    ensures walletAddress.Some? && |walletAddress.value| == 42 && walletAddress.value[..2] == "0x" ==>
      |UseAuth(walletAddress, email, ensLookup).formattedEvmAddress| == 11
    ensures UseAuth(walletAddress, email, ensLookup).username != ""
  {
    UsernameChoice(EnsName(EvmAddress(walletAddress), ensLookup), email);
    if walletAddress.Some? && |walletAddress.value| == 42 && walletAddress.value[..2] == "0x" {
      BeautifyDefaultAddress(walletAddress.value);
    }
  }
}
