/** The key checks of `xian_py/wallet.py`: `Wallet.is_valid_key` for
    ed25519 keys written as 64 hex characters, and
    `EthereumWallet.is_valid_key` for addresses written as 40 hex characters
    after an optional `0x`. Both check the length first and then whether
    `int(key, 16)` succeeds; any exception there gives False. */
module Keys {
  import opened PyText
  import opened PyNumbers
  import Formatting

  /** `Wallet.is_valid_key` */
  predicate IsValidKey(key: string)
    ensures IsValidKey(key) ==> |key| == 64
    ensures IsPlainHex(key) ==> (IsValidKey(key) <==> |key| == 64)
  {
    var ok := |key| == 64 && ParsesAsHexInt(key);
    if IsPlainHex(key) then PlainHexParses(key); ok else ok
  }

  /** The address without one leading `0x`. */
  function WithoutEthPrefix(key: string): (r: string)
    ensures StartsWith(key, "0x") ==> key == "0x" + r
    ensures !StartsWith(key, "0x") ==> r == key
  {
    if StartsWith(key, "0x") then key[2..] else key
  }

  /** `EthereumWallet.is_valid_key` */
  predicate EthIsValidKey(key: string)
    ensures EthIsValidKey(key) ==> |key| == 40 || (|key| == 42 && StartsWith(key, "0x"))
    ensures IsPlainHex(key) ==> (EthIsValidKey(key) <==> |key| == 40)
  {
    var k := WithoutEthPrefix(key);
    var ok := |k| == 40 && ParsesAsHexInt(k);
    if IsPlainHex(key) then
      assert |key| >= 2 ==> IsHexDigit(key[1]);
      PlainHexParses(key);
      ok
    else ok
  }

  /** The wallet check and the payload's `key_is_formatted` accept the same
      strings. */
  lemma IsValidKeyAgreesWithPayloadCheck(key: string)
    ensures IsValidKey(key) <==> Formatting.KeyIsFormatted(Formatting.Str(key))
  {
  }

  /** `int(key, 16)` also takes a `0x` prefix, so 62 hex digits behind `0x`
      pass as a key although they are not 64 hex digits. */
  lemma IsValidKeyAcceptsPrefix(h: string)
    requires IsPlainHex(h) && |h| == 62
    ensures IsValidKey("0x" + h)
  {
    PrefixedHexParses(h);
  }

  /** Forty hex digits are a valid address, with or without `0x`. */
  lemma PlainHexAddressIsValid(h: string)
    requires IsPlainHex(h) && |h| == 40
    ensures EthIsValidKey(h) && EthIsValidKey("0x" + h)
  {
    var k := "0x" + h;
    assert WithoutEthPrefix(k) == h by {
      assert k[..2] == "0x" && k[2..] == h;
    }
    StrippedAddressIsValid(k, h);
  }

  lemma StrippedAddressIsValid(key: string, h: string)
    requires IsPlainHex(h) && |h| == 40 && WithoutEthPrefix(key) == h
    ensures EthIsValidKey(key)
  {
    PlainHexParses(h);
  }

  /** Only one `0x` is removed before the length check, and `int(key, 16)`
      takes a second one: `0x0x` followed by 38 hex digits passes. */
  lemma EthIsValidKeyAcceptsDoublePrefix(h: string)
    requires IsPlainHex(h) && |h| == 38
    ensures EthIsValidKey("0x0x" + h)
  {
    var key := "0x0x" + h;
    assert key[..2] == "0x" && key[2..] == "0x" + h;
    PrefixedHexParses(h);
  }
}
