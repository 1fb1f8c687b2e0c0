/** The signer of the JavaScript library: the bytes it signs are those the server composes for the transaction. */
module Signer {
  import opened Bits
  import opened Common
  import opened Decimal
  import opened FloatConversions
  import opened SdkUtils
  import opened Amounts
  import opened WalletMessages

  const MAX_NUMBER_OF_TOKENS: nat := 128
  const MAX_NUMBER_OF_ACCOUNTS: nat := 0x100_0000
  const INT_RANGE: nat := 0x1_0000_0000

  /** What the bit operators of the language make of a number. */
  function ToInt32(n: int): (r: int)
    ensures -0x8000_0000 <= r < 0x8000_0000 && r % INT_RANGE == n % INT_RANGE
  {
    var m := n % INT_RANGE;
    if m < 0x8000_0000 then m else m - INT_RANGE
  }

  lemma {:induction false} ByteAt(n: nat, count: nat, k: nat)
    requires 0 < k <= count
    ensures BytesBE(n, count)[count - k..] == [(n / Pow2(8 * (k - 1))) % 256] + BytesBE(n, count)[count - k + 1..]
    decreases count
  {
    assert Pow2(0) == 1;
    var high := BytesBE(n / 256, count - 1);
    if k == 1 {
      assert BytesBE(n, count)[count - 1..] == [n % 256];
    } else {
      ByteAt(n / 256, count - 1, k - 1);
      Pow2Add(8, 8 * (k - 2));
      assert Pow2(8) == 256;
      DivDiv(n, 256, Pow2(8 * (k - 2)));
      hide Pow2;
      var x := (n / 256 / Pow2(8 * (k - 2))) % 256;
      assert BytesBE(n, count)[count - k..] == high[count - k..] + [n % 256];
      assert BytesBE(n, count)[count - k + 1..] == high[count - k + 1..] + [n % 256];
    }
  }

  /** Shifting drops the last byte of the remainder as well, whatever the sign. */
  lemma {:induction false} ShiftedRemainder(x: int, r: nat)
    requires r > 0
    ensures 256 * r > 0 && (x / 256) % r == (x % (256 * r)) / 256
  {
    var q, s := x / (256 * r), x % (256 * r);
    assert x == (256 * r) * q + s;
    assert (256 * r) * q == 256 * (r * q);
    assert x / 256 == r * q + s / 256;
    QuotientUnique(x / 256, r, q, s / 256);
  }

  lemma {:induction false} SameRemainder(x: int, y: int, r: nat, k: nat)
    requires r > 0 && k > 0 && x % (r * k) == y % (r * k)
    ensures x % r == y % r
  {
    var m, s := r * k, x % (r * k);
    var a, b := x / m, y / m;
    assert x == m * a + s && y == m * b + s;
    assert m * a == r * (k * a) && m * b == r * (k * b);
    QuotientUnique(x, r, k * a + s / r, s % r) by {
      assert r * (k * a + s / r) == r * (k * a) + r * (s / r);
    }
    QuotientUnique(y, r, k * b + s / r, s % r) by {
      assert r * (k * b + s / r) == r * (k * b) + r * (s / r);
    }
  }

  lemma {:induction false} PowersSplit(t: nat)
    requires t < 4
    ensures Pow2(32 - 8 * t) == 256 * Pow2(24 - 8 * t) && 256 * Pow2(24 - 8 * t) * Pow2(8 * t) == INT_RANGE
    ensures Pow2(32 - 8 * (t + 1)) == Pow2(24 - 8 * t) && Pow2(24 - 8 * t) > 0 && Pow2(8 * t) > 0
  {
    assert Pow2(8) == 256;
    Pow2Sum(8, 256, 8, 256);
    Pow2Sum(16, 0x1_0000, 16, 0x1_0000);
    Pow2Add(8, 24 - 8 * t);
    Pow2Add(32 - 8 * t, 8 * t);
    hide Pow2;
  }

  lemma {:induction false} RemainderStays(n: int, m: nat, r: nat)
    requires r > 0 && n % r == m
    ensures m % r == m
  {
  }

  /** The last byte of a number, and the rest of it after a shift of any number with the same low 32 bits. */
  lemma {:induction false} ShiftedByte(n: int, x: int, m: nat, r: nat, k: nat)
    requires r > 0 && k > 0 && 256 * r * k == INT_RANGE && 256 * r > 0 && n % (256 * r) == m && x % INT_RANGE == n % INT_RANGE
    ensures n % 256 == m % 256 && (x / 256) % r == m / 256
  {
    RemainderStays(n, m, 256 * r);
    SameRemainder(n, m, 256, r);
    assert x % (256 * r * k) == n % (256 * r * k);
    SameRemainder(x, n, 256 * r, k);
    ShiftedRemainder(x, r);
  }

  lemma {:induction false} NextByte(n: int, m: nat, t: nat)
    requires t < 4 && n % Pow2(32 - 8 * t) == m
    ensures n % 256 == m % 256 && (ToInt32(n) / 256) % Pow2(32 - 8 * (t + 1)) == m / 256
  {
    hide Pow2, ToInt32;
    PowersSplit(t);
    ShiftedByte(n, ToInt32(n), m, Pow2(24 - 8 * t), Pow2(8 * t));
  }

  lemma {:induction false} RestOfNumber(m: nat, t: nat)
    ensures m / Pow2(8 * t) / 256 == m / Pow2(8 * (t + 1))
  {
    Pow2Add(8 * t, 8);
    assert Pow2(8) == 256;
    DivDiv(m, Pow2(8 * t), 256);
  }

  /** `numberToBytesBE`: numbers from 2^31 on turn negative on the way, and their bytes come out right. */
  method NumberToBytesBE(number: nat, bytes: nat) returns (result: array<byte>)
    requires bytes <= 4
    ensures fresh(result) && result[..] == BytesBE(number % INT_RANGE, bytes)
  {
    result := new byte[bytes];
    var n: int := number;
    var i := bytes;
    ghost var m := number % INT_RANGE;
    assert Pow2(0) == 1 && Pow2(32) == INT_RANGE by {
      assert Pow2(8) == 256;
      Pow2Sum(8, 256, 8, 256);
      Pow2Sum(16, 0x1_0000, 16, 0x1_0000);
    }
    while i > 0
      invariant 0 <= i <= bytes
      invariant n % Pow2(32 - 8 * (bytes - i)) == m / Pow2(8 * (bytes - i))
      invariant result[i..] == BytesBE(m, bytes)[i..]
    {
      ghost var t := bytes - i;
      i := i - 1;
      NextByte(n, m / Pow2(8 * t), t);
      RestOfNumber(m, t);
      ByteAt(m, bytes, t + 1);
      result[i] := n % 256;
      n := ToInt32(n) / 256;
      assert result[i..] == [result[i]] + result[i + 1..];
    }
    assert result[..] == result[0..] && BytesBE(m, bytes) == BytesBE(m, bytes)[0..];
  }

  method SerializeAccountId(accountId: int) returns (r: Option<seq<byte>>)
    ensures r == if 0 <= accountId < MAX_NUMBER_OF_ACCOUNTS then Some(BytesBE(accountId, 4)) else None
  {
    if accountId < 0 || accountId >= MAX_NUMBER_OF_ACCOUNTS {
      return None;
    }
    var bytes := NumberToBytesBE(accountId, 4);
    r := Some(bytes[..]);
  }

  method SerializeTokenId(tokenId: int) returns (r: Option<seq<byte>>)
    ensures r == if 0 <= tokenId < MAX_NUMBER_OF_TOKENS then Some(BytesBE(tokenId, 2)) else None
  {
    if tokenId < 0 || tokenId >= MAX_NUMBER_OF_TOKENS {
      return None;
    }
    var bytes := NumberToBytesBE(tokenId, 2);
    r := Some(bytes[..]);
  }

  /** A nonce past 32 bits is cut, not refused. */
  method SerializeNonce(nonce: int) returns (r: Option<seq<byte>>)
    ensures r == if 0 <= nonce then Some(BytesBE(nonce % INT_RANGE, 4)) else None
  {
    if nonce < 0 {
      return None;
    }
    var bytes := NumberToBytesBE(nonce, 4);
    r := Some(bytes[..]);
  }

  /** `serializeAmountFull`, with the padding of the number library. */
  function SerializeAmountFull(amount: nat): Option<seq<byte>> {
    if amount < U128_LIMIT then Some(BytesBE(amount, 16)) else None
  }

  method SerializeAmountPacked(amount: nat) returns (r: Option<seq<byte>>)
    ensures r.Some? <==> Representable(amount, 5, AMOUNT_MANTISSA)
    ensures r.Some? ==> r.value == PackAmount(amount)
  {
    var packed := PackChecked(amount, 5, AMOUNT_MANTISSA);
    if packed.None? {
      return None;
    }
    SameExponent(amount, 5, AMOUNT_MANTISSA);
    r := Some(packed.value[..]);
  }

  method SerializeFeePacked(fee: nat) returns (r: Option<seq<byte>>)
    ensures r.Some? <==> Representable(fee, 5, FEE_MANTISSA)
    ensures r.Some? ==> r.value == PackFee(fee)
  {
    var packed := PackChecked(fee, 5, FEE_MANTISSA);
    if packed.None? {
      return None;
    }
    SameExponent(fee, 5, FEE_MANTISSA);
    r := Some(packed.value[..]);
  }

  /** The numbers of a transaction that the library serializes. */
  ghost predicate Serializable(accountId: int, tokenId: int, fee: nat, nonce: int) {
    && 0 <= accountId < MAX_NUMBER_OF_ACCOUNTS && 0 <= tokenId < MAX_NUMBER_OF_TOKENS && 0 <= nonce
    && Representable(fee, 5, FEE_MANTISSA)
  }

  /** What all messages start or end with. */
  method SerializeCommon(accountId: int, tokenId: int, fee: nat, nonce: int)
      returns (r: Option<(seq<byte>, seq<byte>, seq<byte>, seq<byte>)>)
    ensures r.Some? <==> Serializable(accountId, tokenId, fee, nonce)
    ensures r.Some? ==> r.value == (BytesBE(accountId, 4), BytesBE(tokenId, 2), PackFee(fee), BytesBE(nonce % INT_RANGE, 4))
  {
    var id := SerializeAccountId(accountId);
    var token := SerializeTokenId(tokenId);
    var packedFee := SerializeFeePacked(fee);
    var nonceBytes := SerializeNonce(nonce);
    r := if id.Some? && token.Some? && packedFee.Some? && nonceBytes.Some?
         then Some((id.value, token.value, packedFee.value, nonceBytes.value)) else None;
  }

  /** `signSyncTransfer`: the bytes that are signed, or an error of a serializer. */
  method SignSyncTransfer(accountId: int, sender: nat, receiver: nat, tokenId: int, amount: nat, fee: nat, nonce: int)
      returns (msg: Option<seq<byte>>)
    ensures msg.Some? <==> Serializable(accountId, tokenId, fee, nonce) && Representable(amount, 5, AMOUNT_MANTISSA)
    ensures msg.Some? ==> msg.value == GetBytes(TransferTx(accountId, sender, receiver, tokenId, amount, fee, nonce % INT_RANGE))
  {
    var common := SerializeCommon(accountId, tokenId, fee, nonce);
    var amountBytes := SerializeAmountPacked(amount);
    if common.None? || amountBytes.None? {
      return None;
    }
    var (id, token, packedFee, nonceBytes) := common.value;
    msg := Some(Concat([[5], id, BytesBE(sender, 20), BytesBE(receiver, 20), token, amountBytes.value, packedFee, nonceBytes]));
  }

  method SignSyncWithdraw(accountId: int, sender: nat, ethAddress: nat, tokenId: int, amount: nat, fee: nat, nonce: int)
      returns (msg: Option<seq<byte>>)
    ensures msg.Some? <==> Serializable(accountId, tokenId, fee, nonce) && amount < U128_LIMIT
    ensures msg.Some? ==> msg.value == GetBytes(WithdrawTx(accountId, sender, ethAddress, tokenId, amount, fee, nonce % INT_RANGE))
  {
    var common := SerializeCommon(accountId, tokenId, fee, nonce);
    var amountBytes := SerializeAmountFull(amount);
    if common.None? || amountBytes.None? {
      return None;
    }
    var (id, token, packedFee, nonceBytes) := common.value;
    msg := Some(Concat([[3], id, BytesBE(sender, 20), BytesBE(ethAddress, 20), token, amountBytes.value, packedFee, nonceBytes]));
  }

  method SignSyncForcedExit(accountId: int, target: nat, tokenId: int, fee: nat, nonce: int) returns (msg: Option<seq<byte>>)
    ensures msg.Some? <==> Serializable(accountId, tokenId, fee, nonce)
    ensures msg.Some? ==> msg.value == GetBytes(ForcedExitTx(accountId, target, tokenId, fee, nonce % INT_RANGE))
  {
    var common := SerializeCommon(accountId, tokenId, fee, nonce);
    if common.None? {
      return None;
    }
    var (id, token, packedFee, nonceBytes) := common.value;
    msg := Some(Concat([[8], id, BytesBE(target, 20), token, packedFee, nonceBytes]));
  }

  method SignSyncChangePubKey(accountId: int, account: nat, newPkHash: nat, feeTokenId: int, fee: nat, nonce: int)
      returns (msg: Option<seq<byte>>)
    ensures msg.Some? <==> Serializable(accountId, feeTokenId, fee, nonce)
    ensures msg.Some? ==> msg.value == GetBytes(ChangePubKeyTx(accountId, account, newPkHash, feeTokenId, fee, nonce % INT_RANGE))
  {
    var common := SerializeCommon(accountId, feeTokenId, fee, nonce);
    if common.None? {
      return None;
    }
    var (id, token, packedFee, nonceBytes) := common.value;
    msg := Some(Concat([[7], id, BytesBE(account, 20), BytesBE(newPkHash, 20), token, packedFee, nonceBytes]));
  }
}
