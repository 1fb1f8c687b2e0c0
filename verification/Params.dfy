/** Depths, widths and limits of the protocol, and the operation codes with their chunk counts. */
module Params {
  const ACCOUNT_TREE_DEPTH: nat := 32
  const BALANCE_TREE_DEPTH: nat := 11
  const USED_SUBTREE_DEPTH: nat := 24
  const PROCESSABLE_TOKENS: nat := 128
  const PROCESSABLE_DEPTH: nat := 7

  const TX_TYPE_WIDTH: nat := 8
  const ACCOUNT_ID_WIDTH: nat := 32
  const TOKEN_WIDTH: nat := 16
  const BALANCE_WIDTH: nat := 128
  const NONCE_WIDTH: nat := 32
  const ADDRESS_WIDTH: nat := 160
  const AMOUNT_WIDTH: nat := 40
  const FEE_WIDTH: nat := 16
  const CHUNK_WIDTH: nat := 72
  const CHUNK_BYTES: nat := 9
  const MESSAGE_WIDTH: nat := 736

  const NOOP: nat := 0
  const DEPOSIT: nat := 1
  const TRANSFER_TO_NEW: nat := 2
  const WITHDRAW: nat := 3
  const CLOSE: nat := 4
  const TRANSFER: nat := 5
  const FULL_EXIT: nat := 6
  const CHANGE_PUBKEY: nat := 7
  const FORCED_EXIT: nat := 8
  const TX_TYPES: nat := 9

  /** Number of chunks of an operation. The lookup polynomial of the circuit goes through
      `Chunks - 1` at the nine codes; its other values never matter, because no gadget accepts
      another code. */
  function Chunks(txType: nat): (n: nat)
    ensures n >= 1
  {
    if txType == NOOP || txType == CLOSE then 1
    else if txType == TRANSFER then 2
    else if txType < TX_TYPES then 6
    else 1
  }
}

/** The scalar field of BN256, as numbers below the modulus. */
module PrimeField {
  import opened Bits
  import opened Common
  import opened Params

  const P: nat := 21888242871839275222246405745257275088548364400416034343698204186575808495617

  function FAdd(x: nat, y: nat): (z: nat)
    ensures z < P
    ensures x + y < P ==> z == x + y
  {
    (x + y) % P
  }

  function FSub(x: nat, y: nat): (z: nat)
    ensures z < P
    ensures y <= x < P ==> z == x - y
  {
    (x - y) % P
  }

  /** The limits of the account fields; balances and amounts are 128-bit numbers. */
  const MAX_NONCE: nat := 0xffff_ffff
  const ADDRESS_LIMIT: nat := 0x1_0000_0000_0000_0000_0000_0000_0000_0000_0000_0000

  /** A difference that fits 128 bits did not wrap. */
  lemma {:induction false} SubtractionDidNotWrap(x: nat, y: nat)
    requires x < U128_LIMIT && y < U128_LIMIT && FSub(x, y) < U128_LIMIT
    ensures y <= x && FSub(x, y) == x - y
  {
  }

  /** The limits are the powers of two of the field widths. */
  lemma {:induction false} Widths()
    ensures Pow2(TX_TYPE_WIDTH) == 256 && Pow2(TOKEN_WIDTH) == 0x1_0000 && Pow2(FEE_WIDTH) == 0x1_0000
    ensures Pow2(NONCE_WIDTH) == MAX_NONCE + 1 && Pow2(ACCOUNT_ID_WIDTH) == 0x1_0000_0000
    ensures Pow2(AMOUNT_WIDTH) == 0x100_0000_0000 && Pow2(CHUNK_WIDTH) == 0x100_0000_0000_0000_0000
    ensures Pow2(BALANCE_WIDTH) == U128_LIMIT && Pow2(ADDRESS_WIDTH) == ADDRESS_LIMIT
  {
    Pow2Sum(8, 256, 8, 256);
    Pow2Sum(16, 0x1_0000, 16, 0x1_0000);
    Pow2Sum(32, 0x1_0000_0000, 8, 256);
    Pow2Sum(32, 0x1_0000_0000, 32, 0x1_0000_0000);
    Pow2Sum(64, 0x1_0000_0000_0000_0000, 8, 256);
    Pow2Sum(64, 0x1_0000_0000_0000_0000, 64, 0x1_0000_0000_0000_0000);
    Pow2Sum(128, U128_LIMIT, 32, 0x1_0000_0000);
  }
}
