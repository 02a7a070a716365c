/** The records exchanged by the contracts (rs/common/transaction). */
module Transactions {
  type Token = nat

  datatype TransactionStatus = NoStatus | Pending | InProgress | Executed | Rejected

  /** The number a status is sent as: its place in the enumeration. */
  function StatusCode(status: TransactionStatus): nat {
    match status
    case NoStatus => 0
    case Pending => 1
    case InProgress => 2
    case Executed => 3
    case Rejected => 4
  }

  /** A raw address buffer: 32 bytes on MultiversX, 20 bytes on Ethereum. */
  datatype RawAddress = Mvx(mvx: nat) | Eth(eth: nat)

  datatype Transaction = Transaction(
    blockNonce: nat, nonce: nat, from: RawAddress, to: RawAddress,
    token: Token, amount: nat, serviceFee: nat, isRefund: bool)

  datatype EthTransaction = EthTransaction(from: nat, to: nat, token: Token, amount: nat, nonce: nat)

  datatype Payment = Payment(token: Token, amount: nat)

  /** The seven values a transaction is split into when it crosses a contract boundary. */
  datatype TxFields = TxFields(
    blockNonce: nat, nonce: nat, from: RawAddress, to: RawAddress, token: Token, amount: nat, serviceFee: nat)

  const TX_FIELDS_DECLARED: nat := 6
  const TX_FIELDS_ACTUAL: nat := 7
  const MIN_BLOCKS_FOR_FINALITY: nat := 10

  function IntoMultiresult(tx: Transaction): TxFields {
    TxFields(tx.blockNonce, tx.nonce, tx.from, tx.to, tx.token, tx.amount, tx.serviceFee)
  }

  function FromMultiresult(f: TxFields): Transaction {
    Transaction(f.blockNonce, f.nonce, f.from, f.to, f.token, f.amount, f.serviceFee, false)
  }

  function SplitAll(txs: seq<Transaction>): seq<TxFields> {
    seq(|txs|, i requires 0 <= i < |txs| => IntoMultiresult(txs[i]))
  }

  function JoinAll(fields: seq<TxFields>): seq<Transaction> {
    seq(|fields|, i requires 0 <= i < |fields| => FromMultiresult(fields[i]))
  }

  /** The number of statuses the multisig asks for: seven values per transaction, divided by six. */
  function CountByFields(txCount: nat): nat {
    TX_FIELDS_ACTUAL * txCount / TX_FIELDS_DECLARED
  }

  lemma {:induction false} CountByFieldsExact(n: nat)
    ensures CountByFields(n) == n + n / 6
    ensures CountByFields(n) == n <==> n < 6
  {
    assert 7 * n == 6 * n + n;
  }

  /** Deposit nonces run upwards from `start` without a gap. */
  predicate Consecutive(transfers: seq<EthTransaction>, start: nat) {
    forall i :: 0 <= i < |transfers| ==> transfers[i].nonce == start + i
  }
}
