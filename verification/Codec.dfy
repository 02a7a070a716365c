/** The pending batch on the wire: the contract's flat list of fields and the relayer's parser. */
module Codec {
  import opened Collections
  import opened Transactions
  import opened RelayerSteps

  type Bytes = seq<nat>

  predicate IsBytes(bs: Bytes) {
    forall i :: 0 <= i < |bs| ==> bs[i] < 256
  }

  /** Unsigned big-endian; leading zeroes are allowed. */
  function SetBytes(bs: Bytes): nat {
    if bs == [] then 0 else SetBytes(bs[..|bs| - 1]) * 256 + bs[|bs| - 1]
  }

  /** The shortest big-endian form; zero is the empty buffer. */
  function TopEncode(n: nat): (bs: Bytes)
    ensures IsBytes(bs) && (bs != [] ==> bs[0] != 0)
  {
    if n == 0 then [] else TopEncode(n / 256) + [n % 256]
  }

  lemma {:induction false} NumberRoundTrip(n: nat)
    ensures SetBytes(TopEncode(n)) == n
  {
    if n != 0 {
      NumberRoundTrip(n / 256);
      assert TopEncode(n)[..|TopEncode(n)| - 1] == TopEncode(n / 256);
    }
  }

  /** How addresses and token identifiers are written as buffers; any two functions will do. */
  datatype Encoding = Encoding(address: RawAddress -> Bytes, token: Token -> Bytes)

  function WireFields(e: Encoding, f: TxFields): (r: seq<Bytes>)
    ensures |r| == TX_FIELDS_ACTUAL
  {
    [TopEncode(f.blockNonce), TopEncode(f.nonce), e.address(f.from), e.address(f.to), e.token(f.token),
     TopEncode(f.amount), TopEncode(f.serviceFee)]
  }

  function FlattenAll(e: Encoding, fields: seq<TxFields>): (r: seq<Bytes>)
    ensures |r| == TX_FIELDS_ACTUAL * |fields|
  {
    if fields == [] then [] else FlattenAll(e, fields[..|fields| - 1]) + WireFields(e, fields[|fields| - 1])
  }

  /** What getCurrentTxBatch returns for a batch. */
  function Flatten(e: Encoding, id: nat, txs: seq<Transaction>): seq<Bytes> {
    [TopEncode(id)] + FlattenAll(e, SplitAll(txs))
  }

  /** The number of statuses the multisig asks for is the number of values on the wire divided by six. */
  lemma {:induction false} CountIsWireLength(e: Encoding, txs: seq<Transaction>)
    ensures CountByFields(|txs|) == |FlattenAll(e, SplitAll(txs))| / TX_FIELDS_DECLARED
  {
  }

  datatype ParseError = WrongNumberOfArguments | BadBatchId | BadNonce(index: nat) | BadToken(index: nat)
  datatype Result<T> = Ok(value: T) | Err(error: ParseError)

  /** The token mapping as the contract answers it; None: the query failed. */
  type Converter = Bytes -> Option<Bytes>

  function ParseUInt64(bs: Bytes): Option<nat> {
    if SetBytes(bs) < U64 then Some(SetBytes(bs)) else None
  }

  predicate RightLength(response: seq<Bytes>) {
    |response| > 1 && (|response| - 1) % TX_FIELDS_ACTUAL == 0
  }

  /** The deposit in one group of fields, the k-th, with its token converted directly. */
  function ParseGroup(convert: Converter, k: nat, group: seq<Bytes>): Result<Deposit>
    requires |group| == TX_FIELDS_ACTUAL
  {
    var nonce, converted := ParseUInt64(group[1]), convert(group[4]);
    if nonce.None? then Err(BadNonce(k))
    else if converted.None? then Err(BadToken(k))
    else Ok(Deposit(nonce.value, group[2], group[3], group[4], converted.value, SetBytes(group[5])))
  }

  function Group(response: seq<Bytes>, k: nat): (g: seq<Bytes>)
    requires TX_FIELDS_ACTUAL * k + TX_FIELDS_ACTUAL < |response|
    ensures |g| == TX_FIELDS_ACTUAL
  {
    var i := 1 + TX_FIELDS_ACTUAL * k;
    response[i..i + TX_FIELDS_ACTUAL]
  }

  function DepositAt(convert: Converter, response: seq<Bytes>, k: nat): Result<Deposit>
    requires TX_FIELDS_ACTUAL * k + TX_FIELDS_ACTUAL < |response|
  {
    ParseGroup(convert, k, Group(response, k))
  }

  /** The first k deposits, or the first error. */
  function DepositsUpTo(convert: Converter, response: seq<Bytes>, k: nat): (r: Result<seq<Deposit>>)
    requires k > 0 ==> TX_FIELDS_ACTUAL * k < |response|
    ensures r.Ok? ==> |r.value| == k
  {
    if k == 0 then Ok([])
    else
      var earlier := DepositsUpTo(convert, response, k - 1);
      if earlier.Err? then earlier
      else
        var d := DepositAt(convert, response, k - 1);
        if d.Err? then Err(d.error) else Ok(earlier.value + [d.value])
  }

  function Parse(convert: Converter, response: seq<Bytes>): Result<TransferBatch> {
    if !RightLength(response) then Err(WrongNumberOfArguments)
    else if ParseUInt64(response[0]).None? then Err(BadBatchId)
    else
      var n := (|response| - 1) / TX_FIELDS_ACTUAL;
      var deposits := DepositsUpTo(convert, response, n);
      if deposits.Err? then Err(deposits.error)
      else Ok(TransferBatch(ParseUInt64(response[0]).value, deposits.value, seq(n, i => 0)))
  }

  ghost predicate CacheOk(convert: Converter, cache: map<Bytes, Bytes>) {
    forall t :: t in cache ==> convert(t) == Some(cache[t])
  }

  /** The parser with its token cache gives what converting every token directly would give. */
  method CreatePendingBatchFromResponse(convert: Converter, response: seq<Bytes>) returns (r: Result<TransferBatch>)
    ensures r == Parse(convert, response)
  {
    if |response| <= 1 || (|response| - 1) % TX_FIELDS_ACTUAL != 0 {
      return Err(WrongNumberOfArguments);
    }
    var batchId := ParseUInt64(response[0]);
    if batchId.None? {
      return Err(BadBatchId);
    }
    var n := (|response| - 1) / TX_FIELDS_ACTUAL;
    var cachedTokens: map<Bytes, Bytes> := map[];
    var deposits: seq<Deposit> := [];
    var transferIndex := 0;
    while transferIndex < n
      invariant transferIndex <= n
      invariant DepositsUpTo(convert, response, transferIndex) == Ok(deposits)
      invariant CacheOk(convert, cachedTokens)
    {
      var deposit;
      deposit, cachedTokens := ParseDeposit(convert, response, transferIndex, cachedTokens);
      if deposit.Err? {
        ErrorStays(convert, response, transferIndex + 1, n);
        return Err(deposit.error);
      }
      deposits := deposits + [deposit.value];
      transferIndex := transferIndex + 1;
    }
    r := Ok(TransferBatch(batchId.value, deposits, seq(|deposits|, i => 0)));
  }

  /** One round of the parser's loop. */
  method ParseDeposit(convert: Converter, response: seq<Bytes>, k: nat, cache: map<Bytes, Bytes>)
    returns (r: Result<Deposit>, newCache: map<Bytes, Bytes>)
    requires TX_FIELDS_ACTUAL * k + TX_FIELDS_ACTUAL < |response| && CacheOk(convert, cache)
    ensures r == DepositAt(convert, response, k) && CacheOk(convert, newCache)
  {
    newCache := cache;
    var i := 1 + TX_FIELDS_ACTUAL * k;
    var nonce := ParseUInt64(response[i + 1]);
    if nonce.None? {
      return Err(BadNonce(k)), newCache;
    }
    var token := response[i + 4];
    if token !in newCache {
      var answer := convert(token);
      if answer.None? {
        return Err(BadToken(k)), newCache;
      }
      newCache := newCache[token := answer.value];
    }
    r := Ok(Deposit(nonce.value, response[i + 2], response[i + 3], token, newCache[token], SetBytes(response[i + 5])));
  }

  lemma {:induction false} ErrorStays(convert: Converter, response: seq<Bytes>, k: nat, n: nat)
    requires 0 < k <= n && TX_FIELDS_ACTUAL * n < |response|
    requires DepositsUpTo(convert, response, k).Err?
    ensures DepositsUpTo(convert, response, n) == DepositsUpTo(convert, response, k)
  {
    if k < n {
      ErrorStays(convert, response, k, n - 1);
    }
  }

  // ----- The round trip -----

  /** What the relayer keeps of a transaction whose token it knows: neither the block nonce nor the service fee. */
  function Received(convert: Converter, e: Encoding, tx: Transaction): Option<Deposit> {
    var token := e.token(tx.token);
    if convert(token).None? then None
    else Some(Deposit(tx.nonce, e.address(tx.from), e.address(tx.to), token, convert(token).value, tx.amount))
  }

  lemma {:induction false} ParseOne(convert: Converter, e: Encoding, k: nat, tx: Transaction)
    requires tx.nonce < U64
    ensures var r := Received(convert, e, tx);
            ParseGroup(convert, k, WireFields(e, IntoMultiresult(tx)))
            == if r.None? then Err(BadToken(k)) else Ok(r.value)
  {
    NumberRoundTrip(tx.nonce);
    NumberRoundTrip(tx.amount);
  }

  lemma {:induction false} FieldsAt(e: Encoding, fields: seq<TxFields>, k: nat)
    requires k < |fields|
    ensures FlattenAll(e, fields)[TX_FIELDS_ACTUAL * k..TX_FIELDS_ACTUAL * k + TX_FIELDS_ACTUAL]
            == WireFields(e, fields[k])
  {
    if k < |fields| - 1 {
      FieldsAt(e, fields[..|fields| - 1], k);
    }
  }

  lemma {:induction false} GroupIs(e: Encoding, id: nat, txs: seq<Transaction>, k: nat)
    requires k < |txs|
    ensures Group(Flatten(e, id, txs), k) == WireFields(e, IntoMultiresult(txs[k]))
  {
    FieldsAt(e, SplitAll(txs), k);
  }

  lemma {:induction false} DepositRoundTrip(convert: Converter, e: Encoding, id: nat, txs: seq<Transaction>, k: nat)
    requires k < |txs| && txs[k].nonce < U64
    ensures var r := Received(convert, e, txs[k]);
            DepositAt(convert, Flatten(e, id, txs), k) == if r.None? then Err(BadToken(k)) else Ok(r.value)
  {
    GroupIs(e, id, txs, k);
    ParseOne(convert, e, k, txs[k]);
  }

  lemma {:induction false} DepositsRoundTrip(convert: Converter, e: Encoding, id: nat, txs: seq<Transaction>, k: nat)
    requires k <= |txs| && forall i :: 0 <= i < k ==> txs[i].nonce < U64 && Received(convert, e, txs[i]).Some?
    ensures var r := DepositsUpTo(convert, Flatten(e, id, txs), k);
            r.Ok? && forall i :: 0 <= i < k ==> Some(r.value[i]) == Received(convert, e, txs[i])
  {
    if k > 0 {
      DepositsRoundTrip(convert, e, id, txs, k - 1);
      DepositRoundTrip(convert, e, id, txs, k - 1);
    }
  }

  lemma {:induction false} UnknownToken(convert: Converter, e: Encoding, id: nat, txs: seq<Transaction>, i: nat)
    requires i < |txs| && txs[i].nonce < U64 && Received(convert, e, txs[i]).None?
    ensures DepositsUpTo(convert, Flatten(e, id, txs), |txs|).Err?
  {
    DepositRoundTrip(convert, e, id, txs, i);
    ErrorStays(convert, Flatten(e, id, txs), i + 1, |txs|);
  }

  /** Without the wire: what parsing a flattened batch comes down to. */
  lemma {:induction false} ParseFlattened(convert: Converter, e: Encoding, id: nat, txs: seq<Transaction>)
    requires id < U64
    ensures var flat := Flatten(e, id, txs);
            var deposits := DepositsUpTo(convert, flat, |txs|);
            Parse(convert, flat) == if txs == [] then Err(WrongNumberOfArguments)
                                    else if deposits.Err? then Err(deposits.error)
                                    else Ok(TransferBatch(id, deposits.value, seq(|txs|, i => 0)))
  {
    NumberRoundTrip(id);
    var n, flat := |txs|, Flatten(e, id, txs);
    assert |flat| == 1 + TX_FIELDS_ACTUAL * n && (|flat| - 1) / TX_FIELDS_ACTUAL == n;
  }

  /**
   * The relayer reads back the id and, in order, every nonce, sender, receiver, token and amount of the batch that the
   * contract returned, with one zero status per deposit. It fails exactly if the batch is empty or a token is unknown.
   */
  lemma {:induction false} BatchRoundTrip(convert: Converter, e: Encoding, id: nat, txs: seq<Transaction>)
    requires id < U64 && forall i :: 0 <= i < |txs| ==> txs[i].nonce < U64
    ensures Parse(convert, Flatten(e, id, txs)).Ok? <==>
            txs != [] && forall i :: 0 <= i < |txs| ==> Received(convert, e, txs[i]).Some?
    ensures Parse(convert, Flatten(e, id, txs)).Ok? ==>
            var b := Parse(convert, Flatten(e, id, txs)).value;
            && b.id == id && |b.deposits| == |txs| && b.statuses == seq(|txs|, i => 0)
            && forall i :: 0 <= i < |txs| ==> Some(b.deposits[i]) == Received(convert, e, txs[i])
    ensures txs == [] ==> Parse(convert, Flatten(e, id, txs)) == Err(WrongNumberOfArguments)
  {
    ParseFlattened(convert, e, id, txs);
    if forall i :: 0 <= i < |txs| ==> Received(convert, e, txs[i]).Some? {
      DepositsRoundTrip(convert, e, id, txs, |txs|);
    } else {
      var i :| 0 <= i < |txs| && Received(convert, e, txs[i]).None?;
      UnknownToken(convert, e, id, txs, i);
    }
  }
}
