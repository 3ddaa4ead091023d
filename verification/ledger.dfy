/**
 * The records stored in the EPOH ledger (transactions, event-log entries and
 * blocks) and the JSON objects they are serialised as.
 */
module Ledger {
  import opened Text
  import opened Primitives

  /** The three kinds of transaction dictionaries the leader builds. */
  datatype Tx =
    | GenesisTx
    | AuthSuccessTx(txId: Str, uavSupi: Str, sessionKeySim: Str, authRand: int)
    | TelemetryTx(txId: Str, uavSupi: Str, data: Json)

  /** `tx.get('tx_id')`: every transaction the leader builds has one. */
  function TxId(tx: Tx): Str {
    match tx
    case GenesisTx => "GENESIS_TX"
    case AuthSuccessTx(id, _, _, _) => id
    case TelemetryTx(id, _, _) => id
  }

  function TxJson(tx: Tx): Json {
    match tx
    case GenesisTx =>
      JObject(map["tx_id" := JStr("GENESIS_TX"), "data" := JStr("System Initialized")])
    case AuthSuccessTx(id, supi, key, rand) =>
      JObject(map["tx_id" := JStr(id), "uav_supi" := JStr(supi), "status" := JStr("AUTHENTICATED"),
                  "session_key_sim" := JStr(key), "auth_rand" := JInt(rand)])
    case TelemetryTx(id, supi, data) =>
      JObject(map["tx_id" := JStr(id), "uav_supi" := JStr(supi), "data" := data])
  }

  /** An event-log entry: the genesis marker, or one per embedded transaction. */
  datatype Event =
    | ChainStart
    | TxEmbedded(timestamp: int, hashAtEvent: Str, txId: Str)

  function EventJson(e: Event): Json {
    match e
    case ChainStart => JObject(map["event_type" := JStr("CHAIN_START")])
    case TxEmbedded(t, h, id) =>
      JObject(map["event_type" := JStr("TRANSACTION_EMBEDDED"), "timestamp" := JInt(t),
                  "hash_at_event" := JStr(h), "tx_id" := JStr(id)])
  }

  datatype Block = Block(
    index: int,
    timestamp: int,
    previousHash: Str,
    eventLog: seq<Event>,
    transactions: seq<Tx>,
    currentHash: Str)

  /** Every key of the block dictionary except `current_hash`, as written to the ledger file. */
  function HashedFields(b: Block): map<Str, Json> {
    map["index" := JInt(b.index),
        "timestamp" := JInt(b.timestamp),
        "previous_hash" := JStr(b.previousHash),
        "event_log" := JList(seq(|b.eventLog|, i requires 0 <= i < |b.eventLog| => EventJson(b.eventLog[i]))),
        "transactions" := JList(seq(|b.transactions|, i requires 0 <= i < |b.transactions| => TxJson(b.transactions[i])))]
  }

  /** The block dictionary, key by key, as it is written to and read from the ledger file. */
  function BlockJson(b: Block): map<Str, Json> {
    HashedFields(b)["current_hash" := JStr(b.currentHash)]
  }

  /** `chain[-1]`. */
  function Last(chain: seq<Block>): Block
    requires |chain| > 0
  {
    chain[|chain| - 1]
  }
}
