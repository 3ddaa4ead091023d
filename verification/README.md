# EPOH leader node, authentication handshake and ledger auditor — a Dafny model

This project models the core of a UAV ground-control system:

- **The leader node.** It authenticates UAVs with a two-message challenge–response exchange.
- **The EPOH ledger.** The leader records successful authentications and telemetry in a hash-linked ledger.
- **The EPOH engine.** Blocks are built by a "proof of history" engine: a running SHA-256 digest that is re-hashed `difficulty` times before each transaction is hashed into it.
- **The auditor.** A separate tool re-reads the ledger and checks its links and timestamps.

Modules, one per component:

| module | file | what it holds |
|---|---|---|
| `Text` | text.dfy | Python's `s[:n]` (`Take`) and `str(int)` (`IntToStr`), with a parser and a round-trip lemma |
| `Primitives` | primitives.dfy | JSON values; SHA-256 and `json.dumps(sort_keys=True)` as the uninterpreted fields of `Crypto` |
| `Ledger` | ledger.dfy | transactions, event-log entries and blocks, and their JSON dictionaries |
| `Epoh` | epoh_core.dfy | the hash engine as functions and as the class `EpohCore`; the KTx / AUTN / XRES\* derivations |
| `Leader` | leader_node.dfy | UAV registry, request handling and mining as functions over `Node`, and the class `LeaderNode` |
| `ChainVerifier` | verify_chain.dfy | the canonical block hash and the fail-fast audit |
| `UavClient` | uav_client.dfy | the UAV's derivations and its handshake decision rule |

The leader has two layers:

- **Pure functions over a state value.** `Boot`, `Mine` and `Handle` act on `Node`, which holds the chain, the pool, the challenge table, the ledger file's contents, and the engine's digest and step counter.
- **The `LeaderNode` class.** Its methods change its fields in place.
  - The constructor, `MineBlock` and `HandleUavRequest` state their effect through `State()`: it equals `Boot`, `Mine` or `Handle` of the old state.
  - `LoadChain`, `SaveChain` and `CreateGenesisBlock` state their effect field by field: the new `chain`, `ledger` and engine digest.

The properties are lemmas about those functions, including that every request keeps the invariant `NodeInv`. `NodeInv` states that:

- at most two transactions wait in the pool;
- challenges are kept only for registered UAVs, and each holds the values derived from that UAV's key;
- every block the node mined links to its predecessor's hash and replays to its own hash;
- the ledger file equals the chain;
- the engine digest is the last block's hash.

The hash engine works step by step, so `EpohCore` is a class whose `RunPoh` runs the nested loop of `create_block`. It is proved against the functions `PohHash` and `EventLog`.

The auditor is a recursive specification (`CheckFrom`, `Verify`) and a method with a `for` loop (`IsValidChain`) proved equal to it.

Where the code's behaviour may be surprising, the model follows the code:

- **Block indices are offset.** `mine_block` passes the chain length and `create_block` adds one (GCS_LeaderNode.py:104, GCS_LeaderNode.py:258), so the indices run 0, 2, 3, … The invariant states `index == i + 1` for every mined block at position `i`.
- **The leader and the auditor hash different things.** The leader links each block to the previous block's proof-of-history `current_hash`. The auditor compares with a fresh hash of the previous block's JSON without `current_hash`. The model keeps both notions apart and relates neither to the other.
- **Transaction ids are not unique.** They use whole seconds (`AuthTxId`, `TelemetryTxId`), so two transactions of the same kind from one UAV in the same second get the same id. An authentication id and a telemetry id never collide, since their prefixes differ.
- **Some failures look alike.** A wrong response and a missing challenge produce the same reply. An unknown SUPI is refused before the request type is looked at.

## Model

| member | source | states |
|---|---|---|
| `Text.Take` | UAV_EPOH_Thesis/epoh_core.py:101 | the `[:n]` truncation is a prefix of the digest, of length min(n, digest length) |
| `Text.NatToStr` | UAV_EPOH_Thesis/epoh_core.py:100 | `str` of a non-negative integer is a non-empty string of decimal digits |
| `Text.ParseIntOfIntToStr` | UAV_EPOH_Thesis/epoh_core.py:100 | `str(n)` read back as an integer gives `n` for every integer (round trip) |
| `Text.IntToStrInjective` | UAV_EPOH_Thesis/epoh_core.py:108-115 | distinct challenge values print differently |
| `Epoh.EpohCore.constructor` | UAV_EPOH_Thesis/epoh_core.py:16-20 | a new engine starts from 64 zeros with step count 0 and the given difficulty |
| `Epoh.EpohCore.GenerateSequentialHash` | UAV_EPOH_Thesis/epoh_core.py:22-28 | latest_hash := H(old latest_hash), count + 1, the new hash is returned |
| `Epoh.EpohCore.EmbedTransaction` | UAV_EPOH_Thesis/epoh_core.py:30-44 | latest_hash := H(old latest_hash ‖ canonical JSON of the payload), count + 1, returns (clock, new hash) |
| `Epoh.EventLogSnoc` | UAV_EPOH_Thesis/epoh_core.py:66-71 | one more transaction appends exactly one entry: its clock reading, the digest after it, and its `tx_id` |
| `Epoh.EpohCore.RunPoh` | UAV_EPOH_Thesis/epoh_core.py:52-71 | after the reset and the nested loop: digest = `PohHash(previous, txs)`, event log = `EventLog(...)`, count = n·(difficulty+1), whatever the engine held before |
| `Epoh.EpohCore.CreateBlock` | GCS_LeaderNode.py:78-113 | the leader copy returns the block `BuildBlock` describes, with index = given chain length + 1; the engine ends on the block's hash |
| `Epoh.EpohCore.CreateStandaloneBlock` | UAV_EPOH_Thesis/epoh_core.py:46-84 | the standalone copy builds the same block with index 1 (the engine never has a `chain` attribute) |
| `Epoh.PohHashSnoc` | UAV_EPOH_Thesis/epoh_core.py:58-64 | one more transaction costs `difficulty` plain steps then one embedding |
| `Epoh.EventLogAt` | UAV_EPOH_Thesis/epoh_core.py:66-71 | event k carries transaction k's `tx_id`, its clock reading, and the digest right after the k-th embedding |
| `Epoh.BlockHashIsLastEvent` | UAV_EPOH_Thesis/epoh_core.py:74-83 | block hash = last event's `hash_at_event`, or `previous_hash` when there are no transactions; `previous_hash` and `transactions` are the arguments |
| `Epoh.BlockHashIsDeterministic` | UAV_EPOH_Thesis/epoh_core.py:53-64 | the block hash depends only on the previous hash, the transactions and the difficulty, not on clock readings or index |
| `Epoh.EventHashesAreDeterministic` | UAV_EPOH_Thesis/epoh_core.py:58-71 | every event's digest and `tx_id` depend only on the previous hash, the transactions and the difficulty |
| `Epoh.SessionKey` | UAV_EPOH_Thesis/epoh_core.py:97-101 | KTx is the prefix of H(K ‖ str(rand)) of length min(16, digest length) |
| `Epoh.GenerateAuthVector` | UAV_EPOH_Thesis/epoh_core.py:103-117 | the vector carries the given challenge, AUTN = H(K ‖ SUPI ‖ str(rand)), XRES\* is the prefix of H(K ‖ str(rand) ‖ "Expected") of length min(10, digest length), and KTx is `SessionKey` |
| `Epoh.AuthVectorShape` | UAV_EPOH_Thesis/epoh_core.py:108-117 | with 64-character digests: AUTN has 64 characters, XRES\* 10 and KTx 16 |
| `Epoh.DistinctChallengesDistinctPreimages` | UAV_EPOH_Thesis/epoh_core.py:110-114 | for one key, different challenge values give different hash inputs for AUTN, XRES\* and KTx |
| `Leader.FreshNodeHasOnlyGenesis` | GCS_LeaderNode.py:119-161 | without a usable ledger the node holds exactly one block: index 0, previous hash '0', hash H('0'·64), saved to the ledger; pool and challenges empty |
| `Leader.AdoptedLedgerIsResumed` | GCS_LeaderNode.py:128-140 | a non-empty parsed ledger is adopted as the chain and the engine resumes from its last hash |
| `Leader.BootEstablishesInv` | GCS_LeaderNode.py:119-126 | start-up establishes the node invariant |
| `Leader.MineAppendsOneBlock` | GCS_LeaderNode.py:250-266 | an empty pool is a no-op; otherwise one block holding the pool, linked to the old last hash, with index old length + 1; earlier blocks untouched, pool empty, ledger saved |
| `Leader.MineKeepsChainInv` | GCS_LeaderNode.py:255-261 | mining keeps every mined block linked to its predecessor and replayable |
| `Leader.UnknownSupiIsRefused` | GCS_LeaderNode.py:170-171 | a missing or unregistered SUPI gets AUTH_FAILURE for every request type, and nothing changes |
| `Leader.ErrorOnlyForUnrecognisedType` | GCS_LeaderNode.py:165-247 | ERROR is the reply if and only if a registered SUPI sends a type other than the three known ones, and then nothing changes |
| `Leader.SessionKeyFieldIsIgnored` | GCS_LeaderNode.py:228-237 | the request's `session_key` never influences the outcome (telemetry is not checked against it) |
| `Leader.AuthRequestIssuesChallenge` | GCS_LeaderNode.py:175-195 | AUTH_REQUEST_1 sets or overwrites only that UAV's challenge, derived from the returned challenge value; chain, pool, ledger and engine unchanged |
| `Leader.AuthResponseSucceeds` | GCS_LeaderNode.py:197-224 | a matching response removes the challenge, mines one block of the prior pool followed by the success transaction, empties the pool and returns KTx |
| `Leader.AuthResponseMismatchChangesNothing` | GCS_LeaderNode.py:202-226 | a wrong response, or one without a challenge, gets AUTH_FAILURE and leaves every part of the state, including the challenge, unchanged |
| `Leader.TelemetryIsPooledAndBatched` | GCS_LeaderNode.py:228-245 | telemetry joins the pool; with two already waiting it mines all three into one block and answers TX_BLOCK_ACK with that block's hash; otherwise TX_RECEIVED with the first 10 characters of the current hash, chain unchanged |
| `Leader.HandlePreservesInv` | GCS_LeaderNode.py:165-247 | every request keeps the invariant: pool of at most 2, challenge keys within the registry and derived from its keys, mined blocks linked and indexed position + 1, ledger = chain |
| `Leader.RetryAfterMismatchSucceeds` | GCS_LeaderNode.py:202-226 | after a refused response the retained challenge still accepts the correct response |
| `Leader.ThirdTelemetryMinesBatch` | GCS_LeaderNode.py:239-245 | from an empty pool: two telemetry requests give TX_RECEIVED and no block; the third gives TX_BLOCK_ACK and exactly one new block holding all three in order |
| `Leader.LeaderNode.constructor` | GCS_LeaderNode.py:119-126 | the new node's state is `Boot` of the parsed ledger and it satisfies the invariant |
| `Leader.LeaderNode.LoadChain` | GCS_LeaderNode.py:128-140 | a non-empty ledger becomes the chain and sets the engine digest; missing, corrupt or empty ledgers leave an empty chain |
| `Leader.LeaderNode.SaveChain` | GCS_LeaderNode.py:143-146 | the ledger file afterwards holds the whole chain |
| `Leader.LeaderNode.CreateGenesisBlock` | GCS_LeaderNode.py:148-163 | appends the block with index 0, previous hash '0', the CHAIN_START event, the genesis transaction and hash one engine step from the current digest, and saves |
| `Leader.LeaderNode.MineBlock` | GCS_LeaderNode.py:250-266 | the new state is `Mine` of the old one |
| `Leader.LeaderNode.HandleUavRequest` | GCS_LeaderNode.py:165-247 | the new state and the reply are `Handle` of the old state and the request; the invariant is kept |
| `ChainVerifier.HashedFieldsDropCurrentHash` | varify_chain.py:6-15 | the hashed dictionary is exactly the stored block dictionary with its `current_hash` key removed |
| `ChainVerifier.HashBlockIgnoresCurrentHash` | varify_chain.py:6-15 | two blocks differing only in `current_hash` have the same canonical hash |
| `ChainVerifier.CheckFrom` | varify_chain.py:37-55 | the scan reports only a pass, a broken link or a chronology failure, and a failure at an index of the scanned range |
| `ChainVerifier.CheckFromPassIff` | varify_chain.py:37-57 | the scan from i passes if and only if every block from i on links to its predecessor's recomputed hash and has a larger timestamp |
| `ChainVerifier.CheckFromBrokenLinkIsFirst` | varify_chain.py:37-50 | a broken link is reported at the first offending index, with the stored and the recomputed hash |
| `ChainVerifier.CheckFromChronologyFailureIsFirst` | varify_chain.py:37-55 | a chronology failure is reported at the first offending index, and only where the link holds |
| `ChainVerifier.IsValidChain` | varify_chain.py:17-57 | the loop with early returns gives exactly the verdict of `Verify` |
| `ChainVerifier.VerifyPassIff` | varify_chain.py:29-57 | a ledger passes if and only if it is non-empty, its genesis `previous_hash` is '0', and each later block links to the recomputed hash of its predecessor and has a strictly larger timestamp |
| `ChainVerifier.VerifyRejectsBadStart` | varify_chain.py:29-34 | an empty ledger and a genesis not pointing at '0' are rejected |
| `ChainVerifier.VerifyReportsFirstFailure` | varify_chain.py:37-55 | a reported failure is at the smallest offending index; a chronology failure is only reported where the link holds |
| `ChainVerifier.SingleGenesisPasses` | varify_chain.py:33-57 | a single block with previous hash '0' passes |
| `ChainVerifier.PrefixOfValidPasses` | varify_chain.py:29-57 | every non-empty prefix of a passing ledger passes |
| `ChainVerifier.TamperingIsDetected` | varify_chain.py:41-50 | replacing block i-1 of a passing ledger with a block of a different canonical hash is reported at index i or earlier |
| `UavClient.CalculateSessionKey` | UAV_EPOH_Thesis/UAV_Client.py:19-22 | the UAV's KTx is the prefix of H(K ‖ str(rand)) of length min(16, digest length) |
| `UavClient.CalculateResStar` | UAV_EPOH_Thesis/UAV_Client.py:24-27 | the UAV's RES\* is the prefix of H(K ‖ str(rand) ‖ "Expected") of length min(10, digest length) |
| `UavClient.ClientAgreesWithLeader` | UAV_EPOH_Thesis/UAV_Client.py:19-27 | for the same key and challenge, RES\* equals the leader's XRES\* and both sides derive the same KTx |
| `UavClient.ClientValueLengths` | UAV_EPOH_Thesis/UAV_Client.py:22-27 | with 64-character digests RES\* has 10 characters and KTx 16, each a digest prefix |
| `UavClient.HandshakeRule` | UAV_EPOH_Thesis/UAV_Client.py:84-106 | AUTH_RESPONSE_2 is sent exactly after CHALLENGE_ISSUED and answers that reply's challenge; telemetry is sent only under a key adopted from AUTH_SUCCESS |
| `UavClient.HonestClientAuthenticates` | UAV_EPOH_Thesis/UAV_Client.py:79-97 | against a leader in any reachable state the honest UAV is challenged, accepted, one block is mined, and it keeps the leader's KTx |
| `UavClient.AuthenticatedTelemetryIsRecorded` | UAV_EPOH_Thesis/UAV_Client.py:106-141 | telemetry is sent exactly under a kept session key, and the leader either pools the reading or mines it in the block it acknowledges |
| `UavClient.WrongKeyIsRefused` | GCS_LeaderNode.py:197-226 | a response derived from a key giving a different RES\* is refused and mines nothing |

## Left out

- Sockets: the accept/receive/send loop and its blanket `except: pass` (GCS_LeaderNode.py:269-296), and all of the UAV's socket traffic. These are I/O plumbing. The handshake is modelled as the requests and replies themselves.
- Ledger file I/O:
  - The ledger at start-up is a value: `None` means missing or not valid JSON, otherwise the parsed list of blocks. Start-up reads only `current_hash` of the last element (GCS_LeaderNode.py:133-134) and catches only `JSONDecodeError` and `IndexError`. So:
    - a non-empty list whose last element has `current_hash` is adopted whatever its other elements hold;
    - a JSON object, number, `null` or non-empty string stops start-up with an uncaught `KeyError` or `TypeError` (an empty string raises the caught `IndexError` and starts a new chain);
    - a non-empty list whose last element lacks `current_hash` stops start-up with an uncaught `KeyError`.

    Typed blocks can express none of these cases.
  - Saving is the `ledger` field.
  - Deleting the ledger before start-up (GCS_LeaderNode.py:298-301) is not modelled; it amounts to starting with `None`.
- `ChainVerifier.IsValidChain` and `ChainVerifier.HashBlock` work on typed, leader-shaped blocks, while `is_valid_chain` takes any JSON list of dictionaries. Two behaviours are lost:
  - the uncaught `KeyError` for a block without `previous_hash` or `timestamp` (varify_chain.py:33, varify_chain.py:46, varify_chain.py:54);
  - hashing of blocks with extra keys, or with transactions and events of other shapes (varify_chain.py:9-15).

  So `ChainVerifier.TamperingIsDetected` covers only forged blocks of the leader's shape.
- The auditor takes the ledger as a value. Its "file missing or corrupted" result and its printed messages are not modelled. Its verdict carries the failing index and both hashes instead.
- SHA-256 and `json.dumps(sort_keys=True)` are uninterpreted functions (`Crypto`). UTF-8 encoding is folded into the hash. The digest length is assumed to be 64 only where a lemma says so.
- Time:
  - `time.time()` readings are integer parameters: `now` in seconds, the challenge value `rand`, and `clock(k)` for the k-th reading while a block is built.
  - Floats and the link `rand = int(time.time() * 1000)` are not modelled.
  - Timestamps are integers, so the auditor's `<=` compares integers.
- Telemetry payloads are arbitrary JSON values without floats.
- `generate_key_pair_simulated` returns constants.
- The GCS engine's unused `chain` attribute (GCS_LeaderNode.py:58) is left out.
- Log `print`s are left out.
- `Epoh.EpohCore.RunPoh` and `Epoh.EpohCore.CreateStandaloneBlock` accept only the leader's three transaction shapes, not arbitrary JSON dictionaries. So a payload without a `tx_id`, which the standalone engine logs with a `None` id (UAV_EPOH_Thesis/epoh_core.py:71), is not modelled.
- `Epoh.EpohCore.CreateStandaloneBlock`: the `hasattr(self, 'chain')` test is taken as false, because that engine never sets `chain`. Attaching a `chain` from outside is not modelled.
- `Epoh.EpohCore.RunPoh`: the difficulty is a `nat`. Python's `range` of a negative difficulty runs no steps, and that is not modelled.
- The dashboards (GCS_Dashboard.py, GCS_Table_Dashboard.py and its copy, GCS_Combined_Dashboard.py) are read-only UI.
- UAV flight control is left out: AirSim take-off, waypoints, landing, the final landing transaction and `get_telemetry_data`.
- No lemma relates the leader's chains to the auditor. The two use different hash notions, so a chain the leader writes generally does not pass the audit.
