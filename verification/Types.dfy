/**
 The rows the chain-state writer reads and writes. Hashes, addresses, asset identifiers and
 transaction ids are compared for equality only, so natural numbers stand for them.
 */
module Types {

  datatype Option<+T> = None | Some(value: T)

  type Hash = nat     // an index_block_hash, the primary key of a block
  type Address = nat
  type TxId = nat
  type Asset = nat

  /** The `token` column of ft_balances: 'stx', or the identifier of a fungible token. */
  datatype Token = Stx | Ft(asset: Asset)

  /** ft_balances is unique on (address, token). */
  datatype Key = Key(address: Address, token: Token)

  /** The `asset_event_type_id` column: 1, 2 and 3. */
  datatype AssetEventType = Transfer | Mint | Burn

  datatype StxEvent = StxEvent(kind: AssetEventType, sender: Option<Address>, recipient: Option<Address>, amount: nat)

  datatype FtEvent = FtEvent(asset: Asset, transfer: StxEvent)

  function SetOf<T>(s: seq<T>): set<T> {
    set x | x in s
  }

  function Reverse<T>(s: seq<T>): seq<T> {
    seq(|s|, i requires 0 <= i < |s| => s[|s| - 1 - i])
  }

  /** Rows per INSERT statement. */
  const INSERT_BATCH_SIZE := 500

  /** A transfer has both parties, a mint only a recipient, a burn only a sender. */
  predicate WellFormed(e: StxEvent) {
    match e.kind
    case Transfer => e.sender.Some? && e.recipient.Some?
    case Mint => e.sender.None? && e.recipient.Some?
    case Burn => e.sender.Some? && e.recipient.None?
  }

  /** A transaction is sponsored exactly when it has a sponsor, who then pays the fee. */
  datatype Tx = Tx(txId: TxId, sender: Address, sponsor: Option<Address>, nonce: nat, fee: nat,
                   txIndex: nat, burnBlockTime: nat, otherPrincipals: set<Address>)
  {
    function Payer(): Address {
      if sponsor.Some? then sponsor.value else sender
    }
  }

  datatype Reward = Reward(recipient: Address, matureBlockHeight: nat, coinbase: nat, feesAnchored: nat,
                           feesStreamedConfirmed: nat, feesStreamedProduced: nat)
  {
    function Amount(): nat {
      coinbase + feesAnchored + feesStreamedConfirmed + feesStreamedProduced
    }
  }

  /** The per-block tables that carry a canonical flag and nothing else the writer computes with. */
  datatype FlagTable =
    | StxLockEvents | NftEvents | Pox2Events | Pox3Events | Pox4Events
    | ContractLogs | SmartContracts | PoxSets | PoxCycles

  datatype Flagged = Flagged(table: FlagTable, payload: nat)

  datatype BlockInfo = BlockInfo(parent: Hash, height: nat, time: nat, signed: bool)

  datatype TxEntry = TxEntry(tx: Tx, stxEvents: seq<StxEvent>, ftEvents: seq<FtEvent>)

  /** One block update message: `hash` identifies its content. */
  datatype BlockData = BlockData(hash: Hash, info: BlockInfo, txs: seq<TxEntry>, rewards: seq<Reward>,
                                 flagged: seq<Flagged>)

  function TxsOf(entries: seq<TxEntry>): seq<Tx> {
    if entries == [] then [] else TxsOf(entries[..|entries| - 1]) + [entries[|entries| - 1].tx]
  }

  function StxEventsOf(entries: seq<TxEntry>): seq<StxEvent> {
    if entries == [] then [] else StxEventsOf(entries[..|entries| - 1]) + entries[|entries| - 1].stxEvents
  }

  function FtEventsOf(entries: seq<TxEntry>): seq<FtEvent> {
    if entries == [] then [] else FtEventsOf(entries[..|entries| - 1]) + entries[|entries| - 1].ftEvents
  }

  /** The messages a node sends: heights start at 1, events are well formed, tx ids differ inside a block. */
  ghost predicate ValidData(d: BlockData) {
    && 1 <= d.info.height
    && (forall e :: e in StxEventsOf(d.txs) ==> WellFormed(e))
    && (forall e :: e in FtEventsOf(d.txs) ==> WellFormed(e.transfer))
    && (forall i, j :: 0 <= i < j < |d.txs| ==> d.txs[i].tx.txId != d.txs[j].tx.txId)
  }
}
