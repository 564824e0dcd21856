/** Transaction classification: the privilege tier a signable transaction
    needs, decided from the kind of its metadata alone. */
module Classifier {
  import opened Wrappers

  /** A public key as raw bytes. The source compares keys through their hex
      encoding, which is injective, so comparing the bytes is the same test. */
  type PublicKey = seq<bv8>

  /** The metadata kinds the classifier names, plus `Other` for every kind it
      does not name. */
  datatype TxKind =
    | BasicTransfer | BitcoinExchange | UpdateBitcoinUSDExchangeRate
    | CreatorCoin | CreatorCoinTransfer | SwapIdentity | UpdateGlobalParams
    | UpdateProfile | CreateNFT | UpdateNFT | AcceptNFTBid | NFTBid
    | NFTTransfer | AcceptNFTTransfer | BurnNFT | AuthorizeDerivedKey
    | Follow | PrivateMessage | SubmitPost | Like
    | Other

  datatype Output = Output(publicKey: PublicKey, amountNanos: nat)

  /** An already-parsed transaction: its metadata kind, the sender's key and
      its outputs. */
  datatype Transaction = Transaction(kind: TxKind, publicKey: PublicKey, outputs: seq<Output>)

  /** The access tiers the core refers to by name. */
  datatype AccessLevel = ApproveLarge | ApproveAll | Full

  /** The integer values of the access-level enumeration. The enumeration is
      defined outside this core, so the codes are parameters and no order
      between them is assumed. */
  datatype LevelCodes = LevelCodes(approveLarge: int, approveAll: int, full: int)
  {
    function Code(l: AccessLevel): int
    {
      match l
      case ApproveLarge => approveLarge
      case ApproveAll => approveAll
      case Full => full
    }

    /** The members of an enumeration have pairwise different values. */
    predicate Distinct()
    {
      approveLarge != approveAll && approveLarge != full && approveAll != full
    }
  }

  /** The kinds that move or could move funds, or change authorisation state. */
  const FundsKinds: set<TxKind> :=
    {BasicTransfer, BitcoinExchange, UpdateBitcoinUSDExchangeRate, CreatorCoin,
     CreatorCoinTransfer, SwapIdentity, UpdateGlobalParams, UpdateProfile,
     CreateNFT, UpdateNFT, AcceptNFTBid, NFTBid, NFTTransfer, AcceptNFTTransfer,
     BurnNFT, AuthorizeDerivedKey}

  /** The kinds that only touch social or content state. */
  const SocialKinds: set<TxKind> := {Follow, PrivateMessage, SubmitPost, Like}

  /** The tier a transaction needs: `ApproveLarge` exactly for the social
      kinds, `Full` for everything else, unnamed kinds included. */
  function RequiredAccessLevel(tx: Transaction): (r: AccessLevel)
    ensures r == ApproveLarge <==> tx.kind in SocialKinds
    ensures r == Full <==> tx.kind !in SocialKinds
    ensures tx.kind in FundsKinds ==> r == Full
  {
    match tx.kind
    case BasicTransfer => Full
    case BitcoinExchange => Full
    case UpdateBitcoinUSDExchangeRate => Full
    case CreatorCoin => Full
    case CreatorCoinTransfer => Full
    case SwapIdentity => Full
    case UpdateGlobalParams => Full
    case UpdateProfile => Full
    case CreateNFT => Full
    case UpdateNFT => Full
    case AcceptNFTBid => Full
    case NFTBid => Full
    case NFTTransfer => Full
    case AcceptNFTTransfer => Full
    case BurnNFT => Full
    case AuthorizeDerivedKey => Full
    case Follow => ApproveLarge
    case PrivateMessage => ApproveLarge
    case SubmitPost => ApproveLarge
    case Like => ApproveLarge
    case _ => Full
  }

  /** All outputs pay the sender back. */
  predicate PaysOnlySender(tx: Transaction)
  {
    forall i | 0 <= i < |tx.outputs| :: tx.outputs[i].publicKey == tx.publicKey
  }

  /** The position of the first output paying a key other than `sender`. */
  function FirstForeignOutput(outputs: seq<Output>, sender: PublicKey): (r: Option<nat>)
    ensures r.Some? ==> r.value < |outputs| && outputs[r.value].publicKey != sender
    ensures r.Some? ==> forall j | 0 <= j < r.value :: outputs[j].publicKey == sender
    ensures r.None? <==> forall j | 0 <= j < |outputs| :: outputs[j].publicKey == sender
  {
    if |outputs| == 0 then None
    else if outputs[0].publicKey != sender then Some(0)
    else match FirstForeignOutput(outputs[1..], sender)
      case None => None
      case Some(k) => Some(k + 1)
  }
}
