/** The records exchanged by buyer and server (x402/src/types.ts). */
module Types {
  import opened Common

  datatype Settlement = Transfer | Stream | Netting

  /** One fee line that a direct-split payment has to prove. */
  datatype SplitRequirement = SplitRequirement(
    feeLineId: string, kind: string, recipient: string, amount: nat, token: string)

  /** Ids are positions: the server never deletes a quote, a commit or a receipt. */
  datatype Quote = Quote(
    quoteId: nat, resource: string, amount: nat, fee: nat, total: nat, mint: string, recipient: string,
    expiresAt: nat, settlement: seq<Settlement>, memoHash: string,
    split: seq<SplitRequirement>, waterfall: bool)

  datatype PaymentProof =
    | TransferProof(txSignature: string, amountHint: Option<nat>)
    | StreamProof(streamId: string)
    | NettingProof
  {
    function Mode(): Settlement {
      match this
      case TransferProof(_, _) => Transfer
      case StreamProof(_) => Stream
      case NettingProof => Netting
    }
  }

  /** What the payment verifier says about a proof. */
  datatype Verification = Verification(
    ok: bool, settledOnchain: bool, txSignature: Option<string>, streamId: Option<string>)

  /** A stored commit, or the commit record made up for a header payment. */
  datatype CommitRef = Stored(id: nat) | Synthetic(request: nat)

  datatype SplitProof = SplitProof(
    feeLineId: string, kind: string, recipient: string, amount: nat, token: string,
    settlement: Settlement, txSignature: string)

  datatype ReceiptPayload = ReceiptPayload(
    receiptId: nat, quoteId: nat, commitId: CommitRef, resource: string,
    requestDigest: string, responseDigest: string, payer: string, recipient: string, mint: string,
    amount: nat, fee: nat, total: nat, settlement: Settlement, settledOnchain: bool,
    txSignature: Option<string>, streamId: Option<string>,
    splitProofs: Option<seq<SplitProof>>, createdAt: nat)

  datatype SignedReceipt = SignedReceipt(
    payload: ReceiptPayload, prevHash: string, receiptHash: string,
    signerPublicKey: string, signature: string)

  /** JSON values, with an embedded receipt as one of its leaves. */
  datatype Json =
    | JNull
    | JBool(b: bool)
    | JString(s: string)
    | JObject(fields: seq<(string, Json)>)
    | JReceipt(receipt: SignedReceipt)
}
