/** One end-to-end mint (`_mintCandyMachineToken` and `mintCandyMachineToken`,
    src/utils/minting-utils.ts): read the chain, assemble and send the
    transaction, then wait for its confirmation; any thrown error becomes an
    error outcome carrying a user-facing warning. */
module Minting {
  import opened Wrappers
  import opened WarningMessages
  import opened Instructions

  type TxId = string

  /** The distribution machine's on-chain state, as far as minting reads it. */
  datatype CandyMachineState = CandyMachineState(wallet: Address)

  /** The chain services the helper awaits, each of which may throw:
      the program's interface descriptor (a missing one makes building the
      program client throw as well), the machine's account, the rent-exempt
      balance for a given size, and the broadcaster. */
  datatype Chain = Chain(
    fetchIdl: Address -> Result<(), ThrownError>,
    fetchCandyMachine: Address -> Result<CandyMachineState, ThrownError>,
    minimumBalanceForRentExemption: nat -> Result<nat, ThrownError>,
    sendTransaction: (Address, seq<Instruction>, seq<Address>) -> Result<TxId, ThrownError>)

  /** What is handed to the broadcaster: the fee payer, the instructions and
      the signers it must add besides the fee payer. */
  datatype MintTransaction = MintTransaction(feePayer: Address, instructions: seq<Instruction>, signers: seq<Address>)

  /** What a successful submission returns: the transaction id and the mint key. */
  datatype Submission = Submission(txid: TxId, mint: Address)

  /** The state of the promise `mintCandyMachineToken` returns. */
  datatype Outcome =
    | Pending
    | Resolved(mintAddress: Address)
    | ErrorOutcome(error: ThrownError, message: string)

  /** A confirmation notification: a status (with the transaction's error, if
      any) or an acknowledgement that the signature was received. `Some(_)`
      stands for any non-null transaction error, which is always truthy; `None`
      stands for the null `err` of a successful transaction. */
  datatype Notification = Status(err: Option<string>) | Received

  /** The notification settles the mint: a status without error. */
  predicate Confirms(n: Notification) {
    n.Status? && n.err.None?
  }

  /** Every instruction signature is provided: each required signer is the fee
      payer or one of the explicit signers. */
  predicate Signable(tx: MintTransaction) {
    forall i | 0 <= i < |tx.instructions| :: RequiredSigners(tx.instructions[i]) <= {tx.feePayer} + set s | s in tx.signers
  }

  /** Reads the chain and assembles the transaction, in the order of the awaits:
      interface descriptor, token account derivation, machine account, rent
      balance for a mint record, metadata / edition / creator derivations. */
  function PrepareMint(ids: ProgramIds, d: Derivations, chain: Chain, candyMachine: Address, recipient: Address, mint: Address)
    : (r: Result<MintTransaction, ThrownError>)
    ensures chain.fetchIdl(ids.candyMachineProgram).Failure? ==> r == Failure(chain.fetchIdl(ids.candyMachineProgram).error)
    ensures chain.fetchIdl(ids.candyMachineProgram).Success? && chain.fetchCandyMachine(candyMachine).Failure? ==>
      r == Failure(chain.fetchCandyMachine(candyMachine).error)
    ensures && chain.fetchIdl(ids.candyMachineProgram).Success?
            && chain.fetchCandyMachine(candyMachine).Success?
            && chain.minimumBalanceForRentExemption(MintLayoutSpan).Failure?
            ==> r == Failure(chain.minimumBalanceForRentExemption(MintLayoutSpan).error)
    ensures r.Success? <==>
      && chain.fetchIdl(ids.candyMachineProgram).Success?
      && chain.fetchCandyMachine(candyMachine).Success?
      && chain.minimumBalanceForRentExemption(MintLayoutSpan).Success?
    ensures r.Success? ==> r.value.feePayer == recipient && r.value.signers == [mint]
    ensures r.Success? ==> r.value.instructions == MintInstructions(ids, d, MintInputs(candyMachine, recipient, mint,
      chain.minimumBalanceForRentExemption(MintLayoutSpan).value, chain.fetchCandyMachine(candyMachine).value.wallet))
    ensures r.Success? ==> Signable(r.value)
    ensures r.Success? ==> mint in RequiredSigners(r.value.instructions[0])
  {
    var idl :- chain.fetchIdl(ids.candyMachineProgram);
    var state :- chain.fetchCandyMachine(candyMachine);
    var lamports :- chain.minimumBalanceForRentExemption(MintLayoutSpan);
    var inputs := MintInputs(candyMachine, recipient, mint, lamports, state.wallet);
    Success(MintTransaction(recipient, MintInstructions(ids, d, inputs), [mint]))
  }

  /** Prepares the transaction and hands it to the broadcaster with the
      recipient as fee payer and the mint key as the only extra signer. */
  function SubmitMint(ids: ProgramIds, d: Derivations, chain: Chain, candyMachine: Address, recipient: Address, mint: Address)
    : (r: Result<Submission, ThrownError>)
    ensures PrepareMint(ids, d, chain, candyMachine, recipient, mint).Failure? ==>
      r == Failure(PrepareMint(ids, d, chain, candyMachine, recipient, mint).error)
    ensures PrepareMint(ids, d, chain, candyMachine, recipient, mint).Success? ==>
      var tx := PrepareMint(ids, d, chain, candyMachine, recipient, mint).value;
      r == (match chain.sendTransaction(recipient, tx.instructions, [mint])
            case Success(txid) => Success(Submission(txid, mint))
            case Failure(e) => Failure(e))
  {
    var tx :- PrepareMint(ids, d, chain, candyMachine, recipient, mint);
    var txid :- chain.sendTransaction(tx.feePayer, tx.instructions, tx.signers);
    Success(Submission(txid, mint))
  }

  /** The confirmation callback: the first error-free status resolves the
      promise with the mint address; resolution is one-shot, and every other
      notification (including a status carrying an error) changes nothing. */
  function HandleNotification(s: Outcome, mint: Address, n: Notification): (s': Outcome)
    ensures s.Pending? && Confirms(n) ==> s' == Resolved(mint)
    ensures !(s.Pending? && Confirms(n)) ==> s' == s
  {
    if n.Status? && n.err.None? && s.Pending? then Resolved(mint) else s
  }

  /** The state after the callback has seen `ns`, in order. The only move it
      can make is from pending to resolved with the mint address. */
  function Deliver(s: Outcome, mint: Address, ns: seq<Notification>): (r: Outcome)
    ensures r == s || (s.Pending? && r == Resolved(mint))
    decreases |ns|
  {
    if |ns| == 0 then s else Deliver(HandleNotification(s, mint, ns[0]), mint, ns[1..])
  }

  /** The catch path: the error is kept and paired with its warning. */
  function CatchError(e: ThrownError): (o: Outcome)
    ensures o.ErrorOutcome? && o.error == e
    ensures o.message in Warnings && o.message != InsufficientFunds
  {
    ErrorOutcome(e, WarningMessage(e))
  }

  /** `mintCandyMachineToken`: a failed submission is caught, otherwise the
      promise waits on the notifications delivered for the transaction. */
  function MintCandyMachineToken(ids: ProgramIds, d: Derivations, chain: Chain, candyMachine: Address,
                                 recipient: Address, mint: Address, ns: seq<Notification>): (o: Outcome)
    ensures o.ErrorOutcome? <==> SubmitMint(ids, d, chain, candyMachine, recipient, mint).Failure?
    ensures o.ErrorOutcome? ==> o.message == WarningMessage(o.error)
    ensures o.Resolved? ==> o.mintAddress == mint
  {
    match SubmitMint(ids, d, chain, candyMachine, recipient, mint)
    case Failure(e) => CatchError(e)
    case Success(sub) => Deliver(Pending, sub.mint, ns)
  }

  /** Once settled, the outcome never changes. */
  lemma {:induction false} DeliverSettled(s: Outcome, mint: Address, ns: seq<Notification>)
    requires !s.Pending?
    ensures Deliver(s, mint, ns) == s
    decreases |ns|
  {
    if |ns| > 0 {
      DeliverSettled(HandleNotification(s, mint, ns[0]), mint, ns[1..]);
    }
  }

  /** A pending mint resolves, with the mint address, exactly when some delivered
      notification is an error-free status; otherwise it stays pending. */
  lemma {:induction false} DeliverResolvesIff(mint: Address, ns: seq<Notification>)
    ensures Deliver(Pending, mint, ns) == Resolved(mint) <==> exists i | 0 <= i < |ns| :: Confirms(ns[i])
    ensures Deliver(Pending, mint, ns) == Resolved(mint) || Deliver(Pending, mint, ns) == Pending
    decreases |ns|
  {
    if |ns| > 0 {
      if Confirms(ns[0]) {
        DeliverSettled(Resolved(mint), mint, ns[1..]);
      } else {
        DeliverResolvesIff(mint, ns[1..]);
        if exists i | 0 <= i < |ns[1..]| :: Confirms(ns[1..][i]) {
          var i :| 0 <= i < |ns[1..]| && Confirms(ns[1..][i]);
          assert Confirms(ns[i + 1]);
        }
        if exists i | 0 <= i < |ns| :: Confirms(ns[i]) {
          var i :| 0 <= i < |ns| && Confirms(ns[i]);
          assert Confirms(ns[1..][i - 1]);
        }
      }
    }
  }

  /** A submission that fails at any step (reading the chain or sending) ends
      in the error outcome for that error, whatever notifications follow. */
  lemma SubmissionFailureIsCaught(ids: ProgramIds, d: Derivations, chain: Chain, candyMachine: Address,
                                  recipient: Address, mint: Address, ns: seq<Notification>)
    requires SubmitMint(ids, d, chain, candyMachine, recipient, mint).Failure?
    ensures var e := SubmitMint(ids, d, chain, candyMachine, recipient, mint).error;
      MintCandyMachineToken(ids, d, chain, candyMachine, recipient, mint, ns) == ErrorOutcome(e, WarningMessage(e))
  {
  }

  /** After a successful submission the mint resolves to the generated mint key
      exactly when an error-free status arrives; a status carrying an error
      does not resolve it. It is never an error outcome. */
  lemma SubmittedMintOutcome(ids: ProgramIds, d: Derivations, chain: Chain, candyMachine: Address,
                             recipient: Address, mint: Address, ns: seq<Notification>)
    requires SubmitMint(ids, d, chain, candyMachine, recipient, mint).Success?
    ensures var o := MintCandyMachineToken(ids, d, chain, candyMachine, recipient, mint, ns);
      && (o == Resolved(mint) <==> exists i | 0 <= i < |ns| :: Confirms(ns[i]))
      && (o == Resolved(mint) || o == Pending)
  {
    DeliverResolvesIff(mint, ns);
  }

  /** A structured "sold out" error (code 311) thrown by the broadcaster ends
      in the sold-out warning. */
  lemma SoldOutOnSend(ids: ProgramIds, d: Derivations, chain: Chain, candyMachine: Address,
                      recipient: Address, mint: Address, ns: seq<Notification>, e: ThrownError)
    requires PrepareMint(ids, d, chain, candyMachine, recipient, mint).Success?
    requires HasMsg(e) && e.code == Some(311)
    requires var tx := PrepareMint(ids, d, chain, candyMachine, recipient, mint).value;
      chain.sendTransaction(recipient, tx.instructions, [mint]) == Failure(e)
    ensures MintCandyMachineToken(ids, d, chain, candyMachine, recipient, mint, ns) == ErrorOutcome(e, SoldOut)
  {
  }

  /** A transport failure in any of the chain reads (the interface descriptor,
      the machine account or the rent query: an error without a program `msg`
      whose text does not start with "0x138") ends in the generic warning. */
  lemma ChainReadFailureWarning(ids: ProgramIds, d: Derivations, chain: Chain, candyMachine: Address,
                                recipient: Address, mint: Address, ns: seq<Notification>)
    requires PrepareMint(ids, d, chain, candyMachine, recipient, mint).Failure?
    requires var e := PrepareMint(ids, d, chain, candyMachine, recipient, mint).error;
      !HasMsg(e) && !("0x138" <= e.message)
    ensures var e := PrepareMint(ids, d, chain, candyMachine, recipient, mint).error;
      MintCandyMachineToken(ids, d, chain, candyMachine, recipient, mint, ns) == ErrorOutcome(e, MintFailed)
  {
    UnstructuredWarningNotPrefixed(PrepareMint(ids, d, chain, candyMachine, recipient, mint).error);
  }
}
