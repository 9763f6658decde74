/** The on-chain operations the minting helper asks for, and the builder that
    lays them out (`_createAssociatedTokenAccountInstruction` and the list
    assembled in `_mintCandyMachineToken`, src/utils/minting-utils.ts). */
module Instructions {
  import opened Wrappers

  /** An on-chain address (a 32-byte public key); its bytes are never inspected. */
  datatype Address = PublicKey(bytes: seq<bv8>)

  newtype u8 = x: int | 0 <= x < 256

  /** Size in bytes of an SPL token mint record (`MintLayout.span`). */
  const MintLayoutSpan: nat := 82

  /** The well-known program ids and sysvar addresses the builder names. */
  datatype ProgramIds = ProgramIds(
    systemProgram: Address,
    tokenProgram: Address,
    associatedTokenProgram: Address,
    tokenMetadataProgram: Address,
    candyMachineProgram: Address,
    rentSysvar: Address,
    clockSysvar: Address,
    recentBlockhashesSysvar: Address,
    instructionsSysvar: Address)

  /** The address derivations the builder consults. They are deterministic, so
      they are given as functions; what they compute is not part of this model. */
  datatype Derivations = Derivations(
    tokenWallet: (Address, Address) -> Address,        // (wallet, mint) -> associated token account
    metadataPda: Address -> Address,                    // mint -> metadata record
    masterEditionPda: Address -> Address,               // mint -> master edition record
    candyMachineCreator: Address -> (Address, u8))      // machine -> (creator authority, bump)

  /** One account of an instruction, with its signer and writable flags. */
  datatype AccountMeta = AccountMeta(pubkey: Address, isSigner: bool, isWritable: bool)

  /** The accounts handed to the distribution program's `mintNft` entry point. */
  datatype MintNftAccounts = MintNftAccounts(
    candyMachine: Address,
    candyMachineCreator: Address,
    payer: Address,
    wallet: Address,
    mint: Address,
    metadata: Address,
    masterEdition: Address,
    mintAuthority: Address,
    updateAuthority: Address,
    tokenMetadataProgram: Address,
    tokenProgram: Address,
    systemProgram: Address,
    rent: Address,
    clock: Address,
    recentBlockhashes: Address,
    instructionSysvarAccount: Address)

  /** The operations of a mint transaction, each carrying the arguments it was
      built from (their byte encoding belongs to the token libraries). */
  datatype Instruction =
    | CreateAccount(fromPubkey: Address, newAccountPubkey: Address, lamports: nat, space: nat, owner: Address)
    | InitializeMint(programId: Address, mint: Address, decimals: nat, mintAuthority: Address, freezeAuthority: Option<Address>)
    | CreateAssociatedTokenAccount(keys: seq<AccountMeta>, programId: Address, data: seq<bv8>)
    | MintTo(programId: Address, mint: Address, destination: Address, authority: Address, multiSigners: seq<Address>, amount: nat)
    | MintNft(programId: Address, creatorBump: u8, accounts: MintNftAccounts)

  function Elements(s: seq<Address>): (r: set<Address>) {
    set a | a in s
  }

  /** The addresses of `keys`; only the signer ones when `signersOnly`. */
  function MetaAddresses(keys: seq<AccountMeta>, signersOnly: bool): (r: set<Address>) {
    if |keys| == 0 then {}
    else (if signersOnly && !keys[0].isSigner then {} else {keys[0].pubkey}) + MetaAddresses(keys[1..], signersOnly)
  }

  lemma {:induction false} NoSignerMetas(keys: seq<AccountMeta>)
    requires forall i | 0 <= i < |keys| :: !keys[i].isSigner
    ensures MetaAddresses(keys, true) == {}
    decreases |keys|
  {
    if |keys| > 0 {
      NoSignerMetas(keys[1..]);
    }
  }

  function MintNftAddresses(a: MintNftAccounts): (r: set<Address>) {
    {a.candyMachine, a.candyMachineCreator, a.payer, a.wallet, a.mint, a.metadata, a.masterEdition,
     a.mintAuthority, a.updateAuthority, a.tokenMetadataProgram, a.tokenProgram, a.systemProgram,
     a.rent, a.clock, a.recentBlockhashes, a.instructionSysvarAccount}
  }

  /** Every address an instruction names, as an account or as an argument,
      other than the program it runs. */
  function Mentions(ins: Instruction): (r: set<Address>) {
    match ins
    case CreateAccount(from, acct, _, _, owner) => {from, acct, owner}
    case InitializeMint(_, mint, _, auth, freeze) =>
      {mint, auth} + (if freeze.Some? then {freeze.value} else {})
    case CreateAssociatedTokenAccount(keys, _, _) => MetaAddresses(keys, false)
    case MintTo(_, mint, dest, auth, multi, _) => {mint, dest, auth} + Elements(multi)
    case MintNft(_, _, accts) => MintNftAddresses(accts)
  }

  /** The account an instruction brings into existence, if any: the new account
      of a system create-account, the associated address of an associated-token
      create. */
  predicate Creates(ins: Instruction, a: Address) {
    || (ins.CreateAccount? && ins.newAccountPubkey == a)
    || (ins.CreateAssociatedTokenAccount? && |ins.keys| > 1 && ins.keys[1].pubkey == a)
  }

  /** The addresses whose signatures an instruction needs: both parties of a
      create-account, the flagged metas of a raw instruction, the authority of a
      single-signer mint-to (its multisig signers otherwise), and the payer and
      the two authorities of `mintNft`. Initialising a mint needs none. */
  function RequiredSigners(ins: Instruction): (r: set<Address>) {
    match ins
    case CreateAccount(from, acct, _, _, _) => {from, acct}
    case InitializeMint(_, _, _, _, _) => {}
    case CreateAssociatedTokenAccount(keys, _, _) => MetaAddresses(keys, true)
    case MintTo(_, _, _, auth, multi, _) => if |multi| == 0 then {auth} else Elements(multi)
    case MintNft(_, _, accts) => {accts.payer, accts.mintAuthority, accts.updateAuthority}
  }

  /** Account `a` is created before anything else refers to it: every instruction
      that mentions `a` is, or is preceded by, one that creates it. */
  predicate CreatedBeforeUse(ins: seq<Instruction>, a: Address) {
    forall j | 0 <= j < |ins| && a in Mentions(ins[j]) :: exists i | 0 <= i <= j :: Creates(ins[i], a)
  }

  /** The instruction that creates the associated token account `associated` of
      `wallet` for `mint`, paid for by `payer`. */
  function AssociatedTokenAccountInstruction(
    ids: ProgramIds, associated: Address, payer: Address, wallet: Address, mint: Address): (r: Instruction)
    ensures r.CreateAssociatedTokenAccount?
    ensures r.programId == ids.associatedTokenProgram && r.data == []
    ensures |r.keys| == 7
    ensures forall i | 0 <= i < 7 :: r.keys[i].isSigner <==> i == 0
    ensures forall i | 0 <= i < 7 :: r.keys[i].isWritable <==> i <= 1
    ensures r.keys[0].pubkey == payer && r.keys[1].pubkey == associated
    ensures r.keys[2].pubkey == wallet && r.keys[3].pubkey == mint
    ensures r.keys[4].pubkey == ids.systemProgram && r.keys[5].pubkey == ids.tokenProgram
    ensures r.keys[6].pubkey == ids.rentSysvar
    ensures RequiredSigners(r) == {payer}
    ensures Creates(r, associated)
  {
    var keys := [
      AccountMeta(payer, true, true),
      AccountMeta(associated, false, true),
      AccountMeta(wallet, false, false),
      AccountMeta(mint, false, false),
      AccountMeta(ids.systemProgram, false, false),
      AccountMeta(ids.tokenProgram, false, false),
      AccountMeta(ids.rentSysvar, false, false)];
    NoSignerMetas(keys[1..]);
    CreateAssociatedTokenAccount(keys, ids.associatedTokenProgram, [])
  }

  /** The values the builder needs that come from the chain or from the caller:
      the fresh mint key, the rent-exempt balance, and the machine's payout wallet. */
  datatype MintInputs = MintInputs(
    candyMachine: Address,
    recipient: Address,
    mint: Address,
    rentLamports: nat,
    candyMachineWallet: Address)

  /** The distribution program's `mintNft` call, with the derived creator bump. */
  function MintNftInstruction(ids: ProgramIds, d: Derivations, m: MintInputs): (r: Instruction) {
    var (creator, bump) := d.candyMachineCreator(m.candyMachine);
    MintNft(ids.candyMachineProgram, bump, MintNftAccounts(
      candyMachine := m.candyMachine,
      candyMachineCreator := creator,
      payer := m.recipient,
      wallet := m.candyMachineWallet,
      mint := m.mint,
      metadata := d.metadataPda(m.mint),
      masterEdition := d.masterEditionPda(m.mint),
      mintAuthority := m.recipient,
      updateAuthority := m.recipient,
      tokenMetadataProgram := ids.tokenMetadataProgram,
      tokenProgram := ids.tokenProgram,
      systemProgram := ids.systemProgram,
      rent := ids.rentSysvar,
      clock := ids.clockSysvar,
      recentBlockhashes := ids.recentBlockhashesSysvar,
      instructionSysvarAccount := ids.instructionsSysvar))
  }

  /** The instruction list of a mint, in the order the helper assembles it. */
  function MintInstructions(ids: ProgramIds, d: Derivations, m: MintInputs): (r: seq<Instruction>)
    ensures |r| == 5
    ensures r[0].CreateAccount? && r[1].InitializeMint? && r[2].CreateAssociatedTokenAccount?
    ensures r[3].MintTo? && r[4].MintNft?
    ensures CreatedBeforeUse(r, m.mint)
    ensures forall i | 0 <= i < |r| :: RequiredSigners(r[i]) <= {m.recipient, m.mint}
  {
    var userTokenAccount := d.tokenWallet(m.recipient, m.mint);
    [
      CreateAccount(m.recipient, m.mint, m.rentLamports, MintLayoutSpan, ids.tokenProgram),
      InitializeMint(ids.tokenProgram, m.mint, 0, m.recipient, Some(m.recipient)),
      AssociatedTokenAccountInstruction(ids, userTokenAccount, m.recipient, m.recipient, m.mint),
      MintTo(ids.tokenProgram, m.mint, userTokenAccount, m.recipient, [], 1),
      MintNftInstruction(ids, d, m)
    ]
  }

  /** The arguments of the five instructions: a mint-sized account owned by the
      token program and funded by the recipient; a zero-decimal mint whose mint and
      freeze authority are the recipient; the recipient's associated account, paid
      for by the recipient; exactly one token minted into it on the recipient's
      sole authority; and `mintNft` with the derived creator bump, the recipient
      as payer and both authorities, the machine's fetched payout wallet, and
      the well-known programs and sysvars in their named slots. */
  lemma MintInstructionArguments(ids: ProgramIds, d: Derivations, m: MintInputs)
    ensures var r := MintInstructions(ids, d, m);
      var ata := d.tokenWallet(m.recipient, m.mint);
      && r[0] == CreateAccount(m.recipient, m.mint, m.rentLamports, MintLayoutSpan, ids.tokenProgram)
      && r[1] == InitializeMint(ids.tokenProgram, m.mint, 0, m.recipient, Some(m.recipient))
      && r[2] == AssociatedTokenAccountInstruction(ids, ata, m.recipient, m.recipient, m.mint)
      && r[3] == MintTo(ids.tokenProgram, m.mint, ata, m.recipient, [], 1)
      && r[4].programId == ids.candyMachineProgram
      && r[4].creatorBump == d.candyMachineCreator(m.candyMachine).1
      && r[4].accounts.candyMachine == m.candyMachine
      && r[4].accounts.candyMachineCreator == d.candyMachineCreator(m.candyMachine).0
      && r[4].accounts.payer == m.recipient
      && r[4].accounts.mintAuthority == m.recipient
      && r[4].accounts.updateAuthority == m.recipient
      && r[4].accounts.wallet == m.candyMachineWallet
      && r[4].accounts.mint == m.mint
      && r[4].accounts.metadata == d.metadataPda(m.mint)
      && r[4].accounts.masterEdition == d.masterEditionPda(m.mint)
      && r[4].accounts.tokenMetadataProgram == ids.tokenMetadataProgram
      && r[4].accounts.tokenProgram == ids.tokenProgram
      && r[4].accounts.systemProgram == ids.systemProgram
      && r[4].accounts.rent == ids.rentSysvar
      && r[4].accounts.clock == ids.clockSysvar
      && r[4].accounts.recentBlockhashes == ids.recentBlockhashesSysvar
      && r[4].accounts.instructionSysvarAccount == ids.instructionsSysvar
  {
  }

  /** When the derived associated address is distinct from the recipient, the
      mint and the token program (as a derived address is), it too is created
      before any instruction refers to it. */
  lemma AssociatedAccountCreatedBeforeUse(ids: ProgramIds, d: Derivations, m: MintInputs)
    requires d.tokenWallet(m.recipient, m.mint) != m.recipient
    requires d.tokenWallet(m.recipient, m.mint) != m.mint
    requires d.tokenWallet(m.recipient, m.mint) != ids.tokenProgram
    ensures CreatedBeforeUse(MintInstructions(ids, d, m), d.tokenWallet(m.recipient, m.mint))
  {
    var r := MintInstructions(ids, d, m);
    var ata := d.tokenWallet(m.recipient, m.mint);
    MintInstructionArguments(ids, d, m);
    CreatedAtThirdStep(r, ata);
  }

  lemma CreatedAtThirdStep(r: seq<Instruction>, a: Address)
    requires |r| >= 3 && Creates(r[2], a)
    requires a !in Mentions(r[0]) && a !in Mentions(r[1])
    ensures CreatedBeforeUse(r, a)
  {
    forall j | 0 <= j < |r| && a in Mentions(r[j])
      ensures exists i | 0 <= i <= j :: Creates(r[i], a)
    {
      assert Creates(r[2], a);
    }
  }
}
