# Candy-machine minting helper, modelled in Dafny

This project models the minting helper of a Solana "candy machine" client
(`src/utils/minting-utils.ts`). The helper mints one NFT from a candy machine
for a recipient wallet. It reads the machine's state from the chain and builds
a five-instruction transaction. That transaction creates and initialises a new
mint, creates the recipient's associated token account, mints one token into
it and calls the machine's `mintNft` entry point. The helper then sends the
transaction and waits for its confirmation. Any error thrown on the way
becomes an error outcome with a user-facing warning.

Modules, one per concern:

- `Wrappers` (`wrappers.dfy`): `Option` and `Result`. `Result` is the outcome
  of an awaited call: a value, or the thrown error.
- `JsString` (`js_string.dfy`): JavaScript `String.prototype.indexOf` and the
  truthiness of the number it returns.
- `WarningMessages` (`warning.dfy`): `_getWarningMesssage`, written the way
  the code does it.
- `Instructions` (`instructions.dfy`): addresses, account metas, the five
  instruction kinds, the associated-token-account instruction and the
  instruction list.
- `Minting` (`minting.dfy`): reading the chain, submitting the transaction,
  the confirmation state machine (`Pending`, `Resolved(mint)`,
  `ErrorOutcome(error, message)`) and the catch path.

How the outside world is handled:

- Chain services are fields of a `Chain` record, each returning a `Result`.
  These are the program's interface descriptor, the machine account, the
  rent-exempt balance and the broadcaster.
- Address derivations are pure function fields of a `Derivations` record.
  These are the associated token wallet, the metadata and master-edition
  addresses, and the creator authority with its bump.
- Program ids and sysvar addresses are fields of a `ProgramIds` record.
- The freshly generated mint key is a parameter.

The warning mapping follows the code, not a "substring present" reading of
the error codes. `indexOf` returns -1 when the code is absent, and -1 is
truthy. So the first text test (`0x138`) passes for every message that does
not start with `0x138`, and that message gets the generic warning. A message
that does start with `0x138` fails the first test and passes the `0x137`
test, so it is reported as "sold out". The insufficient-funds branch can
never run. A status notification that carries an error does not settle the
outcome: only an error-free status resolves the promise.

## Model

| member | source | states |
|---|---|---|
| JsString.IndexOfFrom | src/utils/minting-utils.ts:21-25 | `indexOf` from a start position gives the first position where the pattern occurs, or -1 exactly when it occurs nowhere after the start |
| JsString.IndexOf | src/utils/minting-utils.ts:21-25 | `indexOf` is -1 exactly when the pattern is not contained; otherwise the returned index is the first position where the pattern occurs |
| JsString.IndexOfFalsyIffPrefix | src/utils/minting-utils.ts:21-25 | an `indexOf` result is falsy exactly when the pattern is a prefix of the message; "not found" counts as truthy |
| WarningMessages.WarningMessage | src/utils/minting-utils.ts:13-30 | the warning is always one of the four fixed strings and is never the insufficient-funds one |
| WarningMessages.StructuredErrorWarning | src/utils/minting-utils.ts:14-19 | with a non-empty `msg`: code 311 gives sold out, 312 gives not started, any other or missing code gives the generic failure (each an iff) |
| WarningMessages.UnstructuredWarningNotPrefixed | src/utils/minting-utils.ts:21-22 | without `msg`: the generic failure is returned exactly when the message does not start with "0x138" |
| WarningMessages.UnstructuredWarningPrefixed | src/utils/minting-utils.ts:21-24 | without `msg`: "sold out" is returned exactly when the message starts with "0x138" |
| WarningMessages.InsufficientFundsUnreachable | src/utils/minting-utils.ts:21-29 | only sold out, not started and generic failure are reachable; not started only from a structured error with code 312 |
| WarningMessages.SubstringReadingDiffers | src/utils/minting-utils.ts:21-27 | a text containing "0x135" gets the generic warning, and the text "0x138" gets sold out although it does not contain "0x137" |
| Instructions.AssociatedTokenAccountInstruction | src/utils/minting-utils.ts:32-60 | seven metas in the order payer, associated address, wallet, mint, system program, token program, rent sysvar; only the payer signs; only payer and associated address are writable; associated-token program id; empty data; creates the associated address |
| Instructions.MintInstructions | src/utils/minting-utils.ts:76-131 | exactly five instructions: create-account, init-mint, create-ATA, mint-to, then `mintNft`; the mint is created before any instruction names it; only the recipient and the mint key ever need to sign |
| Instructions.MintInstructionArguments | src/utils/minting-utils.ts:77-129 | mint-sized account funded by the recipient and owned by the token program; zero decimals, recipient as mint and freeze authority; recipient as ATA payer, wallet and owner; amount 1 into the user token account with no multisig; `mintNft` with creator bump, recipient as payer and both authorities, fetched payout wallet, derived metadata and edition, and the token-metadata, token and system programs and the rent, clock, recent-blockhashes and instructions sysvars |
| Instructions.AssociatedAccountCreatedBeforeUse | src/utils/minting-utils.ts:91-104 | the associated token account is created before the mint-to that fills it |
| Minting.PrepareMint | src/utils/minting-utils.ts:67-131 | the build fails exactly when one of the chain reads fails, with the first failure's error; on success the fee payer is the recipient, the explicit signers are exactly the mint key, the instructions are the mint list over the fetched values, and every required signature is covered |
| Minting.SubmitMint | src/utils/minting-utils.ts:133-138 | a build failure is passed on; otherwise the broadcaster receives recipient, the instructions and `[mint]`, and its failure or transaction id becomes the result paired with the mint key |
| Minting.HandleNotification | src/utils/minting-utils.ts:151-159 | a pending mint resolves to the mint address only on an error-free status; every other notification or settled state leaves the state unchanged |
| Minting.CatchError | src/utils/minting-utils.ts:163-164 | the catch path keeps the thrown error and pairs it with one of the reachable warnings |
| Minting.Deliver | src/utils/minting-utils.ts:149-161 | feeding notifications to the callback in order can only move the outcome from pending to resolved with the mint address; anything else leaves it as it was |
| Minting.MintCandyMachineToken | src/utils/minting-utils.ts:141-166 | the outcome is an error outcome exactly when building or sending failed, its message is the warning for the thrown error, and a resolved outcome carries the generated mint key |
| Minting.DeliverSettled | src/utils/minting-utils.ts:148-158 | resolution is one-shot: no sequence of notifications changes a settled outcome |
| Minting.DeliverResolvesIff | src/utils/minting-utils.ts:148-162 | a pending mint ends resolved with the mint address iff some notification is an error-free status, and otherwise stays pending |
| Minting.SubmissionFailureIsCaught | src/utils/minting-utils.ts:146-165 | a failure at any step before confirmation ends as that error with its warning, whatever notifications follow |
| Minting.SubmittedMintOutcome | src/utils/minting-utils.ts:146-162 | after a successful send the outcome is resolved to the generated mint key iff an error-free status arrives, and is never an error outcome |
| Minting.SoldOutOnSend | src/utils/minting-utils.ts:163-164 | any structured error (non-empty `msg`) with code 311 thrown by the broadcaster, whatever its `message`, ends as that error with the sold-out warning |
| Minting.ChainReadFailureWarning | src/utils/minting-utils.ts:146-164 | a transport error in any chain read (interface descriptor, machine account or rent query) ends with that error and the generic warning |

## Left out

- Network and chain I/O are not modelled. Fetching the IDL and the machine account, the rent query and `sendTransaction` are inputs to the model, as the four fields of `Chain`. Listener registration is not modelled; the notifications the listener receives are the `ns` parameter of `MintCandyMachineToken`.
- The address derivations (`getTokenWallet`, `getCandyMachineCreator`, `Metadata.getPDA`, `MasterEdition.getPDA`) are given as functions. Their code is not part of this model and rests on hashing. The model also assumes they never throw.
- Keypair generation is not modelled: the mint key is a parameter, and its freshness is a runtime guarantee.
- The byte encoding of the token-library and Anchor instructions is not modelled. Each is a tagged constructor carrying its arguments.
- `RequiredSigners` takes payer, mint authority and update authority as the signers of `mintNft`. The distribution program's interface that fixes those flags is not part of this model.
- Instructions.AssociatedAccountCreatedBeforeUse: assumes the derived associated address differs from the recipient, the mint and the token program id. A program-derived address cannot be shown to differ from them without the derivation.
- A thrown value with no string `message` is not modelled. Without `msg`, the code would raise a TypeError inside its own catch block.
- JsString.IndexOfFrom: counts positions in characters, where JavaScript counts UTF-16 code units, and requires the start to lie within the string, where JavaScript clamps it. Neither changes what the warning mapping reads: its patterns are ASCII and only whether the result is 0 matters.
- Logging, the `assert` null checks on the arguments, and Promise scheduling beyond the one-shot resolution are not modelled.
- Timeouts and concurrency are not modelled. The code sets no timeout, and a listener that never fires simply leaves the outcome `Pending`.
- The instruction encoder for `mintNft` could throw on a bad IDL. The model does not include this; only a missing IDL counts as a fetch failure.
