# craft_skins in Dafny

A model of the on-chain `craft_skins` program: an Anchor program through which an
administrator records, for a recipe NFT, the ordered list of ingredient token mints
and amounts that a skin NFT costs, and which verifies the NFT accounts handed to it.

The model has five modules:

- `Errors` (`errors.dfy`): the program's `ErrorCode`, plus the failures that come
  from the libraries it calls (`InvalidAccountData` and `Uninitialized` from the
  metadata library's `assert_initialized`: an SPL token layout that does not unpack,
  and one that unpacks but is not initialised; `DataTypeMismatch` from the metadata reader, `IncorrectOwner`, the metadata library's derivation and edition errors, Anchor's
  `ConstraintSeeds`, a refused cross-program call) and `Panic`, which stands for every
  failed `assert_eq!` and every `unwrap` of `None`/`Err`. `Result` plays Rust's
  `Result`, and `:-` plays `?`.
- `Accounts` (`accounts.dfy`): keys, seeds, and account records. An account is a
  key, an owning program, and data that reads as an SPL token account
  `{mint, owner, amount, initialized}`, as Metaplex metadata
  `{creators?, collection?}`, as nothing (empty), or as something else. `Env`
  carries the program ids and the ledger functions the program calls without
  defining them: `find_program_address`, `get_associated_token_address`, and the
  master-edition check. Because these are parameters, every property holds for every
  derivation. Thin models of `assert_initialized`, `assert_owned_by`,
  `assert_derivation`, `assert_edition_valid` and the two deserialisers sit here.
- `Ledger` (`ledger.dfy`): a `Runtime` object that records the instructions the
  program invokes on the token programs (associated-token create, transfer), with
  their arguments.
- `Utils` (`utils.dfy`): `programs/craft_skins/src/utils.rs`. The checks are
  functions that run their tests in the source's order and stop at the first failure.
  Each check's contract says exactly when it succeeds, as declarative predicates
  (`HoldsNft`, `MetadataDerived`, `SignedByCreator`, `InCollection`), and which error
  each kind of bad input produces. The create-if-absent and transfer helpers are
  methods on the `Runtime`.
- `CraftSkins` (`craft_skins.dfy`): `programs/craft_skins/src/lib.rs`. The manager
  and recipe accounts are classes, and the instructions are methods (`Initialize`,
  `CreateRecipe`) or functions (`AddSkin`, `CraftSkin`, which write nothing).
  `CreateRecipe` fills the recipe account with the source's indexed loop and hands it
  back only if the whole instruction succeeds, because a failed transaction leaves no
  account behind.

`verify_nft`, called by `create_recipe` and `add_skin`, is not defined in
`utils.rs` or `lib.rs`. It is modelled as `Utils.VerifyNft`: the check sequence of
`verify_recipe_nft` without the master-edition check.

`Recipe` is declared twice with the same two fields (`utils.rs` and `lib.rs`). It is
modelled once, as `CraftSkins.RecipeAccount`.

Where the protocol's design and the code differ, the model follows the code:

- `create_recipe` does not compare the signer with the manager's admin. Any signer
  holding a verified recipe NFT can create a recipe.
- `create_recipe` has no length or positivity check on the ingredient lists. When
  there are fewer amounts than mints, the instruction panics. Surplus amounts are
  ignored. Zero amounts are stored.
- `verify_user_ingredient` demands a balance of exactly the required amount, not at
  least that amount.
- `add_skin` calls `verify_nft`, not `verify_skin`, so the skin's collection field is
  never read. `CraftSkins.AddSkinIgnoresCollection` states this.
- `craft_skin` is an empty handler. The crafting engine (escrow debits, skin credit)
  has no code and is not modelled.

## Model

| member | source | states |
|---|---|---|
| `Utils.FindCreator` | programs/craft_skins/src/utils.rs:58-62 | the search yields a creator of the list that is verified and equal to the owner, and yields nothing only when no creator of the list is |
| `Utils.FindCreatorFirst` | programs/craft_skins/src/utils.rs:59-62 | what the search yields is the first verified creator equal to the owner, in list order: the lemma returns its index, and no earlier creator matches |
| `Utils.CheckNftToken` | programs/craft_skins/src/utils.rs:21-36 | the token part of both NFT checks (the same lines recur at utils.rs:177-192): succeeds exactly when the account is an initialised token account owned by the token program, held by the owner, with balance exactly 1 of the given mint; unreadable, uninitialised and wrongly owned accounts give the library errors; an owner mismatch panics; then a balance other than 1 gives TokenAmountInvalid before a wrong mint gives TokenMintInvalid |
| `Utils.CheckCreator` | programs/craft_skins/src/utils.rs:52-62 | the metadata part: empty metadata gives NotInitialized; non-empty data that the metadata library does not read as metadata gives its DataTypeMismatch; readable metadata with no creator list, or with no verified creator equal to the owner, panics; success exactly when the owner is a verified creator |
| `Utils.VerifyRecipeNft` | programs/craft_skins/src/utils.rs:14-66 | succeeds exactly when the token account holds the NFT for the owner, the metadata sits at the mint's metadata address, the edition is valid and the owner signed the metadata; the token checks decide the error first, then the metadata address, then the edition; past those, the outcome is exactly that of the creator check (NotInitialized, DataTypeMismatch, or the creator panic) |
| `Utils.VerifyNft` | programs/craft_skins/src/lib.rs:49-54 | the check that `create_recipe` and `add_skin` call: succeeds exactly when the token account holds the NFT, the metadata sits at the mint's metadata address and the owner signed it; token errors first, then MetadataDerivedKeyInvalid, then the creator check's outcome |
| `Utils.RecipeNftIsNftWithEdition` | programs/craft_skins/src/utils.rs:49-50 | with a valid master edition, `verify_recipe_nft` gives exactly what `verify_nft` gives, success and error alike: the edition step is the only difference |
| `Utils.MetadataSeedsDistinct` | programs/craft_skins/src/utils.rs:41-46 | the metadata seeds `["metadata", metadata program id, mint]` of two mints are equal only when the mints are |
| `Utils.VerifySkin` | programs/craft_skins/src/utils.rs:170-230 | succeeds exactly when the NFT checks pass and the metadata names the given collection mint as a verified collection; a missing collection panics; an unverified collection gives CollectionUnverified even when its key is also wrong; a verified collection with another key gives CollectionKeyInvalid |
| `Utils.VerifyUserIngredient` | programs/craft_skins/src/utils.rs:139-167 | succeeds exactly when the account is a readable token account of the user holding exactly the expected amount of the expected mint; any other balance, larger ones included, gives TokenAmountInvalid, and this is checked before the mint, so an account wrong in both gives TokenAmountInvalid; an owner mismatch panics |
| `Utils.AssertRecipeDerivation` | programs/craft_skins/src/utils.rs:73-86 | succeeds if and only if the account key equals the address derived from the seeds; otherwise DerivedKeyInvalid |
| `Utils.AssertEscrowDerivation` | programs/craft_skins/src/utils.rs:88-100 | succeeds if and only if the escrow key equals the derived address; on success returns exactly that derivation's bump; otherwise DerivedKeyInvalid |
| `Utils.AssertPdaDerivation` | programs/craft_skins/src/utils.rs:124-137 | succeeds if and only if the account key equals the derived address; on success returns exactly that derivation's bump; otherwise DerivedKeyInvalid |
| `Utils.VerifyTokenAccount` | programs/craft_skins/src/utils.rs:102-122 | returns true (must be created) if and only if the data does not read as a token account; returns false if and only if it does and its mint, its associated-token address and its owner all match and the token program owns it; a mismatch panics; a matching account the token program does not own gives IncorrectOwner; no other error occurs |
| `Utils.CheckTokenIsInit` | programs/craft_skins/src/utils.rs:323-339 | returns true if and only if the data does not read as a token account; false if and only if mint and owner match and the token program owns it; a mismatch panics; a matching account the token program does not own gives IncorrectOwner |
| `Ledger.Runtime.Invoke` | programs/craft_skins/src/utils.rs:262-264 | a cross-program call (`create`, `transfer`, each followed by `?`): it succeeds exactly when the invoked program accepts the instruction, records that instruction once at the end of the issued list, and on refusal fails with nothing recorded |
| `Utils.CreateIfAbsent` | programs/craft_skins/src/utils.rs:243-266 | an error from the existence check aborts with nothing invoked; an existing account is left alone with nothing invoked; otherwise exactly one associated-token create is invoked, with the given payer, account, authority and mint; a refused call fails with the propagated CpiFailed and records nothing |
| `Utils.CreateEscrowAccount` | programs/craft_skins/src/utils.rs:233-267 | the create-if-absent step with the user as payer and the program signer as authority; an existing escrow account is untouched; a refused call fails with the propagated CpiFailed and records nothing |
| `Utils.CreateUserTokenAccount` | programs/craft_skins/src/utils.rs:270-304 | the create-if-absent step with the user as both payer and authority; a refused call fails with the propagated CpiFailed and records nothing |
| `Utils.TransferIngredientToEscrow` | programs/craft_skins/src/utils.rs:306-321 | invokes exactly one transfer, from the given account to the given account, of exactly `amount`, authorised by the payer; a refused call fails with the propagated CpiFailed and records nothing |
| `Utils.TransferSkinToUser` | programs/craft_skins/src/utils.rs:341-356 | invokes exactly one transfer of exactly 1 unit, authorised by the given owner; a refused call fails with the propagated CpiFailed and records nothing |
| `CraftSkins.RecipeSeedsDistinct` | programs/craft_skins/src/lib.rs:139-144 | the recipe seeds `[b"recipe", recipe mint]` of two mints are equal only when the mints are, and they are never the manager's seeds |
| `CraftSkins.Manager.constructor` | programs/craft_skins/src/lib.rs:110-117 | the manager account as `init` creates it: at the given key, zero admin |
| `CraftSkins.RecipeAccount.constructor` | programs/craft_skins/src/lib.rs:139-146 | the recipe account as `init` creates it: both lists empty |
| `CraftSkins.Initialize` | programs/craft_skins/src/lib.rs:19-24 | succeeds if and only if the manager account sits at the address derived from `["manager"]`; the new account then holds the signer as admin and nothing else is set |
| `CraftSkins.CreateRecipe` | programs/craft_skins/src/lib.rs:31-60 | starting from the empty account at the address derived from `["recipe", recipe mint]`, on success the mints are the given mints in order and the amounts are the first as many amounts, so both lists have the same length; fewer amounts than mints panics; a failed NFT verification returns its error; any failure exposes no recipe |
| `CraftSkins.AddSkin` | programs/craft_skins/src/lib.rs:67-82 | succeeds exactly when the recipe key and bump are the derivation of `["recipe", recipe mint]` and the skin NFT passes `verify_nft`; it writes no account |
| `CraftSkins.CraftSkin` | programs/craft_skins/src/lib.rs:98-100 | always succeeds, with no effect |
| `CraftSkins.RecipeSeedsShared` | programs/craft_skins/src/lib.rs:208-211 | the recipe address that `create_recipe` accepts passes `add_skin`'s seeds check with the canonical bump and passes `assert_recipe_derivation` under the same seeds |
| `CraftSkins.AddSkinIgnoresCollection` | programs/craft_skins/src/lib.rs:73-78 | changing the skin metadata's collection field, or removing it, never changes the outcome of `add_skin` |

## Left out

- `find_program_address`, `get_associated_token_address` and the master-edition check are parameters (`Env`), not computed: hashing and off-curve tests belong to the ledger libraries.
- `assert_derivation` is modelled as a comparison of the account key with the derived address. `assert_edition_valid` is an abstract predicate of the mint and the edition key.
- Byte-level deserialisation (SPL token unpack, Borsh for metadata and Anchor accounts) is replaced by `AccountData`, which says what the bytes read as.
- `try_borrow_data().unwrap()` never fails in the model, because nothing else borrows the account inside one instruction.
- The effects of the invoked token programs (balances, account creation) are not modelled. The model records which instructions are requested and with what arguments. An invoked program's refusal is the `Runtime.refused` set.
- Anchor's account machinery is left out: `init` failing on an existing account, rent and payer, signer checks, discriminator and owner checks of typed accounts, and `space = 240`. That space fits at most five ingredients (8 + 4 + 32n + 4 + 8n <= 240), so a longer recipe would fail when the account is written back. The model stores any number of ingredients.
- Only the seeds constraints are modelled. `add_skin`'s `recipe` constraint (seeds plus an explicit `bump = recipe_bump`, no `init`) makes Anchor compare the key with `create_program_address(seeds ++ [recipe_bump])`, so the program accepts any bump whose created address is the key. The model instead requires the key and the bump to be the canonical pair that `find_program_address` returns. The only place a recipe account is created is `create_recipe`'s `init`, which uses the canonical bump, so a recipe account that exists passes both forms; only a caller passing a non-canonical bump that happens to create the same key is rejected by the model and accepted by the program.
- CraftSkins.AddSkin: does not require the recipe account to exist. The program reads `recipe` as an `Account<Recipe>` (owned by this program, with the recipe discriminator), which is the only link between `add_skin` and an earlier `create_recipe`; the model checks only its address.
- `msg!` logging is not modelled.
- The crafting engine (account triples, escrow debits, skin credit) is not modelled because `craft_skin` has no body. The transfer and create helpers are modelled on their own.
- Refused cross-program calls: an invoked program's refusal is reported as one error, `CpiFailed`; the token programs' own error codes are not modelled.
- Amounts are `u64` values from 0 to 2^64 - 1. The program does no arithmetic on them, so no overflow is modelled.
