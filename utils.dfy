/** The account checks and helpers of the craft_skins program: NFT verification,
    ingredient verification, derived-address checks, and create-if-absent of token
    accounts. Each check runs its tests in the program's order and stops at the
    first failure, so the order decides which error is reported. */
module Utils {
  import opened Errors
  import opened Accounts
  import opened Ledger

  /* ---------- Specification predicates ---------- */

  /** Seeds of a mint's metadata address: `["metadata", metadata program id, mint]`. */
  function MetadataSeeds(env: Env, mint: Pubkey): seq<Seed>
  {
    [Ascii("metadata"), env.metadataProgramId, mint]
  }

  /** Distinct mints have distinct metadata seeds: each mint has its own metadata seeds. */
  lemma MetadataSeedsDistinct(env: Env, mint1: Pubkey, mint2: Pubkey)
    ensures MetadataSeeds(env, mint1) == MetadataSeeds(env, mint2) <==> mint1 == mint2
  {
  }

  /** The metadata account sits at the metadata address of `mint`. */
  predicate MetadataDerived(env: Env, metadata: AccountInfo, mint: Pubkey)
  {
    metadata.key == env.findProgramAddress(MetadataSeeds(env, mint), env.metadataProgramId).0
  }

  /** `owner` signed the metadata as a creator. */
  predicate IsCreator(c: Creator, owner: Pubkey)
  {
    c.verified && c.address == owner
  }

  /** The account holds metadata whose creator list names `owner` as a verified creator. */
  predicate SignedByCreator(metadata: AccountInfo, owner: Pubkey)
  {
    && metadata.data.MetadataData?
    && metadata.data.meta.creators.Some?
    && exists c :: c in metadata.data.meta.creators.value && IsCreator(c, owner)
  }

  /** The token account holds exactly one unit of `mint`, on behalf of `owner`. */
  predicate HoldsNft(env: Env, a: AccountInfo, mint: Pubkey, owner: Pubkey)
  {
    && IsTokenAccount(env, a)
    && a.data.state.owner == owner
    && a.data.state.amount == 1
    && a.data.state.mint == mint
  }

  /** The metadata marks `collectionMint` as its verified collection. */
  predicate InCollection(metadata: AccountInfo, collectionMint: Pubkey)
  {
    && metadata.data.MetadataData?
    && metadata.data.meta.collection.Some?
    && metadata.data.meta.collection.value.verified
    && metadata.data.meta.collection.value.key == collectionMint
  }

  /* ---------- Creator search ---------- */

  /** `creators.iter().find(|c| c.verified && c.address == owner)` */
  function FindCreator(creators: seq<Creator>, owner: Pubkey): (r: Option<Creator>)
    ensures r.Some? ==> r.value in creators && IsCreator(r.value, owner)
    ensures r.None? ==> forall c :: c in creators ==> !IsCreator(c, owner)
  {
    if creators == [] then None
    else if IsCreator(creators[0], owner) then Some(creators[0])
    else FindCreator(creators[1..], owner)
  }

  /** The search returns the first verified creator equal to `owner`: `i` is its index. */
  lemma {:induction false} FindCreatorFirst(creators: seq<Creator>, owner: Pubkey) returns (i: nat)
    requires FindCreator(creators, owner).Some?
    ensures i < |creators| && creators[i] == FindCreator(creators, owner).value
    ensures forall j :: 0 <= j < i ==> !IsCreator(creators[j], owner)
  {
    if IsCreator(creators[0], owner) {
      i := 0;
    } else {
      var k := FindCreatorFirst(creators[1..], owner);
      i := k + 1;
      forall j | 0 <= j < i ensures !IsCreator(creators[j], owner) {
        if j > 0 { assert creators[j] == creators[1..][j - 1]; }
      }
    }
  }

  /* ---------- Shared steps of the NFT checks ---------- */

  /** The token-account part of the NFT checks: initialised, owned by the token
      program, held by `owner` (a mismatch aborts), a balance of exactly 1, then
      the expected mint. */
  function CheckNftToken(env: Env, tokenAccount: AccountInfo, mint: Pubkey, owner: Pubkey): (r: Result<TokenState>)
    ensures r.Ok? <==> HoldsNft(env, tokenAccount, mint, owner)
    ensures r.Ok? ==> r.value == tokenAccount.data.state
    ensures !tokenAccount.data.TokenData? ==> r == Err(InvalidAccountData)
    ensures tokenAccount.data.TokenData? && !tokenAccount.data.state.initialized ==> r == Err(Uninitialized)
    ensures (tokenAccount.data.TokenData? && tokenAccount.data.state.initialized
             && tokenAccount.programOwner != env.tokenProgramId) ==> r == Err(IncorrectOwner)
    ensures IsTokenAccount(env, tokenAccount) && tokenAccount.data.state.owner != owner ==> r == Err(Panic)
    ensures (IsTokenAccount(env, tokenAccount) && tokenAccount.data.state.owner == owner
             && tokenAccount.data.state.amount != 1) ==> r == Err(Program(TokenAmountInvalid))
    ensures (IsTokenAccount(env, tokenAccount) && tokenAccount.data.state.owner == owner
             && tokenAccount.data.state.amount == 1 && tokenAccount.data.state.mint != mint)
            ==> r == Err(Program(TokenMintInvalid))
  {
    var token :- AssertInitialized(tokenAccount);
    var _ :- AssertOwnedBy(tokenAccount, env.tokenProgramId);
    if token.owner != owner then Err(Panic)
    else if token.amount != 1 then Err(Program(TokenAmountInvalid))
    else if token.mint != mint then Err(Program(TokenMintInvalid))
    else Ok(token)
  }

  /** The metadata part of the NFT checks: non-empty, readable as metadata, with a
      creator list (unwrapped) holding a verified `owner` (found and unwrapped). */
  function CheckCreator(metadata: AccountInfo, owner: Pubkey): (r: Result<Metadata>)
    ensures r.Ok? <==> SignedByCreator(metadata, owner)
    ensures r.Ok? ==> metadata.data == MetadataData(r.value)
    ensures metadata.data.Empty? ==> r == Err(Program(NotInitialized))
    ensures !metadata.data.Empty? && !metadata.data.MetadataData? ==> r == Err(DataTypeMismatch)
    ensures metadata.data.MetadataData? && !SignedByCreator(metadata, owner) ==> r == Err(Panic)
  {
    if metadata.data.Empty? then Err(Program(NotInitialized))
    else
      var meta :- MetadataFromAccountInfo(metadata);
      if meta.creators.None? then Err(Panic)
      else if FindCreator(meta.creators.value, owner).None? then Err(Panic)
      else Ok(meta)
  }

  /* ---------- NFT verification ---------- */

  /** `verify_recipe_nft` */
  function VerifyRecipeNft(env: Env, tokenAccount: AccountInfo, mint: Pubkey, metadata: AccountInfo,
                           edition: AccountInfo, owner: Pubkey): (r: Result<()>)
    ensures r.Ok? <==> && HoldsNft(env, tokenAccount, mint, owner)
                       && MetadataDerived(env, metadata, mint)
                       && env.editionValid(mint, edition.key)
                       && SignedByCreator(metadata, owner)
    ensures !HoldsNft(env, tokenAccount, mint, owner) ==> r == Err(CheckNftToken(env, tokenAccount, mint, owner).error)
    ensures HoldsNft(env, tokenAccount, mint, owner) && !MetadataDerived(env, metadata, mint)
            ==> r == Err(MetadataDerivedKeyInvalid)
    ensures (HoldsNft(env, tokenAccount, mint, owner) && MetadataDerived(env, metadata, mint)
             && !env.editionValid(mint, edition.key)) ==> r == Err(InvalidEditionKey)
    ensures (HoldsNft(env, tokenAccount, mint, owner) && MetadataDerived(env, metadata, mint)
             && env.editionValid(mint, edition.key))
            ==> r == (var c := CheckCreator(metadata, owner); if c.Ok? then Ok(()) else Err(c.error))
  {
    var token :- CheckNftToken(env, tokenAccount, mint, owner);
    var _ :- AssertDerivation(env, env.metadataProgramId, metadata, MetadataSeeds(env, token.mint));
    var _ :- AssertEditionValid(env, mint, edition);
    var _ :- CheckCreator(metadata, owner);
    Ok(())
  }

  /** `verify_nft`, called by `create_recipe` and `add_skin`: the checks of
      `verify_recipe_nft` without the master-edition check. */
  function VerifyNft(env: Env, tokenAccount: AccountInfo, mint: Pubkey, metadata: AccountInfo,
                     owner: Pubkey): (r: Result<()>)
    ensures r.Ok? <==> && HoldsNft(env, tokenAccount, mint, owner)
                       && MetadataDerived(env, metadata, mint)
                       && SignedByCreator(metadata, owner)
    ensures !HoldsNft(env, tokenAccount, mint, owner) ==> r == Err(CheckNftToken(env, tokenAccount, mint, owner).error)
    ensures HoldsNft(env, tokenAccount, mint, owner) && !MetadataDerived(env, metadata, mint)
            ==> r == Err(MetadataDerivedKeyInvalid)
    ensures HoldsNft(env, tokenAccount, mint, owner) && MetadataDerived(env, metadata, mint)
            ==> r == (var c := CheckCreator(metadata, owner); if c.Ok? then Ok(()) else Err(c.error))
  {
    var token :- CheckNftToken(env, tokenAccount, mint, owner);
    var _ :- AssertDerivation(env, env.metadataProgramId, metadata, MetadataSeeds(env, token.mint));
    var _ :- CheckCreator(metadata, owner);
    Ok(())
  }

  /** With a valid edition, `verify_recipe_nft` and `verify_nft` agree on every
      input: same success, same error. */
  lemma RecipeNftIsNftWithEdition(env: Env, tokenAccount: AccountInfo, mint: Pubkey, metadata: AccountInfo,
                                  edition: AccountInfo, owner: Pubkey)
    requires env.editionValid(mint, edition.key)
    ensures VerifyRecipeNft(env, tokenAccount, mint, metadata, edition, owner)
            == VerifyNft(env, tokenAccount, mint, metadata, owner)
  {
  }

  /** `verify_skin`: the NFT checks, then the skin's collection must be present
      (unwrapped), verified, and equal to `collectionMint`, in that order. */
  function VerifySkin(env: Env, tokenAccount: AccountInfo, mint: Pubkey, collectionMint: Pubkey,
                      metadata: AccountInfo, owner: Pubkey): (r: Result<()>)
    ensures r.Ok? <==> && HoldsNft(env, tokenAccount, mint, owner)
                       && MetadataDerived(env, metadata, mint)
                       && SignedByCreator(metadata, owner)
                       && InCollection(metadata, collectionMint)
    ensures !HoldsNft(env, tokenAccount, mint, owner) ==> r == Err(CheckNftToken(env, tokenAccount, mint, owner).error)
    ensures HoldsNft(env, tokenAccount, mint, owner) && !MetadataDerived(env, metadata, mint)
            ==> r == Err(MetadataDerivedKeyInvalid)
    ensures (HoldsNft(env, tokenAccount, mint, owner) && MetadataDerived(env, metadata, mint)
             && !SignedByCreator(metadata, owner)) ==> r == Err(CheckCreator(metadata, owner).error)
    ensures HoldsNft(env, tokenAccount, mint, owner) && MetadataDerived(env, metadata, mint)
            && SignedByCreator(metadata, owner) ==>
              var c := metadata.data.meta.collection;
              && (c.None? ==> r == Err(Panic))
              && (c.Some? && !c.value.verified ==> r == Err(Program(CollectionUnverified)))
              && (c.Some? && c.value.verified && c.value.key != collectionMint
                  ==> r == Err(Program(CollectionKeyInvalid)))
  {
    var token :- CheckNftToken(env, tokenAccount, mint, owner);
    var _ :- AssertDerivation(env, env.metadataProgramId, metadata, MetadataSeeds(env, token.mint));
    var meta :- CheckCreator(metadata, owner);
    if meta.collection.None? then Err(Panic)
    else if !meta.collection.value.verified then Err(Program(CollectionUnverified))
    else if meta.collection.value.key != collectionMint then Err(Program(CollectionKeyInvalid))
    else Ok(())
  }

  /** `verify_user_ingredient`: the user's token account must hold exactly
      `expectedAmount` (a larger balance is rejected too), checked before the mint. */
  function VerifyUserIngredient(env: Env, userToken: AccountInfo, user: Pubkey,
                                expectedMint: Pubkey, expectedAmount: u64): (r: Result<()>)
    ensures r.Ok? <==> && IsTokenAccount(env, userToken)
                       && userToken.data.state.owner == user
                       && userToken.data.state.amount == expectedAmount
                       && userToken.data.state.mint == expectedMint
    ensures !userToken.data.TokenData? ==> r == Err(InvalidAccountData)
    ensures userToken.data.TokenData? && !userToken.data.state.initialized ==> r == Err(Uninitialized)
    ensures (userToken.data.TokenData? && userToken.data.state.initialized
             && userToken.programOwner != env.tokenProgramId) ==> r == Err(IncorrectOwner)
    ensures IsTokenAccount(env, userToken) && userToken.data.state.owner != user ==> r == Err(Panic)
    ensures (IsTokenAccount(env, userToken) && userToken.data.state.owner == user
             && userToken.data.state.amount != expectedAmount) ==> r == Err(Program(TokenAmountInvalid))
    ensures (IsTokenAccount(env, userToken) && userToken.data.state.owner == user
             && userToken.data.state.amount == expectedAmount && userToken.data.state.mint != expectedMint)
            ==> r == Err(Program(TokenMintInvalid))
  {
    var token :- AssertInitialized(userToken);
    var _ :- AssertOwnedBy(userToken, env.tokenProgramId);
    if token.owner != user then Err(Panic)
    else
      // the data is read a second time, as a TokenAccount, and unwrapped
      match DeserializeTokenAccount(userToken.data)
      case None => Err(Panic)
      case Some(account) =>
        if account.amount != expectedAmount then Err(Program(TokenAmountInvalid))
        else if account.mint != expectedMint then Err(Program(TokenMintInvalid))
        else Ok(())
  }

  /* ---------- Derived-address checks ---------- */

  /** `assert_pda_derivation`: the account must sit at the address derived from
      `seeds` under `programId`; returns that derivation's bump. */
  function AssertPdaDerivation(env: Env, account: AccountInfo, programId: Pubkey, seeds: seq<Seed>): (r: Result<u8>)
    ensures r.Ok? <==> env.findProgramAddress(seeds, programId).0 == account.key
    ensures r.Ok? ==> r.value == env.findProgramAddress(seeds, programId).1
    ensures r.Err? ==> r.error == Program(DerivedKeyInvalid)
  {
    var (key, bump) := env.findProgramAddress(seeds, programId);
    if key != account.key then Err(Program(DerivedKeyInvalid)) else Ok(bump)
  }

  /** `assert_escrow_derivation`: the same check as `assert_pda_derivation`. */
  function AssertEscrowDerivation(env: Env, programEscrow: AccountInfo, programId: Pubkey, seeds: seq<Seed>): (r: Result<u8>)
    ensures r.Ok? <==> env.findProgramAddress(seeds, programId).0 == programEscrow.key
    ensures r.Ok? ==> r.value == env.findProgramAddress(seeds, programId).1
    ensures r.Err? ==> r.error == Program(DerivedKeyInvalid)
  {
    AssertPdaDerivation(env, programEscrow, programId, seeds)
  }

  /** `assert_recipe_derivation`: the derivation check without returning the bump. */
  function AssertRecipeDerivation(env: Env, recipeAccount: AccountInfo, programId: Pubkey, seeds: seq<Seed>): (r: Result<()>)
    ensures r.Ok? <==> env.findProgramAddress(seeds, programId).0 == recipeAccount.key
    ensures r.Err? ==> r.error == Program(DerivedKeyInvalid)
  {
    var (key, _) := env.findProgramAddress(seeds, programId);
    if key != recipeAccount.key then Err(Program(DerivedKeyInvalid)) else Ok(())
  }

  /* ---------- Does a token account still need creating? ---------- */

  /** `verify_token_account`: `true` when the data does not read as a token account
      (it must be created); otherwise `false`, but only once its mint, its address
      (the associated token address of `owner` and `mint`) and its owner match,
      each mismatch aborting, and it is owned by the token program. */
  function VerifyTokenAccount(env: Env, token: AccountInfo, owner: Pubkey, mint: Pubkey): (r: Result<bool>)
    ensures r == Ok(true) <==> DeserializeTokenAccount(token.data).None?
    ensures r == Ok(false) <==> && IsTokenAccount(env, token)
                                && token.data.state.mint == mint
                                && token.key == env.associatedTokenAddress(owner, mint)
                                && token.data.state.owner == owner
    ensures (DeserializeTokenAccount(token.data).Some?
             && (|| token.data.state.mint != mint
                 || token.key != env.associatedTokenAddress(owner, mint)
                 || token.data.state.owner != owner)) ==> r == Err(Panic)
    ensures (&& DeserializeTokenAccount(token.data).Some?
             && token.data.state.mint == mint
             && token.key == env.associatedTokenAddress(owner, mint)
             && token.data.state.owner == owner
             && token.programOwner != env.tokenProgramId) ==> r == Err(IncorrectOwner)
    ensures r.Err? ==> r.error == Panic || r.error == IncorrectOwner
  {
    var checkKey := env.associatedTokenAddress(owner, mint);
    match DeserializeTokenAccount(token.data)
    case None => Ok(true)
    case Some(account) =>
      if account.mint != mint then Err(Panic)
      else if token.key != checkKey then Err(Panic)
      else if account.owner != owner then Err(Panic)
      else
        var _ :- AssertOwnedBy(token, env.tokenProgramId);
        Ok(false)
  }

  /** `check_token_is_init`: as `verify_token_account` without the address check;
      `true` means the account is NOT yet initialised. */
  function CheckTokenIsInit(env: Env, token: AccountInfo, mint: Pubkey, owner: Pubkey): (r: Result<bool>)
    ensures r == Ok(true) <==> DeserializeTokenAccount(token.data).None?
    ensures r == Ok(false) <==> && IsTokenAccount(env, token)
                                && token.data.state.mint == mint
                                && token.data.state.owner == owner
    ensures (DeserializeTokenAccount(token.data).Some?
             && (token.data.state.mint != mint || token.data.state.owner != owner)) ==> r == Err(Panic)
    ensures (&& DeserializeTokenAccount(token.data).Some?
             && token.data.state.mint == mint
             && token.data.state.owner == owner
             && token.programOwner != env.tokenProgramId) ==> r == Err(IncorrectOwner)
    ensures r.Err? ==> r.error == Panic || r.error == IncorrectOwner
  {
    match DeserializeTokenAccount(token.data)
    case None => Ok(true)
    case Some(account) =>
      if account.mint != mint then Err(Panic)
      else if account.owner != owner then Err(Panic)
      else
        var _ :- AssertOwnedBy(token, env.tokenProgramId);
        Ok(false)
  }

  /* ---------- Effectful helpers ---------- */

  /** The create-if-absent step shared by `create_escrow_account` and
      `create_user_token_account`: a failed `verify_token_account` is unwrapped (abort);
      an existing account is left alone; otherwise one associated-token create is
      invoked, paid by `payer`, for the token account of `authority` and `mint`. */
  method CreateIfAbsent(rt: Runtime, env: Env, payer: Pubkey, authority: Pubkey, token: AccountInfo, mint: Pubkey)
    returns (r: Result<()>)
    modifies rt
    ensures VerifyTokenAccount(env, token, authority, mint).Err? ==> r == Err(Panic) && rt.issued == old(rt.issued)
    ensures VerifyTokenAccount(env, token, authority, mint) == Ok(false) ==> r == Ok(()) && rt.issued == old(rt.issued)
    ensures VerifyTokenAccount(env, token, authority, mint) == Ok(true) ==>
              var ix := CreateAssociatedToken(payer, token.key, authority, mint);
              && (r.Ok? <==> ix !in rt.refused)
              && (r.Err? ==> r.error == CpiFailed)
              && rt.issued == old(rt.issued) + (if r.Ok? then [ix] else [])
  {
    var notInit := VerifyTokenAccount(env, token, authority, mint);
    if notInit.Err? {
      return Err(Panic);
    }
    if notInit.value {
      r := rt.Invoke(CreateAssociatedToken(payer, token.key, authority, mint));
    } else {
      r := Ok(());
    }
  }

  /** `create_escrow_account`: create the escrow token account of `programSigner`
      for `mint`, paid by `user`, unless it already exists. */
  method CreateEscrowAccount(rt: Runtime, env: Env, user: Pubkey, programSigner: Pubkey, escrowToken: AccountInfo, mint: Pubkey)
    returns (r: Result<()>)
    modifies rt
    ensures VerifyTokenAccount(env, escrowToken, programSigner, mint).Err? ==> r == Err(Panic) && rt.issued == old(rt.issued)
    ensures VerifyTokenAccount(env, escrowToken, programSigner, mint) == Ok(false) ==> r == Ok(()) && rt.issued == old(rt.issued)
    ensures VerifyTokenAccount(env, escrowToken, programSigner, mint) == Ok(true) ==>
              var ix := CreateAssociatedToken(user, escrowToken.key, programSigner, mint);
              && (r.Ok? <==> ix !in rt.refused)
              && (r.Err? ==> r.error == CpiFailed)
              && rt.issued == old(rt.issued) + (if r.Ok? then [ix] else [])
  {
    r := CreateIfAbsent(rt, env, user, programSigner, escrowToken, mint);
  }

  /** `create_user_token_account`: create `user`'s own token account for `mint`,
      paid by `user`, unless it already exists. */
  method CreateUserTokenAccount(rt: Runtime, env: Env, user: Pubkey, token: AccountInfo, mint: Pubkey)
    returns (r: Result<()>)
    modifies rt
    ensures VerifyTokenAccount(env, token, user, mint).Err? ==> r == Err(Panic) && rt.issued == old(rt.issued)
    ensures VerifyTokenAccount(env, token, user, mint) == Ok(false) ==> r == Ok(()) && rt.issued == old(rt.issued)
    ensures VerifyTokenAccount(env, token, user, mint) == Ok(true) ==>
              var ix := CreateAssociatedToken(user, token.key, user, mint);
              && (r.Ok? <==> ix !in rt.refused)
              && (r.Err? ==> r.error == CpiFailed)
              && rt.issued == old(rt.issued) + (if r.Ok? then [ix] else [])
  {
    r := CreateIfAbsent(rt, env, user, user, token, mint);
  }

  /** `transfer_ingredient_to_escrow`: one transfer of exactly `amount`, authorised by `payer`. */
  method TransferIngredientToEscrow(rt: Runtime, from: Pubkey, to: Pubkey, payer: Pubkey, amount: u64)
    returns (r: Result<()>)
    modifies rt
    ensures r.Ok? <==> Transfer(from, to, payer, amount) !in rt.refused
    ensures r.Err? ==> r.error == CpiFailed
    ensures rt.issued == old(rt.issued) + (if r.Ok? then [Transfer(from, to, payer, amount)] else [])
  {
    r := rt.Invoke(Transfer(from, to, payer, amount));
  }

  /** `transfer_skin_to_user`: one transfer of exactly one unit, authorised by `owner`. */
  method TransferSkinToUser(rt: Runtime, from: Pubkey, to: Pubkey, owner: Pubkey)
    returns (r: Result<()>)
    modifies rt
    ensures r.Ok? <==> Transfer(from, to, owner, 1) !in rt.refused
    ensures r.Err? ==> r.error == CpiFailed
    ensures rt.issued == old(rt.issued) + (if r.Ok? then [Transfer(from, to, owner, 1)] else [])
  {
    r := rt.Invoke(Transfer(from, to, owner, 1));
  }
}
