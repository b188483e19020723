/** The instructions of the craft_skins program and the accounts they own: the
    singleton manager and one recipe per recipe mint. Anchor's account constraints
    that decide where these accounts live (their seeds) are checked first, then the
    instruction body runs. */
module CraftSkins {
  import opened Errors
  import opened Accounts
  import opened Utils

  /* ---------- Account addresses ---------- */

  /** Seeds of the manager account: `[b"manager"]`. */
  function ManagerSeeds(): seq<Seed>
  {
    [Ascii("manager")]
  }

  /** Seeds of the recipe account of a recipe mint: `[b"recipe", recipe mint]`. */
  function RecipeSeeds(recipeMint: Pubkey): seq<Seed>
  {
    [Ascii("recipe"), recipeMint]
  }

  function ManagerAddress(env: Env): Pubkey
  {
    env.findProgramAddress(ManagerSeeds(), env.programId).0
  }

  function RecipeAddress(env: Env, recipeMint: Pubkey): Pubkey
  {
    env.findProgramAddress(RecipeSeeds(recipeMint), env.programId).0
  }

  /** Recipe seeds name their mint: two recipe mints share seeds (and so one recipe
      account) only when they are the same mint, and recipe seeds are never the
      manager's seeds. */
  lemma RecipeSeedsDistinct(recipeMint1: Pubkey, recipeMint2: Pubkey)
    ensures RecipeSeeds(recipeMint1) == RecipeSeeds(recipeMint2) <==> recipeMint1 == recipeMint2
    ensures RecipeSeeds(recipeMint1) != ManagerSeeds()
  {
  }

  /** The all-zero key, `Pubkey::default()`. */
  function DefaultKey(): Pubkey
  {
    seq(32, _ => 0)
  }

  /* ---------- Program-owned accounts ---------- */

  /** The manager account: the identity that administers the program. */
  class Manager {
    const key: Pubkey
    var admin: Pubkey

    /** The account as Anchor's `init` creates it: zero-filled. */
    constructor (key: Pubkey)
      ensures this.key == key && admin == DefaultKey()
    {
      this.key := key;
      admin := DefaultKey();
    }
  }

  /** A recipe account: ingredient i is `amounts[i]` units of `mints[i]`. */
  class RecipeAccount {
    const key: Pubkey
    var mints: seq<Pubkey>
    var amounts: seq<u64>

    /** Every ingredient mint has its amount. */
    predicate Valid()
      reads this
    {
      |mints| == |amounts|
    }

    /** The account as Anchor's `init` creates it: both lists empty. */
    constructor (key: Pubkey)
      ensures this.key == key && mints == [] && amounts == [] && Valid()
    {
      this.key := key;
      mints := [];
      amounts := [];
    }
  }

  /* ---------- Instructions ---------- */

  /** `initialize`: create the manager account at its derived address and record the
      signer as its admin. The account is returned only when the instruction succeeds. */
  method Initialize(env: Env, manager: Pubkey, programManagerKey: Pubkey) returns (r: Result<Manager>)
    ensures r.Ok? <==> programManagerKey == ManagerAddress(env)
    ensures r.Ok? ==> fresh(r.value) && r.value.key == programManagerKey && r.value.admin == manager
    ensures r.Err? ==> r.error == ConstraintSeeds
  {
    if programManagerKey != ManagerAddress(env) {
      return Err(ConstraintSeeds);
    }
    var programManager := new Manager(programManagerKey);
    programManager.admin := manager;
    return Ok(programManager);
  }

  /** `create_recipe`: create the recipe account at the address derived from the
      recipe mint, push each ingredient mint with the amount at the same index, then
      verify the recipe NFT. The loop is driven by the mints: a missing amount aborts
      and surplus amounts are ignored. Nothing is exposed unless every step succeeds. */
  method CreateRecipe(env: Env, owner: Pubkey, recipeKey: Pubkey, recipeMint: Pubkey,
                      recipeTokenAccount: AccountInfo, recipeMetadata: AccountInfo,
                      ingredientMints: seq<Pubkey>, ingredientAmounts: seq<u64>)
    returns (r: Result<RecipeAccount>)
    ensures r.Ok? <==> && recipeKey == RecipeAddress(env, recipeMint)
                       && |ingredientMints| <= |ingredientAmounts|
                       && VerifyNft(env, recipeTokenAccount, recipeMint, recipeMetadata, owner).Ok?
    ensures r.Ok? ==> && fresh(r.value)
                      && r.value.key == recipeKey
                      && r.value.Valid()
                      && r.value.mints == ingredientMints
                      && r.value.amounts == ingredientAmounts[..|ingredientMints|]
    ensures recipeKey != RecipeAddress(env, recipeMint) ==> r == Err(ConstraintSeeds)
    ensures (recipeKey == RecipeAddress(env, recipeMint) && |ingredientAmounts| < |ingredientMints|)
            ==> r == Err(Panic)
    ensures (recipeKey == RecipeAddress(env, recipeMint) && |ingredientMints| <= |ingredientAmounts|
             && VerifyNft(env, recipeTokenAccount, recipeMint, recipeMetadata, owner).Err?)
            ==> r == Err(VerifyNft(env, recipeTokenAccount, recipeMint, recipeMetadata, owner).error)
  {
    if recipeKey != RecipeAddress(env, recipeMint) {
      return Err(ConstraintSeeds);
    }
    var recipe := new RecipeAccount(recipeKey);
    for i := 0 to |ingredientMints|
      invariant i <= |ingredientAmounts|
      invariant recipe.mints == ingredientMints[..i]
      invariant recipe.amounts == ingredientAmounts[..i]
    {
      recipe.mints := recipe.mints + [ingredientMints[i]];
      if i >= |ingredientAmounts| {
        return Err(Panic);
      }
      recipe.amounts := recipe.amounts + [ingredientAmounts[i]];
    }
    var verified := VerifyNft(env, recipeTokenAccount, recipeMint, recipeMetadata, owner);
    if verified.Err? {
      return Err(verified.error);
    }
    return Ok(recipe);
  }

  /** `add_skin`: the recipe account must sit at the address derived from the recipe
      mint with the given bump; then only the skin NFT is verified. No account is
      written. */
  function AddSkin(env: Env, owner: Pubkey, recipeKey: Pubkey, recipeBump: u8, recipeMint: Pubkey,
                   skinTokenAccount: AccountInfo, skinMint: Pubkey, skinMetadata: AccountInfo): (r: Result<()>)
    ensures r.Ok? <==> && (recipeKey, recipeBump) == env.findProgramAddress(RecipeSeeds(recipeMint), env.programId)
                       && HoldsNft(env, skinTokenAccount, skinMint, owner)
                       && MetadataDerived(env, skinMetadata, skinMint)
                       && SignedByCreator(skinMetadata, owner)
    ensures (recipeKey, recipeBump) != env.findProgramAddress(RecipeSeeds(recipeMint), env.programId)
            ==> r == Err(ConstraintSeeds)
  {
    if (recipeKey, recipeBump) != env.findProgramAddress(RecipeSeeds(recipeMint), env.programId) then
      Err(ConstraintSeeds)
    else
      VerifyNft(env, skinTokenAccount, skinMint, skinMetadata, owner)
  }

  /** `craft_skin`: an empty handler; it always succeeds and touches no account. */
  function CraftSkin(): (r: Result<()>)
    ensures r == Ok(())
  {
    Ok(())
  }

  /* ---------- Properties across instructions ---------- */

  /** `create_recipe` and `add_skin` locate the recipe with the same seeds: the
      account `create_recipe` accepts for a mint passes `add_skin`'s seeds check with
      the canonical bump, and passes the program's own `assert_recipe_derivation`. */
  lemma RecipeSeedsShared(env: Env, recipeMint: Pubkey, recipe: AccountInfo, owner: Pubkey,
                          skinTokenAccount: AccountInfo, skinMint: Pubkey, skinMetadata: AccountInfo)
    requires recipe.key == RecipeAddress(env, recipeMint)
    ensures AssertRecipeDerivation(env, recipe, env.programId, RecipeSeeds(recipeMint)).Ok?
    ensures var bump := env.findProgramAddress(RecipeSeeds(recipeMint), env.programId).1;
            AddSkin(env, owner, recipe.key, bump, recipeMint, skinTokenAccount, skinMint, skinMetadata)
              == VerifyNft(env, skinTokenAccount, skinMint, skinMetadata, owner)
  {
  }

  /** `add_skin` does not look at the skin's collection: a skin accepted with one
      collection field is accepted with any other, including none at all. */
  lemma AddSkinIgnoresCollection(env: Env, owner: Pubkey, recipeKey: Pubkey, recipeBump: u8, recipeMint: Pubkey,
                                 skinTokenAccount: AccountInfo, skinMint: Pubkey, skinMetadata: AccountInfo,
                                 collection: Option<Collection>)
    requires skinMetadata.data.MetadataData?
    ensures var other := skinMetadata.(data := MetadataData(skinMetadata.data.meta.(collection := collection)));
            AddSkin(env, owner, recipeKey, recipeBump, recipeMint, skinTokenAccount, skinMint, other)
              == AddSkin(env, owner, recipeKey, recipeBump, recipeMint, skinTokenAccount, skinMint, skinMetadata)
  {
  }
}
