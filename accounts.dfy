/** Ledger accounts as the program sees them, and the library checks it calls on them.
    The address derivations of the ledger (`find_program_address`,
    `get_associated_token_address`) and the master-edition check are not computed
    here: they are fields of `Env`, so every property proved holds for any derivation. */
module Accounts {
  import opened Errors

  /** Rust's `u8`: a byte of a key or a seed, and a derivation's bump. */
  newtype u8 = x: int | 0 <= x < 0x100
  newtype u64 = x: int | 0 <= x < 0x1_0000_0000_0000_0000

  /** A 32-byte public key; the program only ever compares keys for equality. */
  type Pubkey = k: seq<u8> | |k| == 32 witness seq(32, _ => 0)

  /** One seed of an address derivation: a byte string such as `b"recipe"` or a key. */
  type Seed = seq<u8>

  /** The bytes of an ASCII literal, as Rust's `b"..."`. */
  function Ascii(s: string): (b: Seed)
    requires forall i :: 0 <= i < |s| ==> s[i] < 128 as char
  {
    seq(|s|, i requires 0 <= i < |s| => s[i] as int as u8)
  }

  /** Rust's `Option`, as the metadata record and the deserialisers return it. */
  datatype Option<+T> = None | Some(value: T)

  /** The SPL token account layout. */
  datatype TokenState = TokenState(mint: Pubkey, owner: Pubkey, amount: u64, initialized: bool)

  datatype Creator = Creator(address: Pubkey, verified: bool)
  datatype Collection = Collection(verified: bool, key: Pubkey)

  /** The parts of a Metaplex metadata record that the program reads. */
  datatype Metadata = Metadata(creators: Option<seq<Creator>>, collection: Option<Collection>)

  /** What an account's data bytes decode to. */
  datatype AccountData =
    | Empty                       // zero-length data
    | TokenData(state: TokenState) // bytes in the SPL token account layout
    | MetadataData(meta: Metadata) // bytes in the Metaplex metadata layout
    | Garbage                     // any other non-empty bytes

  /** An account: its address, the program that owns it, and its data. */
  datatype AccountInfo = AccountInfo(key: Pubkey, programOwner: Pubkey, data: AccountData)

  /** The ledger environment: program identities and the derivations the program
      calls but does not define. */
  datatype Env = Env(
    programId: Pubkey,                                       // this program's id
    tokenProgramId: Pubkey,                                  // SPL token program id
    metadataProgramId: Pubkey,                               // Metaplex metadata program id
    findProgramAddress: (seq<Seed>, Pubkey) -> (Pubkey, u8), // seeds, program id -> address, bump
    associatedTokenAddress: (Pubkey, Pubkey) -> Pubkey,      // wallet, mint -> token address
    editionValid: (Pubkey, Pubkey) -> bool                   // mint, edition address -> valid?
  )

  /** `assert_initialized`: unpack the token layout and require it initialised. */
  function AssertInitialized(a: AccountInfo): Result<TokenState>
  {
    if !a.data.TokenData? then Err(InvalidAccountData)
    else if !a.data.state.initialized then Err(Uninitialized)
    else Ok(a.data.state)
  }

  /** `assert_owned_by` */
  function AssertOwnedBy(a: AccountInfo, owner: Pubkey): Result<()>
  {
    if a.programOwner != owner then Err(IncorrectOwner) else Ok(())
  }

  /** `TokenAccount::try_deserialize`: succeeds on an initialised token layout only. */
  function DeserializeTokenAccount(data: AccountData): Option<TokenState>
  {
    if data.TokenData? && data.state.initialized then Some(data.state) else None
  }

  /** `Metadata::from_account_info` */
  function MetadataFromAccountInfo(a: AccountInfo): Result<Metadata>
  {
    if a.data.MetadataData? then Ok(a.data.meta) else Err(DataTypeMismatch)
  }

  /** `assert_derivation` of the metadata library: the account sits at the address
      derived from `seeds` under `programId`. */
  function AssertDerivation(env: Env, programId: Pubkey, a: AccountInfo, seeds: seq<Seed>): Result<()>
  {
    if env.findProgramAddress(seeds, programId).0 != a.key then Err(MetadataDerivedKeyInvalid)
    else Ok(())
  }

  /** `assert_edition_valid` */
  function AssertEditionValid(env: Env, mint: Pubkey, edition: AccountInfo): Result<()>
  {
    if env.editionValid(mint, edition.key) then Ok(()) else Err(InvalidEditionKey)
  }

  /** A readable, initialised token account owned by the token program. */
  predicate IsTokenAccount(env: Env, a: AccountInfo)
  {
    a.data.TokenData? && a.data.state.initialized && a.programOwner == env.tokenProgramId
  }
}
