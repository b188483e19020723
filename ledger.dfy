/** Cross-program invocations. The model records each instruction the program asks
    the token programs to run, with its arguments; what those programs then do to
    balances is theirs and is not modelled. */
module Ledger {
  import opened Errors
  import opened Accounts

  datatype Instruction =
    | CreateAssociatedToken(payer: Pubkey, associatedToken: Pubkey, authority: Pubkey, mint: Pubkey)
    | Transfer(from: Pubkey, to: Pubkey, authority: Pubkey, amount: u64)

  /** The runtime seen from inside one transaction: `issued` is the sequence of
      instructions invoked so far; `refused` are those the invoked program rejects. */
  class Runtime {
    var issued: seq<Instruction>
    const refused: set<Instruction>

    constructor (refused: set<Instruction>)
      ensures issued == [] && this.refused == refused
    {
      issued := [];
      this.refused := refused;
    }

    /** `invoke`: run one instruction; a rejected one fails the call and has no effect. */
    method Invoke(ix: Instruction) returns (r: Result<()>)
      modifies this
      ensures r.Ok? <==> ix !in refused
      ensures r.Err? ==> r.error == CpiFailed
      ensures issued == old(issued) + (if r.Ok? then [ix] else [])
    {
      if ix in refused {
        r := Err(CpiFailed);
      } else {
        issued := issued + [ix];
        r := Ok(());
      }
    }
  }
}
