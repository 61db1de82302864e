/**
 * The credit manager's stored configuration and its `UpdateConfig`
 * partial update: each supplied field replaces the stored one, each absent
 * field is kept, and a new owner is the one who may send later updates.
 */
module CreditManager {
  import opened Wrappers

  /** An unchecked address of the red bank contract. */
  datatype RedBankUnchecked = RedBankUnchecked(contractAddr: string)

  datatype InstantiateMsg = InstantiateMsg(owner: string, redBank: RedBankUnchecked)

  datatype UpdateConfigMsg =
    UpdateConfigMsg(accountNft: Option<string>, owner: Option<string>, redBank: Option<RedBankUnchecked>)

  /** The stored configuration, which is also what the config query reports. */
  datatype Config = Config(owner: string, accountNft: Option<string>, redBank: string)

  const NoChange := UpdateConfigMsg(None, None, None)

  /** The configuration after one update: supplied fields replaced, absent ones kept. */
  function Updated(c: Config, msg: UpdateConfigMsg): (r: Config)
    ensures msg.accountNft.Some? ==> r.accountNft == msg.accountNft
    ensures msg.accountNft.None? ==> r.accountNft == c.accountNft
    ensures msg.owner.Some? ==> r.owner == msg.owner.value
    ensures msg.owner.None? ==> r.owner == c.owner
    ensures msg.redBank.Some? ==> r.redBank == msg.redBank.value.contractAddr
    ensures msg.redBank.None? ==> r.redBank == c.redBank
  {
    Config(
      if msg.owner.Some? then msg.owner.value else c.owner,
      if msg.accountNft.Some? then msg.accountNft else c.accountNft,
      if msg.redBank.Some? then msg.redBank.value.contractAddr else c.redBank)
  }

  /** The deployed manager's stored configuration. */
  class Contract {
    var owner: string
    var accountNft: Option<string>
    var redBank: string

    /** Instantiation: the given owner and red bank, no account NFT yet. */
    constructor Instantiate(msg: InstantiateMsg)
      ensures QueryConfig() == Config(msg.owner, None, msg.redBank.contractAddr)
    {
      owner := msg.owner;
      accountNft := None;
      redBank := msg.redBank.contractAddr;
    }

    /** The config query: the three stored fields. */
    function QueryConfig(): (r: Config)
      reads this
      ensures r.owner == owner && r.accountNft == accountNft && r.redBank == redBank
    {
      Config(owner, accountNft, redBank)
    }

    /** Executed by `sender`, who must be the current owner. */
    method UpdateConfig(sender: string, msg: UpdateConfigMsg)
      requires sender == owner
      modifies this
      ensures QueryConfig() == Updated(old(QueryConfig()), msg)
    {
      if msg.accountNft.Some? {
        accountNft := msg.accountNft;
      }
      if msg.owner.Some? {
        owner := msg.owner.value;
      }
      if msg.redBank.Some? {
        redBank := msg.redBank.value.contractAddr;
      }
    }
  }

  /** The empty update is a no-op. */
  lemma NoChangeKeepsConfig(c: Config)
    ensures Updated(c, NoChange) == c
  {
  }

  /** Sending the same update twice is the same as sending it once. */
  lemma UpdatedIdempotent(c: Config, msg: UpdateConfigMsg)
    ensures Updated(Updated(c, msg), msg) == Updated(c, msg)
  {
  }

  /**
   * A run of updates, first to last: the empty run keeps the configuration,
   * and a longer run is the run without its last update, then that update.
   */
  function ApplyAll(c: Config, msgs: seq<UpdateConfigMsg>): (r: Config)
    ensures msgs == [] ==> r == c
    ensures msgs != [] ==> r == Updated(ApplyAll(c, msgs[..|msgs| - 1]), msgs[|msgs| - 1])
    decreases |msgs|
  {
    if msgs == [] then c
    else
      assert msgs[1..] != [] ==> msgs[1..][..|msgs[1..]| - 1] == msgs[..|msgs| - 1][1..];
      ApplyAll(Updated(c, msgs[0]), msgs[1..])
  }

  /** The value supplied last in `supplied`, or `default` if none was supplied. */
  function LastSupplied<T>(supplied: seq<Option<T>>, default: T): (r: T)
    ensures (forall i :: 0 <= i < |supplied| ==> supplied[i].None?) ==> r == default
    ensures forall i :: 0 <= i < |supplied| && supplied[i].Some? ==>
      (forall j :: i < j < |supplied| ==> supplied[j].None?) ==> r == supplied[i].value
    decreases |supplied|
  {
    if supplied == [] then default
    else if supplied[|supplied| - 1].Some? then supplied[|supplied| - 1].value
    else LastSupplied(supplied[..|supplied| - 1], default)
  }

  function SuppliedOwners(msgs: seq<UpdateConfigMsg>): (owners: seq<Option<string>>) {
    seq(|msgs|, i requires 0 <= i < |msgs| => msgs[i].owner)
  }

  function SuppliedAccountNfts(msgs: seq<UpdateConfigMsg>): (nfts: seq<Option<Option<string>>>) {
    seq(|msgs|, i requires 0 <= i < |msgs| =>
      if msgs[i].accountNft.Some? then Some(msgs[i].accountNft) else None)
  }

  function SuppliedRedBanks(msgs: seq<UpdateConfigMsg>): (redBanks: seq<Option<string>>) {
    seq(|msgs|, i requires 0 <= i < |msgs| =>
      if msgs[i].redBank.Some? then Some(msgs[i].redBank.value.contractAddr) else None)
  }

  lemma LastSuppliedSnoc<T>(supplied: seq<Option<T>>, x: Option<T>, default: T)
    ensures LastSupplied(supplied + [x], default) == if x.Some? then x.value else LastSupplied(supplied, default)
  {
  }

  lemma {:induction false} ApplyAllOwner(c: Config, msgs: seq<UpdateConfigMsg>)
    ensures ApplyAll(c, msgs).owner == LastSupplied(SuppliedOwners(msgs), c.owner)
    decreases |msgs|
  {
    if msgs != [] {
      var init, m := msgs[..|msgs| - 1], msgs[|msgs| - 1];
      assert msgs == init + [m];
      ApplyAllOwner(c, init);
      assert SuppliedOwners(msgs) == SuppliedOwners(init) + [m.owner];
      LastSuppliedSnoc(SuppliedOwners(init), m.owner, c.owner);
    }
  }

  lemma {:induction false} ApplyAllAccountNft(c: Config, msgs: seq<UpdateConfigMsg>)
    ensures ApplyAll(c, msgs).accountNft == LastSupplied(SuppliedAccountNfts(msgs), c.accountNft)
    decreases |msgs|
  {
    if msgs != [] {
      var init, m := msgs[..|msgs| - 1], msgs[|msgs| - 1];
      var x := if m.accountNft.Some? then Some(m.accountNft) else None;
      assert msgs == init + [m];
      ApplyAllAccountNft(c, init);
      assert SuppliedAccountNfts(msgs) == SuppliedAccountNfts(init) + [x];
      LastSuppliedSnoc(SuppliedAccountNfts(init), x, c.accountNft);
    }
  }

  lemma {:induction false} ApplyAllRedBank(c: Config, msgs: seq<UpdateConfigMsg>)
    ensures ApplyAll(c, msgs).redBank == LastSupplied(SuppliedRedBanks(msgs), c.redBank)
    decreases |msgs|
  {
    if msgs != [] {
      var init, m := msgs[..|msgs| - 1], msgs[|msgs| - 1];
      var x := if m.redBank.Some? then Some(m.redBank.value.contractAddr) else None;
      assert msgs == init + [m];
      ApplyAllRedBank(c, init);
      assert SuppliedRedBanks(msgs) == SuppliedRedBanks(init) + [x];
      LastSuppliedSnoc(SuppliedRedBanks(init), x, c.redBank);
    }
  }

  /**
   * Updates compose field by field: after a run of updates each field holds
   * the value supplied for it last, or its starting value if none was.
   */
  lemma ApplyAllFieldwise(c: Config, msgs: seq<UpdateConfigMsg>)
    ensures ApplyAll(c, msgs) == Config(
      LastSupplied(SuppliedOwners(msgs), c.owner),
      LastSupplied(SuppliedAccountNfts(msgs), c.accountNft),
      LastSupplied(SuppliedRedBanks(msgs), c.redBank))
  {
    ApplyAllOwner(c, msgs);
    ApplyAllAccountNft(c, msgs);
    ApplyAllRedBank(c, msgs);
  }

  /**
   * All three fields at once: every field takes the supplied value and the
   * initial state is the instantiation's.
   */
  method UpdateWithFullConfig(originalOwner: string, newOwner: string, nftContractAddr: string)
    returns (initial: Config, updated: Config)
    ensures initial == Config(originalOwner, None, "initial_red_bank")
    ensures updated == Config(newOwner, Some(nftContractAddr), "new_red_bank_addr")
  {
    var manager := new Contract.Instantiate(
      InstantiateMsg(originalOwner, RedBankUnchecked("initial_red_bank")));
    initial := manager.QueryConfig();
    manager.UpdateConfig(originalOwner,
      UpdateConfigMsg(Some(nftContractAddr), Some(newOwner), Some(RedBankUnchecked("new_red_bank_addr"))));
    updated := manager.QueryConfig();
  }

  /**
   * Single-field updates in turn: the account NFT, then the owner, then the
   * red bank sent by the new owner; each changes only its own field.
   */
  method UpdateWithSomeConfig(originalOwner: string, newOwner: string, nftContractAddr: string)
    returns (initial: Config, afterNft: Config, afterOwner: Config, afterRedBank: Config)
    ensures initial == Config(originalOwner, None, "initial_red_bank")
    ensures afterNft == Config(originalOwner, Some(nftContractAddr), "initial_red_bank")
    ensures afterOwner == Config(newOwner, Some(nftContractAddr), "initial_red_bank")
    ensures afterRedBank == Config(newOwner, Some(nftContractAddr), "new_red_bank_addr")
  {
    var manager := new Contract.Instantiate(
      InstantiateMsg(originalOwner, RedBankUnchecked("initial_red_bank")));
    initial := manager.QueryConfig();
    manager.UpdateConfig(originalOwner, UpdateConfigMsg(Some(nftContractAddr), None, None));
    afterNft := manager.QueryConfig();
    manager.UpdateConfig(originalOwner, UpdateConfigMsg(None, Some(newOwner), None));
    afterOwner := manager.QueryConfig();
    manager.UpdateConfig(newOwner, UpdateConfigMsg(None, None, Some(RedBankUnchecked("new_red_bank_addr"))));
    afterRedBank := manager.QueryConfig();
  }

  /** The all-absent update from the owner leaves the instantiated config as it was. */
  method UpdateWithNothing(originalOwner: string) returns (updated: Config)
    ensures updated == Config(originalOwner, None, "initial_red_bank")
  {
    var manager := new Contract.Instantiate(
      InstantiateMsg(originalOwner, RedBankUnchecked("initial_red_bank")));
    manager.UpdateConfig(originalOwner, NoChange);
    updated := manager.QueryConfig();
  }
}
