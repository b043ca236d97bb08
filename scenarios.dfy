/**
 * Clients of the mirror contract. Each method runs the actions on concrete chain states
 * and asserts what follows from their contracts alone: the amounts minted, locked,
 * paid out and burned.
 */
module MirrorScenarios {
  import opened Wrappers
  import opened Totems
  import opened Mirror

  const Creator: Name := "alice"
  const Holder: Name := "bob"
  const Self: Name := "mirrormirror"
  const Base := Symbol("BASE", 4)
  const SynthA := Symbol("SYNA", 4)
  const SynthB := Symbol("SYNB", 4)

  function TotemOf(sym: Symbol): Totem {
    Totem(Creator, Asset(0, sym), Asset(1000000, sym))
  }

  /** The chain with all three totems created by `Creator`, both synths licensed to the
      mirror, and `custody` base held by the mirror. */
  function ChainWith(custody: int): Chain {
    Chain(
      map["BASE" := TotemOf(Base), "SYNA" := TotemOf(SynthA), "SYNB" := TotemOf(SynthB)],
      map[BalanceKey(TotemsContract, Self, "BASE") := Asset(custody, Base)],
      {LicenseRow(TotemsContract, "SYNA", Self), LicenseRow(TotemsContract, "SYNB", Self)},
      map[],
      {})
  }

  /** Pair, deposit 100 base, mint, redeem 50, then try to mint with nothing new deposited. */
  method DepositMintRedeem() {
    var c := new MirrorContract(Self);
    var r := c.Setup(ChainWith(0), {Creator}, SynthA, Base);
    assert r == Pass;

    r := c.Mint(ChainWith(100), TotemsContract, Creator, Asset(0, SynthA), Asset(0, Base));
    assert r == Pass;
    assert c.pairings["SYNA"].baseLocked.amount == 100;
    assert c.effects == [Transfer(TotemsContract, Self, Creator, Asset(100, SynthA))];

    r := c.OnTransfer(ChainWith(100), Holder, Self, Asset(50, SynthA));
    assert r == Pass;
    assert c.pairings["SYNA"].baseLocked.amount == 50;
    assert c.effects[1..] == [Transfer(TotemsContract, Self, Holder, Asset(50, Base)),
                              Burn(TotemsContract, Self, Asset(50, SynthA))];

    // Once the payout has left custody, 50 base remain and all of it is tracked.
    r := c.Mint(ChainWith(50), TotemsContract, Creator, Asset(0, SynthA), Asset(0, Base));
    assert r == Fail(NothingToMint);

    // Redeeming more than is locked is refused.
    r := c.OnTransfer(ChainWith(50), Holder, Self, Asset(51, SynthA));
    assert r == Fail(InsufficientReserves);
  }

  /** Two synths share one base: a deposit is credited once, to the synth that mints. */
  method SiblingsShareBase() {
    var c := new MirrorContract(Self);
    var r := c.Setup(ChainWith(0), {Creator}, SynthA, Base);
    assert r == Pass;
    r := c.Setup(ChainWith(0), {Creator}, SynthB, Base);
    assert r == Pass;
    r := c.Setup(ChainWith(0), {Creator}, SynthB, Base);
    assert r == Fail(DuplicatePairing);

    r := c.Mint(ChainWith(100), TotemsContract, Creator, Asset(0, SynthA), Asset(0, Base));
    assert r == Pass;
    r := c.Mint(ChainWith(150), TotemsContract, Creator, Asset(0, SynthB), Asset(0, Base));
    assert r == Pass;
    assert c.pairings["SYNA"].baseLocked.amount == 100;
    assert c.pairings["SYNB"].baseLocked.amount == 50;

    // 75 more base arrive; minting through A credits exactly those 75 to A.
    var before := |c.effects|;
    r := c.Mint(ChainWith(225), TotemsContract, Creator, Asset(1, SynthA), Asset(0, Base));
    assert r == Pass;
    assert c.pairings["SYNA"].baseLocked.amount == 175;
    assert c.pairings["SYNB"].baseLocked.amount == 50;
    assert TotalTracked(c.pairings, "BASE") == 225;
    assert c.effects[before..] == [Transfer(TotemsContract, Self, Creator, Asset(75, SynthA))];
  }

  /** The chain where the mirror holds `base` BASE and `synthA` SYNA. */
  function ChainHolding(base: int, synthA: int): Chain {
    Chain(
      map["BASE" := TotemOf(Base), "SYNA" := TotemOf(SynthA), "SYNB" := TotemOf(SynthB)],
      map[BalanceKey(TotemsContract, Self, "BASE") := Asset(base, Base),
          BalanceKey(TotemsContract, Self, "SYNA") := Asset(synthA, SynthA)],
      {LicenseRow(TotemsContract, "SYNA", Self), LicenseRow(TotemsContract, "SYNB", Self)},
      map[],
      {})
  }

  /**
   * SYNB is backed by SYNA, which is itself backed by BASE. Minting SYNA pays its delta
   * out of the SYNA that backs SYNB, so once that payout is made SYNB's backing is short.
   */
  method ChainedPairing() {
    var c := new MirrorContract(Self);
    var r := c.Setup(ChainHolding(0, 0), {Creator}, SynthA, Base);
    assert r == Pass;
    r := c.Setup(ChainHolding(0, 0), {Creator}, SynthB, SynthA);
    assert r == Pass;

    // 10 SYNA deposited: minting SYNB locks all 10 of them.
    r := c.Mint(ChainHolding(0, 10), TotemsContract, Creator, Asset(0, SynthB), Asset(0, Base));
    assert r == Pass;
    assert TotalTracked(c.pairings, "SYNA") == 10;

    // 5 BASE deposited: minting SYNA sends 5 SYNA out of the contract's custody.
    var before := |c.effects|;
    r := c.Mint(ChainHolding(5, 10), TotemsContract, Creator, Asset(0, SynthA), Asset(0, Base));
    assert r == Pass;
    assert c.effects[before..] == [Transfer(TotemsContract, Self, Creator, Asset(5, SynthA))];
    assert TotalTracked(c.pairings, "SYNA") == 10;

    // After that payout the contract holds 5 SYNA against 10 tracked.
    assert TotalTracked(c.pairings, "SYNA") > Custody(ChainHolding(5, 5), Self, "SYNA");
    assert !Backed(ChainHolding(5, 5), Self, c.pairings);
  }
}
