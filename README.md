# Mirror mod: a Dafny model of its reserve accounting

The mirror contract issues "synth" totems 1:1 against a "base" totem held in the
contract's custody. Its `pairings` table has one row per synth ticker. Each row holds the
base ticker and `base_locked`, the base attributed to that synth. Several synths may share
one base.

- `setup` registers a pairing after its guard checks.
- `mint` credits to one pairing the base that has arrived but is not yet tracked. The
  tracked amount is the sum of `base_locked` over every synth sharing that base. It then
  sends the minter that many synth tokens.
- `on_transfer` redeems synths sent to the contract. It pays out the same amount of base,
  burns the synths and lowers `base_locked`. It ignores any other transfer.

The contract reads the chain through the Totems library helpers: `get_totem`,
`get_totem_creator`, `get_balance`, `check_license`, `Mod::has_hook` and
`get_required_actions`.

Layout:

- `wrappers.dfy` (module `Wrappers`): `Option`, `Result` and `Outcome`.
- `totems.dfy` (module `Totems`): the library's table rows and the datatype `Chain`.
  `Chain` holds the Totems contract's `totems`, balance and license tables, the market's
  `mods` table and the set of existing accounts. The module also holds the lookups over
  `Chain` and `get_required_actions`, written as a loop and proved equal to the
  left-to-right specification `RequiredActions`.
- `mirror.dfy` (module `Mirror`): the `Pairing` row and the ghost sums over the `bybase`
  index. `TotalTracked(table, base)` sums `base_locked` over the siblings of `base`. The
  class `MirrorContract` holds the `pairings` table as a map and an `effects` list of the
  inline actions it sends. Its methods are `Setup`, `Mint` and `OnTransfer`.
- `scenarios.dfy` (module `MirrorScenarios`): client methods that follow three chains of
  actions using only the contracts. One is deposit, mint, redeem, then a mint with no new
  deposit. The second has two synths sharing one base, where a deposit is credited once, to
  the synth that mints. The third is a synth that is itself the base of another pairing:
  minting it pays out collateral that the other pairing tracks.

Choices made in the model:

- Each action is a method that either commits or ends with `Fail(e)`. On `Fail(e)` no
  field changes. This is the state the host's rollback leaves behind.
- The caller and environment are parameters. `auth` is the set of accounts whose authority
  the transaction carries, which stands for `require_auth`. `sender` stands for
  `get_sender()`. `Chain.accounts` stands for `is_account`.
- Outbound `totems::transfer` and `burn` calls are appended to `effects` as `Transfer` and
  `Burn`. They are not executed.
- The model follows the source in these details:
  - `setup` also checks the base creator's authority.
  - `on_transfer` checks the mod license before it redeems.
  - A tracked sum above the balance is not reported separately. `mint` rejects it as
    "nothing to mint", like any non-positive delta.
  - `mint` pays the minter with a transfer from the contract's own account.

## Model

| member | source | states |
|---|---|---|
| Totems.GetMod | contracts/library/totems.hpp:138-145 | none exactly when the market has no row for the contract; otherwise that row, whose key is the mod's contract |
| Totems.GetTotem | contracts/library/totems.hpp:225-232 | none exactly when no totem row exists for the ticker code; otherwise that row, which carries that ticker |
| Totems.GetTotemCreator | contracts/library/totems.hpp:240-244 | fails with "totem does not exist" exactly when the totem is absent; otherwise returns its creator |
| Totems.GetBalance | contracts/library/totems.hpp:252-259 | an account with no row holds amount 0 of the requested symbol; otherwise the stored balance, whose code is the requested one |
| Totems.CheckLicense | contracts/library/totems.hpp:285-298 | passes iff the mod is in the Totems license table for the ticker, or the proxy account exists and the mod is in the proxy's; otherwise fails naming the mod |
| Totems.FindIndex | contracts/library/totems.hpp:128-130 | `std::find`: the index returned is the first occurrence of the hook, or the end when it does not occur |
| Totems.HasHook | contracts/library/totems.hpp:128-130 | true iff the hook is a member of the mod's hook set |
| Totems.HookActionsMember | contracts/library/totems.hpp:311-319 | an action is collected for a hook iff some entry for that hook lists it |
| Totems.PrefixFailure | contracts/library/totems.hpp:306-309 | a check that fails for one mod aborts the whole call with that error, whatever mods follow |
| Totems.RequiredActionsFailsIff | contracts/library/totems.hpp:306-309 | the call fails iff some listed mod is unpublished or lacks the hook |
| Totems.FirstRejection | contracts/library/totems.hpp:306-309 | the error is that of the first unusable mod: "not published" naming it, or "does not support hook" |
| Totems.RequiredActionsAppend | contracts/library/totems.hpp:304-322 | results follow mod-list order: listing `a` then `b` yields `a`'s actions followed by `b`'s, and `a`'s failure is reported before `b`'s |
| Totems.GetRequiredActions | contracts/library/totems.hpp:304-322 | the nested loop computes exactly `RequiredActions`: the per-mod checks in list order, then the concatenated matching actions |
| Mirror.TrackedRemove | contracts/mirror/mirror.cpp:67-72 | the sum over the index range may take its rows in any order |
| Mirror.TrackedAgree | contracts/mirror/mirror.cpp:67-72 | the sum over a set of rows depends only on those rows' locked amounts |
| Mirror.TrackedReplace | contracts/mirror/mirror.cpp:78-80 | modifying one row changes the sum over rows containing it by that row's change alone |
| Mirror.AdjustTotals | contracts/mirror/mirror.cpp:78-80 | crediting or debiting one pairing by `d` moves its base's tracked total by exactly `d` and no other base's total |
| Mirror.InsertUnlocked | contracts/mirror/mirror.cpp:39-43 | a new row with `base_locked` 0 leaves every base's tracked total unchanged |
| Mirror.MirrorContract.constructor | contracts/mirror/mirror.cpp:20-21 | a new contract has no pairings, has sent nothing and tracks 0 for every base |
| Mirror.MirrorContract.SumBaseLocked | contracts/mirror/mirror.cpp:67-72 | `total_tracked` is the sum of `base_locked` over every pairing whose base matches |
| Mirror.MirrorContract.Setup | contracts/mirror/mirror.cpp:24-44 | fails, in source order, when a totem is missing, the base creator has not authorised, creators differ, precisions differ, synth equals base, or a pairing exists, and then changes nothing; otherwise adds exactly one row keyed by the synth code with base_ticker = base and base_locked = 0, leaves every other row and every tracked total unchanged, and sends nothing |
| Mirror.MirrorContract.Mint | contracts/mirror/mirror.cpp:47-88 | fails with no state change when the sender is not the Totems contract, the synth is unlicensed, payment ≠ 0, there is no pairing, the synth totem is missing, the minter is not its creator, or delta = balance − tracked sum ≤ 0. On success only the target row's base_locked rises, by exactly delta, and the quantity's amount is ignored. The tracked sum then equals the custody balance, other bases' totals are unchanged, the invariant "tracked ≤ custody" is preserved on the chain the action read (before its payout executes), and one transfer of delta synth to the minter is sent |
| Mirror.MirrorContract.OnTransfer | contracts/mirror/mirror.cpp:94-131 | a no-op (no state change, no effects) when `to ≠ self`, `from = self` or the symbol has no pairing; otherwise fails unchanged when unlicensed or base_locked < amount; on success base_locked drops by exactly the amount and stays ≥ 0 with no other row changed, and it sends the base to `from` and burns the quantity, after which the tracked sum stays within the custody that remains |

## Left out

- Mirror.MirrorContract.Mint: the invariant "tracked ≤ custody" is proved only on the chain the action read, before its payout of delta synth executes. `setup` rejects only a synth equal to its own base, so a synth may also be the base of another pairing. The payout then lowers the custody of a tracked base, and the invariant can fail once the payout is made. `MirrorScenarios.ChainedPairing` follows such a run. The model does not execute payouts, so it states nothing about the chain after them.
- The ledger effects of `totems::transfer` and the inline `burn` action. Both are recorded as requested `Effect`s. Balances do not move inside one action, and each action reads custody from the `Chain` it is given.
- `require_auth`, `get_sender` and `is_account` are inputs: the `auth` set, the `sender` name and `Chain.accounts`. Permission levels on the inline actions are not modelled.
- The host's transaction rollback. The model gives only its result: an action that fails leaves every field unchanged. A failing `on_transfer` also reverts the incoming transfer on chain, which is not modelled.
- `on_mint`, which is an empty handler.
- Memo strings, the `mod` and `memo` parameters of `mint` (the source never reads them), and the notification macro names. The three account names of the library are kept as constants only for their identity.
- `asset` arithmetic limits: amounts and `total_tracked` are unbounded integers, so int64 overflow of the sum is not modelled. The symbol-mismatch check inside `asset +=`/`-=` is also not modelled. A row keeps the symbol it was created with, and only its amount changes.
- The UI and metadata data: `ModDetails`, `TotemDetails`, `MintAllocation`, `TotemMods`, `TotemStats`, `TotemBackwardsCompat`. Also dropped are the `ActionField` layout of a required action, a mod's score and timestamps, and a totem's allocations, mods, details and timestamps.
- The iteration order of the `bybase` index. `SumBaseLocked` visits the siblings in an arbitrary order, and the sum does not depend on it (`TrackedRemove`).
- Concurrency: the host runs actions one at a time.
