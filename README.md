# autorug ledger model

A Dafny model of the ledger at the heart of autorug, a demo site where a user
"creates" a meme coin, watches simulated profit and loss, and "pulls" the
liquidity back out. Everything lives in the browser's local storage. Three
lists are kept there: the registered users, the coins, and the transaction
log. There is also a current-session record.

The model covers:

- **Users and sessions** (`auth.dfy`): the auth provider registers a user,
  logs in and out, and restores a stored session. Passwords are stored as
  their `btoa` (base64) encoding. The encoding is modelled concretely,
  together with its inverse.
- **The coin and transaction store** (`storage.dfy`, `ledger.dfy`): the two
  stored lists and the per-user views of them. The transaction view is
  sorted newest first. The analytics block is computed over that view.
- **Liquidity accounting** (`accounting.dfy`):
  - the withdraw guard and clamp of a coin card;
  - the 25% / 50% / MAX shortcuts;
  - the proportional shrink of a partial withdrawal;
  - the simulated profit and loss.
- **The dashboard page** (`dashboard.dfy`): loading the views, and the
  operations that change the store. Those are removing liquidity (which
  deletes or shrinks a coin), logging and deleting transactions, and
  generating PNL.
- **The onboarding wizard** (`onboarding.dfy`): the coin form and its
  validity check, the simulated wallet address, and the final write of a coin
  with its "creation" record.

Amounts are exact reals. Random draws are parameters of the operations:
generated ids, PNL multipliers and address characters. So is the clock
(`now`, in milliseconds).

The store's invariant is `Store.Valid`. It requires three things: coin ids are
unique, every coin's investment is positive, and every coin's liquidity
(investment plus profit) is positive. Every operation that writes coins
preserves it. It is what makes the divisions by the investment and by the
current liquidity well defined.

## Model

| member | source | states |
|---|---|---|
| Seqs.Filter | app/dijoqhi89123hd3i1e8hqwikrfhio3q289hrei38hr2389hri3qxhr3928hr8239rrfi3w/page.tsx:320 | the result is no longer than the input and a sub-multiset of it |
| Seqs.FilterMembers | app/dijoqhi89123hd3i1e8hqwikrfhio3q289hrei38hr2389hri3qxhr3928hr8239rrfi3w/page.tsx:320 | every kept element passes the predicate and came from the input; every input element that passes is kept |
| Seqs.FilterAppend | app/dijoqhi89123hd3i1e8hqwikrfhio3q289hrei38hr2389hri3qxhr3928hr8239rrfi3w/page.tsx:320 | filtering a concatenation is the concatenation of the filtered parts, so order is never changed |
| Seqs.FilterKeepsAll | app/dijoqhi89123hd3i1e8hqwikrfhio3q289hrei38hr2389hri3qxhr3928hr8239rrfi3w/page.tsx:277 | a list whose every element passes comes back unchanged |
| Seqs.FilterDropsOne | app/dijoqhi89123hd3i1e8hqwikrfhio3q289hrei38hr2389hri3qxhr3928hr8239rrfi3w/page.tsx:320 | when exactly one element fails, the result is the list with that element cut out and the rest in order |
| Seqs.FirstIndex | app/dijoqhi89123hd3i1e8hqwikrfhio3q289hrei38hr2389hri3qxhr3928hr8239rrfi3w/page.tsx:303 | None exactly when no element matches; otherwise a matching index with no match before it (the element `find` returns) |
| Ledger.FindCoin | app/dijoqhi89123hd3i1e8hqwikrfhio3q289hrei38hr2389hri3qxhr3928hr8239rrfi3w/page.tsx:303-304 | None exactly when no stored coin has the id; otherwise a position holding a coin with the id, with no such coin before it (the coin `find` returns) |
| Ledger.FindCoinUnique | app/dijoqhi89123hd3i1e8hqwikrfhio3q289hrei38hr2389hri3qxhr3928hr8239rrfi3w/page.tsx:303 | with unique ids the lookup of a coin's id returns that coin's own position |
| Ledger.RemoveCoin | app/dijoqhi89123hd3i1e8hqwikrfhio3q289hrei38hr2389hri3qxhr3928hr8239rrfi3w/page.tsx:320 | every kept coin lacks the id and was stored; every stored coin without the id is kept |
| Ledger.RemoveFoundCoin | app/dijoqhi89123hd3i1e8hqwikrfhio3q289hrei38hr2389hri3qxhr3928hr8239rrfi3w/page.tsx:320 | with unique ids, removing the found id drops exactly that coin and keeps the others in order |
| Ledger.RemoveAbsentCoin | app/dijoqhi89123hd3i1e8hqwikrfhio3q289hrei38hr2389hri3qxhr3928hr8239rrfi3w/page.tsx:320 | removing an id that is not stored leaves the list unchanged |
| Ledger.WellFormedWithout | app/dijoqhi89123hd3i1e8hqwikrfhio3q289hrei38hr2389hri3qxhr3928hr8239rrfi3w/page.tsx:320 | dropping one coin keeps the ids unique and every coin's investment and liquidity positive |
| Ledger.CoinView | app/dijoqhi89123hd3i1e8hqwikrfhio3q289hrei38hr2389hri3qxhr3928hr8239rrfi3w/page.tsx:106 | the view holds only the signed-in user's stored coins and all of them; with nobody signed in it is empty |
| Ledger.DeleteTx | app/dijoqhi89123hd3i1e8hqwikrfhio3q289hrei38hr2389hri3qxhr3928hr8239rrfi3w/page.tsx:277 | every kept record lacks the id and was stored; every stored record without the id is kept |
| Ledger.DeleteAbsentTx | app/dijoqhi89123hd3i1e8hqwikrfhio3q289hrei38hr2389hri3qxhr3928hr8239rrfi3w/page.tsx:277 | deleting an id that is not logged leaves the list unchanged |
| Ledger.DeleteOnlyTx | app/dijoqhi89123hd3i1e8hqwikrfhio3q289hrei38hr2389hri3qxhr3928hr8239rrfi3w/page.tsx:277 | deleting the one record with an id removes exactly it and keeps the others in order |
| Ledger.Insert | app/dijoqhi89123hd3i1e8hqwikrfhio3q289hrei38hr2389hri3qxhr3928hr8239rrfi3w/page.tsx:196-198 | the insertion step of the sort adds exactly the one record: the multiset grows by it and the length by one |
| Ledger.InsertNewestFirst | app/dijoqhi89123hd3i1e8hqwikrfhio3q289hrei38hr2389hri3qxhr3928hr8239rrfi3w/page.tsx:196-198 | inserting into a newest-first list keeps it newest first |
| Ledger.SortNewestFirst | app/dijoqhi89123hd3i1e8hqwikrfhio3q289hrei38hr2389hri3qxhr3928hr8239rrfi3w/page.tsx:196-198 | the sorted list is newest first and a permutation of its input |
| Ledger.TxView | app/dijoqhi89123hd3i1e8hqwikrfhio3q289hrei38hr2389hri3qxhr3928hr8239rrfi3w/page.tsx:183-198 | the view is newest first, holds only the user's stored records, and is a permutation of the user's records; with nobody signed in it is empty |
| Ledger.TxDraft.Stamp | app/dijoqhi89123hd3i1e8hqwikrfhio3q289hrei38hr2389hri3qxhr3928hr8239rrfi3w/page.tsx:248-252 | definition, no ensures: the draft completed with the drawn id and the current time, as `{ ...transaction, id, timestamp }` builds it |
| Ledger.Liquidity | app/dijoqhi89123hd3i1e8hqwikrfhio3q289hrei38hr2389hri3qxhr3928hr8239rrfi3w/page.tsx:306 | definition, no ensures: a coin's liquidity is investment plus profit (also the coin card's `currentLiquidity`, line 753) |
| Ledger.SumOfKind | app/dijoqhi89123hd3i1e8hqwikrfhio3q289hrei38hr2389hri3qxhr3928hr8239rrfi3w/page.tsx:208-216 | definition, no ensures: the sum of the amounts of the records of one kind; its properties are stated by SumOfKindNonNegative, InsertKeepsSum and SortKeepsSum |
| Ledger.CountCreationsAfter | app/dijoqhi89123hd3i1e8hqwikrfhio3q289hrei38hr2389hri3qxhr3928hr8239rrfi3w/page.tsx:218-220 | definition, no ensures: the number of creation records strictly newer than the cutoff; CountBounded, InsertKeepsCount and SortKeepsCount state its properties |
| Ledger.ComputeAnalytics | app/dijoqhi89123hd3i1e8hqwikrfhio3q289hrei38hr2389hri3qxhr3928hr8239rrfi3w/page.tsx:204-227 | definition, no ensures: the analytics block, with the removal and creation totals, the creations newer than thirty days before now, and the fixed 15; AnalyticsIgnoreOrder and LogRaisesTotals state its properties |
| Ledger.SumOfKindNonNegative | app/dijoqhi89123hd3i1e8hqwikrfhio3q289hrei38hr2389hri3qxhr3928hr8239rrfi3w/page.tsx:208-216 | a total over records whose amounts are non-negative is non-negative |
| Ledger.CountBounded | app/dijoqhi89123hd3i1e8hqwikrfhio3q289hrei38hr2389hri3qxhr3928hr8239rrfi3w/page.tsx:218-220 | the recent-creations count is at most the number of records |
| Ledger.InsertKeepsSum | app/dijoqhi89123hd3i1e8hqwikrfhio3q289hrei38hr2389hri3qxhr3928hr8239rrfi3w/page.tsx:208-216 | inserting a record adds its amount to the matching total and nothing else |
| Ledger.InsertKeepsCount | app/dijoqhi89123hd3i1e8hqwikrfhio3q289hrei38hr2389hri3qxhr3928hr8239rrfi3w/page.tsx:218-220 | inserting a record adds one to the recent-creations count exactly when it is a recent creation |
| Ledger.SortKeepsSum | app/dijoqhi89123hd3i1e8hqwikrfhio3q289hrei38hr2389hri3qxhr3928hr8239rrfi3w/page.tsx:208-216 | sorting does not change either total |
| Ledger.SortKeepsCount | app/dijoqhi89123hd3i1e8hqwikrfhio3q289hrei38hr2389hri3qxhr3928hr8239rrfi3w/page.tsx:218-220 | sorting does not change the recent-creations count |
| Ledger.AnalyticsIgnoreOrder | app/dijoqhi89123hd3i1e8hqwikrfhio3q289hrei38hr2389hri3qxhr3928hr8239rrfi3w/page.tsx:204-227 | the analytics of the sorted view equal those of the user's records in stored order |
| Ledger.LogRaisesTotals | app/dijoqhi89123hd3i1e8hqwikrfhio3q289hrei38hr2389hri3qxhr3928hr8239rrfi3w/page.tsx:204-227 | after a record is logged the reloaded analytics rise by its amount in the matching total, and by one recent creation when it is one, with the other figures unchanged |
| Accounting.Round2 | app/dijoqhi89123hd3i1e8hqwikrfhio3q289hrei38hr2389hri3qxhr3928hr8239rrfi3w/page.tsx:426 | the result is a whole number of cents, within half a cent of its input, and keeps its sign |
| Accounting.Cents | app/dijoqhi89123hd3i1e8hqwikrfhio3q289hrei38hr2389hri3qxhr3928hr8239rrfi3w/page.tsx:426 | definition, no ensures: n hundredths, the values `toFixed(2)` can produce |
| Accounting.Round2Monotone | app/dijoqhi89123hd3i1e8hqwikrfhio3q289hrei38hr2389hri3qxhr3928hr8239rrfi3w/page.tsx:426 | rounding to cents is monotone |
| Accounting.Round2Cents | app/dijoqhi89123hd3i1e8hqwikrfhio3q289hrei38hr2389hri3qxhr3928hr8239rrfi3w/page.tsx:426 | a whole number of cents is rounded to itself |
| Accounting.ShortcutAmount | app/dijoqhi89123hd3i1e8hqwikrfhio3q289hrei38hr2389hri3qxhr3928hr8239rrfi3w/page.tsx:764-772 | MAX fills in exactly the current liquidity; the other shortcuts are a whole number of cents within half a cent of the share |
| Accounting.WithdrawTarget | app/dijoqhi89123hd3i1e8hqwikrfhio3q289hrei38hr2389hri3qxhr3928hr8239rrfi3w/page.tsx:775-799 | a request is rejected exactly when it is not a number, not positive or above the liquidity; an accepted one leaves a target below the liquidity, 0 exactly when under 0.001 would remain, else the exact remainder |
| Accounting.MaxShortcutEmptiesCoin | app/dijoqhi89123hd3i1e8hqwikrfhio3q289hrei38hr2389hri3qxhr3928hr8239rrfi3w/page.tsx:764-767 | withdrawing the MAX shortcut always targets 0, the deletion path |
| Accounting.HalfShortcutAccepted | app/dijoqhi89123hd3i1e8hqwikrfhio3q289hrei38hr2389hri3qxhr3928hr8239rrfi3w/page.tsx:768-770 | a positive 25% or 50% shortcut amount never exceeds the liquidity, so the guard accepts it |
| Accounting.ScaleCoin | app/dijoqhi89123hd3i1e8hqwikrfhio3q289hrei38hr2389hri3qxhr3928hr8239rrfi3w/page.tsx:355-366 | a partial withdrawal scales liquidity by the ratio, keeps the investment : profit split and leaves every other field |
| Accounting.ScaleToTarget | app/dijoqhi89123hd3i1e8hqwikrfhio3q289hrei38hr2389hri3qxhr3928hr8239rrfi3w/page.tsx:355-359 | scaling by new over current liquidity lands exactly on the new liquidity and keeps the coin healthy |
| Accounting.ScaleMatching | app/dijoqhi89123hd3i1e8hqwikrfhio3q289hrei38hr2389hri3qxhr3928hr8239rrfi3w/page.tsx:337-368 | exactly the coins with the id are scaled; all others are kept in place |
| Accounting.ScaleFoundCoin | app/dijoqhi89123hd3i1e8hqwikrfhio3q289hrei38hr2389hri3qxhr3928hr8239rrfi3w/page.tsx:337-368 | with unique ids the map rewrites only the found coin, and the collection stays well formed |
| Accounting.RemovedAmount | app/dijoqhi89123hd3i1e8hqwikrfhio3q289hrei38hr2389hri3qxhr3928hr8239rrfi3w/page.tsx:306-351 | the logged removal is the whole liquidity on the deletion path and current minus new liquidity otherwise |
| Accounting.Withdrawn | app/dijoqhi89123hd3i1e8hqwikrfhio3q289hrei38hr2389hri3qxhr3928hr8239rrfi3w/page.tsx:309-368 | definition, no ensures: the stored coins after the update, with the found coin dropped below 0.001 and scaled to the new liquidity otherwise; RemoveFoundCoin, WellFormedWithout and ScaleFoundCoin state its properties |
| Accounting.ApplyPnl | app/dijoqhi89123hd3i1e8hqwikrfhio3q289hrei38hr2389hri3qxhr3928hr8239rrfi3w/page.tsx:424-432 | profit becomes investment times the multiplier, pnl the multiplier in percent rounded to cents, and every other field stays |
| Accounting.PnlMultiplier | app/dijoqhi89123hd3i1e8hqwikrfhio3q289hrei38hr2389hri3qxhr3928hr8239rrfi3w/page.tsx:409-420 | definition, no ensures: the multipliers the two draws can produce, [2, 10) for a profit and (-0.9, -0.1] for a loss |
| Accounting.PnlKeepsHealthy | app/dijoqhi89123hd3i1e8hqwikrfhio3q289hrei38hr2389hri3qxhr3928hr8239rrfi3w/page.tsx:409-432 | a drawn multiplier keeps liquidity positive and puts pnl in [200, 1000] or [-90, -10] |
| Accounting.PnlAll | app/dijoqhi89123hd3i1e8hqwikrfhio3q289hrei38hr2389hri3qxhr3928hr8239rrfi3w/page.tsx:406-435 | each of the user's coins gets its own multiplier; every other coin is kept |
| Accounting.PnlAllWellFormed | app/dijoqhi89123hd3i1e8hqwikrfhio3q289hrei38hr2389hri3qxhr3928hr8239rrfi3w/page.tsx:406-435 | the PNL batch keeps the coin collection well formed |
| Auth.Base64 | contexts/auth-context.tsx:61 | the encoding of n bytes has 4 * ceil(n / 3) characters |
| Auth.Btoa | contexts/auth-context.tsx:61 | the encoding exists exactly for strings whose characters all fit in one byte |
| Auth.Base64RoundTrip | contexts/auth-context.tsx:61 | decoding the encoding gives back the string |
| Auth.BtoaRoundTrip | contexts/auth-context.tsx:61 | the stored password hash is reversible |
| Auth.FindUser | contexts/auth-context.tsx:86 | None exactly when no record has the username; otherwise the first record that has it |
| Auth.DisplayName | contexts/auth-context.tsx:60 | definition, no ensures: `name || username`, the given name unless it is absent or empty |
| Auth.NewUser | contexts/auth-context.tsx:57-62 | definition, no ensures: the appended record, with the drawn id, the username, the display name and the `btoa` hash |
| Auth.Authenticates | contexts/auth-context.tsx:86-89 | definition, no ensures: the first record with the username exists and stores the password's encoding; RegisterThenLogin and WrongPasswordRejected state its properties |
| Auth.FindAppended | contexts/auth-context.tsx:50-65 | after a new username is appended, looking it up finds the appended record |
| Auth.RegisterThenLogin | contexts/auth-context.tsx:57-89 | registering and then logging in with the same password is accepted |
| Auth.WrongPasswordRejected | contexts/auth-context.tsx:86-91 | logging in to a freshly registered user with any other password is rejected |
| Auth.AuthContext.constructor | contexts/auth-context.tsx:33-34 | the provider starts with nobody signed in and loading |
| Auth.AuthContext.Restore | contexts/auth-context.tsx:37-43 | a stored session becomes the current user; loading ends either way |
| Auth.AuthContext.Register | contexts/auth-context.tsx:46-77 | succeeds exactly when the username is new and the password encodable; success appends one record and signs the new user in without the hash; failure changes nothing; unique usernames are kept |
| Auth.AuthContext.Login | contexts/auth-context.tsx:80-103 | succeeds exactly when the first record with the username holds the password's encoding; success signs that user in, failure changes nothing |
| Auth.AuthContext.Logout | contexts/auth-context.tsx:106-109 | the session and the current user are cleared |
| Storage.Store.constructor | app/dijoqhi89123hd3i1e8hqwikrfhio3q289hrei38hr2389hri3qxhr3928hr8239rrfi3w/page.tsx:103 | an empty store is well formed |
| Dashboard.Page.constructor | app/dijoqhi89123hd3i1e8hqwikrfhio3q289hrei38hr2389hri3qxhr3928hr8239rrfi3w/page.tsx:67-79 | the page starts with no coins, no transactions and the initial analytics |
| Dashboard.Page.Load | app/dijoqhi89123hd3i1e8hqwikrfhio3q289hrei38hr2389hri3qxhr3928hr8239rrfi3w/page.tsx:95-231 | with a user signed in, the coins and transactions shown are that user's views of the store and the analytics are computed from them; otherwise nothing loads |
| Dashboard.Page.LogTransaction | app/dijoqhi89123hd3i1e8hqwikrfhio3q289hrei38hr2389hri3qxhr3928hr8239rrfi3w/page.tsx:241-267 | the stamped record goes in front of the stored list and the shown list is re-derived from it |
| Dashboard.Page.DeleteTransaction | app/dijoqhi89123hd3i1e8hqwikrfhio3q289hrei38hr2389hri3qxhr3928hr8239rrfi3w/page.tsx:270-294 | the stored list loses the id and the shown list is re-derived from it |
| Dashboard.Page.UpdateCoinLiquidity | app/dijoqhi89123hd3i1e8hqwikrfhio3q289hrei38hr2389hri3qxhr3928hr8239rrfi3w/page.tsx:296-388 | an unknown id changes nothing; otherwise one removal record of the removed amount is logged and the coin is dropped (below 0.001) or scaled to the new liquidity, and the store stays well formed |
| Dashboard.Page.RemoveLiquidity | app/dijoqhi89123hd3i1e8hqwikrfhio3q289hrei38hr2389hri3qxhr3928hr8239rrfi3w/page.tsx:774-825 | an invalid amount changes nothing; for a stored coin, the stored coins become the withdrawn list and one removal record of the removed amount goes in front of the log; a zero target deletes the coin and reports its whole liquidity, any other leaves it at exactly the target and reports the requested amount; whenever the id is stored the page's coin and transaction views are re-derived from the new store; a card whose id is no longer stored reports `{deleted: false, amount: 0}` and changes nothing |
| Dashboard.Page.GenerateRandomPnl | app/dijoqhi89123hd3i1e8hqwikrfhio3q289hrei38hr2389hri3qxhr3928hr8239rrfi3w/page.tsx:390-452 | with nobody signed in or no coins shown nothing changes; otherwise the user's coins get their multipliers and the store stays well formed |
| Onboarding.InitialForm | app/onboarding/page.tsx:36-52 | the form starts with its drawn id, liquidity 1 and no wallet |
| Onboarding.Patch | app/onboarding/page.tsx:91-93 | each supplied field is overwritten and every other field keeps its value |
| Onboarding.TrimStart | app/onboarding/page.tsx:97 | the result is a suffix, all that was dropped is white space, and it does not start with white space |
| Onboarding.TrimEnd | app/onboarding/page.tsx:97 | the result is a prefix, all that was dropped is white space, and it does not end with white space |
| Onboarding.TrimEmptyIffBlank | app/onboarding/page.tsx:97 | a name trims to nothing exactly when it is all white space |
| Onboarding.FormValid | app/onboarding/page.tsx:96-98 | the form is valid exactly when the name has a character that is not white space and a platform is chosen |
| Onboarding.AlphabetAt | app/onboarding/page.tsx:102 | each position of the alphabet holds the next character of its run |
| Onboarding.AlphabetShape | app/onboarding/page.tsx:102 | the alphabet has 58 characters in strictly rising, hence distinct, order, and contains none of 0, O, I and l |
| Onboarding.GenerateSolanaAddress | app/onboarding/page.tsx:101-108 | the address has 44 characters, each the alphabet character drawn for its position |
| Onboarding.CoinName | app/onboarding/page.tsx:154 | the stored name is never empty and is the form's name whenever that is non-empty |
| Onboarding.NewCoin | app/onboarding/page.tsx:151-162 | the new coin carries the form's id, the owner, the invested amount, zero profit and pnl, and the platform label |
| Onboarding.CreationTx | app/onboarding/page.tsx:173-181 | definition, no ensures: the creation record, with the drawn id, the owner, the form's id as coin id, the coin name, the liquidity amount and the current time; CreationPairAgrees states how it matches the coin |
| Onboarding.CreationPairAgrees | app/onboarding/page.tsx:151-181 | the coin and its creation record name the same coin, owner and name, the record's amount is the coin's liquidity, and a positive amount gives a healthy coin |
| Onboarding.PrependFresh | app/onboarding/page.tsx:169 | putting a healthy coin with a new id in front keeps the collection well formed |
| Onboarding.Wizard.constructor | app/onboarding/page.tsx:29-52 | the wizard starts on the details step with the initial form and no wallet |
| Onboarding.Wizard.UpdateFormData | app/onboarding/page.tsx:91-93 | the form becomes the patched form |
| Onboarding.Wizard.HandleSubmit | app/onboarding/page.tsx:205-217 | an invalid form leaves the dialog as it was; a valid one opens it |
| Onboarding.Wizard.ConnectWallet | app/onboarding/page.tsx:110-137 | the generated address is shown, the wallet counts as connected in the page and the form, the dialog closes and the liquidity step follows |
| Onboarding.Wizard.HandleCreateCoin | app/onboarding/page.tsx:139-203 | with nobody signed in nothing is written; otherwise the new coin and its creation record go in front of the stored lists, which stay well formed |
| Onboarding.Wizard.HandleFinishCreation | app/onboarding/page.tsx:219-227 | the wizard enters the creating step and then creates the coin as above |

## Left out

- Timers and mount guards are not modelled. This covers the `setTimeout`
  delays, `isMounted` and the `storage` event broadcast and its listener,
  which reloads the coins. Each operation is one atomic step.
- Toasts, routing and all rendering are not modelled. This includes the
  SOL_TO_USD conversion, which is only displayed.
- The script the onboarding page injects is not modelled, nor are the
  connect-wallet buttons that call it.
- JSON (de)serialisation and date parsing are not modelled. The stored lists
  are typed sequences, and times are integers in milliseconds.
- Floating point is not modelled. Amounts are exact reals, and `toFixed(2)`
  is modelled as rounding halves away from zero. The two can differ on binary
  halves.
- `parseFloat` is not modelled. A request that is not a number is `None`.
- Dashboard.Page.Load: the coins effect also re-creates the `createdAt`
  dates, which is not modelled. The analytics are computed only here. Logging
  or deleting a transaction does not refresh them, as in the source.
- Dashboard.Page.UpdateCoinLiquidity: requires `Store.Valid`. Without it a
  coin of zero liquidity would divide by zero and give NaN, which the model
  does not represent.
- Dashboard.Page.RemoveLiquidity: its outcome and new store are stated only
  for a card whose coin is the stored one or whose id is no longer stored.
  A stale card whose id is still stored with other values is guaranteed
  only to keep the store valid and to re-derive the page's views.
- Dashboard.Page.GenerateRandomPnl: requires the drawn multipliers to lie in
  the two ranges that `Math.random` can produce. Whether a coin profits, with
  probability 0.7, is folded into which range its multiplier falls in.
- Onboarding.Wizard.HandleCreateCoin: requires the drawn coin id to be new
  and the amount to be positive. Both come from the random id and from the
  finish button, which is disabled for amounts that are not positive. Without
  them `Store.Valid` could not be kept.
- Onboarding.Wizard.HandleFinishCreation: requires the liquidity step and a
  positive amount. Those are the conditions under which its button can be
  pressed.
- Onboarding.NewCoin: the image is the object URL the browser would issue for
  the chosen file. `URL.createObjectURL` itself is not modelled.
- The "wallet" step of the wizard is declared but never entered, so it has no
  transition here.
- Ledger.SortNewestFirst: the source's `sort` is stable. The model proves
  ordering and permutation but not stability.
- Fresh ids are drawn with `Math.random().toString(36)`. Their freshness is
  not guaranteed by the source and is taken as a precondition where a
  collection invariant needs it.
