# Credits ledger and background-removal flow, in Dafny

This project models the stateful core of a browser front-end for background removal. It has three parts:

- **The credits ledger** (`credits.dfy`, module `Credits`). An account record (`available`, `used`, plan, `maxCredits`, reset date) is kept in browser storage under the key `userCredits`. `Load` is `fetchUserCredits`: it returns the stored record, or the free-plan default of 5 credits. The class `CreditsProvider` holds the storage entry (`stored`), the provider's cached copy (`cached`) and its `loading` flag. `ApiUseCredits` is the check-then-debit. `UseCredits` adds the guard against the cache and re-syncs the cache after a successful debit. The pure `Debit` step states what one debit does. `RunDebits` replays a sequence of debits, and the lemmas about it prove the ledger invariant and the "five credits, then refused" scenario.
- **The removal hook** (`background_removal.dfy`, module `BackgroundRemoval`). The five state cells form the value `View`. Each handler is a step function on `View`: `AfterFileChange`, `AfterRemoval` and `Cleared`. The class `BackgroundRemovalHook` runs the handlers' setter sequences and is proved to match those step functions. It also keeps `Consistent`: an original image is shown exactly when a file is selected, the selected file passed the upload checks, a processed image never appears beside an error, and nothing is left loading.
- **The home-page action** (`home_page.dfy`, module `HomePage`). `HandleRemoveBackground` checks the cached balance, spends exactly one credit, and only then runs the removal. The credit is not given back when the removal fails. When the cache is coherent with storage, the debit is never refused after the cached check passes.

Modelling choices:
- Storage is a field, and JSON serialisation is the identity.
- The clock reading behind the default reset date (first day of the next month) is an opaque `Timestamp` parameter. Each call takes one reading.
- Object URLs are opaque tokens passed in by the caller.
- The removal engine is a `RemovalOutcome` parameter: a result URL, or a failure message that may be empty.
- JavaScript numbers are unbounded integers.

Where the code is looser than one might expect, the model follows the code:
- The code never checks that a debit amount is positive. `Debit` accepts any integer, and the proved facts (conservation, `available >= 0` after a successful debit) hold for every amount.
- The code does not enforce `available + used == maxCredits`. The model proves that debits preserve it (`RunDebitsKeepsInvariant`) without assuming it is always true of storage.
- File checks run when a file is chosen, not when the button is pressed. The credit check happens only on the press.

## Model

| member | source | states |
|---|---|---|
| `Credits.Load` | frontend/contexts/UserCreditsContext.tsx:27-49 | a stored record comes back unchanged (store-then-load is the identity); with nothing stored the result is exactly 5 available, 0 used, free plan, ceiling 5, with the given reset date, and it is balanced |
| `Credits.Debit` | frontend/contexts/UserCreditsContext.tsx:66-73 | refused exactly when `available < amount`; on success `used` grows by exactly `amount`, `available + used` is conserved, `available` stays non-negative, plan, ceiling and reset date are untouched, and a balanced account stays balanced |
| `Credits.RunDebitsKeepsInvariant` | frontend/contexts/UserCreditsContext.tsx:56-78 | over any sequence of debits from empty or balanced, non-negative storage, the stored record stays balanced and non-negative and keeps the plan, ceiling and reset date of the first load |
| `Credits.UnitDebitsDrain` | frontend/contexts/UserCreditsContext.tsx:60-78 | `n` one-credit debits from an account holding at least `n` credits all succeed and move exactly `n` credits from available to used |
| `Credits.FreshAccountScenario` | frontend/contexts/UserCreditsContext.tsx:36-78 | from empty storage five one-credit debits end at 0 available and 5 used; a sixth is refused and leaves storage unchanged |
| `Credits.CreditsProvider.constructor` | frontend/contexts/UserCreditsContext.tsx:83-84 | the provider starts with nothing cached and the loading flag up, over whatever storage holds |
| `Credits.CreditsProvider.RefreshCredits` | frontend/contexts/UserCreditsContext.tsx:92-102 | the cache becomes what a load of storage returns, the loading flag ends down, storage is not written, and the cache is coherent with storage |
| `Credits.CreditsProvider.ApiUseCredits` | frontend/contexts/UserCreditsContext.tsx:52-79 | succeeds exactly when the loaded (stored or default) balance covers `amount`; on success storage holds the debited record; on refusal storage is not written |
| `Credits.CreditsProvider.UseCredits` | frontend/contexts/UserCreditsContext.tsx:105-120 | with no cache or a cached balance below `amount` it fails without touching storage; it succeeds exactly when both the cached and the stored balance cover `amount`, after which storage holds the debited record and the cache equals it; a failure changes nothing; coherence is preserved, and under coherence a cached balance that covers `amount` always succeeds |
| `BackgroundRemoval.CheckFile` | frontend/hooks/useBackgroundRemoval.ts:37-52 | a file is accepted exactly when its type starts with `image/` and its size is at most 5242880 bytes; a non-image gets the type error whatever its size; an oversized image gets the size-limit error |
| `BackgroundRemoval.UploadLimitExamples` | frontend/hooks/useBackgroundRemoval.ts:37-52 | `text/plain` is rejected with the type error at any size; an image of exactly 5 MB is accepted; one of 6 MB gets the size-limit error |
| `BackgroundRemoval.FailureMessage` | frontend/hooks/useBackgroundRemoval.ts:88-89 | the shown failure message is never empty: it is the engine's own message when that is non-empty, and exactly `Failed to remove background. Please try again.` when it is empty |
| `BackgroundRemoval.Initial` | frontend/hooks/useBackgroundRemoval.ts:16-20 | the hook starts consistent, with no file, no processed image and no error |
| `BackgroundRemoval.AfterFileChange` | frontend/hooks/useBackgroundRemoval.ts:28-61 | the processed image is always cleared; no file clears the selection; a non-image sets the type error (type takes priority) and an oversized image the size error, both leaving no file and no original image; an accepted file is selected and gets its original-image URL, with no error; consistency is re-established |
| `BackgroundRemoval.Processing` | frontend/hooks/useBackgroundRemoval.ts:70-72 | while the engine runs, the loading flag is up and no stale result or error is shown; apart from the flag, a consistent view stays consistent |
| `BackgroundRemoval.RemovalSettlesProcessing` | frontend/hooks/useBackgroundRemoval.ts:70-95 | with a file selected, the finished removal differs from the processing state only in the lowered loading flag and in exactly one of the result (on success) and the error (on failure); the selection is carried through |
| `BackgroundRemoval.AfterRemoval` | frontend/hooks/useBackgroundRemoval.ts:63-96 | with no file selected only the error changes, to `No image selected.`; otherwise loading ends false on both paths, success shows the result and no error, failure shows no processed image and a non-empty error (the engine's message or the default); consistency is preserved |
| `BackgroundRemoval.Cleared` | frontend/hooks/useBackgroundRemoval.ts:98-105 | file, original image, processed image and error are all cleared, the loading flag is kept, and consistency is preserved |
| `BackgroundRemoval.BackgroundRemovalHook.constructor` | frontend/hooks/useBackgroundRemoval.ts:16-20 | the new hook's state is `Initial()` and it is valid |
| `BackgroundRemoval.BackgroundRemovalHook.HandleFileChange` | frontend/hooks/useBackgroundRemoval.ts:28-61 | its setter sequence with early returns leaves exactly the state `AfterFileChange` describes and keeps the hook valid |
| `BackgroundRemoval.BackgroundRemovalHook.HandleRemoveBackground` | frontend/hooks/useBackgroundRemoval.ts:63-96 | its guarded load/success/failure sequence leaves exactly the state `AfterRemoval` describes and keeps the hook valid |
| `BackgroundRemoval.BackgroundRemovalHook.ClearImages` | frontend/hooks/useBackgroundRemoval.ts:98-105 | leaves exactly the state `Cleared` describes and keeps the hook valid |
| `HomePage.HandleRemoveBackground` | frontend/app/page.tsx:27-42 | it stops before any debit exactly when the cached balance is below 1; the debit is refused exactly when the cached balance passed but the loaded stored (or default) balance is below 1; if it stops, ledger and hook are untouched and the removal did not run; if it proceeds, exactly one credit was debited from the loaded record, the cache re-synced and the loading flag lowered, then the removal ran once; the credit is kept whatever the removal's outcome; a coherent ledger never refuses the debit and stays coherent |

## Left out

- Browser plumbing is left out: `localStorage` (a field), JSON parse and stringify (the identity), `toast`, `console`, and `URL.createObjectURL` (a caller-supplied token).
- `URL.revokeObjectURL` is left out. In particular, the success path of `handleRemoveBackground` revokes the original image's URL while the state still shows it. The model does not track URL lifetimes.
- The `@imgly/background-removal` call is a foreign library. It appears only as its outcome. Which file and which configuration it receives is not modelled.
- The simulated network delays (`setTimeout`) are left out, and so are async interleaving and concurrent calls. Every operation runs to completion before the next one starts. The check-then-debit race between two overlapping debits is therefore not modelled.
- Date arithmetic and `Intl` formatting of the reset date are left out. The date is an opaque value, and no code path resets credits at rollover.
- Failures of storage access (blocked storage, a full quota on write) and malformed stored records are left out, because storage is a field and serialisation is the identity. What the code does with them:
  - A stored record that fails to parse makes `refreshCredits` log and keep its cache, and makes `useCredits` return false through its `catch`.
  - A stored `null` parses without error and is cached as null. The page then fails when it reads `credits.available`.
  - A record with missing or wrongly typed fields throws nothing, and JavaScript's coercions decide the outcome. For example, a missing `available` passes the balance check, becomes NaN and is written back as `null`, after which every debit is refused.
- The provider's render gate (children are not rendered while loading with no credits) appears only as the precondition of `HomePage.HandleRemoveBackground` that a cached record exists.
- The `useUserCredits` accessor, which throws outside a provider, is React context plumbing and is left out.
- The upload card's button guards are left out. It disables "Remove Background" without an original image, while loading, or at zero credits. The model keeps the handlers as written, so pressing with no file selected spends a credit and then reports `No image selected.`.
- `CreditsDisplay`'s percentage and low-balance flag are left out because they are floating-point arithmetic. Pricing, layout, animation and hardcoded demo data are left out too.
- Numbers are unbounded integers. JavaScript's floating-point numbers (fractional or huge amounts) are not modelled.
