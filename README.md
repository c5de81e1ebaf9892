# Investor-onboarding wizards, modelled in Dafny

This project models the state logic of a fund's investor-onboarding web front end.
It has two wizards and one persistence helper:

- **The subscription wizard** (`SubscriptionFlowModal`) is one dialog that moves
  from the consent step to the bank-account step and then to the accredited-investor
  step. It holds the consent flag, the list of authorized signatories, the four
  bank inputs and six accreditation checkboxes. Leaving the consent step needs
  consent and a name on every signatory; otherwise the dialog shows a warning.
  Submitting the bank form always moves on. Submitting the accreditation form closes
  the dialog.
- **The consent wizard** (`ConsentModalComponent`) is an earlier variant. A consent
  dialog, once completed, records the bank step and hands over to a separate bank
  dialog. Its "Begin"/"Resume" button reopens whichever of the two dialogs the
  recorded step calls for.
- **Progress persistence** (`utils/storage.ts`) keeps a JSON record
  `{currentStep}` under the key `subscriptionData` of the browser's local store.
  Loading turns a missing window, a missing text, an empty text and an unparsable
  text into `null` instead of failing. The two "complete" flags that
  `getInitialStates` returns are derived from the loaded record.

Modules:

- `Signatories` (signatories.dfy) holds the signatory table shared by both wizards.
  It covers editing one cell, the "some row is unnamed" and "some row has text"
  scans, and the consent guard.
- `Accreditation` (accreditation.dfy) holds the six-criterion checklist and its toggle.
- `BankDetails` (bank_details.dfy) holds the four-input bank form and its change handler.
- `SubscriptionFlow` (subscription_flow.dfy) is the subscription wizard, as a class.
- `ConsentModal` (consent_modal.dfy) is the consent wizard, as a class.
- `Storage` (storage.dfy) holds the local store as a class, the pure loader and the
  initial flags.

Each wizard is a class whose fields are the component's state variables. Each event
handler is a method. Its postcondition gives the whole new state, in the form
`Snapshot() == old(Snapshot()).(field := …)`, so everything not named is unchanged.
Each class keeps an invariant `Valid()`:

- there is at least one signatory row;
- once the subscriber has started, `hasStarted` is true;
- in the consent wizard, the bank dialog shows only on the bank step.

React's "has started" effect is the method `RefreshStarted`. Each handler that
changes one of the effect's inputs calls it last. It only ever sets the flag, so
no handler resets `hasStarted`.

JSON text is not modelled character by character. The store holds a
`JsonCodec`, a pair of functions `stringify` and `parse`. `parse` returns `None`
where `JSON.parse` throws. The round-trip results assume `Inverse(codec)`: parsing
a serialized saved record gives it back, and no saved record serializes to the
empty text. The lemma `Storage.InverseCanHold` exhibits a codec that meets this
assumption, so the round-trip lemmas are not vacuous.

## Model

| member | source | states |
|---|---|---|
| `SubscriptionFlow.SubscriptionFlowModal.constructor` | components/subscription/subscription-flow-modal.tsx:31-50 | The fresh wizard is closed and on the consent step. Consent is off, there is no warning and it has not started. There is exactly one blank signatory, all four bank inputs are empty and no criterion is ticked. |
| `SubscriptionFlow.InitialNotStarted` | components/subscription/subscription-flow-modal.tsx:31-50 | The initial state does not meet the "has started" condition, so the button first reads "Begin". |
| `SubscriptionFlow.Started` | components/subscription/subscription-flow-modal.tsx:63 | The wizard has started iff consent is ticked, or some signatory has a name or title, or some bank input is non-empty. |
| `SubscriptionFlow.SubscriptionFlowModal.RefreshStarted` | components/subscription/subscription-flow-modal.tsx:62-66 | The effect sets `hasStarted` when the condition holds and otherwise keeps its old value. It never clears it. |
| `SubscriptionFlow.SubscriptionFlowModal.SetConsent` | components/subscription/subscription-flow-modal.tsx:130-134 | The checkbox sets `consent` and the effect then runs. Nothing else changes, and `hasStarted` is never reset. |
| `SubscriptionFlow.SubscriptionFlowModal.SetOpen` | components/subscription/subscription-flow-modal.tsx:306-309 | Opening or closing the dialog changes `open` only. The warning is kept. |
| `SubscriptionFlow.SubscriptionFlowModal.HandleConsentSubmit` | components/subscription/subscription-flow-modal.tsx:73-80 | If consent is given and every signatory is named, the warning is cleared and the step becomes `bank`. Otherwise only the warning is set. From the consent step, the step becomes `bank` iff the guard holds. |
| `Signatories.ReadyToSubmit` | components/subscription/subscription-flow-modal.tsx:74 | The consent guard holds iff consent is true and every row's name is non-empty. |
| `Signatories.AnyUnnamed` | components/subscription/subscription-flow-modal.tsx:74 | The scan is true iff some row's name is empty. |
| `Signatories.AnyFilled` | components/subscription/subscription-flow-modal.tsx:63 | The scan is true iff some row has a non-empty name or title. |
| `Signatories.AppendedBlankNotReady` | components/subscription/subscription-flow-modal.tsx:74-101 | A table that has just had a blank row appended never passes the consent guard. |
| `Signatories.AppendedBlankFilled` | components/subscription/subscription-flow-modal.tsx:63-101 | Appending a blank row does not change whether any row has text. |
| `SubscriptionFlow.SubscriptionFlowModal.HandleBankSubmit` | components/subscription/subscription-flow-modal.tsx:83-87 | The step becomes `accredited` whatever the bank inputs hold. Nothing else changes. |
| `SubscriptionFlow.SubscriptionFlowModal.HandleAccreditedSubmit` | components/subscription/subscription-flow-modal.tsx:89-93 | The dialog closes. The step and all form data are unchanged. |
| `SubscriptionFlow.SubscriptionFlowModal.HandleAccreditedStatusChange` | components/subscription/subscription-flow-modal.tsx:95-97 | Exactly the clicked criterion flips. The other five and the rest of the state are unchanged. |
| `Accreditation.Toggled` | components/subscription/subscription-flow-modal.tsx:96 | The toggled checklist negates criterion `k` and agrees with the old one on every other criterion. |
| `Accreditation.ToggleTwice` | components/subscription/subscription-flow-modal.tsx:95-97 | Toggling the same criterion twice restores the original checklist. |
| `SubscriptionFlow.SubscriptionFlowModal.AddSignatory` | components/subscription/subscription-flow-modal.tsx:100-102 | The table grows by one. The earlier rows are unchanged and the new last row is blank. Then the effect runs. |
| `SubscriptionFlow.SubscriptionFlowModal.UpdateSignatory` | components/subscription/subscription-flow-modal.tsx:105-113 | The length is kept and every row other than `index` is unchanged. Row `index`, if it exists, has only column `field` replaced. Then the effect runs. |
| `Signatories.Updated` | components/subscription/subscription-flow-modal.tsx:106-111 | Mapping over the rows keeps the length, changes no row other than `index`, and sets column `field` of row `index` when that row exists. |
| `Signatories.UpdatedIsPointUpdate` | components/subscription/subscription-flow-modal.tsx:105-113 | An in-range edit is the point update at `index`. An out-of-range or negative index leaves the table as it was. |
| `SubscriptionFlow.SubscriptionFlowModal.HandleBankFormChange` | components/subscription/subscription-flow-modal.tsx:116-119 | The named input takes the new text, the other three are unchanged, and then the effect runs. |
| `BankDetails.Changed` | components/subscription/subscription-flow-modal.tsx:118 | The changed form holds `v` in input `f` and agrees with the old form on the other inputs. |
| `BankDetails.AnyEntered` | components/subscription/subscription-flow-modal.tsx:63 | The scan over the form's values is true iff some input is non-empty. |
| `BankDetails.ChangedNonEmptyEntered` | components/subscription/subscription-flow-modal.tsx:116-119 | Typing non-empty text into any bank input makes the form count as entered, so the wizard counts as started. |
| `SubscriptionFlow.FormFor` | components/subscription/subscription-flow-modal.tsx:328-330 | Each step shows its own form: consent, bank account or accreditation, each on exactly one step. |
| `SubscriptionFlow.HappyPath` | components/subscription/subscription-flow-modal.tsx:73-93 | From a fresh wizard: consent, one named signatory, Next, Submit and Submit. This ends closed on the accredited step, with no warning and marked as started. |
| `ConsentModal.ConsentModalComponent.constructor` | components/subscription/consent-modal.tsx:28-34 | The fresh wizard is closed and on the consent step. Consent is off, there is no warning and no bank dialog, it has not started, and there is one blank signatory. |
| `ConsentModal.Started` | components/subscription/consent-modal.tsx:43 | This wizard has started iff consent is ticked or some signatory has a name or title. |
| `ConsentModal.ConsentModalComponent.RefreshStarted` | components/subscription/consent-modal.tsx:41-46 | The effect sets `hasStarted` when the condition holds and never clears it. |
| `ConsentModal.ConsentModalComponent.SetConsent` | components/subscription/consent-modal.tsx:119-123 | The checkbox sets `consent` and the effect then runs. Nothing else changes. |
| `ConsentModal.ConsentModalComponent.AddSignatory` | components/subscription/consent-modal.tsx:48-50 | This has the same append contract as in the subscription wizard. |
| `ConsentModal.ConsentModalComponent.UpdateSignatory` | components/subscription/consent-modal.tsx:52-60 | This has the same update-at-index contract as in the subscription wizard. |
| `ConsentModal.ConsentModalComponent.HandleSubmit` | components/subscription/consent-modal.tsx:62-76 | Missing consent, or any unnamed signatory, sets only the warning. Otherwise the dialog closes, the warning clears, the step becomes `bank` and the bank dialog shows. The step is `bank` afterwards iff it was before or the guard held. |
| `ConsentModal.ConsentModalComponent.HandleOpenChange` | components/subscription/consent-modal.tsx:78-83 | Closing also clears the warning. Opening keeps the warning as it was. Nothing else changes. |
| `ConsentModal.ConsentModalComponent.DismissWarning` | components/subscription/consent-modal.tsx:170 | The warning's Close button clears the warning only. |
| `ConsentModal.ConsentModalComponent.HandleBankModalClose` | components/subscription/consent-modal.tsx:85-88 | The bank dialog is hidden and the step is unchanged. |
| `ConsentModal.ConsentModalComponent.HandleBankComplete` | components/subscription/consent-modal.tsx:179-183 | Completion marks the wizard started and hides the bank dialog. Nothing else changes. |
| `ConsentModal.ConsentModalComponent.HandleBeginResume` | components/subscription/consent-modal.tsx:90-97 | On the bank step it shows the bank dialog and leaves `open` as it was. On any other step it opens the consent dialog. It reports which one it brought up. |
| `ConsentModal.ResumeReturnsToBank` | components/subscription/consent-modal.tsx:62-97 | Completing consent and then closing the bank dialog leaves the wizard on the bank step, so "Resume" brings back the bank dialog. |
| `Storage.Loaded` | utils/storage.ts:6-17 | The result is `null` unless there is a window and a non-empty stored text that parses to the result. A text that parses gives its parsed value, and one that does not gives `null`. |
| `Storage.BrowserStorage.GetSubscriptionData` | utils/storage.ts:6-17 | Loading from the store's current contents gives exactly `Loaded`'s value. Absent, empty and unparsable text give `null` rather than a failure. |
| `Storage.BrowserStorage.SaveSubscriptionData` | utils/storage.ts:19-22 | With a window, only the key `subscriptionData` is written, with the serialized record. Without one the store is unchanged. Every other key keeps its text. |
| `Storage.ToJson` | utils/storage.ts:21 | A record serializes as an object with no member other than `currentStep`. It has that member iff the record has a step, and the member holds the step name as a string. |
| `Storage.SaveThenLoad` | utils/storage.ts:9-21 | With an inverse codec, loading after a save gives back the saved record, and hence its `currentStep`. |
| `Storage.InitialStatesOf` | utils/storage.ts:24-36 | "Subscription complete" holds iff the loaded value is an object whose `currentStep` member is truthy. "AML complete" always equals it. Nothing loaded means not complete. |
| `Storage.CompleteIffNonEmptyStep` | utils/storage.ts:27-30 | When `currentStep` is a string, the wizard is complete iff that string is non-empty. |
| `Storage.CompleteAfterSave` | utils/storage.ts:21-30 | After a save, the flags that `getInitialStates` computes say "complete" iff the saved record has a non-empty step. |
| `Storage.BrowserStorage.GetInitialStates` | utils/storage.ts:24-36 | The flags are those of whatever loading yields, and the two flags are equal. |
| `Storage.SaveAndResume` | utils/storage.ts:6-22 | In a browser with an inverse codec, saving a step and loading again gives back that step. |

## Left out

- Rendering, the dialog, table, checkbox and input widgets, CSS classes and
  console logging are left out. They carry no state beyond the fields modelled.
- React's scheduling of effects is not modelled. Each "has started" effect is a
  method that the handlers changing its inputs call last. The step-logging effects
  only log.
- `SubscriptionFlow.SubscriptionFlowModal.HandleBankSubmit` ignores the inputs'
  `required` attributes. In a browser, constraint validation can stop the form
  from submitting before the handler runs. The handler itself checks nothing.
- `ConsentModal.ConsentModalComponent.HandleBeginResume` covers the button's own
  handler only. The dialog-trigger widget around the button may also report an
  open-state change. That is widget-library behaviour and is not part of this model.
- Steps are an enumeration. The source keeps the step in a string, but only the
  listed literals are ever assigned, so the fallback branch of the step-to-form
  choice cannot be reached.
- `Storage.Loaded` models JSON through the abstract `JsonCodec` pair. Parsing and
  serialization text are not modelled. The round trip holds only under the
  `Inverse` assumption. That assumption is shown satisfiable by a small tagged
  codec, but it is not proved for the browser's own JSON functions.
- `Storage.Truthy` treats JSON numbers as reals. It does not model `NaN` or the
  distinction between `-0` and `0`, and JSON text cannot express `NaN`.
- Whether a window exists is a constant of the store, not a query of the runtime.
  The local store is a map from keys to texts: an absent key is `null`, and
  quotas and storage events are not modelled.
- `Storage.BrowserStorage.GetSubscriptionData` cannot fail in this model. In the
  code, the read from the store (utils/storage.ts:9) is outside the `try`. A
  browser that denies storage access therefore makes the loader throw. The model's
  store is a plain map and has no such failure.
- `Storage.BrowserStorage.SaveSubscriptionData` cannot fail in this model. In the
  code, the write (utils/storage.ts:21) can throw when storage is denied or full.
- `Storage.BrowserStorage.GetInitialStates` is modelled as written, but no code
  shown calls it. The page layout does not read the store.
- The page layout (app/page.tsx) is not part of this model. It passes an answers
  setter to the subscription wizard, but the wizard does not accept one, so no
  answer list exists to model.
- PDF generation (app/api/generate-pdf/route.ts, components/DownloadPDF.js) is not
  part of this model. It is asynchronous rendering through foreign libraries.
- The stand-alone bank dialog (components/subscription/bank-account-modal.tsx) is not
  part of this model. It has a one-field record update and a submit that always
  reports completion. The consent wizard's `HandleBankComplete` and
  `HandleBankModalClose` model what it reports.
- The AML dialog (components/subscription/aml-flow-modal.tsx) is not part of this
  model. Its only transition is intro to personal info, and its other steps render
  nothing.
- The shape declared in types/subscription-data.ts is not part of this model. It is
  a type with no behaviour.
- The code has no basic-info, initials, qualified-client or benefit-plan step. It
  has no Back or Skip transition and publishes no answer list, so none of these is
  modelled.
- Re-opening the subscription dialog does not reset the warning: `SetOpen` keeps it.
- Neither wizard calls the persistence helpers, so both always start on the consent
  step.
- No handler requires at least one accreditation criterion:
  `HandleAccreditedSubmit` closes the dialog with none ticked.
