# LabSalud admin console: decision rules and form state

This project models the small decision rules and form state machines of the LabSalud laboratory
admin console. It covers five React components, each in its own module:

- **Billing** (`facturacion-page.tsx`):
  - the paid/unpaid filter's query string;
  - the client-side invoice search;
  - the edit dialog's form, seeded from an invoice;
  - the partial update (`PATCH` body) built as a shallow diff against the original invoice;
  - the "Pagada" switch;
  - the single-slot "creating invoice" guard;
  - the create/update/delete handlers with their `detail || error || default` error messages.
  The page's `useState` fields are the fields of the class `Billing.BillingPage`.
- **AnalysisTable** (`analysis-table.tsx`):
  - the per-row price rule (no insurer, private insurer, authorised, not authorised);
  - remove-by-id and toggle-authorisation, which produce new lists;
  - the UB total;
  - the authorised/particular counts.
- **PaymentDialog** (`payment-dialog.tsx`):
  - the payment/refund dialog: a class over `actionType`, `amount`, `notes` and the open flag, with its mode buttons, confirm handler and close handler;
  - the amount cap;
  - the confirm-enable predicate;
  - the status-badge colour classifier.
- **Navbar** (`navbar.tsx`):
  - the hamburger and user-menu flags as a class whose methods are the component's handlers, plus a pure step function that states what each event does;
  - the permission-gated links.
- **AnalysisDialog** (`analysis-dialog.tsx`):
  - the "particular" insurer sentinel;
  - the switch-disabled predicate;
  - the description choice;
  - the rendered rows.

Supporting modules model the JavaScript built-ins the components rely on:

- `Wrappers`: an `Option` type standing for nullable values and NaN.
- `JsText`:
  - `toLowerCase` on ASCII and Latin-1 letters;
  - `trim` with the ECMAScript white-space set;
  - `includes`;
  - integer `toString`.
- `JsNumber`: `parseFloat` on decimal text, with `None` for NaN.
- `Seqs`: `Array.prototype.filter`.

How the JavaScript semantics are modelled:

- NaN is `None`. Every comparison with it is false, as in JavaScript.
- Empty strings are falsy, so `x || "default"` is written out.
- Money and UB amounts are `real`.
- Today's date, permission checks, DOM `contains` tests, the outcome of `onRegularize` and the responses of backend requests are parameters.

## Model

| member | source | states |
|---|---|---|
| `Billing.InvoicesUrl` | labsalud_frontend/src/components/facturacion/facturacion-page.tsx:113-117 | filter "paid" gives `endpoint?is_paid=true`, "unpaid" gives `endpoint?is_paid=false`, any other value the bare endpoint |
| `Billing.QueryString` | labsalud_frontend/src/components/facturacion/facturacion-page.tsx:114-117 | the serialised parameters are empty exactly when no parameter was appended, which is when the URL gets no `?` |
| `Billing.BlankSearchKeepsAll` | labsalud_frontend/src/components/facturacion/facturacion-page.tsx:263-264 | an empty or white-space-only search keeps every invoice, in order |
| `Billing.SearchKeepsMatches` | labsalud_frontend/src/components/facturacion/facturacion-page.tsx:263-271 | a non-blank search keeps an invoice iff the lower-cased, untrimmed term occurs in its protocol id, lower-cased insurer name or non-empty lower-cased invoice number; the result preserves order (filtering distributes over concatenation) |
| `Billing.SearchIgnoresCase` | labsalud_frontend/src/components/facturacion/facturacion-page.tsx:264-265 | lower-casing the search term first changes nothing: the search is case-insensitive |
| `Billing.DiffKeys` | labsalud_frontend/src/components/facturacion/facturacion-page.tsx:192-203 | the update body has a key for exactly the fields whose form value differs from the original's (null read as ""); `paid_date` is null exactly when the edited date is empty |
| `Billing.DiffRoundTrip` | labsalud_frontend/src/components/facturacion/facturacion-page.tsx:177-203 | applying the body to the form seeded from the original yields the edited form |
| `Billing.DiffIsMinimal` | labsalud_frontend/src/components/facturacion/facturacion-page.tsx:191-203 | every body that reproduces the edited form carries at least the keys of the computed body |
| `Billing.SeedThenDiffIsEmpty` | labsalud_frontend/src/components/facturacion/facturacion-page.tsx:177-182 | seeding the form from an invoice and saving it unchanged yields an empty body |
| `Billing.DiffExample` | labsalud_frontend/src/components/facturacion/facturacion-page.tsx:192-203 | an unpaid "A-1" invoice marked paid on 2024-01-01 sends exactly `is_paid: true` and `paid_date: "2024-01-01"` |
| `Billing.TogglePaid` | labsalud_frontend/src/components/facturacion/facturacion-page.tsx:629-634 | the switch negates `is_paid`; the date becomes today when the form becomes paid and "" otherwise; other fields are kept |
| `Billing.TogglePaidThenSave` | labsalud_frontend/src/components/facturacion/facturacion-page.tsx:192-203 | switching an unpaid, undated invoice to paid sends exactly `is_paid` and `paid_date: today`; switching twice restores the seeded form |
| `Billing.ErrorMessageChain` | labsalud_frontend/src/components/facturacion/facturacion-page.tsx:162-163 | the message is a non-empty `detail`, else a non-empty `error`, else the action's default; an unparseable body gives the default; a JSON `null` body gives the `TypeError` thrown by reading `detail`; since every default is non-empty, so is the message |
| `Billing.DeleteSucceededIffOk` | labsalud_frontend/src/components/facturacion/facturacion-page.tsx:243 | "status 204 or ok" succeeds exactly on a 2xx response |
| `Billing.BillingPage.constructor` | labsalud_frontend/src/components/facturacion/facturacion-page.tsx:53-75 | the initial state: no invoices, filter "all", empty search, empty form, both dialogs closed, nothing being created |
| `Billing.BillingPage.SetInvoiceFilter` | labsalud_frontend/src/components/facturacion/facturacion-page.tsx:493 | the filter select sets the filter |
| `Billing.BillingPage.SetInvoiceSearch` | labsalud_frontend/src/components/facturacion/facturacion-page.tsx:481-486 | the search box and its clear button set the search term |
| `Billing.BillingPage.ReceiveInvoices` | labsalud_frontend/src/components/facturacion/facturacion-page.tsx:120-122 | a successful fetch replaces the invoice list |
| `Billing.BillingPage.StartCreateInvoice` | labsalud_frontend/src/components/facturacion/facturacion-page.tsx:151-152 | the slot holds the protocol id during the request; exactly that row's button (line 454) is disabled |
| `Billing.BillingPage.FinishCreateInvoice` | labsalud_frontend/src/components/facturacion/facturacion-page.tsx:153-171 | on success and on failure alike the slot is cleared and no row is disabled; failure reports the detail/error/default message |
| `Billing.OverlappingCreates` | labsalud_frontend/src/components/facturacion/facturacion-page.tsx:151-172 | because the guard is a single slot, the end of one row's request re-enables another row whose request is still pending |
| `Billing.SlotGuardForgetsPending` | labsalud_frontend/src/components/facturacion/facturacion-page.tsx:152 | the same interleaving as events: the slot lets the second press through and is empty while that request is in flight, where the corrected guard still holds it |
| `Billing.PendingGuardTracksInFlight` | labsalud_frontend/src/components/facturacion/facturacion-page.tsx:454 | with a set of pending protocols as the guard, a row's button is disabled exactly while its create request is in flight, and no protocol has two requests in flight |
| `Billing.BillingPage.OpenEdit` | labsalud_frontend/src/components/facturacion/facturacion-page.tsx:175-184 | opening the edit dialog remembers the invoice and seeds the form from it, null fields becoming "" |
| `Billing.BillingPage.TogglePaidSwitch` | labsalud_frontend/src/components/facturacion/facturacion-page.tsx:629-634 | the form becomes `TogglePaid` of the old form for the given date |
| `Billing.BillingPage.TypeInvoiceNumber` | labsalud_frontend/src/components/facturacion/facturacion-page.tsx:621 | only the invoice number changes |
| `Billing.BillingPage.TypePaidDate` | labsalud_frontend/src/components/facturacion/facturacion-page.tsx:655 | only the payment date changes |
| `Billing.BillingPage.TypeNotes` | labsalud_frontend/src/components/facturacion/facturacion-page.tsx:663 | only the notes change |
| `Billing.BillingPage.SetEditDialogOpen` | labsalud_frontend/src/components/facturacion/facturacion-page.tsx:606 | closing the edit dialog changes only its flag |
| `Billing.BillingPage.SaveEdit` | labsalud_frontend/src/components/facturacion/facturacion-page.tsx:187-232 | with no invoice nothing happens; the field-by-field body equals `Diff`; an empty body sends nothing and closes the dialog; a successful update closes it; a failed one leaves it open and reports the message |
| `Billing.BillingPage.OpenDelete` | labsalud_frontend/src/components/facturacion/facturacion-page.tsx:588-591 | the trash button remembers the invoice and opens the dialog |
| `Billing.BillingPage.SetDeleteDialogOpen` | labsalud_frontend/src/components/facturacion/facturacion-page.tsx:687 | cancelling changes only the flag; the invoice stays remembered |
| `Billing.BillingPage.DeleteInvoice` | labsalud_frontend/src/components/facturacion/facturacion-page.tsx:235-260 | with no invoice nothing happens; on 204/2xx the dialog closes and forgets the invoice; otherwise both stay and the message is reported |
| `AnalysisTable.PriceWithoutInsurer` | labsalud_frontend/src/components/ingreso/components/analysis-table.tsx:42 | with no insurer selected every price is 0 |
| `AnalysisTable.PriceOfUnparseableUb` | labsalud_frontend/src/components/ingreso/components/analysis-table.tsx:43 | an unparseable `bio_unit` counts as 0 UB, so the row costs 0 |
| `AnalysisTable.PrivatePriceIgnoresAuthorization` | labsalud_frontend/src/components/ingreso/components/analysis-table.tsx:44-46 | under private insurance the price is UB × private rate, whatever `is_authorized` says |
| `AnalysisTable.InsurerPriceByAuthorization` | labsalud_frontend/src/components/ingreso/components/analysis-table.tsx:47-50 | an authorised row costs UB × parsed `ub_value` (0 when unparseable); an unauthorised row costs what it would under private insurance |
| `AnalysisTable.PriceExample` | labsalud_frontend/src/components/ingreso/components/analysis-table.tsx:41-51 | 2.5 UB at rate 100 and private rate 80 cost 250 authorised, 200 unauthorised and 200 under private insurance |
| `AnalysisTable.RemoveAnalysisSpec` | labsalud_frontend/src/components/ingreso/components/analysis-table.tsx:27 | removal keeps exactly the rows with another id, preserves their order, and is the identity when the id is absent |
| `AnalysisTable.ToggleAuthorization` | labsalud_frontend/src/components/ingreso/components/analysis-table.tsx:34-38 | the list keeps its length, and each row is flipped iff it carries the id |
| `AnalysisTable.ToggleAuthorizationSpec` | labsalud_frontend/src/components/ingreso/components/analysis-table.tsx:34-38 | only `is_authorized` of the matching rows changes, and toggling twice is the identity |
| `AnalysisTable.TotalUbAppend` | labsalud_frontend/src/components/ingreso/components/analysis-table.tsx:53 | the UB total (unparseable values counting 0) is additive over concatenation |
| `AnalysisTable.TotalUbToggleInvariant` | labsalud_frontend/src/components/ingreso/components/analysis-table.tsx:53 | toggling authorisation leaves the UB total unchanged |
| `AnalysisTable.BadgesPartition` | labsalud_frontend/src/components/ingreso/components/analysis-table.tsx:54-72 | the count is 0 under private insurance; the badges appear iff the list is non-empty and the insurer is not private; the authorised badge counts the authorised rows, the particular badge the others, and the two add up to the list length |
| `AnalysisTable.AuthorizedCountAfterToggle` | labsalud_frontend/src/components/ingreso/components/analysis-table.tsx:34-54 | toggling moves each row with the id to the other side of the authorised count |
| `PaymentDialog.EmptyPropIsZero` | labsalud_frontend/src/components/protocolos/components/dialogs/payment-dialog.tsx:42-43 | an empty pending/refundable amount reads as 0 |
| `PaymentDialog.ConfirmEnabledIffInRange` | labsalud_frontend/src/components/protocolos/components/dialogs/payment-dialog.tsx:198 | for a parseable amount and cap, confirm is enabled iff not processing, the text is non-empty and 0 < amount ≤ cap, the cap (line 47) being `pending` in payment mode and `toReturn` in refund mode |
| `PaymentDialog.ConfirmEnabledOnNaN` | labsalud_frontend/src/components/protocolos/components/dialogs/payment-dialog.tsx:198 | an unparseable non-empty amount, or a positive amount against a NaN cap, leaves the button enabled |
| `PaymentDialog.ConfirmExample` | labsalud_frontend/src/components/protocolos/components/dialogs/payment-dialog.tsx:198 | with 150 pending, 200 cannot be confirmed and 150 can |
| `PaymentDialog.StatusBadgeColorSpec` | labsalud_frontend/src/components/protocolos/components/dialogs/payment-dialog.tsx:70-77 | completo/pagado → green, else parcial → yellow, else pendiente → red, else devolucion/devolución → blue, else gray; the status's case does not matter |
| `PaymentDialog.StatusBadgeColorAgrees` | labsalud_frontend/src/components/protocolos/components/dialogs/payment-dialog.tsx:75 | the as-written and corrected classifiers agree on every status without an accented spelling |
| `PaymentDialog.StatusBadgeColorDevolucion` | labsalud_frontend/src/components/protocolos/components/dialogs/payment-dialog.tsx:75 | "Devolución" is gray as written and blue as corrected |
| `PaymentDialog.Dialog.constructor` | labsalud_frontend/src/components/protocolos/components/dialogs/payment-dialog.tsx:38-40 | the dialog starts in payment mode with empty amount and notes |
| `PaymentDialog.Dialog.ClickPayment` | labsalud_frontend/src/components/protocolos/components/dialogs/payment-dialog.tsx:122-128 | when enabled (pending > 0) it selects payment mode and clears the amount, keeping the notes |
| `PaymentDialog.Dialog.ClickRefund` | labsalud_frontend/src/components/protocolos/components/dialogs/payment-dialog.tsx:135-141 | when enabled (to-return > 0) it selects refund mode and clears the amount, keeping the notes |
| `PaymentDialog.Dialog.TypeAmount` | labsalud_frontend/src/components/protocolos/components/dialogs/payment-dialog.tsx:161-162 | the input is disabled whenever the cap is ≤ 0 |
| `PaymentDialog.Dialog.TypeNotes` | labsalud_frontend/src/components/protocolos/components/dialogs/payment-dialog.tsx:185 | only the notes change |
| `PaymentDialog.Dialog.HandleConfirm` | labsalud_frontend/src/components/protocolos/components/dialogs/payment-dialog.tsx:49-59 | `onRegularize` is called iff the amount parses to a value > 0, with that value, the mode and the notes; after success amount and notes are cleared and the dialog closes with its mode kept; otherwise nothing changes |
| `PaymentDialog.Dialog.PressConfirm` | labsalud_frontend/src/components/protocolos/components/dialogs/payment-dialog.tsx:196-198 | through the button, a regularisation is positive and within a parseable cap; a disabled button changes nothing; an enabled one calls `onRegularize` iff the amount parses, with that value, the mode and the notes, then clears and closes on success and otherwise changes nothing |
| `PaymentDialog.Dialog.HandleClose` | labsalud_frontend/src/components/protocolos/components/dialogs/payment-dialog.tsx:61-68 | closing resets the amount, the notes and the mode to payment; reopening keeps them |
| `Navbar.ToggleSpec` | labsalud_frontend/src/components/navbar.tsx:52-64 | each toggle negates its own flag and, when opening, closes the other; when closing it leaves the other alone |
| `Navbar.MouseDownSpec` | labsalud_frontend/src/components/navbar.tsx:73-95 | a mousedown clears a panel's flag iff the flag is set, the elements are mounted and the target is outside both the panel and its trigger; it opens nothing |
| `Navbar.StepKeepsExclusive` | labsalud_frontend/src/components/navbar.tsx:52-95 | toggles, close-all, mousedowns and the setter closing the user panel keep at most one panel open; only the setter opening it can break this |
| `Navbar.RunKeepsExclusive` | labsalud_frontend/src/components/navbar.tsx:43-69 | from at most one open panel, any sequence of events without the setter opening the user panel never leaves both open |
| `Navbar.DropdownMountOpensUserPanel` | labsalud_frontend/src/components/navbar.tsx:211 | the dropdowns' mount reports open the user panel and close the hamburger from any state; a following path change closes both |
| `Navbar.NavMenus.OnUserDropdownsMounted` | labsalud_frontend/src/components/user-dropdown.tsx:38-40 | the desktop dropdown's report of its closed state, then the mobile dropdown's call of the toggle, leave the user panel open and the hamburger closed |
| `Navbar.SetUserMenuBreaksExclusive` | labsalud_frontend/src/components/navbar.tsx:107-109 | the desktop dropdown's direct setter is outside that guarantee: hamburger then setter opens both |
| `Navbar.NavMenus.constructor` | labsalud_frontend/src/components/navbar.tsx:43-44 | both panels start closed |
| `Navbar.NavMenus.ToggleMobileMenu` | labsalud_frontend/src/components/navbar.tsx:52-57 | the hamburger flag follows the toggle step, and afterwards at most one panel is open |
| `Navbar.NavMenus.ToggleUserMenu` | labsalud_frontend/src/components/navbar.tsx:59-64 | the user flag follows the toggle step, and afterwards at most one panel is open |
| `Navbar.NavMenus.CloseAllMenus` | labsalud_frontend/src/components/navbar.tsx:66-69 | both flags are cleared (route change, link clicks, logout) |
| `Navbar.NavMenus.HandleClickOutside` | labsalud_frontend/src/components/navbar.tsx:73-95 | the flags follow the mousedown step, and the handler preserves exclusivity |
| `Navbar.NavMenus.OnPathChange` | labsalud_frontend/src/components/navbar.tsx:102-104 | a new path closes both panels; an unchanged path leaves them |
| `Navbar.NavMenus.HandleUserMenuToggle` | labsalud_frontend/src/components/navbar.tsx:107-109 | only the user flag is set, to the reported value |
| `Navbar.Render` | labsalud_frontend/src/components/navbar.tsx:111 | nothing is rendered exactly when there is no user |
| `Navbar.RenderGating` | labsalud_frontend/src/components/navbar.tsx:113-126 | left items and "Resultados" are always shown; "Validación" iff the result-validation permission holds; the management link (lines 50 and 316) iff the user-management permission holds |
| `AnalysisDialog.DescriptionCases` | labsalud_frontend/src/components/protocolos/components/dialogs/analysis-dialog.tsx:44-48 | "can change" iff editable and not particular; "no authorisation needed" iff particular; "read-only" iff neither |
| `AnalysisDialog.Render` | labsalud_frontend/src/components/protocolos/components/dialogs/analysis-dialog.tsx:110-142 | loading shows a spinner, no details an empty notice; otherwise one row per detail, in order, and a total equal to the number of details |
| `AnalysisDialog.RenderRows` | labsalud_frontend/src/components/protocolos/components/dialogs/analysis-dialog.tsx:79-126 | insurer id 1 is particular and has no column or switch; otherwise a switch is disabled iff the dialog is read-only, its row is updating or the row is inactive; only the updating row shows a spinner |
| `AnalysisDialog.AtMostOneSpinner` | labsalud_frontend/src/components/protocolos/components/dialogs/analysis-dialog.tsx:87 | with distinct ids, at most one row shows a spinner |
| `AnalysisDialog.DescriptionMatchesSwitches` | labsalud_frontend/src/components/protocolos/components/dialogs/analysis-dialog.tsx:44-48 | the description agrees with the switches: "can change" leaves idle active rows toggleable, "particular" has no switches, "read-only" disables every switch |
| `JsNumber.ParseFloatExponent` | labsalud_frontend/src/components/protocolos/components/dialogs/payment-dialog.tsx:50 | a number, `e`, an optional sign and a number read as the first scaled by ten to the signed second ("1e3" is 1000) |
| `JsNumber.ParseFloatTrims` | labsalud_frontend/src/components/protocolos/components/dialogs/payment-dialog.tsx:50 | skipping leading white space one character at a time reads the same value as reading what `TrimStart` leaves |
| `JsNumber.ParseFloatNaN` | labsalud_frontend/src/components/ingreso/components/analysis-table.tsx:43 | `parseFloat` gives NaN exactly when, after leading white space and one sign, the text starts neither with a digit nor with a dot and a digit |
| `JsText.TrimEmptyIffBlank` | labsalud_frontend/src/components/facturacion/facturacion-page.tsx:264 | `trim()` yields "" exactly when every character is ECMAScript white space |
| `JsText.LowerIdempotent` | labsalud_frontend/src/components/facturacion/facturacion-page.tsx:265 | lower-casing twice is lower-casing once |
| `JsText.ContainsIffOccurs` | labsalud_frontend/src/components/facturacion/facturacion-page.tsx:267-269 | `includes` holds exactly when the term occurs at some index |
| `Seqs.FilterAppend` | labsalud_frontend/src/components/ingreso/components/analysis-table.tsx:27 | filtering distributes over concatenation, which is why it preserves order |
| `Seqs.FilterKeeps` | labsalud_frontend/src/components/facturacion/facturacion-page.tsx:263 | every element that passes the predicate is kept |

## Left out

- Network plumbing is not modelled: `apiRequest`, the fetch effects, JSON decoding, and the list re-fetches after a create, update or delete. Each handler that awaits a response takes it as a parameter (`Billing.Response`), and `onRegularize` takes its boolean result as one.
- The billing page's summary cards, the protocols-to-bill list and the tab switch are not modelled. They only fetch and display.
- Toast notifications and `console.error` logging are left out. They hold no state.
- `isSavingEdit`, `isDeleting` and `loadingInvoices` are left out. They only drive spinners and disabled buttons while a request is in flight, and requests are not modelled.
- Formatting is left out: `formatCurrency`, `toLocaleString`, `toFixed` and the date display.
- `JsNumber.ParseFloat` reads signed decimal text with an optional fraction and exponent exactly. It does not model `Infinity` or rounding to binary64, so an overflow to `Infinity` reads as a large finite value.
- `JsText.Lower` lower-cases ASCII and Latin-1 capitals only. Other scripts pass through unchanged.
- `Billing.ErrorMessage` assumes `detail` and `error` are strings. A non-string truthy value would be stringified by `new Error(...)`. The message for a JSON `null` body is V8's wording of the `TypeError`; other engines word it differently.
- `Billing.BillingPage` keeps the single `creatingInvoice` slot the code has, so that its members stay faithful to the page. The corrected guard is `Billing.PendingGuard`; see the findings below.
- `AnalysisTable.PrivateRate` assumes `private_ub_value` is a number, because the code multiplies it without parsing it (analysis-table.tsx lines 45 and 50). A numeric string would be coerced by `*`, and a non-numeric one would give NaN; neither is modelled.
- DOM refs and `Node.contains` become the booleans of `Navbar.Target`.
- The rendered JSX and CSS are not modelled, apart from which items, switches and spinners appear.
- `user-dropdown.tsx` is modelled only through what it calls on the navbar: the desktop one's setter `Navbar.NavMenus.HandleUserMenuToggle`, and the mobile one's call of `Navbar.NavMenus.ToggleUserMenu` from its avatar click and from its mount effect (`Navbar.NavMenus.OnUserDropdownsMounted`). Its own open state, links and logout are not modelled.
- `protocol-details-section.tsx` is not part of this model. It displays values only.
- `new Date().toISOString().slice(0, 10)` is the `today` parameter of `Billing.TogglePaid`.
- `PaymentDialog.Dialog.HandleConfirm` calls `onOpenChange(false)` on success rather than `handleClose`. The mode is therefore kept after a successful confirm, while a close resets it. The model follows the code.
- `PaymentDialog.ConfirmEnabledIffInRange` only speaks of parseable amounts and caps. With NaN, JavaScript's comparisons let the button through, as `PaymentDialog.ConfirmEnabledOnNaN` shows; the handler's own guard still refuses a NaN amount.

## Findings

| source | as written | input that shows it | evidently intended | confidence | as-written member | corrected member |
|---|---|---|---|---|---|---|
| labsalud_frontend/src/components/protocolos/components/dialogs/payment-dialog.tsx:75 | the accented refund keyword is the mis-encoded "devoluci√≥n" (U+221A U+2265 in place of "ó"), so the accented spelling never matches | status "Devolución" lower-cases to "devolución", which contains neither "devolucion" nor "devoluci√≥n": gray (`PaymentDialog.StatusBadgeColorDevolucion`) | "devolución" also selects blue | not executed | `PaymentDialog.StatusBadgeColorAsWritten` | `PaymentDialog.StatusBadgeColor` |
| labsalud_frontend/src/components/facturacion/facturacion-page.tsx:152-170 | the create guard is one slot (`creatingInvoice`): every start overwrites it and every finish clears it | press row 1, then row 2 before 1 settles; when 1 settles the slot is empty while 2's request is pending, so row 2 can be pressed again (`Billing.SlotGuardForgetsPending`) | each row stays disabled while its own request is pending | not executed | `Billing.OverlappingCreates` | `Billing.PendingGuardTracksInFlight` |
