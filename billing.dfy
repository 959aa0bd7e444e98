/**
 * The billing page: the invoice list query, the client-side invoice search, the edit form
 * and the partial update it sends, the create/delete actions and their error messages.
 * The page's `useState` fields are the fields of `BillingPage`; requests are not issued here,
 * their responses are parameters of the handlers that await them.
 */
module Billing {
  import opened Wrappers
  import opened JsText
  import opened Seqs

  /** An invoice as listed by the backend; the optional fields may be null. */
  datatype Invoice = Invoice(
    id: int,
    protocolId: int,
    insuranceName: string,
    invoiceNumber: Option<string>,
    isPaid: bool,
    paidDate: Option<string>,
    totalUbBilled: string,
    totalAmount: string,
    notes: Option<string>,
    createdAt: string)

  /** `s || ""` on a nullable string. */
  function OrEmpty(s: Option<string>): string {
    s.GetOr("")
  }

  // ---------------------------------------------------------------- list query

  /** `fetchInvoices`' URL: the `is_paid` parameter for the "paid" and "unpaid" filters. */
  function InvoicesUrl(endpoint: string, filter: string): (url: string)
    ensures filter == "paid" ==> url == endpoint + "?is_paid=true"
    ensures filter == "unpaid" ==> url == endpoint + "?is_paid=false"
    ensures filter != "paid" && filter != "unpaid" ==> url == endpoint
  {
    var params := (if filter == "paid" then [("is_paid", "true")] else [])
                + (if filter == "unpaid" then [("is_paid", "false")] else []);
    var query := QueryString(params);
    if query != "" then endpoint + "?" + query else endpoint
  }

  /** `URLSearchParams.toString()` for parameters whose names and values need no escaping. */
  function QueryString(params: seq<(string, string)>): (q: string)
    ensures params == [] <==> q == ""
  {
    if params == [] then ""
    else
      var first := params[0].0 + "=" + params[0].1;
      if |params| == 1 then first else first + "&" + QueryString(params[1..])
  }

  // ---------------------------------------------------------------- search

  /** Whether an invoice matches an already lower-cased, non-blank search term. */
  predicate MatchesTerm(inv: Invoice, term: string) {
    || Contains(IntToString(inv.protocolId), term)
    || Contains(Lower(inv.insuranceName), term)
    || (inv.invoiceNumber.Some? && inv.invoiceNumber.value != "" && Contains(Lower(inv.invoiceNumber.value), term))
  }

  /** `filteredInvoices`: blank searches keep everything, others keep the matching invoices. */
  function FilterInvoices(invoices: seq<Invoice>, search: string): seq<Invoice> {
    Filter(invoices, (inv: Invoice) => Trim(search) == [] || MatchesTerm(inv, Lower(search)))
  }

  /** A search made only of whitespace (or empty) keeps every invoice, in order. */
  lemma BlankSearchKeepsAll(invoices: seq<Invoice>, search: string)
    requires IsBlank(search)
    ensures FilterInvoices(invoices, search) == invoices
  {
    TrimEmptyIffBlank(search);
    FilterAll(invoices, (inv: Invoice) => Trim(search) == [] || MatchesTerm(inv, Lower(search)));
  }

  /**
   * Any other search keeps exactly the invoices whose protocol id, lower-cased insurer name or
   * lower-cased invoice number contains the lower-cased term, and keeps them in list order.
   */
  lemma SearchKeepsMatches(invoices: seq<Invoice>, more: seq<Invoice>, search: string)
    requires !IsBlank(search)
    ensures forall inv :: inv in FilterInvoices(invoices, search) <==> inv in invoices && MatchesTerm(inv, Lower(search))
    ensures FilterInvoices(invoices + more, search) == FilterInvoices(invoices, search) + FilterInvoices(more, search)
  {
    TrimEmptyIffBlank(search);
    var keep := (inv: Invoice) => Trim(search) == [] || MatchesTerm(inv, Lower(search));
    forall inv | inv in invoices && MatchesTerm(inv, Lower(search))
      ensures inv in FilterInvoices(invoices, search)
    {
      FilterKeeps(invoices, keep, inv);
    }
    FilterAppend(invoices, more, keep);
  }

  /** The search ignores the case of the term. */
  lemma SearchIgnoresCase(invoices: seq<Invoice>, search: string)
    ensures FilterInvoices(invoices, Lower(search)) == FilterInvoices(invoices, search)
  {
    LowerIdempotent(search);
    TrimEmptyIffBlank(search);
    TrimEmptyIffBlank(Lower(search));
    assert IsBlank(Lower(search)) <==> IsBlank(search);
  }

  // ---------------------------------------------------------------- edit form and patch

  /** The edit dialog's form. */
  datatype EditForm = EditForm(invoiceNumber: string, isPaid: bool, paidDate: string, notes: string)

  /** `handleOpenEdit`'s seeding: null fields become "". */
  function SeedForm(inv: Invoice): EditForm {
    EditForm(OrEmpty(inv.invoiceNumber), inv.isPaid, OrEmpty(inv.paidDate), OrEmpty(inv.notes))
  }

  /** The fields an update may carry. */
  datatype Field = InvoiceNumberField | IsPaidField | PaidDateField | NotesField

  /**
   * The body of the partial update: an entry per field that is present. `paidDate` is
   * `Some(None)` when the body sends `paid_date: null`.
   */
  datatype Patch = Patch(
    invoiceNumber: Option<string>,
    isPaid: Option<bool>,
    paidDate: Option<Option<string>>,
    notes: Option<string>)
  {
    /** The keys present in the body. */
    function Keys(): set<Field> {
      (if invoiceNumber.Some? then {InvoiceNumberField} else {})
      + (if isPaid.Some? then {IsPaidField} else {})
      + (if paidDate.Some? then {PaidDateField} else {})
      + (if notes.Some? then {NotesField} else {})
    }
  }

  const NoChange := Patch(None, None, None, None)

  /** The body `handleSaveEdit` builds: the form fields that differ from the original, null originals read as "". */
  function Diff(original: Invoice, form: EditForm): Patch {
    var seed := SeedForm(original);
    Patch(
      if form.invoiceNumber != seed.invoiceNumber then Some(form.invoiceNumber) else None,
      if form.isPaid != seed.isPaid then Some(form.isPaid) else None,
      if form.paidDate != seed.paidDate then Some(if form.paidDate == "" then None else Some(form.paidDate)) else None,
      if form.notes != seed.notes then Some(form.notes) else None)
  }

  /** How the backend reads an update against the form of the original: present keys replace, null dates read as "". */
  function ApplyPatch(form: EditForm, p: Patch): EditForm {
    EditForm(
      p.invoiceNumber.GetOr(form.invoiceNumber),
      p.isPaid.GetOr(form.isPaid),
      match p.paidDate
      case None => form.paidDate
      case Some(None) => ""
      case Some(Some(d)) => d,
      p.notes.GetOr(form.notes))
  }

  /**
   * The body has a key for exactly the fields whose form value differs from the original's
   * (null read as ""), and `paid_date` is null exactly when the edited date is empty.
   */
  lemma DiffKeys(original: Invoice, form: EditForm)
    ensures var p := Diff(original, form); var seed := SeedForm(original);
      && (InvoiceNumberField in p.Keys() <==> form.invoiceNumber != OrEmpty(original.invoiceNumber))
      && (IsPaidField in p.Keys() <==> form.isPaid != original.isPaid)
      && (PaidDateField in p.Keys() <==> form.paidDate != OrEmpty(original.paidDate))
      && (NotesField in p.Keys() <==> form.notes != OrEmpty(original.notes))
      && (p.paidDate.Some? ==> (p.paidDate.value.None? <==> form.paidDate == ""))
  {
  }

  /** Applying the body to the original gives back the edited form. */
  lemma DiffRoundTrip(original: Invoice, form: EditForm)
    ensures ApplyPatch(SeedForm(original), Diff(original, form)) == form
  {
  }

  /** No body that reproduces the edited form has fewer keys. */
  lemma DiffIsMinimal(original: Invoice, form: EditForm, q: Patch)
    requires ApplyPatch(SeedForm(original), q) == form
    ensures Diff(original, form).Keys() <= q.Keys()
  {
  }

  /** Seeding the form and saving it unchanged produces an empty body. */
  lemma SeedThenDiffIsEmpty(original: Invoice)
    ensures Diff(original, SeedForm(original)) == NoChange
    ensures NoChange.Keys() == {}
  {
  }

  /** The worked example: marking "A-1" paid on 2024-01-01 sends exactly `is_paid` and `paid_date`. */
  lemma DiffExample(original: Invoice)
    requires original.invoiceNumber == Some("A-1") && !original.isPaid
    requires OrEmpty(original.paidDate) == "" && OrEmpty(original.notes) == ""
    ensures Diff(original, EditForm("A-1", true, "2024-01-01", "")) == Patch(None, Some(true), Some(Some("2024-01-01")), None)
  {
  }

  /** The "Pagada" switch: negates `is_paid`, dates a newly paid invoice today and clears the date otherwise. */
  function TogglePaid(form: EditForm, today: string): (r: EditForm)
    ensures r.isPaid == !form.isPaid
    ensures r.paidDate == if r.isPaid then today else ""
    ensures r.invoiceNumber == form.invoiceNumber && r.notes == form.notes
  {
    form.(isPaid := !form.isPaid, paidDate := if !form.isPaid then today else "")
  }

  /**
   * Switching an unpaid, undated invoice to paid and saving sends exactly `is_paid: true` and
   * `paid_date: today`; switching back before saving restores the seeded form, so nothing is sent.
   */
  lemma TogglePaidThenSave(original: Invoice, today: string)
    requires !original.isPaid && OrEmpty(original.paidDate) == "" && today != ""
    ensures Diff(original, TogglePaid(SeedForm(original), today)).Keys() == {IsPaidField, PaidDateField}
    ensures Diff(original, TogglePaid(SeedForm(original), today)).paidDate == Some(Some(today))
    ensures TogglePaid(TogglePaid(SeedForm(original), today), today) == SeedForm(original)
  {
  }

  // ---------------------------------------------------------------- responses and messages

  /** An error body; each field may be absent. */
  datatype ErrorBody = ErrorBody(detail: Option<string>, error: Option<string>)

  /**
   * What `response.json().catch(() => ({}))` resolves to: a JSON value other than `null`,
   * seen through its `detail` and `error` properties (absent on anything but an object
   * carrying them); `{}` when the body is not JSON; or `null` for a JSON `null` body.
   */
  datatype Payload = Fields(body: ErrorBody) | NotJson | JsonNull

  /**
   * What an awaited request produced: a response with a status and its payload; or a thrown
   * value, an `Error` with its message or something else.
   */
  datatype Response =
    | Response(status: int, payload: Payload)
    | Thrown(errorMessage: Option<string>)

  /** `response.ok` */
  predicate IsOk(r: Response) {
    r.Response? && 200 <= r.status <= 299
  }

  const CreateErrorDefault := "Error al crear la factura"
  const UpdateErrorDefault := "Error al actualizar la factura"
  const DeleteErrorDefault := "Error al eliminar la factura"

  /**
   * The message of the `TypeError` thrown by reading `detail` of `null`, as V8 words it; the
   * handler's catch shows it because it is an `Error`.
   */
  const NullReadMessage := "Cannot read properties of null (reading 'detail')"

  /**
   * `errorData.detail || errorData.error || fallback`: an unparseable body reads as `{}`, and
   * a `null` body makes the property read itself throw.
   */
  function ErrorMessage(payload: Payload, fallback: string): string {
    match payload
    case JsonNull => NullReadMessage
    case NotJson => fallback
    case Fields(b) =>
      if b.detail.Some? && b.detail.value != "" then b.detail.value
      else if b.error.Some? && b.error.value != "" then b.error.value
      else fallback
  }

  /** The message shown for a failed action: the thrown `Error`'s message, else the fallback. */
  function FailureMessage(r: Response, fallback: string): string {
    match r
    case Response(_, payload) => ErrorMessage(payload, fallback)
    case Thrown(m) => m.GetOr(fallback)
  }

  /**
   * The message is the first non-empty of `detail` and `error`, else the fallback; a body
   * that is not JSON gives the fallback and a `null` body the `TypeError`'s message; it is
   * never empty when the fallback is not.
   */
  lemma ErrorMessageChain(detail: Option<string>, error: Option<string>, fallback: string, payload: Payload)
    ensures var m := ErrorMessage(Fields(ErrorBody(detail, error)), fallback);
      && (detail.Some? && detail.value != "" ==> m == detail.value)
      && ((detail.None? || detail.value == "") && error.Some? && error.value != "" ==> m == error.value)
      && ((detail.None? || detail.value == "") && (error.None? || error.value == "") ==> m == fallback)
    ensures ErrorMessage(NotJson, fallback) == fallback
    ensures ErrorMessage(JsonNull, fallback) == NullReadMessage
    ensures fallback != "" ==> ErrorMessage(payload, fallback) != ""
  {
  }

  /** `response.status === 204 || response.ok` */
  predicate DeleteSucceeded(r: Response) {
    r.Response? && (r.status == 204 || IsOk(r))
  }

  /** The 204 test is subsumed by `ok`: a delete succeeds exactly on a 2xx response. */
  lemma DeleteSucceededIffOk(r: Response)
    ensures DeleteSucceeded(r) <==> IsOk(r)
  {
  }

  // ---------------------------------------------------------------- page state

  /** What became of a save. */
  datatype SaveOutcome =
    | NotEditing
    | NothingToSave
    | Updated(invoiceId: int, body: Patch)
    | UpdateFailed(invoiceId: int, body: Patch, message: string)

  /** What became of a create or delete request. */
  datatype ActionOutcome = NoTarget | Succeeded(id: int) | Failed(id: int, message: string)

  class BillingPage {
    var invoices: seq<Invoice>
    var invoiceFilter: string
    var invoiceSearch: string
    var creatingInvoice: Option<int>
    var editDialogOpen: bool
    var editingInvoice: Option<Invoice>
    var editForm: EditForm
    var deleteDialogOpen: bool
    var deletingInvoice: Option<Invoice>

    /** The page's initial state. */
    constructor ()
      ensures invoices == [] && invoiceFilter == "all" && invoiceSearch == ""
      ensures creatingInvoice.None? && editingInvoice.None? && deletingInvoice.None?
      ensures !editDialogOpen && !deleteDialogOpen
      ensures editForm == EditForm("", false, "", "")
    {
      invoices, invoiceFilter, invoiceSearch := [], "all", "";
      creatingInvoice, editingInvoice, deletingInvoice := None, None, None;
      editDialogOpen, deleteDialogOpen := false, false;
      editForm := EditForm("", false, "", "");
    }

    /** The invoices the list shows. */
    function FilteredInvoices(): seq<Invoice>
      reads this
    {
      FilterInvoices(invoices, invoiceSearch)
    }

    /** The "create invoice" button of the row for `protocolId` is disabled. */
    predicate CreateButtonDisabled(protocolId: int)
      reads this
    {
      creatingInvoice == Some(protocolId)
    }

    /** The filter select. */
    method SetInvoiceFilter(filter: string)
      modifies this`invoiceFilter
      ensures invoiceFilter == filter
    {
      invoiceFilter := filter;
    }

    /** The search box (and its clear button, which sets ""). */
    method SetInvoiceSearch(search: string)
      modifies this`invoiceSearch
      ensures invoiceSearch == search
    {
      invoiceSearch := search;
    }

    /** A successful invoice fetch stores the list it received. */
    method ReceiveInvoices(data: seq<Invoice>)
      modifies this`invoices
      ensures invoices == data
    {
      invoices := data;
    }

    /** `handleCreateInvoice` up to its request: the row being created is remembered. */
    method StartCreateInvoice(protocolId: int)
      modifies this`creatingInvoice
      ensures creatingInvoice == Some(protocolId)
      ensures forall id :: CreateButtonDisabled(id) <==> id == protocolId
    {
      creatingInvoice := Some(protocolId);
    }

    /** `handleCreateInvoice` after its request: the slot is cleared whatever the response. */
    method FinishCreateInvoice(protocolId: int, response: Response) returns (outcome: ActionOutcome)
      modifies this`creatingInvoice
      ensures creatingInvoice.None?
      ensures forall id :: !CreateButtonDisabled(id)
      ensures IsOk(response) ==> outcome == Succeeded(protocolId)
      ensures !IsOk(response) ==> outcome == Failed(protocolId, FailureMessage(response, CreateErrorDefault))
    {
      if IsOk(response) {
        outcome := Succeeded(protocolId);
      } else {
        outcome := Failed(protocolId, FailureMessage(response, CreateErrorDefault));
      }
      creatingInvoice := None;
    }

    /** `handleOpenEdit` */
    method OpenEdit(inv: Invoice)
      modifies this`editingInvoice, this`editForm, this`editDialogOpen
      ensures editingInvoice == Some(inv) && editForm == SeedForm(inv) && editDialogOpen
    {
      editingInvoice := Some(inv);
      editForm := EditForm(OrEmpty(inv.invoiceNumber), inv.isPaid, OrEmpty(inv.paidDate), OrEmpty(inv.notes));
      editDialogOpen := true;
    }

    /** The "Pagada" switch, with `today` the current date as YYYY-MM-DD. */
    method TogglePaidSwitch(today: string)
      modifies this`editForm
      ensures editForm == TogglePaid(old(editForm), today)
    {
      editForm := editForm.(isPaid := !editForm.isPaid, paidDate := if !editForm.isPaid then today else "");
    }

    /** The invoice-number input. */
    method TypeInvoiceNumber(s: string)
      modifies this`editForm
      ensures editForm == old(editForm).(invoiceNumber := s)
    {
      editForm := editForm.(invoiceNumber := s);
    }

    /** The payment-date input, shown while the form is marked paid. */
    method TypePaidDate(s: string)
      modifies this`editForm
      ensures editForm == old(editForm).(paidDate := s)
    {
      editForm := editForm.(paidDate := s);
    }

    /** The notes textarea. */
    method TypeNotes(s: string)
      modifies this`editForm
      ensures editForm == old(editForm).(notes := s)
    {
      editForm := editForm.(notes := s);
    }

    /** The edit dialog's `onOpenChange` and its cancel button: only the flag changes. */
    method SetEditDialogOpen(isOpen: bool)
      modifies this`editDialogOpen
      ensures editDialogOpen == isOpen
    {
      editDialogOpen := isOpen;
    }

    /**
     * `handleSaveEdit`, with `response` what the update request produces when one is sent.
     * The body is built field by field; an empty body sends nothing and closes the dialog; a
     * successful update closes it; a failed one leaves it open and reports a message.
     */
    method SaveEdit(response: Response) returns (outcome: SaveOutcome)
      modifies this`editDialogOpen
      ensures editingInvoice.None? ==> outcome == NotEditing && editDialogOpen == old(editDialogOpen)
      ensures editingInvoice.Some? && Diff(editingInvoice.value, editForm) == NoChange ==>
        outcome == NothingToSave && !editDialogOpen
      ensures editingInvoice.Some? && Diff(editingInvoice.value, editForm) != NoChange ==>
        var body := Diff(editingInvoice.value, editForm);
        && (IsOk(response) ==> outcome == Updated(editingInvoice.value.id, body) && !editDialogOpen)
        && (!IsOk(response) ==>
              outcome == UpdateFailed(editingInvoice.value.id, body, FailureMessage(response, UpdateErrorDefault))
              && editDialogOpen == old(editDialogOpen))
    {
      if editingInvoice.None? {
        return NotEditing;
      }
      var original := editingInvoice.value;
      var updateData := NoChange;
      if editForm.invoiceNumber != OrEmpty(original.invoiceNumber) {
        updateData := updateData.(invoiceNumber := Some(editForm.invoiceNumber));
      }
      if editForm.isPaid != original.isPaid {
        updateData := updateData.(isPaid := Some(editForm.isPaid));
      }
      if editForm.paidDate != OrEmpty(original.paidDate) {
        updateData := updateData.(paidDate := Some(if editForm.paidDate == "" then None else Some(editForm.paidDate)));
      }
      if editForm.notes != OrEmpty(original.notes) {
        updateData := updateData.(notes := Some(editForm.notes));
      }
      assert updateData == Diff(original, editForm);
      if updateData.Keys() == {} {
        editDialogOpen := false;
        return NothingToSave;
      }
      if IsOk(response) {
        editDialogOpen := false;
        outcome := Updated(original.id, updateData);
      } else {
        outcome := UpdateFailed(original.id, updateData, FailureMessage(response, UpdateErrorDefault));
      }
    }

    /** The trash button of a row. */
    method OpenDelete(inv: Invoice)
      modifies this`deletingInvoice, this`deleteDialogOpen
      ensures deletingInvoice == Some(inv) && deleteDialogOpen
    {
      deletingInvoice := Some(inv);
      deleteDialogOpen := true;
    }

    /** The delete dialog's `onOpenChange` and its cancel button: the invoice is still remembered. */
    method SetDeleteDialogOpen(isOpen: bool)
      modifies this`deleteDialogOpen
      ensures deleteDialogOpen == isOpen
    {
      deleteDialogOpen := isOpen;
    }

    /**
     * `handleDeleteInvoice`: on 204 or any 2xx the dialog closes and forgets the invoice; on
     * failure both stay and a message is reported. The list itself is not touched.
     */
    method DeleteInvoice(response: Response) returns (outcome: ActionOutcome)
      modifies this`deletingInvoice, this`deleteDialogOpen
      ensures old(deletingInvoice).None? ==>
        outcome == NoTarget && deletingInvoice == old(deletingInvoice) && deleteDialogOpen == old(deleteDialogOpen)
      ensures old(deletingInvoice).Some? && DeleteSucceeded(response) ==>
        outcome == Succeeded(old(deletingInvoice).value.id) && deletingInvoice.None? && !deleteDialogOpen
      ensures old(deletingInvoice).Some? && !DeleteSucceeded(response) ==>
        && outcome == Failed(old(deletingInvoice).value.id, FailureMessage(response, DeleteErrorDefault))
        && deletingInvoice == old(deletingInvoice) && deleteDialogOpen == old(deleteDialogOpen)
    {
      if deletingInvoice.None? {
        return NoTarget;
      }
      var id := deletingInvoice.value.id;
      if response.Response? && (response.status == 204 || IsOk(response)) {
        deleteDialogOpen := false;
        deletingInvoice := None;
        outcome := Succeeded(id);
      } else {
        outcome := Failed(id, FailureMessage(response, DeleteErrorDefault));
      }
    }
  }

  /**
   * The create guard is a single slot: when a second row starts before the first request
   * ends, the end of the first clears the slot and re-enables the second row while its own
   * request is still pending.
   */
  method OverlappingCreates(first: int, second: int, response: Response) returns (secondEnabledWhilePending: bool)
    requires first != second
    ensures secondEnabledWhilePending
  {
    var page := new BillingPage();
    page.StartCreateInvoice(first);
    page.StartCreateInvoice(second);
    assert !page.CreateButtonDisabled(first) && page.CreateButtonDisabled(second);
    var _ := page.FinishCreateInvoice(first, response);
    secondEnabledWhilePending := !page.CreateButtonDisabled(second);
  }

  /** A create request starting (its button pressed) or settling, for one protocol. */
  datatype CreateEvent = Start(protocolId: int) | Finish(protocolId: int)

  /** The create requests still in flight after `events`, one occurrence per request. */
  function InFlight(events: seq<CreateEvent>): multiset<int>
  {
    if events == [] then multiset{}
    else
      var before := InFlight(events[..|events| - 1]);
      match events[|events| - 1]
      case Start(id) => before + multiset{id}
      case Finish(id) => before - multiset{id}
  }

  /** The guard as written: one slot that a start overwrites and any finish clears. */
  function SlotGuard(events: seq<CreateEvent>): Option<int>
  {
    if events == [] then None
    else
      match events[|events| - 1]
      case Start(id) => Some(id)
      case Finish(_) => None
  }

  /** The corrected guard: the protocols whose create request is pending. */
  function PendingGuard(events: seq<CreateEvent>): set<int>
  {
    if events == [] then {}
    else
      var before := PendingGuard(events[..|events| - 1]);
      match events[|events| - 1]
      case Start(id) => before + {id}
      case Finish(id) => before - {id}
  }

  /**
   * A run the corrected page lets happen: a protocol's button is pressed only while its guard
   * is off, and a request settles only once it is in flight.
   */
  predicate GuardedRun(events: seq<CreateEvent>)
  {
    events == [] ||
    (GuardedRun(events[..|events| - 1]) &&
     match events[|events| - 1]
     case Start(id) => id !in PendingGuard(events[..|events| - 1])
     case Finish(id) => InFlight(events[..|events| - 1])[id] > 0)
  }

  /**
   * With the corrected guard, a protocol's button is disabled exactly while a create request
   * for it is in flight, and no protocol ever has two requests in flight.
   */
  lemma {:induction false} PendingGuardTracksInFlight(events: seq<CreateEvent>)
    requires GuardedRun(events)
    ensures forall id :: id in PendingGuard(events) <==> InFlight(events)[id] > 0
    ensures forall id :: InFlight(events)[id] <= 1
  {
    if events != [] {
      PendingGuardTracksInFlight(events[..|events| - 1]);
    }
  }

  /**
   * The interleaving of `OverlappingCreates` as events: the slot guard lets the second press
   * through and then forgets it while its request is in flight; the corrected guard keeps it.
   */
  lemma SlotGuardForgetsPending(first: int, second: int)
    requires first != second
    ensures var run := [Start(first), Start(second), Finish(first)];
      && SlotGuard(run[..1]) != Some(second)
      && InFlight(run)[second] == 1
      && SlotGuard(run).None?
      && GuardedRun(run) && PendingGuard(run) == {second}
  {
    var one := [] + [Start(first)];
    var two := one + [Start(second)];
    var run := two + [Finish(first)];
    LastEvent([], Start(first));
    LastEvent(one, Start(second));
    LastEvent(two, Finish(first));
    assert [Start(first), Start(second), Finish(first)] == run;
  }

  /** How the guards and the requests in flight take one more event. */
  lemma LastEvent(events: seq<CreateEvent>, e: CreateEvent)
    ensures var after := events + [e];
      && SlotGuard(after) == (if e.Start? then Some(e.protocolId) else None)
      && InFlight(after) == (if e.Start? then InFlight(events) + multiset{e.protocolId} else InFlight(events) - multiset{e.protocolId})
      && PendingGuard(after) == (if e.Start? then PendingGuard(events) + {e.protocolId} else PendingGuard(events) - {e.protocolId})
      && (GuardedRun(after) <==>
            GuardedRun(events) && (if e.Start? then e.protocolId !in PendingGuard(events) else InFlight(events)[e.protocolId] > 0))
  {
    var after := events + [e];
    assert after[..|after| - 1] == events && after[|after| - 1] == e;
  }
}
