/**
 * The dialog that registers a payment or a refund against a protocol's balance: a mode,
 * an amount and notes, a cap that depends on the mode, and the reset rules on success and
 * on close. Numbers come from decimal strings; a string that does not parse is NaN, here
 * `None`, and every comparison with NaN is false, as in the browser.
 */
module PaymentDialog {
  import opened Wrappers
  import opened JsText
  import opened JsNumber

  datatype ActionType = Payment | Refund

  /** The arguments handed to the `onRegularize` callback. */
  datatype Regularization = Regularization(amount: real, action: ActionType, notes: string)

  /** `x <= y` where `x` may be NaN. */
  predicate AtMost(x: Option<real>, y: real) {
    x.Some? && x.value <= y
  }

  /** `x > y` where either side may be NaN. */
  predicate Exceeds(x: Option<real>, y: Option<real>) {
    x.Some? && y.Some? && x.value > y.value
  }

  /** `Number.parseFloat(s || "0")`: the empty string reads as 0. */
  function ParseOrZeroText(s: string): Option<real> {
    ParseFloat(if s == "" then "0" else s)
  }

  /** The empty prop reads as exactly 0. */
  lemma EmptyPropIsZero()
    ensures ParseOrZeroText("") == Some(0.0)
  {
    ParseFloatOfNat(0);
  }

  /** `maxAmount`: the pending balance when paying, the amount to return when refunding. */
  function MaxAmount(action: ActionType, pending: Option<real>, toReturn: Option<real>): Option<real> {
    if action == Payment then pending else toReturn
  }

  /** Whether the confirm button is enabled (the negation of its `disabled` expression). */
  predicate ConfirmEnabled(isProcessing: bool, amount: string, maxAmount: Option<real>) {
    !(isProcessing || amount == "" || AtMost(ParseFloat(amount), 0.0) || Exceeds(ParseFloat(amount), maxAmount))
  }

  /**
   * For a parseable amount and cap, confirm is enabled exactly when nothing is in progress,
   * the field is not empty, and the amount lies in (0, maxAmount].
   */
  lemma ConfirmEnabledIffInRange(isProcessing: bool, amount: string, maxAmount: Option<real>)
    requires ParseFloat(amount).Some? && maxAmount.Some?
    ensures ConfirmEnabled(isProcessing, amount, maxAmount) <==>
      !isProcessing && amount != "" && 0.0 < ParseFloat(amount).value <= maxAmount.value
  {
  }

  /**
   * The button's own test lets NaN through: a non-empty amount that does not parse, or any
   * positive amount against a cap that does not parse, leaves confirm enabled.
   */
  lemma ConfirmEnabledOnNaN(isProcessing: bool, amount: string, maxAmount: Option<real>)
    requires !isProcessing && amount != ""
    requires ParseFloat(amount).None? || (maxAmount.None? && ParseFloat(amount).value > 0.0)
    ensures ConfirmEnabled(isProcessing, amount, maxAmount)
  {
  }

  /** The example: a pending balance of 150 rejects 200 and accepts 150. */
  lemma ConfirmExample(a200: string, a150: string)
    requires ParseFloat(a200) == Some(200.0) && ParseFloat(a150) == Some(150.0) && a200 != "" && a150 != ""
    ensures !ConfirmEnabled(false, a200, MaxAmount(Payment, Some(150.0), Some(0.0)))
    ensures ConfirmEnabled(false, a150, MaxAmount(Payment, Some(150.0), Some(0.0)))
  {
  }

  /** Status-badge colours. */
  datatype Color = Green | Yellow | Red | Blue | Gray

  /** The accented keyword, with ó as U+00F3. */
  const DevolucionAccented: string := "devoluci\U{00F3}n"

  /** The second refund keyword as the file spells it: ó came out as the two characters U+221A U+2265. */
  const DevolucionAsWritten: string := "devoluci\U{221A}\U{2265}n"

  /** `getStatusBadgeColor` as written: first matching keyword wins, case-insensitively. */
  function StatusBadgeColorAsWritten(status: string): Color {
    StatusColor(Lower(status), DevolucionAsWritten)
  }

  /** `getStatusBadgeColor` with its second refund keyword spelled "devolución". */
  function StatusBadgeColor(status: string): Color {
    StatusColor(Lower(status), DevolucionAccented)
  }

  /** The priority chain over an already lower-cased status, with the given accented refund keyword. */
  function StatusColor(lower: string, accented: string): Color {
    if Contains(lower, "completo") || Contains(lower, "pagado") then Green
    else if Contains(lower, "parcial") then Yellow
    else if Contains(lower, "pendiente") then Red
    else if Contains(lower, "devolucion") || Contains(lower, accented) then Blue
    else Gray
  }

  /**
   * The colour is chosen by the first keyword present in the order completo/pagado, parcial,
   * pendiente, devolucion/devolución; gray when none is present; and the case of the
   * status does not matter.
   */
  lemma StatusBadgeColorSpec(status: string)
    ensures var l := Lower(status);
      && (StatusBadgeColor(status) == Green <==> Contains(l, "completo") || Contains(l, "pagado"))
      && (StatusBadgeColor(status) == Yellow <==>
            !Contains(l, "completo") && !Contains(l, "pagado") && Contains(l, "parcial"))
      && (StatusBadgeColor(status) == Red <==>
            !Contains(l, "completo") && !Contains(l, "pagado") && !Contains(l, "parcial")
            && Contains(l, "pendiente"))
      && (StatusBadgeColor(status) == Gray <==>
            !Contains(l, "completo") && !Contains(l, "pagado") && !Contains(l, "parcial")
            && !Contains(l, "pendiente") && !Contains(l, "devolucion") && !Contains(l, DevolucionAccented))
    ensures StatusBadgeColor(Lower(status)) == StatusBadgeColor(status)
  {
    LowerIdempotent(status);
  }

  /** The two versions differ only on statuses that contain one of the two accented spellings. */
  lemma StatusBadgeColorAgrees(status: string)
    requires !Contains(Lower(status), DevolucionAccented) && !Contains(Lower(status), DevolucionAsWritten)
    ensures StatusBadgeColorAsWritten(status) == StatusBadgeColor(status)
  {
  }

  /** "Devolución" comes out gray as written, blue as intended. */
  lemma StatusBadgeColorDevolucion()
    ensures StatusBadgeColorAsWritten("Devoluci\U{00F3}n") == Gray
    ensures StatusBadgeColor("Devoluci\U{00F3}n") == Blue
  {
    LowerDevolucion();
    AccentedKeywordGray();
    AccentedKeywordBlue();
  }

  lemma AccentedKeywordGray()
    ensures StatusColor(DevolucionAccented, DevolucionAsWritten) == Gray
  {
    NotContains(DevolucionAccented, DevolucionAsWritten, '\U{221A}');
    AccentedLacksOtherKeywords();
    StatusColorPastKeywords(DevolucionAccented, DevolucionAsWritten);
  }

  lemma AccentedKeywordBlue()
    ensures StatusColor(DevolucionAccented, DevolucionAccented) == Blue
  {
    AccentedLacksOtherKeywords();
    StatusColorPastKeywords(DevolucionAccented, DevolucionAccented);
    assert StartsWith(DevolucionAccented, DevolucionAccented);
  }

  /** The accented word contains none of the keywords checked before the refund ones. */
  lemma AccentedLacksOtherKeywords()
    ensures var l := DevolucionAccented;
      !Contains(l, "completo") && !Contains(l, "pagado") && !Contains(l, "parcial")
      && !Contains(l, "pendiente") && !Contains(l, "devolucion")
  {
    LacksOtherKeywords(DevolucionAccented);
  }

  /** A ten-letter word without `m` or `p` other than "devolucion" contains none of those keywords. */
  lemma LacksOtherKeywords(l: string)
    requires 'm' !in l && 'p' !in l && |l| == 10 && l != "devolucion"
    ensures !Contains(l, "completo") && !Contains(l, "pagado") && !Contains(l, "parcial")
    ensures !Contains(l, "pendiente") && !Contains(l, "devolucion")
  {
    NotContains(l, "completo", 'm');
    NotContains(l, "pagado", 'p');
    NotContains(l, "parcial", 'p');
    NotContains(l, "pendiente", 'p');
    NotContainsOfSameLength(l, "devolucion");
  }

  /** Past the other keywords, only the accented refund keyword can make the status blue. */
  lemma StatusColorPastKeywords(lower: string, accented: string)
    requires !Contains(lower, "completo") && !Contains(lower, "pagado") && !Contains(lower, "parcial")
    requires !Contains(lower, "pendiente") && !Contains(lower, "devolucion")
    ensures StatusColor(lower, accented) == if Contains(lower, accented) then Blue else Gray
  {
  }

  lemma LowerDevolucion()
    ensures Lower("Devoluci\U{00F3}n") == DevolucionAccented
  {
  }

  /** A different term of the same length does not occur. */
  lemma NotContainsOfSameLength(s: string, t: string)
    requires |s| == |t| && s != t
    ensures !Contains(s, t)
  {
    ContainsIffOccurs(s, t);
    assert s[0..|t|] == s;
  }

  /** A term with a character the text lacks does not occur in it. */
  lemma NotContains(s: string, t: string, c: char)
    requires c in t && c !in s
    ensures !Contains(s, t)
  {
    ContainsIffOccurs(s, t);
  }

  /** The dialog's own state (`actionType`, `amount`, `notes`), its props, and the `open` flag its parent keeps. */
  class Dialog {
    const amountPending: string
    const amountToReturn: string
    var actionType: ActionType
    var amount: string
    var notes: string
    var open: bool

    /** `pending` */
    function Pending(): Option<real> {
      ParseOrZeroText(amountPending)
    }

    /** `toReturn` */
    function ToReturn(): Option<real> {
      ParseOrZeroText(amountToReturn)
    }

    function Cap(): Option<real>
      reads this
    {
      MaxAmount(actionType, Pending(), ToReturn())
    }

    /** The "register payment" button is disabled when nothing is pending. */
    predicate PaymentButtonDisabled() {
      AtMost(Pending(), 0.0)
    }

    /** The "register refund" button is disabled when nothing is to be returned. */
    predicate RefundButtonDisabled() {
      AtMost(ToReturn(), 0.0)
    }

    /** The confirm button is enabled, given whether a regularisation is in progress. */
    predicate CanConfirm(isProcessing: bool)
      reads this
    {
      ConfirmEnabled(isProcessing, amount, Cap())
    }

    /** The amount field is disabled when the cap is not positive. */
    predicate AmountInputDisabled()
      reads this
    {
      AtMost(Cap(), 0.0)
    }

    /** A fresh dialog starts in payment mode with empty fields. */
    constructor (amountPending: string, amountToReturn: string, open: bool)
      ensures this.amountPending == amountPending && this.amountToReturn == amountToReturn
      ensures actionType == Payment && amount == "" && notes == "" && this.open == open
    {
      this.amountPending, this.amountToReturn := amountPending, amountToReturn;
      actionType, amount, notes := Payment, "", "";
      this.open := open;
    }

    /** Click on "register payment": switches mode and clears the amount, unless the button is disabled. */
    method ClickPayment()
      modifies this
      ensures !PaymentButtonDisabled() ==> actionType == Payment && amount == ""
      ensures PaymentButtonDisabled() ==> actionType == old(actionType) && amount == old(amount)
      ensures notes == old(notes) && open == old(open)
    {
      if !PaymentButtonDisabled() {
        actionType := Payment;
        amount := "";
      }
    }

    /** Click on "register refund": switches mode and clears the amount, unless the button is disabled. */
    method ClickRefund()
      modifies this
      ensures !RefundButtonDisabled() ==> actionType == Refund && amount == ""
      ensures RefundButtonDisabled() ==> actionType == old(actionType) && amount == old(amount)
      ensures notes == old(notes) && open == old(open)
    {
      if !RefundButtonDisabled() {
        actionType := Refund;
        amount := "";
      }
    }

    /** Typing in the amount field, which ignores input while disabled. */
    method TypeAmount(s: string)
      modifies this`amount
      ensures amount == if old(AmountInputDisabled()) then old(amount) else s
    {
      if !AmountInputDisabled() {
        amount := s;
      }
    }

    /** Typing in the notes field. */
    method TypeNotes(s: string)
      modifies this`notes
      ensures notes == s
    {
      notes := s;
    }

    /**
     * `handleConfirm`, with `succeeded` the result `onRegularize` resolves to. The callback is
     * called only with a parsed, positive amount; on success the fields are cleared and the
     * dialog closes (the mode is kept); on failure nothing changes.
     */
    method HandleConfirm(succeeded: bool) returns (call: Option<Regularization>)
      modifies this
      ensures call.Some? <==> ParseFloat(old(amount)).Some? && ParseFloat(old(amount)).value > 0.0
      ensures call.Some? ==> call.value == Regularization(ParseFloat(old(amount)).value, old(actionType), old(notes))
      ensures actionType == old(actionType)
      ensures call.Some? && succeeded ==> amount == "" && notes == "" && !open
      ensures !(call.Some? && succeeded) ==> amount == old(amount) && notes == old(notes) && open == old(open)
    {
      var text := amount;
      var value := ParseFloat(text);
      if value.None? || value.value <= 0.0 {
        return None;
      }
      call := Some(Regularization(value.value, actionType, notes));
      if succeeded {
        amount := "";
        notes := "";
        open := false;
      }
    }

    /**
     * A press on the confirm button: nothing happens while it is disabled. When it is enabled
     * the press is `handleConfirm`: the callback is called exactly when the amount parses, and
     * whatever reaches it is positive and, when the cap parses, within the cap.
     */
    method PressConfirm(isProcessing: bool, succeeded: bool) returns (call: Option<Regularization>)
      modifies this
      ensures call.Some? ==> call.value.amount > 0.0 && call.value.action == old(actionType)
      ensures call.Some? && old(Cap()).Some? ==> call.value.amount <= old(Cap()).value
      ensures !old(CanConfirm(isProcessing)) ==> call.None? && amount == old(amount) && notes == old(notes) && open == old(open)
      ensures old(CanConfirm(isProcessing)) ==>
        && (call.Some? <==> ParseFloat(old(amount)).Some?)
        && (call.Some? ==> call.value == Regularization(ParseFloat(old(amount)).value, old(actionType), old(notes)))
      ensures actionType == old(actionType)
      ensures call.Some? && succeeded ==> amount == "" && notes == "" && !open
      ensures !(call.Some? && succeeded) ==> amount == old(amount) && notes == old(notes) && open == old(open)
    {
      if CanConfirm(isProcessing) {
        call := HandleConfirm(succeeded);
      } else {
        call := None;
      }
    }

    /** `handleClose`: closing resets amount, notes and mode; reopening keeps them. */
    method HandleClose(isOpen: bool)
      modifies this
      ensures open == isOpen
      ensures !isOpen ==> amount == "" && notes == "" && actionType == Payment
      ensures isOpen ==> amount == old(amount) && notes == old(notes) && actionType == old(actionType)
    {
      if !isOpen {
        amount := "";
        notes := "";
        actionType := Payment;
      }
      open := isOpen;
    }
  }
}
