/**
 * The dialog listing a protocol's analyses with a per-row authorisation switch. It keeps no
 * state of its own: everything it shows is computed from its props.
 */
module AnalysisDialog {
  import opened Wrappers

  /** One analysis of a protocol as the backend reports it. */
  datatype ProtocolDetail = ProtocolDetail(
    id: int,
    code: string,
    name: string,
    ub: string,
    isAuthorized: bool,
    isActive: bool,
    isUrgent: bool)

  /** The insurer id reserved for private ("particular") patients. */
  const ParticularInsuranceId: int := 1

  /** `insuranceId === 1`; an absent id is not particular. */
  predicate IsParticular(insuranceId: Option<int>) {
    insuranceId == Some(ParticularInsuranceId)
  }

  /** The `disabled` prop of a row's switch. */
  predicate SwitchDisabled(isEditable: bool, updatingDetailId: Option<int>, d: ProtocolDetail) {
    !isEditable || updatingDetailId == Some(d.id) || !d.isActive
  }

  /** The three texts the dialog can show under its title. */
  datatype Description = CanChangeAuthorization | NoAuthorizationNeeded | ReadOnly

  /** The description shown under the title. */
  function DescriptionFor(isEditable: bool, particular: bool): Description {
    if isEditable && !particular then CanChangeAuthorization
    else if particular then NoAuthorizationNeeded
    else ReadOnly
  }

  /** Each description is chosen by exactly one combination of the two flags. */
  lemma DescriptionCases(isEditable: bool, particular: bool)
    ensures DescriptionFor(isEditable, particular) == CanChangeAuthorization <==> isEditable && !particular
    ensures DescriptionFor(isEditable, particular) == NoAuthorizationNeeded <==> particular
    ensures DescriptionFor(isEditable, particular) == ReadOnly <==> !isEditable && !particular
  {
  }

  /** A row's authorisation switch: its position, whether it is disabled, whether a spinner sits beside it. */
  datatype SwitchView = SwitchView(checked: bool, disabled: bool, spinner: bool)

  /** One rendered row; no switch at all for particular protocols. */
  datatype RowView = RowView(id: int, switch: Option<SwitchView>)

  /** What the dialog body shows. */
  datatype Body = Loading | NoDetails | Table(authorizationColumn: bool, rows: seq<RowView>, total: nat)

  /** The view of one row. */
  function RenderRow(d: ProtocolDetail, particular: bool, isEditable: bool, updatingDetailId: Option<int>): RowView {
    RowView(d.id,
      if particular then None
      else Some(SwitchView(d.isAuthorized, SwitchDisabled(isEditable, updatingDetailId, d), updatingDetailId == Some(d.id))))
  }

  /** The dialog body: a spinner while loading, the table when there are details, else an empty notice. */
  function Render(details: seq<ProtocolDetail>, isLoading: bool, updatingDetailId: Option<int>,
                  isEditable: bool, insuranceId: Option<int>): (b: Body)
    ensures b.Loading? <==> isLoading
    ensures b.NoDetails? <==> !isLoading && details == []
    ensures b.Table? ==> |b.rows| == |details| && b.total == |details|
    ensures b.Table? ==> forall i :: 0 <= i < |details| ==> b.rows[i].id == details[i].id
  {
    if isLoading then Loading
    else if |details| > 0 then
      var particular := IsParticular(insuranceId);
      Table(!particular,
        seq(|details|, i requires 0 <= i < |details| => RenderRow(details[i], particular, isEditable, updatingDetailId)),
        |details|)
    else NoDetails
  }

  /**
   * In the table, a row has a switch exactly when the protocol is not particular; the switch
   * is disabled exactly when the dialog is read-only, that row is being updated, or the row is
   * inactive; and only the row being updated shows a spinner.
   */
  lemma RenderRows(details: seq<ProtocolDetail>, updatingDetailId: Option<int>, isEditable: bool,
                   insuranceId: Option<int>, i: int)
    requires 0 <= i < |details|
    ensures var b := Render(details, false, updatingDetailId, isEditable, insuranceId);
      && b.Table?
      && (b.authorizationColumn <==> insuranceId != Some(1))
      && (b.rows[i].switch.Some? <==> insuranceId != Some(1))
      && (b.rows[i].switch.Some? ==>
            && b.rows[i].switch.value.checked == details[i].isAuthorized
            && (b.rows[i].switch.value.disabled <==>
                  !isEditable || updatingDetailId == Some(details[i].id) || !details[i].isActive)
            && (b.rows[i].switch.value.spinner <==> updatingDetailId == Some(details[i].id)))
  {
  }

  /** With distinct ids, at most one row shows a spinner. */
  lemma AtMostOneSpinner(details: seq<ProtocolDetail>, updatingDetailId: Option<int>, isEditable: bool,
                         insuranceId: Option<int>, i: int, j: int)
    requires forall k, l :: 0 <= k < l < |details| ==> details[k].id != details[l].id
    requires 0 <= i < |details| && 0 <= j < |details|
    requires var b := Render(details, false, updatingDetailId, isEditable, insuranceId);
      b.Table? && b.rows[i].switch.Some? && b.rows[i].switch.value.spinner
      && b.rows[j].switch.Some? && b.rows[j].switch.value.spinner
    ensures i == j
  {
  }

  /**
   * The description agrees with the switches: "can change" means every active row that is not
   * being updated can be toggled; "no authorisation needed" means no switch exists; "read-only"
   * means every switch is disabled.
   */
  lemma DescriptionMatchesSwitches(details: seq<ProtocolDetail>, updatingDetailId: Option<int>,
                                   isEditable: bool, insuranceId: Option<int>, i: int)
    requires 0 <= i < |details|
    ensures var b := Render(details, false, updatingDetailId, isEditable, insuranceId);
      var desc := DescriptionFor(isEditable, IsParticular(insuranceId));
      && b.Table?
      && ((desc == CanChangeAuthorization && details[i].isActive && updatingDetailId != Some(details[i].id))
            ==> b.rows[i].switch.Some? && !b.rows[i].switch.value.disabled)
      && (desc == NoAuthorizationNeeded ==> b.rows[i].switch.None?)
      && (desc == ReadOnly ==> b.rows[i].switch.Some? && b.rows[i].switch.value.disabled)
  {
  }
}
