/**
 * The table of analyses selected while admitting a protocol: per-row price, removal,
 * authorisation toggling and the two aggregates shown in its header and footer.
 * Every operation returns a new list; the hosting form receives it through its change callback.
 */
module AnalysisTable {
  import opened Wrappers
  import opened JsNumber
  import opened Seqs

  /** One selected analysis; `bioUnit` is the UB count as the backend sends it, a decimal string. */
  datatype SelectedAnalysis = SelectedAnalysis(
    id: int,
    name: string,
    code: string,
    bioUnit: string,
    isAuthorized: bool,
    isUrgent: bool)

  /**
   * The insurer chosen in the form. `ubValue` is the insurer's UB rate as a decimal string;
   * `privateUbValue` is the private rate, a number in the backend's JSON (the code multiplies it
   * without parsing it), `None` standing for a missing value or NaN.
   */
  datatype Insurance = Insurance(id: int, name: string, ubValue: string, privateUbValue: Option<real>)

  /** `Number.parseFloat(analysis.bio_unit) || 0` */
  function Ub(a: SelectedAnalysis): real {
    ParseFloatOrZero(a.bioUnit)
  }

  /** `selectedInsurance.private_ub_value || 0` */
  function PrivateRate(ins: Insurance): real {
    ins.privateUbValue.GetOr(0.0)
  }

  /** `Number.parseFloat(selectedInsurance.ub_value) || 0` */
  function InsurerRate(ins: Insurance): real {
    ParseFloatOrZero(ins.ubValue)
  }

  /** UB count times a rate. */
  function Cost(ub: real, rate: real): real {
    ub * rate
  }

  /** `calculatePrice`: what one row costs under the selected insurer. */
  function CalculatePrice(a: SelectedAnalysis, selected: Option<Insurance>, isPrivate: bool): real {
    if selected.None? then 0.0
    else if isPrivate then Cost(Ub(a), PrivateRate(selected.value))
    else if a.isAuthorized then Cost(Ub(a), InsurerRate(selected.value))
    else Cost(Ub(a), PrivateRate(selected.value))
  }

  /** Without an insurer every row is free. */
  lemma PriceWithoutInsurer(a: SelectedAnalysis, isPrivate: bool)
    ensures CalculatePrice(a, None, isPrivate) == 0.0
  {
  }

  /** A row whose UB count does not parse counts 0 UB and is free under any insurer. */
  lemma PriceOfUnparseableUb(a: SelectedAnalysis, selected: Option<Insurance>, isPrivate: bool)
    requires ParseFloat(a.bioUnit).None?
    ensures Ub(a) == 0.0
    ensures CalculatePrice(a, selected, isPrivate) == 0.0
  {
  }

  /**
   * Under private insurance the authorisation flag is irrelevant: both settings cost
   * UB times the private rate.
   */
  lemma PrivatePriceIgnoresAuthorization(a: SelectedAnalysis, ins: Insurance)
    ensures CalculatePrice(a, Some(ins), true) == Cost(Ub(a), PrivateRate(ins))
    ensures CalculatePrice(a.(isAuthorized := !a.isAuthorized), Some(ins), true)
         == CalculatePrice(a, Some(ins), true)
  {
    var b := a.(isAuthorized := !a.isAuthorized);
    assert b.bioUnit == a.bioUnit;
    assert Ub(b) == Ub(a);
  }

  /**
   * With an ordinary insurer an authorised row costs UB times the insurer's rate, and an
   * unauthorised row costs exactly what it would cost as a private patient.
   */
  lemma InsurerPriceByAuthorization(a: SelectedAnalysis, ins: Insurance)
    ensures a.isAuthorized ==> CalculatePrice(a, Some(ins), false) == Cost(Ub(a), InsurerRate(ins))
    ensures !a.isAuthorized ==> CalculatePrice(a, Some(ins), false) == CalculatePrice(a, Some(ins), true)
  {
  }

  /** The price example: 2.5 UB at insurer rate 100 and private rate 80. */
  lemma PriceExample(a: SelectedAnalysis, ins: Insurance)
    requires ParseFloat(a.bioUnit) == Some(2.5)
    requires ParseFloat(ins.ubValue) == Some(100.0) && ins.privateUbValue == Some(80.0)
    ensures a.isAuthorized ==> CalculatePrice(a, Some(ins), false) == 250.0
    ensures !a.isAuthorized ==> CalculatePrice(a, Some(ins), false) == 200.0
    ensures CalculatePrice(a, Some(ins), true) == 200.0
  {
  }

  /** `handleRemoveAnalysis`: the list without the rows carrying `id`. */
  function RemoveAnalysis(rows: seq<SelectedAnalysis>, id: int): seq<SelectedAnalysis> {
    Filter(rows, (a: SelectedAnalysis) => a.id != id)
  }

  /**
   * Removal drops exactly the rows with that id, keeps every other row, and works piecewise
   * over concatenation (so the order of the kept rows is the original order).
   */
  lemma RemoveAnalysisSpec(rows: seq<SelectedAnalysis>, more: seq<SelectedAnalysis>, id: int)
    ensures forall a :: a in RemoveAnalysis(rows, id) ==> a in rows && a.id != id
    ensures forall a :: a in rows && a.id != id ==> a in RemoveAnalysis(rows, id)
    ensures RemoveAnalysis(rows + more, id) == RemoveAnalysis(rows, id) + RemoveAnalysis(more, id)
    ensures (forall a :: a in rows ==> a.id != id) ==> RemoveAnalysis(rows, id) == rows
  {
    var keep := (a: SelectedAnalysis) => a.id != id;
    forall a | a in rows && a.id != id
      ensures a in RemoveAnalysis(rows, id)
    {
      FilterKeeps(rows, keep, a);
    }
    FilterAppend(rows, more, keep);
    if forall a :: a in rows ==> a.id != id {
      FilterAll(rows, keep);
    }
  }

  /** The row with its authorisation flag negated. */
  function Flip(a: SelectedAnalysis): SelectedAnalysis {
    a.(isAuthorized := !a.isAuthorized)
  }

  /** `handleToggleAuthorization`: flips the flag of the rows carrying `id`. */
  function ToggleAuthorization(rows: seq<SelectedAnalysis>, id: int): (r: seq<SelectedAnalysis>)
    ensures |r| == |rows|
    ensures forall i :: 0 <= i < |rows| ==> r[i] == if rows[i].id == id then Flip(rows[i]) else rows[i]
  {
    seq(|rows|, i requires 0 <= i < |rows| => if rows[i].id == id then Flip(rows[i]) else rows[i])
  }

  /**
   * Toggling keeps the length, changes only the authorisation flag of the matching rows,
   * and toggling twice gives back the original list.
   */
  lemma ToggleAuthorizationSpec(rows: seq<SelectedAnalysis>, id: int)
    ensures forall i :: 0 <= i < |rows| ==>
      var b := ToggleAuthorization(rows, id)[i];
      b.id == rows[i].id && b.name == rows[i].name && b.code == rows[i].code
      && b.bioUnit == rows[i].bioUnit && b.isUrgent == rows[i].isUrgent
      && (b.isAuthorized <==> (rows[i].isAuthorized != (rows[i].id == id)))
    ensures ToggleAuthorization(ToggleAuthorization(rows, id), id) == rows
  {
  }

  /** `totalUb`: the sum of the parsed UB counts, unparseable ones counting 0. */
  function TotalUb(rows: seq<SelectedAnalysis>): real {
    if rows == [] then 0.0 else Ub(rows[0]) + TotalUb(rows[1..])
  }

  /** The total is additive over concatenation. */
  lemma {:induction false} TotalUbAppend(rows: seq<SelectedAnalysis>, more: seq<SelectedAnalysis>)
    ensures TotalUb(rows + more) == TotalUb(rows) + TotalUb(more)
  {
    if rows == [] {
      assert rows + more == more;
    } else {
      assert (rows + more)[1..] == rows[1..] + more;
      TotalUbAppend(rows[1..], more);
    }
  }

  /** Toggling authorisation never changes the UB total. */
  lemma {:induction false} TotalUbToggleInvariant(rows: seq<SelectedAnalysis>, id: int)
    ensures TotalUb(ToggleAuthorization(rows, id)) == TotalUb(rows)
  {
    if rows != [] {
      assert ToggleAuthorization(rows, id)[1..] == ToggleAuthorization(rows[1..], id);
      TotalUbToggleInvariant(rows[1..], id);
    }
  }

  /** `authorizedCount`: 0 under private insurance, else the number of authorised rows. */
  function AuthorizedCount(rows: seq<SelectedAnalysis>, isPrivate: bool): nat {
    if isPrivate then 0 else Count(rows, (a: SelectedAnalysis) => a.isAuthorized)
  }

  /** The header badges: `Some((authorised, particular))` when shown. */
  function Badges(rows: seq<SelectedAnalysis>, isPrivate: bool): Option<(nat, nat)> {
    if |rows| > 0 && !isPrivate then
      Some((AuthorizedCount(rows, false), |rows| - AuthorizedCount(rows, false)))
    else
      None
  }

  /**
   * The badges appear exactly for a non-empty list under an ordinary insurer; the first counts
   * the authorised rows, the second the rows that are not authorised, and together they
   * partition the list.
   */
  lemma BadgesPartition(rows: seq<SelectedAnalysis>, isPrivate: bool)
    ensures Badges(rows, isPrivate).Some? <==> |rows| > 0 && !isPrivate
    ensures Badges(rows, isPrivate).Some? ==>
      && Badges(rows, isPrivate).value.0 == Count(rows, (a: SelectedAnalysis) => a.isAuthorized)
      && Badges(rows, isPrivate).value.1 == Count(rows, (a: SelectedAnalysis) => !a.isAuthorized)
      && Badges(rows, isPrivate).value.0 + Badges(rows, isPrivate).value.1 == |rows|
    ensures isPrivate ==> AuthorizedCount(rows, isPrivate) == 0
  {
    CountComplement(rows, (a: SelectedAnalysis) => a.isAuthorized, (a: SelectedAnalysis) => !a.isAuthorized);
  }

  /** Number of rows carrying `id` whose flag is `flag`. */
  function CountWith(rows: seq<SelectedAnalysis>, id: int, flag: bool): nat {
    if rows == [] then 0
    else (if rows[0].id == id && rows[0].isAuthorized == flag then 1 else 0) + CountWith(rows[1..], id, flag)
  }

  /**
   * Toggling the rows with `id` moves each of them to the other side of the count: the
   * authorised count loses those that were authorised and gains those that were not.
   */
  lemma {:induction false} AuthorizedCountAfterToggle(rows: seq<SelectedAnalysis>, id: int)
    ensures AuthorizedCount(ToggleAuthorization(rows, id), false)
         == AuthorizedCount(rows, false) - CountWith(rows, id, true) + CountWith(rows, id, false)
  {
    if rows != [] {
      assert ToggleAuthorization(rows, id)[1..] == ToggleAuthorization(rows[1..], id);
      AuthorizedCountAfterToggle(rows[1..], id);
    }
  }
}
