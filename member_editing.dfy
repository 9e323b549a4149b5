/**
 * The member editing dialog: the amount inputs are re-formatted with en-US
 * thousands separators on every keystroke, and saving turns the dialog's
 * state into the update request, zeroing the amounts the chosen status does
 * not carry. The component's state changes go through setters only, so the
 * state is a value and each handler a function returning the next value.
 */
module MemberEditing {
  import opened Wrappers
  import opened Text
  import opened Dashboard

  // ---------------------------------------------------------------------
  // Amount formatting.
  // ---------------------------------------------------------------------

  /** `s.replace(/[^0-9]/g, "")`: the ASCII digits of `s`, in order. */
  function DigitsOf(s: string): (r: string)
    ensures AllDigits(r)
  {
    if s == [] then []
    else (if IsDigit(s[0]) then [s[0]] else []) + DigitsOf(s[1..])
  }

  /** `s.replace(/,/g, "")`: `s` without its commas. */
  function RemoveCommas(s: string): (r: string)
    ensures forall c :: c in r <==> c in s && c != ','
  {
    if s == [] then []
    else (if s[0] != ',' then [s[0]] else []) + RemoveCommas(s[1..])
  }

  /** en-US grouping of a digit string: a comma before every group of three digits counted from the right. */
  function Group(d: string): string
    decreases |d|
  {
    if |d| <= 3 then d else Group(d[..|d| - 3]) + "," + d[|d| - 3..]
  }

  /** `formatNumber`: keep the digits; none gives "", otherwise their value in en-US notation. */
  function FormatNumber(value: string): string {
    var cleaned := DigitsOf(value);
    if cleaned == [] then "" else Group(NatToString(DigitsValue(cleaned)))
  }

  /**
   * A well-formed en-US integer: one to three leading digits, then groups of
   * a comma and exactly three digits.
   */
  predicate WellGrouped(r: string)
    decreases |r|
  {
    if |r| <= 3 then 1 <= |r| && AllDigits(r)
    else |r| >= 5 && r[|r| - 4] == ',' && AllDigits(r[|r| - 3..]) && WellGrouped(r[..|r| - 4])
  }

  /** The text an amount input can hold: digits and commas. */
  predicate IsAmountText(s: string) {
    forall i :: 0 <= i < |s| ==> IsDigit(s[i]) || s[i] == ','
  }

  /** `Number(s.replace(/,/g, ""))` for amount text ("" reads as 0). */
  function ParseAmount(s: string): nat
    requires IsAmountText(s)
  {
    assert AllDigits(RemoveCommas(s)) by {
      forall i | 0 <= i < |RemoveCommas(s)| ensures IsDigit(RemoveCommas(s)[i]) {
        assert RemoveCommas(s)[i] in RemoveCommas(s);
      }
    }
    DigitsValue(RemoveCommas(s))
  }

  /** The digits of `s` are none exactly when no character of `s` is a digit. */
  lemma {:induction false} DigitsOfEmptyIff(s: string)
    ensures DigitsOf(s) == [] <==> forall i :: 0 <= i < |s| ==> !IsDigit(s[i])
  {
    if s != [] {
      DigitsOfEmptyIff(s[1..]);
      if !IsDigit(s[0]) {
        assert (forall i :: 0 <= i < |s| ==> !IsDigit(s[i])) <==> (forall i :: 0 <= i < |s[1..]| ==> !IsDigit(s[1..][i])) by {
          if forall i :: 0 <= i < |s[1..]| ==> !IsDigit(s[1..][i]) {
            forall i | 0 <= i < |s| ensures !IsDigit(s[i]) {
              if i > 0 { assert s[i] == s[1..][i - 1]; }
            }
          }
        }
      }
    }
  }

  lemma {:induction false} DigitsOfAppend(a: string, b: string)
    ensures DigitsOf(a + b) == DigitsOf(a) + DigitsOf(b)
  {
    if a != [] {
      DigitsOfAppend(a[1..], b);
      assert (a + b)[1..] == a[1..] + b;
    } else {
      assert a + b == b;
    }
  }

  lemma {:induction false} RemoveCommasAppend(a: string, b: string)
    ensures RemoveCommas(a + b) == RemoveCommas(a) + RemoveCommas(b)
  {
    if a != [] {
      RemoveCommasAppend(a[1..], b);
      assert (a + b)[1..] == a[1..] + b;
    } else {
      assert a + b == b;
    }
  }

  lemma {:induction false} DigitsOfDigits(d: string)
    requires AllDigits(d)
    ensures DigitsOf(d) == d && RemoveCommas(d) == d
  {
    if d != [] {
      DigitsOfDigits(d[1..]);
    }
  }

  lemma {:induction false} DigitsOfGroupStep(gf: string, last: string)
    requires AllDigits(last)
    ensures DigitsOf(gf + "," + last) == DigitsOf(gf) + last
  {
    var front := gf + ",";
    assert DigitsOf(",") == [] by {
      assert ","[1..] == [];
    }
    DigitsOfAppend(gf, ",");
    assert DigitsOf(front) == DigitsOf(gf);
    DigitsOfAppend(front, last);
    DigitsOfDigits(last);
  }

  /** Grouping a digit string keeps its digits: dropping the commas gives it back. */
  lemma {:induction false} GroupKeepsDigits(d: string)
    requires AllDigits(d)
    ensures DigitsOf(Group(d)) == d
    decreases |d|
  {
    if |d| <= 3 {
      DigitsOfDigits(d);
    } else {
      var front, last := d[..|d| - 3], d[|d| - 3..];
      GroupKeepsDigits(front);
      DigitsOfGroupStep(Group(front), last);
      assert d == front + last;
    }
  }

  lemma {:induction false} RemoveCommasGroupStep(gf: string, last: string)
    requires AllDigits(last)
    ensures RemoveCommas(gf + "," + last) == RemoveCommas(gf) + last
  {
    var front := gf + ",";
    assert RemoveCommas(",") == [] by {
      assert ","[1..] == [];
    }
    RemoveCommasAppend(gf, ",");
    assert RemoveCommas(front) == RemoveCommas(gf);
    RemoveCommasAppend(front, last);
    DigitsOfDigits(last);
  }

  lemma {:induction false} GroupRemoveCommas(d: string)
    requires AllDigits(d)
    ensures RemoveCommas(Group(d)) == d
    decreases |d|
  {
    if |d| <= 3 {
      DigitsOfDigits(d);
    } else {
      var front, last := d[..|d| - 3], d[|d| - 3..];
      GroupRemoveCommas(front);
      RemoveCommasGroupStep(Group(front), last);
      assert d == front + last;
    }
  }

  /** Grouping a non-empty digit string yields a well-formed en-US integer that starts with the same digit. */
  lemma {:induction false} GroupWellGrouped(d: string)
    requires AllDigits(d) && d != []
    ensures WellGrouped(Group(d)) && Group(d)[0] == d[0]
    decreases |d|
  {
    if |d| > 3 {
      var front, last := d[..|d| - 3], d[|d| - 3..];
      GroupWellGrouped(front);
      var g := Group(d);
      var gf := Group(front);
      assert g == gf + "," + last;
      assert g[..|g| - 4] == gf;
      assert g[|g| - 3..] == last;
      assert g[|g| - 4] == ',';
    }
  }

  lemma GroupCorrect(d: string)
    requires AllDigits(d) && d != []
    ensures var g := Group(d);
      && WellGrouped(g) && g[0] == d[0]
      && DigitsOf(g) == d && RemoveCommas(g) == d
  {
    GroupKeepsDigits(d);
    GroupRemoveCommas(d);
    GroupWellGrouped(d);
  }

  /** `formatNumber` returns "" exactly when its input holds no ASCII digit. */
  lemma FormatNumberEmptyIff(s: string)
    ensures FormatNumber(s) == "" <==> forall i :: 0 <= i < |s| ==> !IsDigit(s[i])
  {
    DigitsOfEmptyIff(s);
    var cleaned := DigitsOf(s);
    if cleaned != [] {
      GroupCorrect(NatToString(DigitsValue(cleaned)));
    }
  }

  /**
   * A non-empty result of `formatNumber` is a well-formed en-US integer
   * without leading zeros (other than "0" itself); every result holds only
   * digits and commas.
   */
  lemma FormatNumberShape(s: string)
    ensures IsAmountText(FormatNumber(s))
    ensures FormatNumber(s) != "" ==>
      WellGrouped(FormatNumber(s)) && (FormatNumber(s)[0] != '0' || FormatNumber(s) == "0")
  {
    var cleaned := DigitsOf(s);
    if cleaned != [] {
      var digits := NatToString(DigitsValue(cleaned));
      GroupCorrect(digits);
      var g := Group(digits);
      forall i | 0 <= i < |g| ensures IsDigit(g[i]) || g[i] == ',' {
        if g[i] != ',' {
          assert g[i] in RemoveCommas(g);
          var j :| 0 <= j < |digits| && digits[j] == g[i];
        }
      }
      if g[0] == '0' {
        assert g == Group("0");
      }
    }
  }

  /**
   * Round trip: removing the commas from `formatNumber(s)` and reading the
   * result as a number gives the value of the digits of `s`.
   */
  lemma FormatNumberRoundTrip(s: string)
    ensures IsAmountText(FormatNumber(s))
    ensures ParseAmount(FormatNumber(s)) == DigitsValue(DigitsOf(s))
  {
    FormatNumberShape(s);
    var cleaned := DigitsOf(s);
    if cleaned != [] {
      var n := DigitsValue(cleaned);
      GroupCorrect(NatToString(n));
      NatToStringValue(n);
    }
  }

  /** Formatting an already formatted amount leaves it unchanged. */
  lemma FormatNumberIdempotent(s: string)
    ensures FormatNumber(FormatNumber(s)) == FormatNumber(s)
  {
    var cleaned := DigitsOf(s);
    if cleaned != [] {
      var n := DigitsValue(cleaned);
      var digits := NatToString(n);
      GroupCorrect(digits);
      NatToStringValue(n);
    }
  }

  // ---------------------------------------------------------------------
  // The dialog's state and handlers.
  // ---------------------------------------------------------------------

  /** The three fields of the member form that saving reads; a field never set is None. */
  datatype EditForm = EditForm(first_name: Option<string>, last_name: Option<string>, batch_year: Option<string>)

  /** The `name` attributes of the member form's inputs. */
  datatype EditField = FirstName | LastName | BatchYear

  datatype ModalState = ModalState(
    selectedStatus: Status,
    amountPaid: string,
    amountSponsored: string,
    memberForm: Option<EditForm>)

  /** The state the dialog is created with. */
  function InitialState(): (st: ModalState)
    ensures st.selectedStatus == Pending && st.memberForm == None
    ensures Valid(st)
    ensures ParseAmount(st.amountPaid) == 100 && ParseAmount(st.amountSponsored) == 0
  {
    InitialAmounts();
    ModalState(Pending, "100", "0", None)
  }

  /** The initial amounts "100" and "0" read as 100 and 0. */
  lemma InitialAmounts()
    ensures IsAmountText("100") && ParseAmount("100") == 100
    ensures IsAmountText("0") && ParseAmount("0") == 0
  {
    DigitsOfDigits("100");
    DigitsOfDigits("0");
    assert DigitsValue("100") == 100 by {
      assert "100"[..2] == "10" && "10"[..1] == "1" && "1"[..0] == "";
    }
    assert DigitsValue("0") == 0 by {
      assert "0"[..0] == "";
    }
  }

  /** What every state of the dialog satisfies: both amounts are amount text. */
  predicate Valid(st: ModalState) {
    IsAmountText(st.amountPaid) && IsAmountText(st.amountSponsored)
  }

  /** The effect on `member`: a selected member resets the status and the form to that member's values. */
  function SyncMember(st: ModalState, member: Option<Member>): (r: ModalState)
    ensures member.Some? ==> r.selectedStatus == member.value.status
    ensures member.Some? ==>
      r.memberForm == Some(EditForm(Some(member.value.first_name), Some(member.value.last_name), Some(member.value.batch_year)))
    ensures r.amountPaid == st.amountPaid && r.amountSponsored == st.amountSponsored
    ensures member.None? ==> r == st
  {
    match member
    case None => st
    case Some(m) =>
      st.(selectedStatus := m.status,
          memberForm := Some(EditForm(Some(m.first_name), Some(m.last_name), Some(m.batch_year))))
  }

  function ChangePaidAmount(st: ModalState, raw: string): (r: ModalState) {
    st.(amountPaid := FormatNumber(raw))
  }

  function ChangeSponsoredAmount(st: ModalState, raw: string): (r: ModalState) {
    st.(amountSponsored := FormatNumber(raw))
  }

  function ChangeStatus(st: ModalState, status: Status): (r: ModalState) {
    st.(selectedStatus := status)
  }

  /** `handleChangeMemberForm`: only the named field changes; a form never filled starts empty. */
  function ChangeMemberForm(st: ModalState, field: EditField, value: string): (r: ModalState)
    ensures r.selectedStatus == st.selectedStatus
    ensures r.amountPaid == st.amountPaid && r.amountSponsored == st.amountSponsored
    ensures r.memberForm.Some?
    ensures var prev := st.memberForm.GetOr(EditForm(None, None, None));
      && r.memberForm.value.first_name == (if field == FirstName then Some(value) else prev.first_name)
      && r.memberForm.value.last_name == (if field == LastName then Some(value) else prev.last_name)
      && r.memberForm.value.batch_year == (if field == BatchYear then Some(value) else prev.batch_year)
  {
    var prev := st.memberForm.GetOr(EditForm(None, None, None));
    var form := match field
      case FirstName => prev.(first_name := Some(value))
      case LastName => prev.(last_name := Some(value))
      case BatchYear => prev.(batch_year := Some(value));
    st.(memberForm := Some(form))
  }

  /** Every handler keeps the dialog's state valid, starting from the initial state. */
  lemma HandlersKeepValid(st: ModalState, raw: string, status: Status, member: Option<Member>, field: EditField)
    requires Valid(st)
    ensures Valid(InitialState())
    ensures Valid(ChangePaidAmount(st, raw)) && Valid(ChangeSponsoredAmount(st, raw))
    ensures Valid(ChangeStatus(st, status)) && Valid(SyncMember(st, member))
    ensures Valid(ChangeMemberForm(st, field, raw))
  {
    FormatNumberShape(raw);
  }

  /** A status carries a paid amount when it is paid or sponsored. */
  predicate CarriesPaid(status: Status) {
    status == Paid || status == Sponsored
  }

  /** `handleSave`: the request `onStatusUpdate` receives, or None when no member is selected. */
  function HandleSave(st: ModalState, member: Option<Member>): (r: Option<(int, FormFields)>)
    requires Valid(st)
    ensures r.Some? <==> member.Some?
    ensures r.Some? ==> r.value.0 == member.value.id
    ensures r.Some? ==> r.value.1.status == st.selectedStatus
    ensures r.Some? ==> r.value.1.amount_paid == if CarriesPaid(st.selectedStatus) then ParseAmount(st.amountPaid) else 0
    ensures r.Some? ==> r.value.1.amount_sponsored == if st.selectedStatus == Sponsored then ParseAmount(st.amountSponsored) else 0
    ensures r.Some? && st.memberForm.None? ==>
      r.value.1.first_name == "" && r.value.1.last_name == "" && r.value.1.batch_year == ""
    ensures r.Some? && st.memberForm.Some? ==>
      && r.value.1.first_name == st.memberForm.value.first_name.GetOr("")
      && r.value.1.last_name == st.memberForm.value.last_name.GetOr("")
      && r.value.1.batch_year == st.memberForm.value.batch_year.GetOr("")
  {
    match member
    case None => None
    case Some(m) =>
      var amountS := ParseAmount(st.amountSponsored);
      var amountP := ParseAmount(st.amountPaid);
      var form := st.memberForm;
      var params := FormFields(
        first_name := if form.Some? then form.value.first_name.GetOr("") else "",
        last_name := if form.Some? then form.value.last_name.GetOr("") else "",
        batch_year := if form.Some? then form.value.batch_year.GetOr("") else "",
        status := st.selectedStatus,
        amount_paid := if CarriesPaid(st.selectedStatus) then amountP else 0,
        amount_sponsored := if st.selectedStatus == Sponsored then amountS else 0);
      Some((m.id, params))
  }

  /**
   * Typing `raw` into the paid amount and saving as paid sends the value of
   * the digits typed, whatever else was typed around them; saving as active
   * or pending sends 0 whatever was typed.
   */
  lemma SavePaidAmountRoundTrip(st: ModalState, raw: string, status: Status, m: Member)
    requires Valid(st)
    ensures Valid(ChangePaidAmount(ChangeStatus(st, status), raw))
    ensures var saved := HandleSave(ChangePaidAmount(ChangeStatus(st, status), raw), Some(m));
      saved.Some? && saved.value.1.amount_paid == if CarriesPaid(status) then DigitsValue(DigitsOf(raw)) else 0
  {
    FormatNumberRoundTrip(raw);
  }

  /** The same for the sponsored amount, which only a sponsored save sends. */
  lemma SaveSponsoredAmountRoundTrip(st: ModalState, raw: string, status: Status, m: Member)
    requires Valid(st)
    ensures Valid(ChangeSponsoredAmount(ChangeStatus(st, status), raw))
    ensures var saved := HandleSave(ChangeSponsoredAmount(ChangeStatus(st, status), raw), Some(m));
      saved.Some? && saved.value.1.amount_sponsored == if status == Sponsored then DigitsValue(DigitsOf(raw)) else 0
  {
    FormatNumberRoundTrip(raw);
  }

  /**
   * Opening the dialog on a member, editing one field and saving sends the
   * edited value for that field and the member's own values for the other
   * two.
   */
  lemma SaveEditedFormRoundTrip(st: ModalState, m: Member, field: EditField, value: string)
    requires Valid(st)
    ensures Valid(ChangeMemberForm(SyncMember(st, Some(m)), field, value))
    ensures var saved := HandleSave(ChangeMemberForm(SyncMember(st, Some(m)), field, value), Some(m));
      && saved.Some?
      && saved.value.1.first_name == (if field == FirstName then value else m.first_name)
      && saved.value.1.last_name == (if field == LastName then value else m.last_name)
      && saved.value.1.batch_year == (if field == BatchYear then value else m.batch_year)
  {
  }
}
