/**
 * The submit rules of components/checkout/AddressForm.tsx: create-mode
 * validation, the edit-mode "something changed" test, the partial diff an
 * edit sends, and the payload a submit hands to the caller.
 */
module AddressForm {
  import opened JsStrings
  import opened JsValues

  /** The nine editable fields as typed (raw, untrimmed). */
  datatype AddressFields = AddressFields(
    fullName: string, phone: string, line1: string, landmark: string, pincode: string,
    city: string, state: string, country: string, isDefault: bool)

  /** `Partial<AddressInput>`: the `initial` prop, and also the shape of an edit diff. */
  datatype PartialAddress = PartialAddress(
    fullName: Option<string>, phone: Option<string>, line1: Option<string>, landmark: Option<string>,
    pincode: Option<string>, city: Option<string>, state: Option<string>, country: Option<string>,
    isDefault: Option<bool>)

  datatype Mode = Create | Edit

  datatype Payload = Full(address: AddressFields) | Diff(changes: PartialAddress)

  const NoFields := PartialAddress(None, None, None, None, None, None, None, None, None)

  function OrEmpty(v: Option<string>): string {
    if v.Some? then v.value else ""
  }

  /** The baseline every field is compared against: `initial?.x ?? ""` (`false` for isDefault). */
  function Baseline(initial: PartialAddress): (b: AddressFields)
    ensures b.isDefault == (initial.isDefault.Some? && initial.isDefault.value)
    ensures (initial.fullName.Some? ==> b.fullName == initial.fullName.value) && (initial.fullName.None? ==> b.fullName == "")
    ensures (initial.phone.Some? ==> b.phone == initial.phone.value) && (initial.phone.None? ==> b.phone == "")
    ensures (initial.line1.Some? ==> b.line1 == initial.line1.value) && (initial.line1.None? ==> b.line1 == "")
    ensures (initial.landmark.Some? ==> b.landmark == initial.landmark.value) && (initial.landmark.None? ==> b.landmark == "")
    ensures (initial.pincode.Some? ==> b.pincode == initial.pincode.value) && (initial.pincode.None? ==> b.pincode == "")
    ensures (initial.city.Some? ==> b.city == initial.city.value) && (initial.city.None? ==> b.city == "")
    ensures (initial.state.Some? ==> b.state == initial.state.value) && (initial.state.None? ==> b.state == "")
    ensures (initial.country.Some? ==> b.country == initial.country.value) && (initial.country.None? ==> b.country == "")
  {
    AddressFields(OrEmpty(initial.fullName), OrEmpty(initial.phone), OrEmpty(initial.line1),
      OrEmpty(initial.landmark), OrEmpty(initial.pincode), OrEmpty(initial.city),
      OrEmpty(initial.state), OrEmpty(initial.country),
      if initial.isDefault.Some? then initial.isDefault.value else false)
  }

  /** `/^\d{10}$/`: exactly ten ASCII digits. */
  predicate IsTenDigits(s: string) {
    |s| == 10 && forall k :: 0 <= k < |s| ==> IsDigit(s[k])
  }

  /** Create-mode validation, on trimmed values; the landmark is not looked at. */
  predicate CreateValid(f: AddressFields) {
    |Trim(f.fullName)| >= 2 &&
    IsTenDigits(Trim(f.phone)) &&
    |Trim(f.line1)| >= 4 &&
    |Trim(f.pincode)| >= 4 &&
    Trim(f.city) != "" && Trim(f.state) != "" && Trim(f.country) != ""
  }

  /** `editChanged`: some raw field differs from its baseline. */
  function EditChanged(f: AddressFields, initial: PartialAddress): (changed: bool)
    ensures changed <==> f != Baseline(initial)
  {
    var b := Baseline(initial);
    f.fullName != b.fullName || f.phone != b.phone || f.line1 != b.line1 ||
    f.landmark != b.landmark || f.pincode != b.pincode || f.city != b.city ||
    f.state != b.state || f.country != b.country || f.isDefault != b.isDefault
  }

  /** One string entry of the diff: present, trimmed, when the raw value differs. */
  function DiffEntry(raw: string, base: string): (r: Option<string>)
    ensures r.Some? <==> raw != base
    ensures r.Some? ==> r.value == Trim(raw)
  {
    if raw != base then Some(Trim(raw)) else None
  }

  /** `partialDiff`: a key exactly for each raw field that differs; strings trimmed, isDefault as is. */
  function PartialDiff(f: AddressFields, initial: PartialAddress): (d: PartialAddress)
    ensures var b := Baseline(initial);
      (d.fullName.Some? <==> f.fullName != b.fullName) && (d.phone.Some? <==> f.phone != b.phone) &&
      (d.line1.Some? <==> f.line1 != b.line1) && (d.landmark.Some? <==> f.landmark != b.landmark) &&
      (d.pincode.Some? <==> f.pincode != b.pincode) && (d.city.Some? <==> f.city != b.city) &&
      (d.state.Some? <==> f.state != b.state) && (d.country.Some? <==> f.country != b.country) &&
      (d.isDefault.Some? <==> f.isDefault != b.isDefault)
    ensures d.fullName.Some? ==> d.fullName.value == Trim(f.fullName)
    ensures d.phone.Some? ==> d.phone.value == Trim(f.phone)
    ensures d.line1.Some? ==> d.line1.value == Trim(f.line1)
    ensures d.landmark.Some? ==> d.landmark.value == Trim(f.landmark)
    ensures d.pincode.Some? ==> d.pincode.value == Trim(f.pincode)
    ensures d.city.Some? ==> d.city.value == Trim(f.city)
    ensures d.state.Some? ==> d.state.value == Trim(f.state)
    ensures d.country.Some? ==> d.country.value == Trim(f.country)
    ensures d.isDefault.Some? ==> d.isDefault.value == f.isDefault
  {
    var b := Baseline(initial);
    PartialAddress(
      DiffEntry(f.fullName, b.fullName), DiffEntry(f.phone, b.phone), DiffEntry(f.line1, b.line1),
      DiffEntry(f.landmark, b.landmark), DiffEntry(f.pincode, b.pincode), DiffEntry(f.city, b.city),
      DiffEntry(f.state, b.state), DiffEntry(f.country, b.country),
      if f.isDefault != b.isDefault then Some(f.isDefault) else None)
  }

  /** `canSubmit`: the edit test in edit mode, validation in create mode. */
  function CanSubmit(mode: Mode, f: AddressFields, initial: PartialAddress): (ok: bool)
    ensures mode == Edit ==> (ok <==> PartialDiff(f, initial) != NoFields)
    ensures mode == Create ==> (ok <==> CreateValid(f))
  {
    if mode == Edit then EditChanged(f, initial) else CreateValid(f)
  }

  /** Every string field trimmed, isDefault as is. */
  function Trimmed(f: AddressFields): (t: AddressFields)
    ensures t.fullName == Trim(f.fullName)
    ensures t.phone == Trim(f.phone)
    ensures t.line1 == Trim(f.line1)
    ensures t.landmark == Trim(f.landmark)
    ensures t.pincode == Trim(f.pincode)
    ensures t.city == Trim(f.city)
    ensures t.state == Trim(f.state)
    ensures t.country == Trim(f.country)
    ensures t.isDefault == f.isDefault
  {
    AddressFields(Trim(f.fullName), Trim(f.phone), Trim(f.line1), Trim(f.landmark), Trim(f.pincode),
      Trim(f.city), Trim(f.state), Trim(f.country), f.isDefault)
  }

  /** `doSubmit`: the diff in edit mode, the whole trimmed address in create mode. */
  function SubmitPayload(mode: Mode, f: AddressFields, initial: PartialAddress): (p: Payload)
    ensures mode == Create ==> p == Full(Trimmed(f))
    ensures mode == Edit ==> p == Diff(PartialDiff(f, initial))
  {
    if mode == Edit then Diff(PartialDiff(f, initial)) else Full(Trimmed(f))
  }

  // ---------------------------------------------------------------------------
  // Properties
  // ---------------------------------------------------------------------------

  /** A form that passes create-mode validation sends an address that passes it too, as sent. */
  lemma CreatePayloadStaysValid(f: AddressFields)
    requires CreateValid(f)
    ensures CreateValid(Trimmed(f))
    ensures IsTenDigits(Trimmed(f).phone) && |Trimmed(f).fullName| >= 2 && Trimmed(f).city != ""
  {
    TrimIdempotent(f.fullName);
    TrimIdempotent(f.phone);
    TrimIdempotent(f.line1);
    TrimIdempotent(f.pincode);
    TrimIdempotent(f.city);
    TrimIdempotent(f.state);
    TrimIdempotent(f.country);
  }

  /** The landmark never decides create-mode validity. */
  lemma LandmarkIgnored(f: AddressFields, landmark: string)
    ensures CreateValid(f.(landmark := landmark)) == CreateValid(f)
  {
  }

  /** Edit mode can submit exactly when the raw form differs from its baseline; no validation applies. */
  lemma EditSubmitIffChanged(f: AddressFields, initial: PartialAddress)
    ensures CanSubmit(Edit, f, initial) <==> f != Baseline(initial)
  {
  }

  /** `editChanged` holds exactly when `partialDiff` has at least one key. */
  lemma EditChangedIffDiffNonEmpty(f: AddressFields, initial: PartialAddress)
    ensures EditChanged(f, initial) <==> PartialDiff(f, initial) != NoFields
  {
  }

  /** A whitespace-only edit still produces a diff entry, holding the unchanged trimmed value. */
  lemma WhitespaceEditStillDiffs()
    ensures var initial := NoFields.(city := Some("Pune"));
            var f := Baseline(initial).(city := "Pune ");
            EditChanged(f, initial) && PartialDiff(f, initial) == NoFields.(city := Some("Pune"))
  {
    var initial := NoFields.(city := Some("Pune"));
    var f := Baseline(initial).(city := "Pune ");
    assert Trim("Pune ") == "Pune" by {
      TrimStartFixed("Pune ");
      assert "Pune "[..4] == "Pune";
      TrimEndFixed("Pune");
    }
  }

  /** A freshly opened edit form (fields equal to their baseline) cannot be submitted. */
  lemma UntouchedEditCannotSubmit(initial: PartialAddress)
    ensures !CanSubmit(Edit, Baseline(initial), initial)
    ensures PartialDiff(Baseline(initial), initial) == NoFields
  {
  }
}
