/**
 * The form layer (warehouse_app/forms.py): how Django's form fields clean a posted value,
 * the three forms of the ledger, and `ProductBatchForm.save`, which computes a batch's
 * expiration date from the form's own shelf-life field.
 *
 * Posted values arrive already parsed: a text field is the raw string, a numeric, date or
 * choice field is None when it is blank (or does not parse) and Some(value) otherwise.
 * Quantities are hundredths, so `min_value=0.01` is 1. Dates are day ordinals (day 1 is
 * 1 January of year 1), so a date outside what a Python `date` holds is refused, and an
 * expiration date beyond that range is a failed computation rather than a stored value.
 * Every text field refuses a null character, as each Django `CharField` does.
 */
module Forms {
  import opened Wrappers
  import opened Text
  import opened Models

  // ---------------------------------------------------------------------------
  // Field cleaning

  datatype ErrorKind =
    | Required
    | TooLong(maxLength: nat)
    | NullCharacter
    | BelowMinimum(minValue: int)
    | InvalidDate
    | InvalidChoice
    | DuplicateCode

  /** One entry of `form.errors`: the field and what is wrong with it. */
  datatype FieldError = FieldError(field: string, kind: ErrorKind)

  /** The null character, which every `CharField` refuses. */
  const Nul: char := '\0'

  /** The validators of a `CharField`, run on a non-empty stripped value `v`: each refusal
      is reported, `max_length` (when there is one) first, then the null character. */
  function TextValidators(v: string, maxLength: Option<nat>): (e: seq<ErrorKind>)
    ensures e == [] <==> (maxLength.None? || |v| <= maxLength.value) && Nul !in v
    ensures NullCharacter in e <==> Nul in v
    ensures maxLength.Some? ==> (TooLong(maxLength.value) in e <==> |v| > maxLength.value)
    ensures forall k :: k in e ==> k == NullCharacter || (maxLength.Some? && k == TooLong(maxLength.value))
  {
    (if maxLength.Some? && |v| > maxLength.value then [TooLong(maxLength.value)] else [])
      + (if Nul in v then [NullCharacter] else [])
  }

  /** `forms.CharField.clean`: the value is stripped, then a required field refuses the empty
      string on its own; any other non-empty value goes through the field's validators. */
  function CleanText(raw: string, required: bool, maxLength: Option<nat>): (r: Result<string, seq<ErrorKind>>)
    ensures r.Success? <==>
      ((!required || !IsBlank(raw)) && (maxLength.None? || |Strip(raw)| <= maxLength.value) && Nul !in Strip(raw))
    ensures r.Success? ==> r.value == Strip(raw)
    ensures r.Failure? ==> r.error != []
    ensures r == Failure([Required]) <==> (required && IsBlank(raw))
    ensures r.Failure? && !(required && IsBlank(raw)) ==> r.error == TextValidators(Strip(raw), maxLength)
  {
    StripEmptyIffBlank(raw);
    var v := Strip(raw);
    if required && v == [] then Failure([Required])
    else
      var e := TextValidators(v, maxLength);
      if e == [] then Success(v) else Failure(e)
  }

  /** A required `IntegerField` or `FloatField`, with its `min_value` when it has one. */
  function CleanNumber(raw: Option<int>, minValue: Option<int>): (r: Result<int, seq<ErrorKind>>)
    ensures r.Success? <==> (raw.Some? && (minValue.None? || raw.value >= minValue.value))
    ensures r.Success? ==> r.value == raw.value
    ensures r.Failure? ==> r.error != []
    ensures r == Failure([Required]) <==> raw.None?
    ensures r.Failure? && raw.Some? ==> r.error == [BelowMinimum(minValue.value)]
  {
    if raw.None? then Failure([Required])
    else if minValue.Some? && raw.value < minValue.value then Failure([BelowMinimum(minValue.value)])
    else Success(raw.value)
  }

  /** The first and last days a Python `date` can hold, as ordinals (day 1 is 1 January of
      year 1, the last is 31 December 9999), and the largest number of days a `timedelta`
      can hold. */
  const MinDate := 1
  const MaxDate := 3652059
  const MaxTimedeltaDays := 999999999

  predicate ValidDate(day: int) {
    MinDate <= day <= MaxDate
  }

  /** A required `DateField`: a day a `date` can hold. */
  function CleanDate(raw: Option<int>): (r: Result<int, seq<ErrorKind>>)
    ensures r.Success? <==> raw.Some? && ValidDate(raw.value)
    ensures r.Success? ==> r.value == raw.value
    ensures r.Failure? ==> r.error != []
    ensures r == Failure([Required]) <==> raw.None?
    ensures r.Failure? && raw.Some? ==> r.error == [InvalidDate]
  {
    if raw.None? then Failure([Required])
    else if !ValidDate(raw.value) then Failure([InvalidDate])
    else Success(raw.value)
  }

  /** The error list entries of one field for the refusals `kinds`, in their order. */
  function FieldErrors(field: string, kinds: seq<ErrorKind>): (e: seq<FieldError>)
    ensures |e| == |kinds| && forall i :: 0 <= i < |e| ==> e[i] == FieldError(field, kinds[i])
  {
    if kinds == [] then [] else [FieldError(field, kinds[0])] + FieldErrors(field, kinds[1..])
  }

  /** The error list entries of one field, one per refusal, empty when the field is clean. */
  function ErrorsOf<T>(field: string, r: Result<T, seq<ErrorKind>>): (e: seq<FieldError>)
    ensures e == [] <==> (r.Success? || r.error == [])
    ensures r.Failure? ==> e == FieldErrors(field, r.error)
  {
    if r.Success? then [] else FieldErrors(field, r.error)
  }

  /** Every refusal of a field appears in its error list entries. */
  lemma ErrorsOfReports<T>(field: string, r: Result<T, seq<ErrorKind>>)
    ensures r.Failure? ==> forall k :: k in r.error ==> FieldError(field, k) in ErrorsOf(field, r)
  {
    if r.Failure? {
      forall k | k in r.error ensures FieldError(field, k) in ErrorsOf(field, r) {
        var i :| 0 <= i < |r.error| && r.error[i] == k;
        assert ErrorsOf(field, r)[i] == FieldError(field, k);
      }
    }
  }

  // ---------------------------------------------------------------------------
  // NomenclatureForm: a ModelForm over code, name, unit and shelf_life_days

  datatype NomenclatureInput = NomenclatureInput(code: string, name: string, unit: string, shelfLifeDays: Option<int>)

  /** Some catalog entry other than the one being edited already has `code`. */
  predicate CodeTaken(catalog: map<NomId, Nomenclature>, instance: Option<NomId>, code: string) {
    exists n :: n in catalog && instance != Some(n) && catalog[n].code == code
  }

  /** A required text of at most `maxLength` characters once stripped, with no null
      character. */
  predicate TextAcceptable(raw: string, maxLength: nat) {
    !IsBlank(raw) && |Strip(raw)| <= maxLength && Nul !in Strip(raw)
  }

  /** What the model's fields demand, stated directly: a non-blank code of at most 50
      characters that no other entry has, non-blank name and unit of at most 200 and 20
      characters, none of them holding a null character, and a shelf life that is present
      and not negative. */
  predicate NomenclatureAcceptable(catalog: map<NomId, Nomenclature>, instance: Option<NomId>, input: NomenclatureInput) {
    && TextAcceptable(input.code, 50)
    && TextAcceptable(input.name, 200)
    && TextAcceptable(input.unit, 20)
    && input.shelfLifeDays.Some? && input.shelfLifeDays.value >= 0
    && !CodeTaken(catalog, instance, Strip(input.code))
  }

  /** The form's verdict from its cleaned fields: the entry when every field is clean and the
      code is free, and otherwise the errors of the fields in declaration order, then the
      duplicate code. */
  function NomenclatureVerdict(code: Result<string, seq<ErrorKind>>, name: Result<string, seq<ErrorKind>>,
                               unit: Result<string, seq<ErrorKind>>, days: Result<int, seq<ErrorKind>>, taken: bool)
    : (r: Result<Nomenclature, seq<FieldError>>)
    requires days.Success? ==> days.value >= 0
    ensures r.Success? <==> code.Success? && name.Success? && unit.Success? && days.Success? && !taken
    ensures r.Success? ==> r.value == Nomenclature(code.value, name.value, unit.value, days.value)
    ensures r.Failure? && code.Failure? ==> forall k :: k in code.error ==> FieldError("code", k) in r.error
    ensures r.Failure? && taken ==> FieldError("code", DuplicateCode) in r.error
    ensures r.Failure? && days.Failure? ==>
      forall k :: k in days.error ==> FieldError("shelf_life_days", k) in r.error
    ensures (r.Failure? && (code.Failure? ==> code.error != []) && (name.Failure? ==> name.error != [])
             && (unit.Failure? ==> unit.error != []) && (days.Failure? ==> days.error != [])) ==> r.error != []
  {
    if code.Success? && name.Success? && unit.Success? && days.Success? && !taken then
      Success(Nomenclature(code.value, name.value, unit.value, days.value))
    else
      var errors := ErrorsOf("code", code) + ErrorsOf("name", name) + ErrorsOf("unit", unit)
        + ErrorsOf("shelf_life_days", days) + (if taken then [FieldError("code", DuplicateCode)] else []);
      ErrorsOfReports("code", code);
      ErrorsOfReports("shelf_life_days", days);
      Failure(errors)
  }

  /** `NomenclatureForm(data, instance=...).is_valid()` and its cleaned entry. The fields are
      cleaned in declaration order; the uniqueness of `code` is checked afterwards, and only
      when the code itself is clean. */
  function CleanNomenclature(catalog: map<NomId, Nomenclature>, instance: Option<NomId>, input: NomenclatureInput)
    : (r: Result<Nomenclature, seq<FieldError>>)
  {
    var code := CleanText(input.code, true, Some(50));
    NomenclatureVerdict(code, CleanText(input.name, true, Some(200)), CleanText(input.unit, true, Some(20)),
                        CleanNumber(input.shelfLifeDays, Some(0)), code.Success? && CodeTaken(catalog, instance, code.value))
  }

  /** The form accepts exactly the acceptable input, and the entry it yields is made of the
      four stripped or parsed fields. */
  lemma CleanNomenclatureAccepts(catalog: map<NomId, Nomenclature>, instance: Option<NomId>, input: NomenclatureInput)
    ensures var r := CleanNomenclature(catalog, instance, input);
      && (r.Success? <==> NomenclatureAcceptable(catalog, instance, input))
      && (r.Success? ==>
            r.value == Nomenclature(Strip(input.code), Strip(input.name), Strip(input.unit), input.shelfLifeDays.value))
  {
    var code := CleanText(input.code, true, Some(50));
    var name := CleanText(input.name, true, Some(200));
    var unit := CleanText(input.unit, true, Some(20));
    var days := CleanNumber(input.shelfLifeDays, Some(0));
    var taken := code.Success? && CodeTaken(catalog, instance, code.value);
    assert code.Success? <==> TextAcceptable(input.code, 50);
    assert name.Success? <==> TextAcceptable(input.name, 200);
    assert unit.Success? <==> TextAcceptable(input.unit, 20);
    assert CleanNomenclature(catalog, instance, input) == NomenclatureVerdict(code, name, unit, days, taken);
  }

  /** A refused form reports a blank field as "required" and a taken code as a duplicate. */
  lemma CleanNomenclatureErrors(catalog: map<NomId, Nomenclature>, instance: Option<NomId>, input: NomenclatureInput)
    ensures var r := CleanNomenclature(catalog, instance, input);
      && (r.Failure? ==> r.error != [])
      && (IsBlank(input.code) ==> r.Failure? && FieldError("code", Required) in r.error)
      && (input.shelfLifeDays.None? ==> r.Failure? && FieldError("shelf_life_days", Required) in r.error)
      && (TextAcceptable(input.code, 50) && CodeTaken(catalog, instance, Strip(input.code))
          ==> r.Failure? && FieldError("code", DuplicateCode) in r.error)
  {
    var code := CleanText(input.code, true, Some(50));
    var name := CleanText(input.name, true, Some(200));
    var unit := CleanText(input.unit, true, Some(20));
    var days := CleanNumber(input.shelfLifeDays, Some(0));
    var taken := code.Success? && CodeTaken(catalog, instance, code.value);
    assert (code.Failure? ==> code.error != []) && (name.Failure? ==> name.error != [])
      && (unit.Failure? ==> unit.error != []) && (days.Failure? ==> days.error != []);
    assert CleanNomenclature(catalog, instance, input) == NomenclatureVerdict(code, name, unit, days, taken);
  }

  /** A code that is not blank is checked by every validator, and every one that fails is
      reported: a code both too long and holding a null character gets both errors. */
  lemma CleanNomenclatureCodeErrors(catalog: map<NomId, Nomenclature>, instance: Option<NomId>, input: NomenclatureInput)
    requires !IsBlank(input.code)
    ensures var r := CleanNomenclature(catalog, instance, input);
      && (|Strip(input.code)| > 50 ==> r.Failure? && FieldError("code", TooLong(50)) in r.error)
      && (Nul in Strip(input.code) ==> r.Failure? && FieldError("code", NullCharacter) in r.error)
  {
    var code := CleanText(input.code, true, Some(50));
    if |Strip(input.code)| > 50 || Nul in Strip(input.code) {
      assert code.Failure? && code.error == TextValidators(Strip(input.code), Some(50));
      assert CleanNomenclature(catalog, instance, input) == NomenclatureVerdict(code, CleanText(input.name, true, Some(200)),
        CleanText(input.unit, true, Some(20)), CleanNumber(input.shelfLifeDays, Some(0)), false);
    }
  }

  /** An entry whose code no other entry has can be stored, new or over the one edited,
      without breaking the uniqueness of codes. */
  lemma StoreKeepsCodesUnique(catalog: map<NomId, Nomenclature>, instance: Option<NomId>, key: NomId, e: Nomenclature)
    requires UniqueCodes(catalog)
    requires instance == Some(key) || (instance.None? && key !in catalog)
    requires !CodeTaken(catalog, instance, e.code)
    ensures UniqueCodes(catalog[key := e])
  {
    var c := catalog[key := e];
    forall a, b | a in c && b in c && c[a].code == c[b].code ensures a == b {
      if a != key && b != key {
        assert c[a] == catalog[a] && c[b] == catalog[b];
      }
    }
  }

  /** Storing an accepted entry, new or edited, keeps the codes of the catalog unique. */
  lemma AcceptedKeepsCodesUnique(catalog: map<NomId, Nomenclature>, instance: Option<NomId>, key: NomId,
                                 input: NomenclatureInput, r: Result<Nomenclature, seq<FieldError>>)
    requires UniqueCodes(catalog)
    requires instance == Some(key) || (instance.None? && key !in catalog)
    requires r == CleanNomenclature(catalog, instance, input) && r.Success?
    ensures UniqueCodes(catalog[key := r.value])
  {
    CleanNomenclatureAccepts(catalog, instance, input);
    StoreKeepsCodesUnique(catalog, instance, key, r.value);
  }

  /** A cleaned entry's code is used by no catalog entry other than the one edited. */
  lemma CleanedCodeFree(catalog: map<NomId, Nomenclature>, instance: Option<NomId>, input: NomenclatureInput,
                        form: Result<Nomenclature, seq<FieldError>>)
    requires form == CleanNomenclature(catalog, instance, input)
    ensures form.Success? ==> !CodeTaken(catalog, instance, form.value.code)
  {
    CleanNomenclatureAccepts(catalog, instance, input);
  }

  // ---------------------------------------------------------------------------
  // WarehouseDeductionForm

  datatype DeductionInput = DeductionInput(quantity: Option<int>, reason: string, document: string, note: string)

  datatype CleanedDeduction = CleanedDeduction(quantity: int, reason: string, document: string, note: string)

  /** The form's verdict from its cleaned fields: the cleaned values when every field is
      clean, and otherwise the errors of the fields in declaration order. */
  function DeductionVerdict(quantity: Result<int, seq<ErrorKind>>, reason: Result<string, seq<ErrorKind>>,
                            document: Result<string, seq<ErrorKind>>, note: Result<string, seq<ErrorKind>>)
    : (r: Result<CleanedDeduction, seq<FieldError>>)
    ensures r.Failure? <==> quantity.Failure? || reason.Failure? || document.Failure? || note.Failure?
    ensures r.Success? ==> r.value == CleanedDeduction(quantity.value, reason.value, document.value, note.value)
    ensures r.Failure? && reason.Failure? ==> forall k :: k in reason.error ==> FieldError("reason", k) in r.error
  {
    if quantity.Success? && reason.Success? && document.Success? && note.Success? then
      Success(CleanedDeduction(quantity.value, reason.value, document.value, note.value))
    else
      var errors := ErrorsOf("quantity", quantity) + ErrorsOf("reason", reason)
        + ErrorsOf("document", document) + ErrorsOf("note", note);
      ErrorsOfReports("reason", reason);
      Failure(errors)
  }

  /** `WarehouseDeductionForm.is_valid()`: a quantity of at least 0.01, a required reason,
      and optional document and note, all stripped. */
  function CleanDeduction(input: DeductionInput): (r: Result<CleanedDeduction, seq<FieldError>>)
  {
    DeductionVerdict(CleanNumber(input.quantity, Some(1)), CleanText(input.reason, true, None),
                     CleanText(input.document, false, None), CleanText(input.note, false, None))
  }

  /** The deduction form accepts exactly a quantity of at least 0.01 with a non-blank reason,
      provided no text field holds a null character. */
  lemma CleanDeductionAccepts(input: DeductionInput)
    ensures CleanDeduction(input).Success? <==>
      (input.quantity.Some? && input.quantity.value >= 1 && !IsBlank(input.reason)
       && Nul !in Strip(input.reason) && Nul !in Strip(input.document) && Nul !in Strip(input.note))
    ensures CleanDeduction(input).Success? ==>
      CleanDeduction(input).value == CleanedDeduction(input.quantity.value, Strip(input.reason), Strip(input.document), Strip(input.note))
  {
    var quantity := CleanNumber(input.quantity, Some(1));
    var reason := CleanText(input.reason, true, None);
    var document := CleanText(input.document, false, None);
    var note := CleanText(input.note, false, None);
    assert quantity.Success? <==> input.quantity.Some? && input.quantity.value >= 1;
    assert reason.Success? <==> !IsBlank(input.reason) && Nul !in Strip(input.reason);
    assert document.Success? <==> Nul !in Strip(input.document);
    assert note.Success? <==> Nul !in Strip(input.note);
    assert CleanDeduction(input) == DeductionVerdict(quantity, reason, document, note);
  }

  /** A blank reason is reported as a missing required field, and it is blank exactly when the
      deduction view's own check (the stripped reason is empty) refuses it. */
  lemma CleanDeductionBlankReason(input: DeductionInput)
    ensures IsBlank(input.reason) ==>
      CleanDeduction(input).Failure? && FieldError("reason", Required) in CleanDeduction(input).error
    ensures IsBlank(input.reason) <==> Strip(input.reason) == []
  {
    StripEmptyIffBlank(input.reason);
    if IsBlank(input.reason) {
      assert CleanText(input.reason, true, None) == Failure([Required]);
    }
  }

  /** A reason holding a null character is refused by the form, as the `CharField` validator
      demands, although it is not empty after stripping and so passes the view's own check. */
  lemma CleanDeductionNulReason(input: DeductionInput)
    ensures Nul in Strip(input.reason) ==>
      && Strip(input.reason) != []
      && CleanDeduction(input).Failure?
      && FieldError("reason", NullCharacter) in CleanDeduction(input).error
  {
    StripEmptyIffBlank(input.reason);
    if Nul in Strip(input.reason) {
      var reason := CleanText(input.reason, true, None);
      assert reason.Failure? && NullCharacter in reason.error;
      assert CleanDeduction(input) == DeductionVerdict(CleanNumber(input.quantity, Some(1)), reason,
        CleanText(input.document, false, None), CleanText(input.note, false, None));
    }
  }

  // ---------------------------------------------------------------------------
  // ProductBatchForm: a ModelForm over batch_number, nomenclature, weight_kg and
  // production_date, plus its own shelf_life_days field

  datatype BatchInput = BatchInput(
    batchNumber: string,
    nomenclature: Option<NomId>,
    weight: Option<int>,
    productionDate: Option<int>,
    shelfLifeDays: Option<int>)

  datatype CleanedBatch = CleanedBatch(batchNumber: string, nomenclature: NomId, weight: int, productionDate: int, shelfLifeDays: int)

  /** The choice field for `nomenclature`: a present key of the catalog. */
  function CleanChoice(catalog: map<NomId, Nomenclature>, raw: Option<NomId>): (r: Result<NomId, seq<ErrorKind>>)
    ensures r.Success? <==> (raw.Some? && raw.value in catalog)
    ensures r.Success? ==> r.value == raw.value
    ensures r.Failure? ==> r.error == if raw.None? then [Required] else [InvalidChoice]
  {
    if raw.None? then Failure([Required])
    else if raw.value !in catalog then Failure([InvalidChoice])
    else Success(raw.value)
  }

  /** The form's verdict from its cleaned fields: the cleaned values when every field is
      clean, and otherwise the errors of the fields in declaration order. */
  function BatchVerdict(number: Result<string, seq<ErrorKind>>, nom: Result<NomId, seq<ErrorKind>>,
                        weight: Result<int, seq<ErrorKind>>, produced: Result<int, seq<ErrorKind>>,
                        days: Result<int, seq<ErrorKind>>)
    : (r: Result<CleanedBatch, seq<FieldError>>)
    ensures r.Success? <==> number.Success? && nom.Success? && weight.Success? && produced.Success? && days.Success?
    ensures r.Success? ==> r.value == CleanedBatch(number.value, nom.value, weight.value, produced.value, days.value)
  {
    if number.Success? && nom.Success? && weight.Success? && produced.Success? && days.Success? then
      Success(CleanedBatch(number.value, nom.value, weight.value, produced.value, days.value))
    else
      Failure(ErrorsOf("batch_number", number) + ErrorsOf("nomenclature", nom) + ErrorsOf("weight_kg", weight)
        + ErrorsOf("production_date", produced) + ErrorsOf("shelf_life_days", days))
  }

  /** `ProductBatchForm.is_valid()`. The shelf-life field has no lower bound and the weight
      none either. */
  function CleanBatch(catalog: map<NomId, Nomenclature>, input: BatchInput): (r: Result<CleanedBatch, seq<FieldError>>)
  {
    BatchVerdict(CleanText(input.batchNumber, true, Some(100)), CleanChoice(catalog, input.nomenclature),
                 CleanNumber(input.weight, None), CleanDate(input.productionDate), CleanNumber(input.shelfLifeDays, None))
  }

  /** The batch form accepts exactly a non-blank batch number of at most 100 characters
      without a null character, a catalog entry, a present weight, a production date a
      `date` can hold, and a present shelf life. */
  lemma CleanBatchAccepts(catalog: map<NomId, Nomenclature>, input: BatchInput)
    ensures var r := CleanBatch(catalog, input);
      && (r.Success? <==>
            (TextAcceptable(input.batchNumber, 100)
             && input.nomenclature.Some? && input.nomenclature.value in catalog
             && input.weight.Some? && input.productionDate.Some? && ValidDate(input.productionDate.value)
             && input.shelfLifeDays.Some?))
      && (r.Success? ==> r.value == CleanedBatch(Strip(input.batchNumber), input.nomenclature.value,
                                                  input.weight.value, input.productionDate.value, input.shelfLifeDays.value))
  {
    var r := CleanBatch(catalog, input);
    var number := CleanText(input.batchNumber, true, Some(100));
    var nom := CleanChoice(catalog, input.nomenclature);
    var weight := CleanNumber(input.weight, None);
    var produced := CleanDate(input.productionDate);
    var days := CleanNumber(input.shelfLifeDays, None);
    assert number.Success? <==> TextAcceptable(input.batchNumber, 100);
    assert r == BatchVerdict(number, nom, weight, produced, days);
    assert r.Success? <==> number.Success? && nom.Success? && weight.Success? && produced.Success? && days.Success?;
  }

  /** The unsaved `ProductBatch()` a creating form starts from: not received, and every
      other field overwritten by the form. */
  const NewBatch := ProductBatch(0, "", 0, 0, None, 0)

  /** `date + timedelta(days=days)`: None where Python raises `OverflowError`, because the
      day count is beyond what a `timedelta` holds or the sum is beyond what a `date`
      holds. */
  function AddDays(date: int, days: int): (r: Option<int>)
    ensures r.Some? ==> ValidDate(r.value) && r.value - date == days
    ensures r.None? <==> (days < -MaxTimedeltaDays || days > MaxTimedeltaDays || !ValidDate(date + days))
  {
    if days < -MaxTimedeltaDays || days > MaxTimedeltaDays then None
    else if !ValidDate(date + days) then None
    else Some(date + days)
  }

  /** `super().save(commit=False)` followed by the expiration assignment: the form's four
      model fields are copied onto `instance` and the expiration date is the production date
      plus the form's shelf-life days, None where that sum raises. The reception date is the
      instance's own. */
  function ApplyBatchForm(instance: ProductBatch, c: CleanedBatch): (b: Option<ProductBatch>)
  {
    match AddDays(c.productionDate, c.shelfLifeDays)
    case None => None
    case Some(expires) =>
      Some(instance.(batchNumber := c.batchNumber, nomenclature := c.nomenclature, weight := c.weight,
                     productionDate := c.productionDate, expirationDate := expires))
  }

  /** The form builds a batch exactly when the expiration date can be computed. The built
      batch carries the form's values, keeps the instance's reception date, expires
      `shelfLifeDays` days after production on a day a `date` holds, and never before
      production when that count is not negative. */
  lemma ApplyBatchFormEffect(instance: ProductBatch, c: CleanedBatch)
    ensures var b := ApplyBatchForm(instance, c);
      && (b.Some? <==> AddDays(c.productionDate, c.shelfLifeDays).Some?)
      && (b.Some? ==>
            && b.value.batchNumber == c.batchNumber && b.value.nomenclature == c.nomenclature
            && b.value.weight == c.weight && b.value.productionDate == c.productionDate
            && b.value.expirationDate - b.value.productionDate == c.shelfLifeDays
            && ValidDate(b.value.expirationDate)
            && b.value.receptionDate == instance.receptionDate
            && (c.shelfLifeDays >= 0 ==> b.value.expirationDate >= b.value.productionDate))
  {
  }

  /** The expiration date follows the form's shelf-life field, not the catalog's standard
      shelf life: the same form gives the same date, or fails the same way, whatever the
      catalog entry says. */
  lemma ExpirationIgnoresCatalog(catalog1: map<NomId, Nomenclature>, catalog2: map<NomId, Nomenclature>,
                                 input: BatchInput, instance: ProductBatch)
    requires CleanBatch(catalog1, input).Success? && CleanBatch(catalog2, input).Success?
    ensures var b1 := ApplyBatchForm(instance, CleanBatch(catalog1, input).value);
      var b2 := ApplyBatchForm(instance, CleanBatch(catalog2, input).value);
      && b1.Some? == b2.Some? == AddDays(input.productionDate.value, input.shelfLifeDays.value).Some?
      && (b1.Some? ==> b1.value.expirationDate == b2.value.expirationDate
                         == input.productionDate.value + input.shelfLifeDays.value)
  {
    CleanBatchAccepts(catalog1, input);
    CleanBatchAccepts(catalog2, input);
  }

  /** A batch row after `save()`: an update of row `key`, or an insert under the next key. */
  function PersistBatch(t: Tables, key: Option<BatchId>, b: ProductBatch): (r: Tables)
  {
    match key
    case Some(k) => t.(batches := t.batches[k := b])
    case None => t.(batches := t.batches[t.nextBatchId := b], nextBatchId := t.nextBatchId + 1)
  }

  /** Saving a batch of a catalog entry over an existing row, or as a new row, keeps the
      database well formed, and touches only the batch table. */
  lemma PersistBatchWellFormed(t: Tables, key: Option<BatchId>, b: ProductBatch)
    requires WellFormed(t) && b.nomenclature in t.catalog
    requires key.Some? ==> key.value in t.batches
    ensures var t' := PersistBatch(t, key, b);
      && WellFormed(t')
      && t'.catalog == t.catalog && t'.warehouses == t.warehouses && t'.live == t.live && t'.journal == t.journal
      && (key.Some? ==> t'.batches == t.batches[key.value := b] && t'.nextBatchId == t.nextBatchId)
      && (key.None? ==> t.nextBatchId !in t.batches && t'.batches == t.batches[t.nextBatchId := b]
                        && t'.nextBatchId == t.nextBatchId + 1)
  {
    var t' := PersistBatch(t, key, b);
    assert LiveRefsIn(t'.batches, t'.live);
  }

  /** `batch.save()`: writes `b` to row `key`, or inserts it under the next key, and returns
      the row's key. */
  method SaveBatch(store: Store, key: Option<BatchId>, b: ProductBatch) returns (id: BatchId)
    modifies store
    ensures store.Snapshot() == PersistBatch(old(store.Snapshot()), key, b)
    ensures id == if key.Some? then key.value else old(store.nextBatchId)
  {
    if key.Some? {
      id := key.value;
      store.batches := store.batches[id := b];
    } else {
      id := store.nextBatchId;
      store.batches := store.batches[id := b];
      store.nextBatchId := store.nextBatchId + 1;
    }
  }

  /** `ProductBatchForm.save(commit)`: builds the batch from the form and `instance` (the
      row `key` when editing), and writes it only when `commit` is set. None is the
      `OverflowError` of the expiration date, raised before anything is written. */
  method SaveBatchForm(store: Store, key: Option<BatchId>, instance: ProductBatch, c: CleanedBatch, commit: bool)
    returns (b: Option<ProductBatch>)
    modifies store
    ensures b == ApplyBatchForm(instance, c)
    ensures store.Snapshot() ==
      if commit && b.Some? then PersistBatch(old(store.Snapshot()), key, b.value) else old(store.Snapshot())
  {
    var batch := instance.(batchNumber := c.batchNumber, nomenclature := c.nomenclature, weight := c.weight,
                           productionDate := c.productionDate);
    var days := c.shelfLifeDays;
    if days < -MaxTimedeltaDays || days > MaxTimedeltaDays || !ValidDate(batch.productionDate + days) {
      return None;
    }
    batch := batch.(expirationDate := batch.productionDate + days);
    if commit {
      var _ := SaveBatch(store, key, batch);
    }
    b := Some(batch);
  }
}
