/**
 * Structural validation of a stored vault: the decrypted JSON value that holds
 * the taxpayer's input and, optionally, the last calculated result.
 *
 * Values are JSON as `JSON.parse` produces it. A number that overflows while
 * parsing (`1e400`) becomes an infinity, so a JSON number is modelled together
 * with the non-finite values a `number` may hold.
 */
module Schema {
  import opened Wrappers
  import opened TaxInput
  import opened TaxCalculation

  /** A JavaScript `number`: finite, or one of the non-finite values. */
  datatype Number = Finite(value: real) | NaN | Infinity(negative: bool)

  /** A JSON value. Arrays and objects both have `typeof` equal to `'object'`. */
  datatype JsValue =
    | Undefined
    | Null
    | Bool(b: bool)
    | Num(n: Number)
    | Str(s: string)
    | Arr(items: seq<JsValue>)
    | Obj(fields: map<string, JsValue>)

  /** What the validator returns: the input object and the result object, or `None` for `null`. */
  datatype Vault = Vault(input: JsValue, result: Option<JsValue>)

  /** The only error the validator raises. */
  const InvalidVault: string := "Invalid vault"

  /** The fields of `input` that must hold finite numbers (`otherIncome` is not among them). */
  const RequiredInputKeys: seq<string> :=
    ["salary", "rentalIncome", "pensionIncome", "untaxedInterest", "dividends", "directPensionContrib"]

  /** The top-level fields of a present `result` that must hold finite numbers. */
  const ResultNumberKeys: seq<string> :=
    ["personalAllowance", "brbExtended", "totalTax", "effectiveTaxRate"]

  /**
   * Property access `v.key`. Only an object carries named properties here;
   * none of the keys the validator reads names a built-in property of a
   * string or an array, so on every other value the access gives `undefined`.
   */
  function Get(v: JsValue, key: string): (r: JsValue)
    ensures r != Undefined ==> v.Obj? && key in v.fields && r == v.fields[key]
    ensures v.Obj? && key in v.fields ==> r == v.fields[key]
  {
    if v.Obj? && key in v.fields then v.fields[key] else Undefined
  }

  /** `typeof v === 'object' && v !== null`. */
  predicate IsObject(v: JsValue) {
    v.Obj? || v.Arr?
  }

  /** `v === null || v === undefined`. */
  predicate Nullish(v: JsValue) {
    v.Null? || v.Undefined?
  }

  /** JavaScript truthiness, used by the validator's `!income` test. */
  predicate Truthy(v: JsValue) {
    match v
    case Undefined => false
    case Null => false
    case Bool(b) => b
    case Num(n) => !n.NaN? && n != Finite(0.0)
    case Str(s) => s != ""
    case Arr(_) => true
    case Obj(_) => true
  }

  /** `typeof n === 'number' && Number.isFinite(n)`. */
  predicate IsNumber(v: JsValue) {
    v.Num? && v.n.Finite?
  }

  /** The validator's loop over a list of keys: every listed property of `v` is a finite number. */
  function AllNumbers(v: JsValue, keys: seq<string>): (ok: bool)
    ensures ok <==> forall i | 0 <= i < |keys| :: IsNumber(Get(v, keys[i]))
    decreases |keys|
  {
    if keys == [] then true
    else if !IsNumber(Get(v, keys[0])) then false
    else AllNumbers(v, keys[1..])
  }

  /**
   * `parseVault`: all-or-nothing. The data and its `input` must be objects with
   * the six required finite figures; a `null` or missing `result` is accepted as
   * no result; a present `result` must be an object with four finite figures and
   * an `incomeBreakdown` holding three finite amounts. On success the two
   * objects are returned as they are.
   */
  function ParseVault(data: JsValue): (r: Result<Vault, string>)
    ensures r.Failure? ==> r.error == InvalidVault
    ensures r.Success? ==> data.Obj? && "input" in data.fields && r.value.input == data.fields["input"]
    ensures r.Success? ==> (r.value.result.None? <==> Nullish(Get(data, "result")))
    ensures r.Success? && r.value.result.Some? ==> r.value.result.value == data.fields["result"]
  {
    if !IsObject(data) then Failure(InvalidVault)
    else
      var input := Get(data, "input");
      var result := Get(data, "result");
      if !IsObject(input) || !AllNumbers(input, RequiredInputKeys) then Failure(InvalidVault)
      else if Nullish(result) then Success(Vault(input, None))
      else if !IsObject(result) || !AllNumbers(result, ResultNumberKeys) then Failure(InvalidVault)
      else
        var income := Get(result, "incomeBreakdown");
        if || !Truthy(income)
           || !IsNumber(Get(income, "generalIncome"))
           || !IsNumber(Get(income, "savingsIncome"))
           || !IsNumber(Get(income, "dividendIncome"))
        then Failure(InvalidVault)
        else Success(Vault(input, Some(result)))
  }

  // ---------------------------------------------------------------------------
  // A declarative statement of what a well-formed vault is
  // ---------------------------------------------------------------------------

  /** `m[key]` exists and is a finite number. */
  predicate FiniteField(m: map<string, JsValue>, key: string) {
    key in m && m[key].Num? && m[key].n.Finite?
  }

  predicate ValidInput(v: JsValue) {
    && v.Obj?
    && FiniteField(v.fields, "salary")
    && FiniteField(v.fields, "rentalIncome")
    && FiniteField(v.fields, "pensionIncome")
    && FiniteField(v.fields, "untaxedInterest")
    && FiniteField(v.fields, "dividends")
    && FiniteField(v.fields, "directPensionContrib")
  }

  predicate ValidResult(v: JsValue) {
    && v.Obj?
    && FiniteField(v.fields, "personalAllowance")
    && FiniteField(v.fields, "brbExtended")
    && FiniteField(v.fields, "totalTax")
    && FiniteField(v.fields, "effectiveTaxRate")
    && "incomeBreakdown" in v.fields
    && v.fields["incomeBreakdown"].Obj?
    && FiniteField(v.fields["incomeBreakdown"].fields, "generalIncome")
    && FiniteField(v.fields["incomeBreakdown"].fields, "savingsIncome")
    && FiniteField(v.fields["incomeBreakdown"].fields, "dividendIncome")
  }

  /** A JSON object whose `input` is valid and whose `result` is absent, `null` or valid. */
  predicate ValidVault(data: JsValue) {
    && data.Obj?
    && "input" in data.fields
    && ValidInput(data.fields["input"])
    && ("result" in data.fields ==> Nullish(data.fields["result"]) || ValidResult(data.fields["result"]))
  }

  lemma InputKeysChecked(v: JsValue)
    ensures IsObject(v) && AllNumbers(v, RequiredInputKeys) <==> ValidInput(v)
  {
    var ks := RequiredInputKeys;
    if IsObject(v) && AllNumbers(v, ks) {
      assert IsNumber(Get(v, ks[0])) && IsNumber(Get(v, ks[1])) && IsNumber(Get(v, ks[2]));
      assert IsNumber(Get(v, ks[3])) && IsNumber(Get(v, ks[4])) && IsNumber(Get(v, ks[5]));
    }
    if ValidInput(v) {
      forall i | 0 <= i < |ks| ensures IsNumber(Get(v, ks[i])) {
      }
    }
  }

  lemma ResultKeysChecked(v: JsValue)
    ensures IsObject(v) && AllNumbers(v, ResultNumberKeys) <==>
      && v.Obj?
      && FiniteField(v.fields, "personalAllowance")
      && FiniteField(v.fields, "brbExtended")
      && FiniteField(v.fields, "totalTax")
      && FiniteField(v.fields, "effectiveTaxRate")
  {
    var ks := ResultNumberKeys;
    if IsObject(v) && AllNumbers(v, ks) {
      assert IsNumber(Get(v, ks[0])) && IsNumber(Get(v, ks[1]));
      assert IsNumber(Get(v, ks[2])) && IsNumber(Get(v, ks[3]));
    }
    if v.Obj? && FiniteField(v.fields, "personalAllowance") && FiniteField(v.fields, "brbExtended")
       && FiniteField(v.fields, "totalTax") && FiniteField(v.fields, "effectiveTaxRate") {
      forall i | 0 <= i < |ks| ensures IsNumber(Get(v, ks[i])) {
      }
    }
  }

  /** The `!income` guard adds nothing: a truthy non-object has none of the three amounts. */
  lemma BreakdownChecked(income: JsValue)
    ensures
      (&& Truthy(income)
       && IsNumber(Get(income, "generalIncome"))
       && IsNumber(Get(income, "savingsIncome"))
       && IsNumber(Get(income, "dividendIncome")))
      <==>
      (&& income.Obj?
       && FiniteField(income.fields, "generalIncome")
       && FiniteField(income.fields, "savingsIncome")
       && FiniteField(income.fields, "dividendIncome"))
  {
  }

  /** The validator accepts exactly the well-formed vaults. */
  lemma ParseVaultAccepts(data: JsValue)
    ensures ParseVault(data).Success? <==> ValidVault(data)
  {
    var input := Get(data, "input");
    var result := Get(data, "result");
    InputKeysChecked(input);
    ResultKeysChecked(result);
    BreakdownChecked(Get(result, "incomeBreakdown"));
  }

  /** `otherIncome` is never looked at: replacing it changes nothing about whether the vault is accepted. */
  lemma OtherIncomeUnchecked(data: JsValue, other: JsValue)
    requires data.Obj? && "input" in data.fields && data.fields["input"].Obj?
    ensures var input := data.fields["input"];
      var data' := Obj(data.fields["input" := Obj(input.fields["otherIncome" := other])]);
      ParseVault(data').Success? == ParseVault(data).Success?
  {
    var input := data.fields["input"];
    var data' := Obj(data.fields["input" := Obj(input.fields["otherIncome" := other])]);
    ParseVaultAccepts(data);
    ParseVaultAccepts(data');
    OtherIncomeNotRequired(input.fields, other);
    assert data'.fields["input"] == Obj(input.fields["otherIncome" := other]);
  }

  lemma OtherIncomeNotRequired(f: map<string, JsValue>, other: JsValue)
    ensures ValidInput(Obj(f["otherIncome" := other])) == ValidInput(Obj(f))
  {
  }

  lemma TaxByBandNotRequired(f: map<string, JsValue>, bands: JsValue)
    ensures ValidResult(Obj(f["taxByBand" := bands])) == ValidResult(Obj(f))
  {
  }

  /** `taxByBand` is never looked at: replacing it in a present result changes nothing about whether the vault is accepted. */
  lemma TaxByBandUnchecked(data: JsValue, bands: JsValue)
    requires data.Obj? && "result" in data.fields && data.fields["result"].Obj?
    ensures var result := data.fields["result"];
      var data' := Obj(data.fields["result" := Obj(result.fields["taxByBand" := bands])]);
      ParseVault(data').Success? == ParseVault(data).Success?
  {
    var result := data.fields["result"];
    var data' := Obj(data.fields["result" := Obj(result.fields["taxByBand" := bands])]);
    ParseVaultAccepts(data);
    ParseVaultAccepts(data');
    TaxByBandNotRequired(result.fields, bands);
    assert data'.fields["result"] == Obj(result.fields["taxByBand" := bands]);
  }

  // ---------------------------------------------------------------------------
  // Saving and reloading: the JSON a vault is stored as
  // ---------------------------------------------------------------------------

  function FromReal(x: real): JsValue {
    Num(Finite(x))
  }

  /** An input record as `JSON.stringify` writes it: an absent `otherIncome` is omitted. */
  function InputToJson(i: TaxCalculationInput): (v: JsValue)
    ensures v.Obj? && ("otherIncome" in v.fields <==> i.otherIncome.Some?)
  {
    var figures := map[
      "salary" := FromReal(i.salary),
      "rentalIncome" := FromReal(i.rentalIncome),
      "pensionIncome" := FromReal(i.pensionIncome),
      "untaxedInterest" := FromReal(i.untaxedInterest),
      "dividends" := FromReal(i.dividends),
      "directPensionContrib" := FromReal(i.directPensionContrib)];
    match i.otherIncome
    case None => Obj(figures)
    case Some(x) => Obj(figures["otherIncome" := FromReal(x)])
  }

  /** A result record as stored; `bands` is however the band entries were written. */
  function ResultToJson(r: TaxCalculationResult, bands: JsValue): (v: JsValue)
    ensures v.Obj? && "taxByBand" in v.fields && v.fields["taxByBand"] == bands
  {
    Obj(map[
      "personalAllowance" := FromReal(r.personalAllowance),
      "brbExtended" := FromReal(r.brbExtended),
      "incomeBreakdown" := Obj(map[
        "generalIncome" := FromReal(r.incomeBreakdown.generalIncome),
        "savingsIncome" := FromReal(r.incomeBreakdown.savingsIncome),
        "dividendIncome" := FromReal(r.incomeBreakdown.dividendIncome)]),
      "taxByBand" := bands,
      "totalTax" := FromReal(r.totalTax),
      "effectiveTaxRate" := FromReal(r.effectiveTaxRate),
      "taxableIncome" := FromReal(r.taxableIncome)])
  }

  /** A whole vault as stored; a missing result is written as `null`. */
  function VaultToJson(i: TaxCalculationInput, r: Option<TaxCalculationResult>, bands: JsValue): (v: JsValue)
    ensures v.Obj? && "input" in v.fields && "result" in v.fields
  {
    Obj(map[
      "input" := InputToJson(i),
      "result" := match r case None => Null case Some(res) => ResultToJson(res, bands)])
  }

  lemma InputToJsonValid(i: TaxCalculationInput)
    ensures ValidInput(InputToJson(i))
  {
  }

  lemma ResultToJsonValid(r: TaxCalculationResult, bands: JsValue)
    ensures ValidResult(ResultToJson(r, bands))
  {
  }

  /** Every vault the application can store loads back unchanged, whatever the band entries hold. */
  lemma SavedVaultLoads(i: TaxCalculationInput, r: Option<TaxCalculationResult>, bands: JsValue)
    ensures ParseVault(VaultToJson(i, r, bands)) ==
      Success(Vault(InputToJson(i), match r case None => None case Some(res) => Some(ResultToJson(res, bands))))
  {
    var data := VaultToJson(i, r, bands);
    InputToJsonValid(i);
    if r.Some? {
      ResultToJsonValid(r.value, bands);
    }
    ParseVaultAccepts(data);
  }

  // ---------------------------------------------------------------------------
  // Worked cases
  // ---------------------------------------------------------------------------

  /** The application's empty form (every figure zero, no result) is a valid vault. */
  lemma EmptyVaultLoads()
    ensures var i := TaxCalculationInput(0.0, 0.0, 0.0, 0.0, 0.0, 0.0, Some(0.0));
      ParseVault(VaultToJson(i, None, Null)) == Success(Vault(InputToJson(i), None))
  {
    SavedVaultLoads(TaxCalculationInput(0.0, 0.0, 0.0, 0.0, 0.0, 0.0, Some(0.0)), None, Null);
  }

  /** A salary that overflowed to infinity while parsing is rejected. */
  lemma InfiniteSalaryRejected(i: TaxCalculationInput)
    ensures var v := InputToJson(i);
      ParseVault(Obj(map["input" := Obj(v.fields["salary" := Num(Infinity(false))])])) == Failure(InvalidVault)
  {
    var v := InputToJson(i);
    var data := Obj(map["input" := Obj(v.fields["salary" := Num(Infinity(false))])]);
    ParseVaultAccepts(data);
  }

  /** An array has `typeof` `'object'`, but it carries none of the figures, so it is rejected. */
  lemma ArrayInputRejected(items: seq<JsValue>)
    ensures ParseVault(Obj(map["input" := Arr(items)])) == Failure(InvalidVault)
  {
    ParseVaultAccepts(Obj(map["input" := Arr(items)]));
  }
}
