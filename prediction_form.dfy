/**
 * The three-section prediction form: the wizard position, the per-control
 * validators and the precedence of their error messages, the figures it
 * derives while the user types, and the metrics and profile it builds for
 * the prediction service.
 *
 * The form's controls are a map from control name to value. A control's
 * value is null, a text, a number or a flag; the validators that the form
 * declares are evaluated here with the semantics of the form library
 * (required, minimum and maximum length, the eleven-digit pattern, minimum
 * and maximum value).
 */
module PredictionForm {
  import opened Outcomes
  import opened ChurnModels

  // ---------------------------------------------------------------------
  // Controls and their validators
  // ---------------------------------------------------------------------

  /** The wizard position: profile, finances, engagement. */
  type Section = s: int | 1 <= s <= 3 witness 1

  /** The form's controls, one per input. */
  datatype Field =
    | Cuit | NombreEmpresa | Sector | Provincia
    | Ingresos | Gastos | Deuda | Activos
    | PrestamosSolicitados | PrestamosAprobados | PrestamosVigentes | MontoSolicitado | MontoAprobado
    | TrimestreDiasActividad | TrimestreDiasInactividad | PromedioLoginDia | TotalLoginDia
    | Transferencias | Pagos | Creditos | Inversiones

  /** The kinds of input a control holds. */
  datatype Kind = TextInput | NumberInput | FlagInput

  /** A control's value; `Null` is what a reset leaves behind. */
  datatype Value = Null | Text(s: string) | Number(x: real) | Flag(b: bool)

  function KindOf(f: Field): Kind {
    match f
    case Cuit | NombreEmpresa | Sector | Provincia => TextInput
    case Transferencias | Pagos | Creditos | Inversiones => FlagInput
    case _ => NumberInput
  }

  /** A control's value when the form is created: empty text, null number, cleared flag. */
  function InitialValue(f: Field): (v: Value)
    ensures Fits(KindOf(f), v)
    ensures v.Null? <==> KindOf(f) == NumberInput
  {
    match KindOf(f)
    case TextInput => Text("")
    case NumberInput => Null
    case FlagInput => Flag(false)
  }

  /** A value an input of the given kind can hold. */
  predicate Fits(k: Kind, v: Value) {
    match v
    case Null => true
    case Text(_) => k == TextInput
    case Number(_) => k == NumberInput
    case Flag(_) => k == FlagInput
  }


  /** The validators declared on one control. */
  datatype Rules = Rules(
    required: bool,
    minLength: Option<nat>,
    maxLength: Option<nat>,
    elevenDigits: bool,
    min: Option<int>,
    max: Option<int>)

  /** The validators each control is declared with. */
  function RulesOf(f: Field): (r: Rules)
    ensures r.required <==> KindOf(f) != FlagInput
    ensures r.elevenDigits <==> f == Cuit
    ensures r.min.Some? <==> KindOf(f) == NumberInput
    ensures r.min.Some? ==> r.min.value == 0
    ensures r.max.Some? <==> f == TrimestreDiasActividad || f == TrimestreDiasInactividad
    ensures r.max.Some? ==> r.max.value == 90
  {
    match f
    case Cuit => Rules(true, Some(11), Some(11), true, None, None)
    case NombreEmpresa => Rules(true, Some(3), None, false, None, None)
    case Sector | Provincia => Rules(true, None, None, false, None, None)
    case TrimestreDiasActividad | TrimestreDiasInactividad => Rules(true, None, None, false, Some(0), Some(90))
    case Transferencias | Pagos | Creditos | Inversiones => Rules(false, None, None, false, None, None)
    case _ => Rules(true, None, None, false, Some(0), None)
  }

  /** The validators' notion of an empty input: null or the empty text. */
  predicate IsEmptyInput(v: Value) {
    v.Null? || (v.Text? && v.s == "")
  }

  predicate IsDigit(c: char) {
    '0' <= c <= '9'
  }

  /** Exactly eleven decimal digits and nothing else. */
  predicate ElevenDigits(s: string) {
    |s| == 11 && forall i :: 0 <= i < |s| ==> IsDigit(s[i])
  }

  /** Which of a control's validators report an error. */
  datatype ControlErrors = ControlErrors(
    required: bool, minlength: bool, maxlength: bool, pattern: bool, min: bool, max: bool)
  {
    predicate Any() {
      required || minlength || maxlength || pattern || min || max
    }
  }

  /**
   * The errors the declared validators report for a value. Length and pattern
   * validators skip empty inputs and only look at texts; the numeric bounds
   * skip empty inputs and only look at numbers.
   */
  function ErrorsOf(r: Rules, v: Value): (e: ControlErrors)
    ensures e.required <==> r.required && IsEmptyInput(v)
    ensures e.minlength <==> r.minLength.Some? && v.Text? && v.s != "" && |v.s| < r.minLength.value
    ensures e.maxlength <==> r.maxLength.Some? && v.Text? && |v.s| > r.maxLength.value
    ensures e.pattern <==> r.elevenDigits && v.Text? && v.s != "" && !ElevenDigits(v.s)
    ensures e.min <==> r.min.Some? && v.Number? && v.x < r.min.value as real
    ensures e.max <==> r.max.Some? && v.Number? && v.x > r.max.value as real
  {
    ControlErrors(
      r.required && IsEmptyInput(v),
      r.minLength.Some? && v.Text? && !IsEmptyInput(v) && |v.s| < r.minLength.value,
      r.maxLength.Some? && v.Text? && |v.s| > r.maxLength.value,
      r.elevenDigits && v.Text? && !IsEmptyInput(v) && !ElevenDigits(v.s),
      r.min.Some? && v.Number? && v.x < r.min.value as real,
      r.max.Some? && v.Number? && v.x > r.max.value as real)
  }

  /** A control is invalid when any of its validators reports an error. */
  predicate Invalid(f: Field, v: Value) {
    ErrorsOf(RulesOf(f), v).Any()
  }

  // ---------------------------------------------------------------------
  // Error messages
  // ---------------------------------------------------------------------

  /** The message recorded for an invalid control. */
  datatype FieldMessage =
    | Required
    | TooShort(length: nat)
    | TooLong(length: nat)
    | CuitFormat
    | BadFormat
    | BelowMin(bound: int)
    | AboveMax(bound: int)

  /**
   * The one message recorded for a control: the first error in the order
   * required, minimum length, maximum length, pattern, minimum, maximum,
   * with a dedicated pattern message for the CUIT.
   */
  function MessageFor(f: Field, v: Value): (m: Option<FieldMessage>)
    ensures m.Some? <==> Invalid(f, v)
  {
    var r := RulesOf(f);
    var e := ErrorsOf(r, v);
    if !e.Any() then None
    else if e.required then Some(Required)
    else if e.minlength then Some(TooShort(r.minLength.value))
    else if e.maxlength then Some(TooLong(r.maxLength.value))
    else if e.pattern then (if f == Cuit then Some(CuitFormat) else Some(BadFormat))
    else if e.min then Some(BelowMin(r.min.value))
    else Some(AboveMax(r.max.value))
  }

  /** Which message is recorded: the first failing validator in order, with the bound it failed. */
  lemma MessageOrder(f: Field, v: Value)
    ensures var m, e := MessageFor(f, v), ErrorsOf(RulesOf(f), v);
            && (m == Some(Required) <==> e.required)
            && (m.Some? && m.value.TooShort? <==> !e.required && e.minlength)
            && (m.Some? && m.value.TooLong? <==> !e.required && !e.minlength && e.maxlength)
            && (m.Some? && (m.value.CuitFormat? || m.value.BadFormat?) <==>
                  !e.required && !e.minlength && !e.maxlength && e.pattern)
            && (m.Some? && m.value.BelowMin? <==> !e.required && !e.minlength && !e.maxlength && !e.pattern && e.min)
            && (m.Some? && m.value.AboveMax? <==> !e.required && !e.minlength && !e.maxlength && !e.pattern
                                                    && !e.min && e.max)
    ensures var m := MessageFor(f, v);
            && (m == Some(CuitFormat) ==> f == Cuit)
            && (m.Some? && m.value.TooShort? ==> m.value.length == RulesOf(f).minLength.value)
            && (m.Some? && m.value.TooLong? ==> m.value.length == RulesOf(f).maxLength.value)
            && (m.Some? && m.value.BelowMin? ==> m.value.bound == RulesOf(f).min.value)
            && (m.Some? && m.value.AboveMax? ==> m.value.bound == RulesOf(f).max.value)
  {
  }

  /** The CUIT control's messages, case by case: the pattern message is reached only at length 11. */
  lemma CuitMessages(v: Value)
    requires v.Null? || v.Text?
    ensures IsEmptyInput(v) ==> MessageFor(Cuit, v) == Some(Required)
    ensures v.Text? && 0 < |v.s| < 11 ==> MessageFor(Cuit, v) == Some(TooShort(11))
    ensures v.Text? && |v.s| > 11 ==> MessageFor(Cuit, v) == Some(TooLong(11))
    ensures v.Text? && |v.s| == 11 && !ElevenDigits(v.s) ==> MessageFor(Cuit, v) == Some(CuitFormat)
    ensures v.Text? && ElevenDigits(v.s) ==> MessageFor(Cuit, v).None?
  {
  }

  /** The generic "invalid format" message is never recorded: only the CUIT has a pattern. */
  lemma BadFormatUnreachable(f: Field, v: Value)
    ensures MessageFor(f, v) != Some(BadFormat)
  {
  }

  /** The day-count controls' messages: required, then below 0, then above 90. */
  lemma DayCountMessages(f: Field, v: Value)
    requires f == TrimestreDiasActividad || f == TrimestreDiasInactividad
    requires v.Null? || v.Number?
    ensures v.Null? ==> MessageFor(f, v) == Some(Required)
    ensures v.Number? && v.x < 0.0 ==> MessageFor(f, v) == Some(BelowMin(0))
    ensures v.Number? && v.x > 90.0 ==> MessageFor(f, v) == Some(AboveMax(90))
    ensures v.Number? && 0.0 <= v.x <= 90.0 ==> MessageFor(f, v).None?
  {
  }

  /** The decimal digits of a natural number, most significant first. */
  function NatText(n: nat): (s: string)
    ensures |s| > 0
    ensures forall i :: 0 <= i < |s| ==> IsDigit(s[i])
    decreases n
  {
    var d := ['0' + (n % 10) as char];
    if n < 10 then d else NatText(n / 10) + d
  }

  /** The number a string of decimal digits denotes. */
  function DigitsValue(s: string): nat
    requires forall i :: 0 <= i < |s| ==> IsDigit(s[i])
  {
    if s == [] then 0
    else
      assert IsDigit(s[|s| - 1]);
      DigitsValue(s[..|s| - 1]) * 10 + (s[|s| - 1] as int - '0' as int) as nat
  }

  /** Rendering a bound and reading it back gives the bound. */
  lemma {:induction false} NatTextRoundTrip(n: nat)
    ensures DigitsValue(NatText(n)) == n
    decreases n
  {
    var s := NatText(n);
    if n >= 10 {
      NatTextRoundTrip(n / 10);
      assert s[..|s| - 1] == NatText(n / 10);
    }
  }

  /** An integer bound as the template renders it. */
  function IntText(i: int): (s: string)
    ensures |s| > 0
    ensures i >= 0 ==> s == NatText(i)
    ensures i < 0 ==> s[0] == '-' && s[1..] == NatText(-i)
  {
    if i < 0 then "-" + NatText(-i) else NatText(i)
  }

  /** The text shown for a message; numeric parts are the declared bounds. */
  function MessageText(m: FieldMessage): string {
    match m
    case Required => "Este campo es obligatorio"
    case TooShort(n) => "Mínimo " + NatText(n) + " caracteres"
    case TooLong(n) => "Máximo " + NatText(n) + " caracteres"
    case CuitFormat => "CUIT debe ser 11 dígitos sin guiones " + "(ej: 20123456789)"
    case BadFormat => "Formato inválido"
    case BelowMin(b) => "No puede ser menor a " + IntText(b)
    case AboveMax(b) => "No puede ser mayor a " + IntText(b)
  }

  /** The CUIT's length messages name its 11-character bound. */
  lemma CuitLengthTexts(cuit: string)
    ensures 0 < |cuit| < 11 ==> MessageText(MessageFor(Cuit, Text(cuit)).value) == "Mínimo 11 caracteres"
    ensures |cuit| > 11 ==> MessageText(MessageFor(Cuit, Text(cuit)).value) == "Máximo 11 caracteres"
  {
    CuitMessages(Text(cuit));
    BoundTexts();
  }

  /** The day counts' range messages name the bounds 0 and 90. */
  lemma DayCountTexts(days: real)
    ensures days < 0.0 ==> MessageText(MessageFor(TrimestreDiasActividad, Number(days)).value) == "No puede ser menor a 0"
    ensures days > 90.0 ==> MessageText(MessageFor(TrimestreDiasActividad, Number(days)).value) == "No puede ser mayor a 90"
  {
    DayCountMessages(TrimestreDiasActividad, Number(days));
    BoundTexts();
  }

  /** The bounds the form uses, written out. */
  lemma BoundTexts()
    ensures NatText(11) == "11" && IntText(0) == "0" && IntText(90) == "90"
  {
    assert NatText(1) == "1";
    assert NatText(9) == "9";
  }

  // ---------------------------------------------------------------------
  // Section validation, as a specification
  // ---------------------------------------------------------------------

  /** The controls each wizard section checks before advancing. */
  function SectionFields(s: Section): (fields: seq<Field>)
    ensures |fields| > 0
    ensures forall f :: f in fields ==> KindOf(f) != FlagInput
  {
    if s == 1 then [Cuit, NombreEmpresa, Sector, Provincia]
    else if s == 2 then [Ingresos, Gastos, Deuda, Activos, PrestamosSolicitados, PrestamosAprobados]
    else [TrimestreDiasActividad, PromedioLoginDia]
  }

  /** One validation step: a present, invalid control gets its message. */
  function ValidateStep(controls: map<Field, Value>, f: Field, errors: map<Field, FieldMessage>)
    : map<Field, FieldMessage>
  {
    if f in controls && MessageFor(f, controls[f]).Some? then errors[f := MessageFor(f, controls[f]).value]
    else errors
  }

  /** One validation step touches only its own control's entry, and records its message exactly when the control fails. */
  lemma ValidateStepEffect(controls: map<Field, Value>, f: Field, errors: map<Field, FieldMessage>)
    ensures f in ValidateStep(controls, f, errors) <==> f in errors || Failing(controls, f)
    ensures Failing(controls, f) ==> ValidateStep(controls, f, errors)[f] == MessageFor(f, controls[f]).value
    ensures ValidateStep(controls, f, errors) - {f} == errors - {f}
  {
  }

  /** The errors recorded by validating `fields` in order, starting from `errors`. */
  function Validated(controls: map<Field, Value>, fields: seq<Field>, errors: map<Field, FieldMessage>)
    : map<Field, FieldMessage>
    decreases |fields|
  {
    if fields == [] then errors
    else Validated(controls, fields[1..], ValidateStep(controls, fields[0], errors))
  }

  /** A control that is present and invalid. */
  predicate Failing(controls: map<Field, Value>, f: Field) {
    f in controls && Invalid(f, controls[f])
  }

  /**
   * After validating `fields`: a control has an entry exactly when it had one
   * before or it is among `fields` and failing, and a failing validated
   * control carries its own message.
   */
  lemma {:induction false} ValidatedEntries(controls: map<Field, Value>, fields: seq<Field>,
                                            errors: map<Field, FieldMessage>, k: Field)
    ensures k in Validated(controls, fields, errors) <==> k in errors || (k in fields && Failing(controls, k))
    ensures k in fields && Failing(controls, k) ==>
              Validated(controls, fields, errors)[k] == MessageFor(k, controls[k]).value
    ensures k !in fields && k in errors ==> Validated(controls, fields, errors)[k] == errors[k]
    decreases |fields|
  {
    if fields != [] {
      var next := ValidateStep(controls, fields[0], errors);
      ValidatedEntries(controls, fields[1..], next, k);
      assert k in fields <==> k == fields[0] || k in fields[1..];
    }
  }

  /** Validating a list that starts with `f`: validate `f`, then the rest. */
  lemma ValidatedCons(controls: map<Field, Value>, f: Field, rest: seq<Field>, errors: map<Field, FieldMessage>)
    ensures Validated(controls, [f] + rest, errors) == Validated(controls, rest, ValidateStep(controls, f, errors))
  {
    assert ([f] + rest)[1..] == rest;
  }

  /** Validating a section records an entry for exactly its failing controls. */
  lemma SectionErrorsExact(controls: map<Field, Value>, s: Section)
    ensures forall f :: f in Validated(controls, SectionFields(s), map[]) <==> f in SectionFields(s) && Failing(controls, f)
  {
    forall f ensures f in Validated(controls, SectionFields(s), map[]) <==> f in SectionFields(s) && Failing(controls, f) {
      ValidatedEntries(controls, SectionFields(s), map[], f);
    }
  }

  /** Every control of the section passes its validators. */
  predicate SectionValid(controls: map<Field, Value>, s: Section) {
    forall f :: f in SectionFields(s) ==> !Failing(controls, f)
  }

  /** A section's recorded errors are empty exactly when the section is valid. */
  lemma SectionErrorsEmpty(controls: map<Field, Value>, s: Section)
    ensures Validated(controls, SectionFields(s), map[]) == map[] <==> SectionValid(controls, s)
  {
    var errs := Validated(controls, SectionFields(s), map[]);
    if errs == map[] {
      forall f | f in SectionFields(s)
        ensures !Failing(controls, f)
      {
        ValidatedEntries(controls, SectionFields(s), map[], f);
      }
    } else {
      var k :| k in errs;
      ValidatedEntries(controls, SectionFields(s), map[], k);
    }
  }

  /** A reset nulls every control. */
  function ResetControls(controls: map<Field, Value>): (r: map<Field, Value>)
    ensures r.Keys == controls.Keys
    ensures forall f :: f in r ==> r[f] == Null
  {
    map f | f in controls :: Null
  }

  /** After a reset no section can be passed: each has a required control. */
  lemma ResetBlocksEverySection(controls: map<Field, Value>, s: Section)
    requires forall f: Field :: f in controls
    ensures !SectionValid(ResetControls(controls), s)
  {
    var first := SectionFields(s)[0];
    assert first in SectionFields(s);
    assert Failing(ResetControls(controls), first);
  }

  // ---------------------------------------------------------------------
  // Text helpers for the profile
  // ---------------------------------------------------------------------

  /** The characters the script language's trim removes: white space and line terminators. */
  predicate IsTrimmed(c: char) {
    ('\t' <= c <= '\r') || c == ' ' || c == '\U{00A0}' || c == '\U{1680}' || ('\U{2000}' <= c <= '\U{200A}')
    || c == '\U{2028}' || c == '\U{2029}' || c == '\U{202F}' || c == '\U{205F}'
    || c == '\U{3000}' || c == '\U{FEFF}'
  }

  function TrimStart(s: string): (r: string)
    ensures |r| <= |s| && r == s[|s| - |r|..]
    ensures r == [] || !IsTrimmed(r[0])
  {
    if s != [] && IsTrimmed(s[0]) then TrimStart(s[1..]) else s
  }

  function TrimEnd(s: string): (r: string)
    ensures |r| <= |s| && r == s[..|r|]
    ensures r == [] || !IsTrimmed(r[|r| - 1])
  {
    if s != [] && IsTrimmed(s[|s| - 1]) then TrimEnd(s[..|s| - 1]) else s
  }

  /** Both ends stripped of white space. */
  function Trim(s: string): (r: string)
    ensures r == [] || (!IsTrimmed(r[0]) && !IsTrimmed(r[|r| - 1]))
    ensures exists i, j :: 0 <= i <= j <= |s| && r == s[i..j]
  {
    var t := TrimStart(s);
    var r := TrimEnd(t);
    assert r == s[|s| - |t|..|s| - |t| + |r|];
    r
  }

  /** Every character dropped from the front is white space. */
  lemma {:induction false} TrimStartDropsWhiteSpace(s: string)
    ensures forall i :: 0 <= i < |s| - |TrimStart(s)| ==> IsTrimmed(s[i])
  {
    if s != [] && IsTrimmed(s[0]) {
      TrimStartDropsWhiteSpace(s[1..]);
      assert forall i :: 1 <= i < |s| - |TrimStart(s)| ==> s[i] == s[1..][i - 1];
    }
  }

  /** Every character dropped from the back is white space. */
  lemma {:induction false} TrimEndDropsWhiteSpace(s: string)
    ensures forall i :: |TrimEnd(s)| <= i < |s| ==> IsTrimmed(s[i])
  {
    if s != [] && IsTrimmed(s[|s| - 1]) {
      TrimEndDropsWhiteSpace(s[..|s| - 1]);
      assert forall i :: |TrimEnd(s)| <= i < |s| - 1 ==> s[i] == s[..|s| - 1][i];
    }
  }

  /** Trimming what is already trimmed changes nothing. */
  lemma TrimIdempotent(s: string)
    ensures Trim(Trim(s)) == Trim(s)
  {
    var t := Trim(s);
    assert TrimStart(t) == t;
    assert TrimEnd(t) == t;
  }

  /** A string of digits is its own trim. */
  lemma DigitsTrimmed(s: string)
    ensures (forall i :: 0 <= i < |s| ==> IsDigit(s[i])) ==> Trim(s) == s
  {
    if forall i :: 0 <= i < |s| ==> IsDigit(s[i]) {
      assert TrimStart(s) == s;
      assert TrimEnd(s) == s;
    }
  }

  // ---------------------------------------------------------------------
  // Reading the form's values
  // ---------------------------------------------------------------------

  /** The form's values, keyed by control. */
  type FormValues = map<Field, Value>

  /** The value of a control, if the form has it. */
  function Get(form: FormValues, f: Field): Option<Value> {
    if f in form then Some(form[f]) else None
  }

  /** A numeric control read with a fallback of 0 for a missing or null value. */
  function Num(form: FormValues, f: Field): real {
    if f in form && form[f].Number? then form[f].x else 0.0
  }

  /** The truthiness of a control value. */
  predicate Truthy(form: FormValues, f: Field) {
    f in form &&
    match form[f]
    case Null => false
    case Text(s) => s != ""
    case Number(x) => x != 0.0
    case Flag(b) => b
  }

  function Max(a: real, b: real): real {
    if a >= b then a else b
  }

  /** Every control exists and holds a value its input can produce. */
  predicate Fitting(form: FormValues) {
    (forall f: Field :: f in form) && forall f :: f in form ==> Fits(KindOf(f), form[f])
  }

  /** The whole form passes every validator. */
  predicate FormValid(form: FormValues) {
    forall f :: f in form ==> !Invalid(f, form[f])
  }

  /** Every numeric control holds a number. */
  predicate NumbersPresent(form: FormValues) {
    forall f: Field :: KindOf(f) == NumberInput ==> f in form && form[f].Number?
  }

  /** A valid form whose controls fit their inputs has every number filled in. */
  lemma ValidFormHasNumbers(form: FormValues)
    requires Fitting(form) && FormValid(form)
    ensures NumbersPresent(form)
  {
    forall f: Field | KindOf(f) == NumberInput
      ensures f in form && form[f].Number?
    {
      assert RulesOf(f).required;
      assert !Invalid(f, form[f]);
    }
  }

  // ---------------------------------------------------------------------
  // Figures derived while the user types
  // ---------------------------------------------------------------------

  /** Revenue minus expenses, never below zero. */
  function CalculatedMargin(form: FormValues): (m: real)
    ensures m >= 0.0
    ensures m > 0.0 <==> Num(form, Ingresos) > Num(form, Gastos)
    ensures m > 0.0 ==> m == Num(form, Ingresos) - Num(form, Gastos)
  {
    Max(0.0, Num(form, Ingresos) - Num(form, Gastos))
  }

  /** Approved over requested loans, as a percentage; 0 when none were requested. */
  function CreditApprovalRatio(form: FormValues): (r: real)
    ensures Num(form, PrestamosSolicitados) == 0.0 ==> r == 0.0
    ensures Num(form, PrestamosSolicitados) != 0.0 ==>
              r * Num(form, PrestamosSolicitados) == Num(form, PrestamosAprobados) * 100.0
    ensures 0.0 <= Num(form, PrestamosAprobados) <= Num(form, PrestamosSolicitados) ==> 0.0 <= r <= 100.0
  {
    var solicitados := Num(form, PrestamosSolicitados);
    var aprobados := Num(form, PrestamosAprobados);
    if solicitados == 0.0 then 0.0
    else
      ApprovalBounds(aprobados, solicitados);
      aprobados / solicitados * 100.0
  }

  /** Active days as a percentage of the 90-day quarter. */
  function ActivityRatio(form: FormValues): (r: real)
    ensures r * 90.0 == Num(form, TrimestreDiasActividad) * 100.0
    ensures 0.0 <= Num(form, TrimestreDiasActividad) <= 90.0 ==> 0.0 <= r <= 100.0
  {
    Num(form, TrimestreDiasActividad) / 90.0 * 100.0
  }

  /** The number of service flags that are set. */
  function ServicesCount(form: FormValues): (n: int)
    ensures n == CountFlags(Truthy(form, Transferencias), Truthy(form, Pagos),
                            Truthy(form, Creditos), Truthy(form, Inversiones))
    ensures 0 <= n <= 4
  {
    (if Truthy(form, Transferencias) then 1 else 0) + (if Truthy(form, Pagos) then 1 else 0)
    + (if Truthy(form, Creditos) then 1 else 0) + (if Truthy(form, Inversiones) then 1 else 0)
  }

  const Emerald: string := "bg-emerald-500"
  const Amber: string := "bg-amber-500"
  const Red: string := "bg-red-500"

  /** Emerald above 70%, amber above 40%, red otherwise. */
  function ActivityIndicatorColor(form: FormValues): (c: string)
    ensures c == Emerald <==> Num(form, TrimestreDiasActividad) > 63.0
    ensures c == Amber <==> 36.0 < Num(form, TrimestreDiasActividad) <= 63.0
    ensures c == Red <==> Num(form, TrimestreDiasActividad) <= 36.0
  {
    var ratio := ActivityRatio(form);
    if ratio > 70.0 then Emerald
    else if ratio > 40.0 then Amber
    else Red
  }

  /** The progress bar: the section as a share of three. */
  function ProgressPercentage(section: Section): (p: real)
    ensures p * 3.0 == section as real * 100.0
    ensures 0.0 < p <= 100.0
    ensures p == 100.0 <==> section == 3
  {
    section as real / 3.0 * 100.0
  }

  // ---------------------------------------------------------------------
  // Building the service input
  // ---------------------------------------------------------------------

  /** An average ticket: the amount over the count, or the whole amount when the count is below one. */
  function Ticket(amount: real, count: real): (t: real)
    ensures count >= 1.0 ==> t * count == amount
    ensures count < 1.0 ==> t == amount
  {
    amount / Max(count, 1.0)
  }

  /**
   * The scorer input: margin as revenue minus expenses, no cancelled loans,
   * average tickets over at least one loan, a 60-day repayment default and
   * the service count copied from the flags.
   */
  function BuildQuarterlyMetrics(form: FormValues, today: string): (m: QuarterlyMetrics)
    requires NumbersPresent(form)
    ensures m.Periodo_Fiscal == today
    ensures m.financials.MarginConsistent()
    ensures m.services_flags.CountConsistent()
    ensures m.services_flags.Servicios_Utilizados == ServicesCount(form) as real
    ensures m.credit_behavior.Prestamos_Cancelados == 0.0 && m.credit_behavior.Tiempo_Cancelacion_Prestamo == 60.0
    ensures m.credit_behavior.Ticket_Promedio_Solicitado
              == Ticket(m.credit_behavior.Monto_Solicitado, m.credit_behavior.Prestamos_Solicitados)
    ensures m.credit_behavior.Ticket_Promedio_Aprobado
              == Ticket(m.credit_behavior.Monto_Aprobado, m.credit_behavior.Prestamos_Aprobados)
    ensures m.financials.Ingresos == form[Ingresos].x && m.financials.Gastos == form[Gastos].x
    ensures m.app_engagement.Trimestre_Dias_Actividad == form[TrimestreDiasActividad].x
    ensures m.app_engagement.Trimestre_Dias_Inactividad == form[TrimestreDiasInactividad].x
  {
    assert KindOf(Ingresos) == NumberInput && KindOf(Gastos) == NumberInput;
    assert KindOf(TrimestreDiasActividad) == NumberInput && KindOf(TrimestreDiasInactividad) == NumberInput;
    var financials := Financials(Num(form, Ingresos), Num(form, Gastos), Num(form, Ingresos) - Num(form, Gastos),
                                 Num(form, Deuda), Num(form, Activos));
    var credit := CreditBehavior(
      Num(form, PrestamosSolicitados), Num(form, PrestamosAprobados), 0.0, Num(form, PrestamosVigentes),
      Ticket(Num(form, MontoSolicitado), Num(form, PrestamosSolicitados)),
      Ticket(Num(form, MontoAprobado), Num(form, PrestamosAprobados)),
      Num(form, MontoSolicitado), Num(form, MontoAprobado), 60.0);
    var engagement := AppEngagement(
      Num(form, TrimestreDiasActividad), Num(form, TrimestreDiasInactividad),
      Num(form, PromedioLoginDia), Num(form, TotalLoginDia));
    var flags := ServicesFlags(
      Truthy(form, Transferencias), Truthy(form, Pagos), Truthy(form, Creditos), Truthy(form, Inversiones),
      ServicesCount(form) as real);
    QuarterlyMetrics(today, financials, credit, engagement, flags)
  }

  /**
   * The remaining figures are copied from the form: debt, assets, the loan
   * counts and amounts, the login figures and the four service flags, each
   * as its control holds it; the average tickets use the form's amounts and
   * counts.
   */
  lemma BuildCopiesForm(form: FormValues, today: string)
    requires NumbersPresent(form)
    ensures var m := BuildQuarterlyMetrics(form, today);
            KindOf(Deuda) == NumberInput && KindOf(Activos) == NumberInput
            && m.financials.Deuda == form[Deuda].x && m.financials.Activos == form[Activos].x
    ensures var c := BuildQuarterlyMetrics(form, today).credit_behavior;
            KindOf(PrestamosSolicitados) == NumberInput && KindOf(PrestamosAprobados) == NumberInput
            && KindOf(PrestamosVigentes) == NumberInput && KindOf(MontoSolicitado) == NumberInput
            && KindOf(MontoAprobado) == NumberInput
            && c.Prestamos_Solicitados == form[PrestamosSolicitados].x
            && c.Prestamos_Aprobados == form[PrestamosAprobados].x
            && c.Prestamos_Vigentes == form[PrestamosVigentes].x
            && c.Monto_Solicitado == form[MontoSolicitado].x
            && c.Monto_Aprobado == form[MontoAprobado].x
            && c.Ticket_Promedio_Solicitado == Ticket(form[MontoSolicitado].x, form[PrestamosSolicitados].x)
            && c.Ticket_Promedio_Aprobado == Ticket(form[MontoAprobado].x, form[PrestamosAprobados].x)
    ensures var e := BuildQuarterlyMetrics(form, today).app_engagement;
            KindOf(PromedioLoginDia) == NumberInput && KindOf(TotalLoginDia) == NumberInput
            && e.Promedio_Login_Dia == form[PromedioLoginDia].x && e.Total_Login_Dia == form[TotalLoginDia].x
    ensures var f := BuildQuarterlyMetrics(form, today).services_flags;
            f.Transferencias == Truthy(form, Transferencias) && f.Pagos == Truthy(form, Pagos)
            && f.Creditos == Truthy(form, Creditos) && f.Inversiones == Truthy(form, Inversiones)
  {
  }

  /** Metrics built from a form that passes its validators satisfy every documented invariant. */
  lemma ValidFormBuildsWellFormed(form: FormValues, today: string)
    requires NumbersPresent(form) && FormValid(form)
    ensures BuildQuarterlyMetrics(form, today).WellFormed()
  {
    assert KindOf(TrimestreDiasActividad) == NumberInput && KindOf(TrimestreDiasInactividad) == NumberInput;
    assert !Invalid(TrimestreDiasActividad, form[TrimestreDiasActividad]);
    assert !Invalid(TrimestreDiasInactividad, form[TrimestreDiasInactividad]);
  }

  /** The live margin figure is the stored margin, clamped at zero. */
  lemma CalculatedMarginMatchesBuilt(form: FormValues, today: string)
    requires NumbersPresent(form)
    ensures CalculatedMargin(form) == Max(0.0, BuildQuarterlyMetrics(form, today).financials.Margen)
  {
  }

  /** The partial profile kept for export; the CUIT stays a string. */
  datatype ProfileDraft = ProfileDraft(CUIT: string, Nombre_Empresa: string, Sector: string, Provincia: string)

  const NotAvailable: string := "N/A"

  /** The trimmed text, or "N/A" when it is null or trims to nothing. */
  function TrimmedOrNA(v: Option<Value>): (r: string)
    ensures r != ""
    ensures (v.Some? && v.value.Text? && Trim(v.value.s) != "") ==> r == Trim(v.value.s)
    ensures !(v.Some? && v.value.Text? && Trim(v.value.s) != "") ==> r == NotAvailable
    ensures v.Some? && v.value.Text? && ElevenDigits(v.value.s) ==> r == v.value.s
  {
    if v.Some? && v.value.Text? then
      DigitsTrimmed(v.value.s);
      if Trim(v.value.s) != "" then Trim(v.value.s) else NotAvailable
    else
      NotAvailable
  }

  /** The text when it is a non-empty text, or "N/A". */
  function TextOrNA(v: Option<Value>): (r: string)
    ensures r != ""
    ensures (v.Some? && v.value.Text? && v.value.s != "") ==> r == v.value.s
    ensures !(v.Some? && v.value.Text? && v.value.s != "") ==> r == NotAvailable
  {
    if v.Some? && v.value.Text? && v.value.s != "" then v.value.s else NotAvailable
  }

  /** The partial profile: trimmed CUIT and name, sector and province, each "N/A" when empty. */
  function BuildStaticProfile(form: FormValues): (p: ProfileDraft)
    ensures p.CUIT != "" && p.Nombre_Empresa != "" && p.Sector != "" && p.Provincia != ""
    ensures Cuit in form && form[Cuit].Text? && ElevenDigits(form[Cuit].s) ==> p.CUIT == form[Cuit].s
  {
    ProfileDraft(TrimmedOrNA(Get(form, Cuit)), TrimmedOrNA(Get(form, NombreEmpresa)),
                 TextOrNA(Get(form, Sector)), TextOrNA(Get(form, Provincia)))
  }

  /** The stored CUIT and name carry no surrounding white space. */
  lemma ProfileTrimmed(form: FormValues)
    ensures var p := BuildStaticProfile(form);
            Trim(p.CUIT) == p.CUIT && Trim(p.Nombre_Empresa) == p.Nombre_Empresa
  {
    TrimmedOrNAIsTrimmed(Get(form, Cuit));
    TrimmedOrNAIsTrimmed(Get(form, NombreEmpresa));
  }

  /** A trimmed-or-"N/A" text is its own trim. */
  lemma TrimmedOrNAIsTrimmed(v: Option<Value>)
    ensures Trim(TrimmedOrNA(v)) == TrimmedOrNA(v)
  {
    if v.Some? && v.value.Text? && Trim(v.value.s) != "" {
      TrimIdempotent(v.value.s);
    } else {
      NotAvailableTrimmed();
    }
  }

  // ---------------------------------------------------------------------
  // The component
  // ---------------------------------------------------------------------

  class PredictionFormComponent {
    var currentSection: Section
    var controls: map<Field, Value>
    var isLoading: bool
    var showResults: bool
    var predictionResult: Option<PredictionResponse>
    var currentProfile: Option<ProfileDraft>
    var currentMetrics: Option<QuarterlyMetrics>
    var formErrors: map<Field, FieldMessage>

    /** Every control exists and holds a value its input can produce. */
    predicate Valid()
      reads this
    {
      Fitting(controls)
    }

    /** The initial state: empty texts, null numbers, cleared flags, first section. */
    constructor()
      ensures Valid()
      ensures currentSection == 1 && !isLoading && !showResults
      ensures predictionResult.None? && currentProfile.None? && currentMetrics.None? && formErrors == map[]
      ensures forall f: Field :: f in controls && controls[f] == InitialValue(f)
    {
      currentSection := 1;
      controls := map f: Field :: InitialValue(f);
      isLoading := false;
      showResults := false;
      predictionResult := None;
      currentProfile := None;
      currentMetrics := None;
      formErrors := map[];
    }

    // -- validation -------------------------------------------------------

    /** Records the control's message in `errors` when the control is invalid. */
    method ValidateField(fieldName: Field, errors: map<Field, FieldMessage>)
      returns (updated: map<Field, FieldMessage>)
      ensures updated == ValidateStep(controls, fieldName, errors)
    {
      updated := errors;
      if fieldName !in controls {
        return;
      }
      var control := controls[fieldName];
      var rules := RulesOf(fieldName);
      var e := ErrorsOf(rules, control);
      if e.Any() {
        if e.required {
          updated := updated[fieldName := Required];
        } else if e.minlength {
          updated := updated[fieldName := TooShort(rules.minLength.value)];
        } else if e.maxlength {
          updated := updated[fieldName := TooLong(rules.maxLength.value)];
        } else if e.pattern {
          if fieldName == Cuit {
            updated := updated[fieldName := CuitFormat];
          } else {
            updated := updated[fieldName := BadFormat];
          }
        } else if e.min {
          updated := updated[fieldName := BelowMin(rules.min.value)];
        } else if e.max {
          updated := updated[fieldName := AboveMax(rules.max.value)];
        }
      }
    }

    /** Validates the current section's controls, stores the messages and reports whether there were none. */
    method IsValidCurrentSection() returns (valid: bool)
      modifies this`formErrors
      ensures formErrors == Validated(controls, SectionFields(currentSection), map[])
      ensures valid <==> SectionValid(controls, currentSection)
      ensures valid <==> formErrors == map[]
      ensures forall f :: f in formErrors <==> f in SectionFields(currentSection) && Failing(controls, f)
    {
      var errors: map<Field, FieldMessage> := map[];
      ghost var todo := SectionFields(currentSection);
      ghost var target := Validated(controls, todo, map[]);
      match currentSection {
        case 1 =>
          assert todo == [Cuit, NombreEmpresa, Sector, Provincia];
          errors := ValidateField(Cuit, errors);
          todo := todo[1..];
          assert Validated(controls, todo, errors) == target;
          errors := ValidateField(NombreEmpresa, errors);
          todo := todo[1..];
          assert Validated(controls, todo, errors) == target;
          errors := ValidateField(Sector, errors);
          todo := todo[1..];
          assert Validated(controls, todo, errors) == target;
          errors := ValidateField(Provincia, errors);
          todo := todo[1..];
        case 2 =>
          assert todo == [Ingresos, Gastos, Deuda, Activos, PrestamosSolicitados, PrestamosAprobados];
          errors := ValidateField(Ingresos, errors);
          todo := todo[1..];
          assert Validated(controls, todo, errors) == target;
          errors := ValidateField(Gastos, errors);
          todo := todo[1..];
          assert Validated(controls, todo, errors) == target;
          errors := ValidateField(Deuda, errors);
          todo := todo[1..];
          assert Validated(controls, todo, errors) == target;
          errors := ValidateField(Activos, errors);
          todo := todo[1..];
          assert Validated(controls, todo, errors) == target;
          errors := ValidateField(PrestamosSolicitados, errors);
          todo := todo[1..];
          assert Validated(controls, todo, errors) == target;
          errors := ValidateField(PrestamosAprobados, errors);
          todo := todo[1..];
        case 3 =>
          assert todo == [TrimestreDiasActividad, PromedioLoginDia];
          errors := ValidateField(TrimestreDiasActividad, errors);
          todo := todo[1..];
          assert Validated(controls, todo, errors) == target;
          errors := ValidateField(PromedioLoginDia, errors);
          todo := todo[1..];
      }
      assert todo == [] && Validated(controls, todo, errors) == target;
      formErrors := errors;
      SectionErrorsEmpty(controls, currentSection);
      SectionErrorsExact(controls, currentSection);
      valid := |errors| == 0;
    }

    // -- the wizard -------------------------------------------------------

    /** Advances one section, only when the current one validates and is not the last. */
    method NextSection()
      modifies this`currentSection, this`formErrors
      ensures formErrors == Validated(controls, SectionFields(old(currentSection)), map[])
      ensures SectionValid(controls, old(currentSection)) && old(currentSection) < 3 ==>
                currentSection == old(currentSection) + 1
      ensures !(SectionValid(controls, old(currentSection)) && old(currentSection) < 3) ==>
                currentSection == old(currentSection)
    {
      var valid := IsValidCurrentSection();
      if !valid {
        return;
      }
      var currentValue := currentSection;
      if currentValue < 3 {
        currentSection := currentValue + 1;
      }
    }

    /** Goes back one section, unless already on the first. */
    method PrevSection()
      modifies this`currentSection
      ensures old(currentSection) > 1 ==> currentSection == old(currentSection) - 1
      ensures old(currentSection) == 1 ==> currentSection == 1
    {
      var currentValue := currentSection;
      if currentValue > 1 {
        currentSection := currentValue - 1;
      }
    }

    /** Nulls every control and returns to the first section with no result, data or errors. */
    method ResetForm()
      modifies this
      ensures controls == ResetControls(old(controls))
      ensures currentSection == 1 && !showResults
      ensures predictionResult.None? && currentProfile.None? && currentMetrics.None? && formErrors == map[]
      ensures isLoading == old(isLoading)
      ensures old(Valid()) ==> Valid()
    {
      controls := ResetControls(controls);
      currentSection := 1;
      showResults := false;
      predictionResult := None;
      currentProfile := None;
      currentMetrics := None;
      formErrors := map[];
    }

    // -- submission ---------------------------------------------------------

    /**
     * Submits a valid form: marks loading, hides results, keeps the built
     * metrics and profile and returns the metrics sent to the service. An
     * invalid form changes nothing and sends nothing.
     */
    method SubmitPrediction(today: string) returns (request: Option<QuarterlyMetrics>)
      requires Valid()
      modifies this`isLoading, this`showResults, this`currentMetrics, this`currentProfile
      ensures !FormValid(controls) ==> request.None? && unchanged(this)
      ensures FormValid(controls) ==> NumbersPresent(controls) && request == Some(BuildQuarterlyMetrics(controls, today))
      ensures FormValid(controls) ==> request.value.WellFormed()
      ensures FormValid(controls) ==> isLoading && !showResults && currentMetrics == request
                                      && currentProfile == Some(BuildStaticProfile(controls))
    {
      if !FormValid(controls) {
        return None;
      }
      ValidFormHasNumbers(controls);
      var quarterlyData := BuildQuarterlyMetrics(controls, today);
      ValidFormBuildsWellFormed(controls, today);
      var profile := BuildStaticProfile(controls);
      StartRequest(quarterlyData, profile);
      request := Some(quarterlyData);
    }

    /** Marks a request in flight and keeps the metrics and profile that were sent. */
    method StartRequest(metrics: QuarterlyMetrics, profile: ProfileDraft)
      modifies this`isLoading, this`showResults, this`currentMetrics, this`currentProfile
      ensures isLoading && !showResults
      ensures currentMetrics == Some(metrics) && currentProfile == Some(profile)
    {
      isLoading := true;
      showResults := false;
      currentMetrics := Some(metrics);
      currentProfile := Some(profile);
    }

    /** The service answered: keep the reply, show it, stop loading. */
    method OnPredictionResponse(response: PredictionResponse)
      modifies this`predictionResult, this`showResults, this`isLoading
      ensures predictionResult == Some(response) && showResults && !isLoading
    {
      predictionResult := Some(response);
      showResults := true;
      isLoading := false;
    }

    /** The service failed: stop loading, keep everything else. */
    method OnPredictionError()
      modifies this`isLoading
      ensures !isLoading
    {
      isLoading := false;
    }
  }

  /** "N/A" has no surrounding white space. */
  lemma NotAvailableTrimmed()
    ensures Trim(NotAvailable) == NotAvailable
  {
    assert !IsTrimmed(NotAvailable[0]) && !IsTrimmed(NotAvailable[2]);
    assert TrimStart(NotAvailable) == NotAvailable;
    assert TrimEnd(NotAvailable) == NotAvailable;
  }

  /** Approved over requested, as a percentage, stays within 0..100 when approvals do not exceed requests. */
  lemma ApprovalBounds(aprobados: real, solicitados: real)
    requires solicitados != 0.0
    ensures (aprobados / solicitados * 100.0) * solicitados == aprobados * 100.0
    ensures 0.0 <= aprobados <= solicitados ==> 0.0 <= aprobados / solicitados * 100.0 <= 100.0
  {
    if 0.0 <= aprobados <= solicitados {
      assert aprobados / solicitados <= 1.0;
    }
  }
}
