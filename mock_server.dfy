/** The mock diagnosis service: its Data Quality Score rubric, the validation
    chain of `POST /api/diagnosis`, the role-to-process table and the ROI
    estimate, and the handler that strings them together. */
module MockServer {
  import opened Wrappers
  import opened Js
  import opened Plans
  import opened Processes

  /** The fields of a `POST /api/diagnosis` body that the handler reads, each
      as JSON decoding left it (`prepInfo` is never read). */
  datatype DiagnosisBody = DiagnosisBody(
    empresa: JsValue,
    rol: JsValue,
    horas: JsValue,
    presupuesto: JsValue,
    problema: JsValue,
    plan: JsValue)

  /** `DiagnosisFormData`: a body that passed validation, with its typed fields. */
  datatype FormData = FormData(
    empresa: string,
    rol: string,
    horas: real,
    presupuesto: string,
    problema: string,
    plan: Plan)

  datatype Tier = Bronze | Silver | Gold

  /** What `calculateDQS` returns: the score, its tier and the score as a
      percentage string. */
  datatype Dqs = Dqs(score: int, tier: Tier, accuracy: string)

  /** Why a body was refused with a 400. */
  datatype Reason =
    | EmptyField(field: Field)
    | HorasMissing
    | HorasOutOfRange
    | ProblemaTooShort
    | PlanUnknown

  /** An error response: a 400 for a body that fails validation, or the 500
      the handler's `catch` sends when something throws. */
  datatype Failure = BadRequest(reason: Reason) | InternalError {
    function Status(): int {
      if BadRequest? then 400 else 500
    }

    /** The `error` string of the response body. */
    function Error(): string {
      match this
      case InternalError => "Internal server error"
      case BadRequest(EmptyField(f)) => "Missing or empty field: " + FieldName(f)
      case BadRequest(HorasMissing) => "Missing field: horas"
      case BadRequest(HorasOutOfRange) => "Field horas must be a number between 1 and 40"
      case BadRequest(ProblemaTooShort) => "Field problema must be at least 20 characters"
      case BadRequest(PlanUnknown) => "Field plan must be \"mini\" or \"pro\""
    }
  }

  /** The handler's answer: the diagnosis (its `timestamp` and its `message`
      left out) or an error response. */
  datatype Reply =
    | Diagnosis(dqsScore: int, tier: Tier, accuracy: string, estimatedRoi: real, processes: seq<string>,
                processingTime: string)
    | Rejected(failure: Failure)

  // ---------------------------------------------------------------------
  // The DQS rubric
  // ---------------------------------------------------------------------

  /** The five fields whose presence makes up completeness. */
  datatype Field = Empresa | Rol | Horas | Presupuesto | Problema

  /** The field's key in the request body. */
  function FieldName(f: Field): string {
    match f
    case Empresa => "empresa"
    case Rol => "rol"
    case Horas => "horas"
    case Presupuesto => "presupuesto"
    case Problema => "problema"
  }

  const RequiredFields: seq<Field> := [Empresa, Rol, Horas, Presupuesto, Problema]

  /** Whether `String(value).trim().length > 0` for the field's value; a
      number always prints as a non-empty string, so `horas` always counts. */
  predicate IsFilled(data: FormData, f: Field) {
    match f
    case Empresa => !Blank(data.empresa)
    case Rol => !Blank(data.rol)
    case Horas => true
    case Presupuesto => !Blank(data.presupuesto)
    case Problema => !Blank(data.problema)
  }

  /** How many of `fields` are filled. */
  function CountFilled(data: FormData, fields: seq<Field>): (n: nat)
    ensures n <= |fields|
  {
    if fields == [] then 0
    else CountFilled(data, fields[..|fields| - 1]) + (if IsFilled(data, fields[|fields| - 1]) then 1 else 0)
  }

  // The sub-checks the rubric rewards, each worth a half of its dimension.
  predicate EmpresaLong(data: FormData) { Utf16Length(data.empresa) >= 3 }
  predicate RolGiven(data: FormData) { Utf16Length(data.rol) > 0 }
  predicate HorasInRange(data: FormData) { 1.0 <= data.horas <= 40.0 }
  predicate ProblemaLong(data: FormData) { Utf16Length(data.problema) >= 20 }
  predicate PresupuestoGiven(data: FormData) { Utf16Length(data.presupuesto) > 0 }

  /** What the rubric sees of a form: the outcome of each sub-check and how
      many of the required fields are filled. */
  datatype Rubric = Rubric(
    empresaLong: bool,
    rolGiven: bool,
    filledFields: nat,
    horasInRange: bool,
    problemaLong: bool,
    presupuestoGiven: bool)

  function RubricOf(data: FormData): (r: Rubric)
    ensures 1 <= r.filledFields <= |RequiredFields|
  {
    CountFilledFindsOne(data, RequiredFields, 2);
    Rubric(EmpresaLong(data), RolGiven(data), CountFilled(data, RequiredFields),
           HorasInRange(data), ProblemaLong(data), PresupuestoGiven(data))
  }

  /** The points a sub-check is worth when it passes. */
  function Weight(passes: bool, points: nat): nat {
    if passes then points else 0
  }

  /** The score in whole points, as a reference for the weighted sum: with the
      weights 30, 25, 20, 15 and 10 points, a half of accuracy is worth 15, a
      filled field (a fifth of completeness) 5, a half of consistency 10,
      timeliness (always 1) 15 and a half of validity 5. */
  function Points(r: Rubric): int {
    Weight(r.empresaLong, 15) + Weight(r.rolGiven, 15)
    + 5 * r.filledFields
    + Weight(r.horasInRange, 10) + Weight(r.problemaLong, 10)
    + 15
    + Weight(r.horasInRange, 5) + Weight(r.presupuestoGiven, 5)
  }

  /** The score of a form. Whatever the form, it lies in [20, 100]:
      timeliness is fixed at 1 and `horas` always counts as filled. */
  function DqsPoints(data: FormData): (p: int)
    ensures 20 <= p <= 100
  {
    Points(RubricOf(data))
  }

  lemma {:induction false} CountFilledFindsOne(data: FormData, fields: seq<Field>, k: nat)
    requires k < |fields| && IsFilled(data, fields[k])
    ensures CountFilled(data, fields) >= 1
  {
    if k < |fields| - 1 {
      CountFilledFindsOne(data, fields[..|fields| - 1], k);
    }
  }

  lemma {:induction false} CountFilledAll(data: FormData, fields: seq<Field>)
    requires forall i :: 0 <= i < |fields| ==> IsFilled(data, fields[i])
    ensures CountFilled(data, fields) == |fields|
  {
    if fields != [] {
      CountFilledAll(data, fields[..|fields| - 1]);
    }
  }

  /** `requiredFields.filter(...).length`: how many of the five required
      fields are filled. */
  method CountFilledFields(data: FormData) returns (filledFields: nat)
    ensures filledFields == CountFilled(data, RequiredFields)
  {
    filledFields := 0;
    for i := 0 to |RequiredFields|
      invariant filledFields == CountFilled(data, RequiredFields[..i])
    {
      assert RequiredFields[..i + 1][..i] == RequiredFields[..i];
      if IsFilled(data, RequiredFields[i]) {
        filledFields := filledFields + 1;
      }
    }
    assert RequiredFields[..|RequiredFields|] == RequiredFields;
  }

  /** The source's weighted sum of the sub-scores of a rubric, scaled to
      points, equals the reference sum. */
  lemma WeightedSumInPoints(r: Rubric, accuracy: real, completeness: real, consistency: real, timeliness: real, validity: real)
    requires accuracy * 30.0 == (Weight(r.empresaLong, 15) + Weight(r.rolGiven, 15)) as real
    requires completeness == r.filledFields as real / 5.0
    requires consistency * 20.0 == (Weight(r.horasInRange, 10) + Weight(r.problemaLong, 10)) as real
    requires timeliness == 1.0
    requires validity * 10.0 == (Weight(r.horasInRange, 5) + Weight(r.presupuestoGiven, 5)) as real
    ensures (accuracy * 0.3 + completeness * 0.25 + consistency * 0.2 + timeliness * 0.15 + validity * 0.1) * 100.0
            == Points(r) as real
  {
  }

  /** The first half of `calculateDQS`: the weighted sum of the five
      sub-scores, as a fraction of 1, computed as the source computes it. */
  method WeightedDqs(data: FormData) returns (dqs: real)
    ensures dqs * 100.0 == DqsPoints(data) as real
  {
    var accuracyScore: real :=
      (if EmpresaLong(data) then 0.5 else 0.0) + (if RolGiven(data) then 0.5 else 0.0);

    var filledFields := CountFilledFields(data);
    var completenessScore: real := filledFields as real / |RequiredFields| as real;

    var consistencyScore: real := 0.0;
    if HorasInRange(data) {
      consistencyScore := consistencyScore + 0.5;
    }
    if ProblemaLong(data) {
      consistencyScore := consistencyScore + 0.5;
    }

    var timelinessScore: real := 1.0;

    var validityScore: real := 0.0;
    if HorasInRange(data) {
      validityScore := validityScore + 0.5;
    }
    if PresupuestoGiven(data) {
      validityScore := validityScore + 0.5;
    }

    dqs :=
      accuracyScore * 0.3
      + completenessScore * 0.25
      + consistencyScore * 0.2
      + timelinessScore * 0.15
      + validityScore * 0.1;
    ghost var rubric := RubricOf(data);
    assert accuracyScore * 30.0 == (Weight(rubric.empresaLong, 15) + Weight(rubric.rolGiven, 15)) as real;
    assert consistencyScore * 20.0 == (Weight(rubric.horasInRange, 10) + Weight(rubric.problemaLong, 10)) as real;
    assert validityScore * 10.0 == (Weight(rubric.horasInRange, 5) + Weight(rubric.presupuestoGiven, 5)) as real;
    WeightedSumInPoints(rubric, accuracyScore, completenessScore, consistencyScore, timelinessScore, validityScore);
  }

  /** `calculateDQS`: the weighted sum, converted to 0-100 with `Math.round`,
      tiered and printed as a percentage. */
  method CalculateDqs(data: FormData) returns (result: Dqs)
    ensures result.score == DqsPoints(data)
    ensures 20 <= result.score <= 100
    ensures result.tier == Gold <==> result.score >= 85
    ensures result.tier == Silver <==> 70 <= result.score < 85
    ensures result.tier == Bronze <==> result.score < 70
    ensures result.accuracy == NatToString(result.score) + "%"
  {
    var dqs := WeightedDqs(data);
    var score := Round(dqs * 100.0);

    var tier: Tier;
    if score >= 85 {
      tier := Gold;
    } else if score >= 70 {
      tier := Silver;
    } else {
      tier := Bronze;
    }

    result := Dqs(score, tier, NatToString(score) + "%");
  }

  /** Every sub-check `r` passes, `r'` passes too, and it has no fewer
      filled fields. */
  predicate NoFewer(r: Rubric, r': Rubric) {
    && (r.empresaLong ==> r'.empresaLong)
    && (r.rolGiven ==> r'.rolGiven)
    && r.filledFields <= r'.filledFields
    && (r.horasInRange ==> r'.horasInRange)
    && (r.problemaLong ==> r'.problemaLong)
    && (r.presupuestoGiven ==> r'.presupuestoGiven)
  }

  /** `r'` passes a sub-check that `r` fails, or has more filled fields. */
  predicate OneMore(r: Rubric, r': Rubric) {
    || (!r.empresaLong && r'.empresaLong)
    || (!r.rolGiven && r'.rolGiven)
    || r.filledFields < r'.filledFields
    || (!r.horasInRange && r'.horasInRange)
    || (!r.problemaLong && r'.problemaLong)
    || (!r.presupuestoGiven && r'.presupuestoGiven)
  }

  /** Passing a sub-check never lowers the score, and passing one more
      raises it: every sub-check carries a positive weight. */
  lemma PointsMonotone(r: Rubric, r': Rubric)
    requires NoFewer(r, r')
    ensures Points(r) <= Points(r')
    ensures OneMore(r, r') ==> Points(r) < Points(r')
  {
  }

  /** Every sub-check `data` passes, `data'` passes too. */
  predicate PassesNoFewer(data: FormData, data': FormData) {
    && (EmpresaLong(data) ==> EmpresaLong(data'))
    && (RolGiven(data) ==> RolGiven(data'))
    && (HorasInRange(data) ==> HorasInRange(data'))
    && (ProblemaLong(data) ==> ProblemaLong(data'))
    && (PresupuestoGiven(data) ==> PresupuestoGiven(data'))
    && (forall f :: IsFilled(data, f) ==> IsFilled(data', f))
  }

  /** `data'` passes some sub-check that `data` fails. */
  predicate PassesOneMore(data: FormData, data': FormData) {
    || (!EmpresaLong(data) && EmpresaLong(data'))
    || (!RolGiven(data) && RolGiven(data'))
    || (!HorasInRange(data) && HorasInRange(data'))
    || (!ProblemaLong(data) && ProblemaLong(data'))
    || (!PresupuestoGiven(data) && PresupuestoGiven(data'))
    || (exists f :: !IsFilled(data, f) && IsFilled(data', f))
  }

  lemma {:induction false} CountFilledMonotone(data: FormData, data': FormData, fields: seq<Field>)
    requires forall f :: IsFilled(data, f) ==> IsFilled(data', f)
    ensures CountFilled(data, fields) <= CountFilled(data', fields)
    ensures (exists i :: 0 <= i < |fields| && !IsFilled(data, fields[i]) && IsFilled(data', fields[i]))
            ==> CountFilled(data, fields) < CountFilled(data', fields)
  {
    if fields != [] {
      var init := fields[..|fields| - 1];
      CountFilledMonotone(data, data', init);
      if exists i :: 0 <= i < |fields| && !IsFilled(data, fields[i]) && IsFilled(data', fields[i]) {
        var i :| 0 <= i < |fields| && !IsFilled(data, fields[i]) && IsFilled(data', fields[i]);
        if i < |fields| - 1 {
          assert init[i] == fields[i];
        }
      }
    }
  }

  /** A form that passes no fewer sub-checks has a rubric no worse, and one
      that passes one more has a rubric strictly better. */
  lemma RubricMonotone(data: FormData, data': FormData)
    requires PassesNoFewer(data, data')
    ensures NoFewer(RubricOf(data), RubricOf(data'))
    ensures PassesOneMore(data, data') ==> OneMore(RubricOf(data), RubricOf(data'))
  {
    CountFilledMonotone(data, data', RequiredFields);
    if exists f :: !IsFilled(data, f) && IsFilled(data', f) {
      var f :| !IsFilled(data, f) && IsFilled(data', f);
      var i := match f
        case Empresa => 0 case Rol => 1 case Horas => 2 case Presupuesto => 3 case Problema => 4;
      assert RequiredFields[i] == f;
    }
  }

  /** Filling a field or passing a sub-check never lowers the score of a
      form, and doing so where the form failed raises it. */
  lemma DqsMonotone(data: FormData, data': FormData)
    requires PassesNoFewer(data, data')
    ensures DqsPoints(data) <= DqsPoints(data')
    ensures PassesOneMore(data, data') ==> DqsPoints(data) < DqsPoints(data')
  {
    RubricMonotone(data, data');
    PointsMonotone(RubricOf(data), RubricOf(data'));
  }

  // ---------------------------------------------------------------------
  // Validation of POST /api/diagnosis
  // ---------------------------------------------------------------------

  /** A string that is not blank: what `v && v.trim().length > 0` accepts. */
  predicate NonBlankText(v: JsValue) {
    v.Text? && !Blank(v.s)
  }

  /** The response when `!v || v.trim().length === 0` holds for a field: a
      400 naming the field, except that a truthy value that is not a string
      has no `trim` method, so the call throws and the handler answers 500. */
  function TextFieldFailure(v: JsValue, field: Field): Failure {
    if Truthy(v) && !v.Text? then InternalError else BadRequest(EmptyField(field))
  }

  /** One validation step: whether the body passes it, and the response sent
      when it does not. */
  datatype Check = Check(passes: bool, failure: Failure)

  /** The handler's eight checks, in the order it makes them. */
  function Checks(body: DiagnosisBody): seq<Check> {
    [ Check(NonBlankText(body.empresa), TextFieldFailure(body.empresa, Empresa)),
      Check(NonBlankText(body.rol), TextFieldFailure(body.rol, Rol)),
      Check(!body.horas.Undefined? && !body.horas.Null?, BadRequest(HorasMissing)),
      Check(body.horas.Number? && 1.0 <= body.horas.n <= 40.0, BadRequest(HorasOutOfRange)),
      Check(NonBlankText(body.presupuesto), TextFieldFailure(body.presupuesto, Presupuesto)),
      Check(NonBlankText(body.problema), TextFieldFailure(body.problema, Problema)),
      Check(body.problema.Text? && Utf16Length(body.problema.s) >= 20, BadRequest(ProblemaTooShort)),
      Check(body.plan == Text("mini") || body.plan == Text("pro"), BadRequest(PlanUnknown)) ]
  }

  /** The failure of the first check at or after `from` that does not
      pass, if any. */
  function FirstFailure(checks: seq<Check>, from: nat): Option<Failure>
    decreases |checks| - from
  {
    if from >= |checks| then None
    else if !checks[from].passes then Some(checks[from].failure)
    else FirstFailure(checks, from + 1)
  }

  /** `FirstFailure` finds nothing exactly when every check passes, and
      otherwise reports a failing check all of whose predecessors pass. */
  lemma {:induction false} FirstFailureIsFirst(checks: seq<Check>, from: nat)
    requires from <= |checks|
    ensures FirstFailure(checks, from).None? <==> forall i :: from <= i < |checks| ==> checks[i].passes
    ensures FirstFailure(checks, from).Some? ==>
      exists i :: from <= i < |checks| && !checks[i].passes && checks[i].failure == FirstFailure(checks, from).value
                  && forall j :: from <= j < i ==> checks[j].passes
    decreases |checks| - from
  {
    if from < |checks| && checks[from].passes {
      FirstFailureIsFirst(checks, from + 1);
    }
  }

  /** `if (!v || v.trim().length === 0) return 400`, for a text field: the
      string when it is not blank, the field's failure otherwise. */
  function RequireText(v: JsValue, field: Field): (r: Result<string, Failure>)
    ensures r.Success? <==> NonBlankText(v)
    ensures r.Success? ==> r.value == v.s
    ensures r.Failure? ==> r.error == TextFieldFailure(v, field)
  {
    if !Truthy(v) then Failure(BadRequest(EmptyField(field)))
    else if !v.Text? then Failure(InternalError)
    else if Blank(v.s) then Failure(BadRequest(EmptyField(field)))
    else Success(v.s)
  }

  /** The two checks on `horas`: present, then a number in [1, 40]. */
  function RequireHoras(v: JsValue): (r: Result<real, Failure>)
    ensures r.Success? <==> v.Number? && 1.0 <= v.n <= 40.0
    ensures r.Success? ==> r.value == v.n
    ensures r.Failure? ==>
      r.error == BadRequest(if v.Undefined? || v.Null? then HorasMissing else HorasOutOfRange)
  {
    if v.Undefined? || v.Null? then Failure(BadRequest(HorasMissing))
    else if !v.Number? || v.n < 1.0 || v.n > 40.0 then Failure(BadRequest(HorasOutOfRange))
    else Success(v.n)
  }

  /** `plan` must be one of the strings "mini" and "pro". */
  function RequirePlan(v: JsValue): (r: Result<Plan, Failure>)
    ensures r.Success? <==> v == Text("mini") || v == Text("pro")
    ensures r.Success? ==> v == Text(if r.value == Pro then "pro" else "mini")
    ensures r.Failure? ==> r.error == BadRequest(PlanUnknown)
  {
    if !Truthy(v) || (v != Text("mini") && v != Text("pro")) then Failure(BadRequest(PlanUnknown))
    else Success(if v == Text("pro") then Pro else Mini)
  }

  /** The validation chain of `POST /api/diagnosis`: each check returns early
      with its error, and a body that passes them all becomes form data. */
  function Validate(body: DiagnosisBody): (r: Result<FormData, Failure>)
    ensures r.Success? ==>
      && body.empresa == Text(r.value.empresa)
      && body.rol == Text(r.value.rol)
      && body.horas == Number(r.value.horas)
      && body.presupuesto == Text(r.value.presupuesto)
      && body.problema == Text(r.value.problema)
      && body.plan == Text(if r.value.plan == Pro then "pro" else "mini")
  {
    var empresa :- RequireText(body.empresa, Empresa);
    var rol :- RequireText(body.rol, Rol);
    var horas :- RequireHoras(body.horas);
    var presupuesto :- RequireText(body.presupuesto, Presupuesto);
    var problema :- RequireText(body.problema, Problema);
    if Utf16Length(problema) < 20 then Failure(BadRequest(ProblemaTooShort))
    else
      var plan :- RequirePlan(body.plan);
      Success(FormData(empresa, rol, horas, presupuesto, problema, plan))
  }

  /** The handler answers a body with the failure of the first of its eight
      checks that fails, in the order of `Checks`, and accepts a body exactly
      when all eight pass. */
  lemma ValidationOrder(body: DiagnosisBody)
    ensures Validate(body).Failure? <==> FirstFailure(Checks(body), 0).Some?
    ensures Validate(body).Failure? ==> FirstFailure(Checks(body), 0) == Some(Validate(body).error)
    ensures Validate(body).Success? <==> forall i :: 0 <= i < |Checks(body)| ==> Checks(body)[i].passes
  {
    var cs := Checks(body);
    FirstFailureIsFirst(cs, 0);
    var empresa := RequireText(body.empresa, Empresa);
    assert cs[0].passes == empresa.Success?;
    assert FirstFailure(cs, 0) == if !cs[0].passes then Some(cs[0].failure) else FirstFailure(cs, 1);
    if empresa.Failure? {
      assert Validate(body) == Failure(empresa.error);
      return;
    }
    var rol := RequireText(body.rol, Rol);
    assert cs[1].passes == rol.Success?;
    assert FirstFailure(cs, 1) == if !cs[1].passes then Some(cs[1].failure) else FirstFailure(cs, 2);
    if rol.Failure? {
      assert Validate(body) == Failure(rol.error);
      return;
    }
    var horas := RequireHoras(body.horas);
    assert cs[2].passes && cs[3].passes <==> horas.Success?;
    assert FirstFailure(cs, 2) == if !cs[2].passes then Some(cs[2].failure) else FirstFailure(cs, 3);
    assert FirstFailure(cs, 3) == if !cs[3].passes then Some(cs[3].failure) else FirstFailure(cs, 4);
    if horas.Failure? {
      assert Validate(body) == Failure(horas.error);
      return;
    }
    var presupuesto := RequireText(body.presupuesto, Presupuesto);
    assert cs[4].passes == presupuesto.Success?;
    assert FirstFailure(cs, 4) == if !cs[4].passes then Some(cs[4].failure) else FirstFailure(cs, 5);
    if presupuesto.Failure? {
      assert Validate(body) == Failure(presupuesto.error);
      return;
    }
    var problema := RequireText(body.problema, Problema);
    assert cs[5].passes == problema.Success?;
    assert FirstFailure(cs, 5) == if !cs[5].passes then Some(cs[5].failure) else FirstFailure(cs, 6);
    if problema.Failure? {
      assert Validate(body) == Failure(problema.error);
      return;
    }
    assert cs[6].passes == (Utf16Length(problema.value) >= 20);
    assert FirstFailure(cs, 6) == if !cs[6].passes then Some(cs[6].failure) else FirstFailure(cs, 7);
    if Utf16Length(problema.value) < 20 {
      assert Validate(body) == Failure(BadRequest(ProblemaTooShort));
      return;
    }
    var plan := RequirePlan(body.plan);
    assert cs[7].passes == plan.Success?;
    assert FirstFailure(cs, 7) == if !cs[7].passes then Some(cs[7].failure) else FirstFailure(cs, 8);
    if plan.Failure? {
      assert Validate(body) == Failure(plan.error);
      return;
    }
    assert Validate(body) == Success(FormData(empresa.value, rol.value, horas.value, presupuesto.value, problema.value, plan.value));
  }

  // ---------------------------------------------------------------------
  // The handler
  // ---------------------------------------------------------------------

  /** `Math.ceil((Math.random() * 2000 + 1000) / 1000)`, for the random draw
      `random` in [0, 1): two or three seconds, and one only on a draw of 0. */
  function ProcessingSeconds(random: real): (seconds: int)
    requires 0.0 <= random < 1.0
    ensures 1 <= seconds <= 3
    ensures seconds == 1 <==> random == 0.0
    ensures (seconds - 1) as real < (random * 2000.0 + 1000.0) / 1000.0 <= seconds as real
  {
    -((-((random * 2000.0 + 1000.0) / 1000.0)).Floor)
  }

  /** How many processes a plan gets: one for mini, five for pro. */
  function ProcessCount(plan: Plan): int {
    if plan == Pro then 5 else 1
  }

  /** Every body that passes validation fills all five fields, has `horas` in
      range, a long enough `problema` and a `presupuesto`: its score is 100
      when `empresa` has at least three code units and 85 otherwise. */
  lemma ValidatedRequestScore(body: DiagnosisBody)
    requires Validate(body).Success?
    ensures DqsPoints(Validate(body).value) == if EmpresaLong(Validate(body).value) then 100 else 85
  {
    var data := Validate(body).value;
    ValidationOrder(body);
    var cs := Checks(body);
    assert cs[0].passes && cs[1].passes && cs[3].passes && cs[4].passes && cs[5].passes && cs[6].passes;
    CountFilledAll(data, RequiredFields);
  }

  /** `POST /api/diagnosis`, with `random` the draw of `Math.random()`: the
      first failing check's error; a 500 when the role is an inherited key;
      and otherwise a Gold diagnosis scoring 85 or 100, with the role's
      processes cut to the plan's count and the ROI of the hours. */
  method Diagnose(body: DiagnosisBody, random: real) returns (reply: Reply)
    requires 0.0 <= random < 1.0
    ensures Validate(body).Failure? ==> reply == Rejected(Validate(body).error)
    ensures Validate(body).Success? && InheritedRole(Validate(body).value.rol) ==> reply == Rejected(InternalError)
    ensures Validate(body).Success? && !InheritedRole(Validate(body).value.rol) ==>
      var data := Validate(body).value;
      && reply.Diagnosis?
      && reply.dqsScore == DqsPoints(data) == (if EmpresaLong(data) then 100 else 85)
      && reply.tier == Gold
      && reply.accuracy == NatToString(reply.dqsScore) + "%"
      && reply.estimatedRoi == EstimateRoi(data.horas)
      && 530.0 <= reply.estimatedRoi <= 1700.0
      && reply.processes <= RoleList(data.rol)
      && |reply.processes| == (if data.plan == Mini then 1 else if data.rol in ProcessesByRole then 5 else 3)
      && reply.processingTime == NatToString(ProcessingSeconds(random)) + " seconds"
  {
    var validated := Validate(body);
    if validated.Failure? {
      return Rejected(validated.error);
    }
    var data := validated.value;
    var dqs := CalculateDqs(data);
    var processes := GetProcessesByRole(data.rol, ProcessCount(data.plan));
    if processes.None? {
      return Rejected(InternalError);
    }
    var estimatedRoi := EstimateRoi(data.horas);
    var seconds := ProcessingSeconds(random);
    ValidatedRequestScore(body);
    RoleListLengths(data.rol);
    reply := Diagnosis(dqs.score, dqs.tier, dqs.accuracy, estimatedRoi, processes.value,
                       NatToString(seconds) + " seconds");
  }
}
