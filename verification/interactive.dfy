/** The interactive front-end: it loads a model and scaler by run id,
    reads employees with advisory range warnings, categorises the
    predicted salary and runs the four-option menu. */
module Interactive {

  import opened Wrappers
  import opened Console
  import opened SalaryBands
  import opened EmployeeInput
  import opened Predictor

  /** The category printed by `mostrar_resultado_prediccion`. */
  function Categorize(salario: real): (c: Category)
    ensures InBand(c, salario)
  {
    if salario < 40000.0 then Junior
    else if salario < 60000.0 then Intermedio
    else if salario < 80000.0 then Senior
    else if salario < 100000.0 then Experto
    else MuyExperto
  }

  /** A higher salary never gets a lower category. */
  lemma CategorizeMonotone(s1: real, s2: real)
    requires s1 <= s2
    ensures Rank(Categorize(s1)) <= Rank(Categorize(s2))
  {
  }

  /** The boundaries belong to the band above them. */
  lemma CategorizeBoundaries()
    ensures Categorize(39999.99) == Junior
    ensures Categorize(40000.0) == Intermedio
    ensures Categorize(60000.0) == Senior
    ensures Categorize(80000.0) == Experto
    ensures Categorize(99999.99) == Experto
    ensures Categorize(100000.0) == MuyExperto
  {
  }

  /** The documented range check of one converted field: the closed
      intervals [22,65], [0,35], [12,22] and [30,60] for the real values,
      and non-negativity for the two counts. */
  predicate Acceptable(e: Entries, f: Field)
    requires Parsed(e, f)
  {
    match f
    case Edad => 22.0 <= e.edad.value <= 65.0
    case Experiencia => 0.0 <= e.experiencia.value <= 35.0
    case Educacion => 12.0 <= e.educacion.value <= 22.0
    case Horas => 30.0 <= e.horas.value <= 60.0
    case Proyectos => e.proyectos.value >= 0
    case Certificaciones => e.certificaciones.value >= 0
  }

  /** What `obtener_datos_empleado` produces: the warnings printed, in
      prompt order, and the employee returned, or `None` after a
      `ValueError`. */
  datatype Reading = Reading(warnings: seq<Field>, data: Option<Employee>)

  /** Whether the prompt for `f` prints its range warning: it was reached,
      its answer converted, and the value is outside the documented range. */
  predicate Warned(e: Entries, f: Field) {
    Position(f) < FirstFailure(e) && !Acceptable(e, f)
  }

  /** A sequence of fields listed in strictly increasing prompt order. */
  predicate InPromptOrder(fs: seq<Field>) {
    forall i, j :: 0 <= i < j < |fs| ==> Position(fs[i]) < Position(fs[j])
  }

  /** The warnings printed while going through the prompts `fs` in turn: a
      prompt is checked only if it was reached and converted, and warns
      when its value is outside the documented range. */
  function WarningsFor(e: Entries, fs: seq<Field>): (w: seq<Field>)
    ensures forall f :: f in w <==> f in fs && Warned(e, f)
    ensures InPromptOrder(fs) ==> InPromptOrder(w)
    decreases |fs|
  {
    if fs == [] then []
    else
      var f := fs[0];
      var rest := WarningsFor(e, fs[1..]);
      if Warned(e, f) then
        assert InPromptOrder(fs) ==> forall g :: g in rest ==> Position(f) < Position(g);
        [f] + rest
      else rest
  }

  /** `obtener_datos_empleado`: the six prompts in order; an out-of-range
      value prints a warning but is kept, and the first failed conversion
      ends the reading with `None`. */
  function Read(e: Entries): (r: Reading)
    ensures r.data.Some? <==> FirstFailure(e) == 6
    ensures r.data.Some? ==> r.data.value == Entered(e)
    ensures forall f :: f in r.warnings <==> Position(f) < FirstFailure(e) && !Acceptable(e, f)
    ensures InPromptOrder(r.warnings)
  {
    FieldsListed();
    var k := FirstFailure(e);
    Reading(WarningsFor(e, Fields), if k == 6 then Some(Entered(e)) else None)
  }

  /** A count of zero is accepted without a warning, a negative one is
      warned about, and neither is rejected. */
  lemma ZeroCountsAreSilent(e: Entries)
    requires FirstFailure(e) == 6
    ensures e.proyectos.value == 0 ==> Proyectos !in Read(e).warnings
    ensures e.proyectos.value < 0 ==> Proyectos in Read(e).warnings
    ensures e.certificaciones.value == 0 ==> Certificaciones !in Read(e).warnings
    ensures e.certificaciones.value < 0 ==> Certificaciones in Read(e).warnings
    ensures Read(e).data == Some(Entered(e))
  {
  }

  /** How the start of `main` ends: no run id, a failed load, or a loaded
      model and scaler with which the menu runs. */
  datatype Start = NoRunId | LoadFailed | Loaded(modelo: Model, scaler: Scaler)

  /** `main` up to the menu: the typed run id is stripped; an empty one
      ends the session; otherwise `load` (the MLflow lookup of
      `cargar_modelo_entrenado`, `None` for an artefact it could not load)
      gets the stripped id, and a missing model or scaler ends the session. */
  function Begin(rawRunId: string, load: string -> (Option<Model>, Option<Scaler>)): (r: Start)
    ensures r.NoRunId? <==> forall i :: 0 <= i < |rawRunId| ==> IsSpace(rawRunId[i])
    ensures r.LoadFailed? <==>
              && Strip(rawRunId) != []
              && (load(Strip(rawRunId)).0.None? || load(Strip(rawRunId)).1.None?)
    ensures r.Loaded? ==> load(Strip(rawRunId)) == (Some(r.modelo), Some(r.scaler))
  {
    StripEmptyIffBlank(rawRunId);
    var runId := Strip(rawRunId);
    if runId == [] then NoRunId
    else
      var (modelo, scaler) := load(runId);
      if modelo.None? || scaler.None? then LoadFailed
      else Loaded(modelo.value, scaler.value)
  }

  /** One pass of the menu loop: the option typed, the conversions of the
      six answers if option "1" asks for them, and the answer to "another
      prediction?". Inputs an option does not ask for are ignored. */
  datatype Turn = Turn(opcion: string, entradas: Entries, continuar: string)

  /** What a pass of the menu shows. */
  datatype Effect =
    | Predicted(warnings: seq<Field>, datos: Employee, salario: real, categoria: Category)
    | ReadFailed(warnings: seq<Field>)
    | ShowedExamples(salarios: seq<real>)
    | ShowedTrainingHint
    | SaidGoodbye
    | RejectedOption

  datatype StepResult = StepResult(effect: Effect, control: Control)

  /** The predictions of `mostrar_ejemplos_predefinidos`, one per profile. */
  function ExampleSalaries(m: Model, s: Scaler): (ys: seq<real>)
    ensures |ys| == |Profiles|
    ensures forall i :: 0 <= i < |ys| ==> ys[i] == Apply(m, s, AsVector(Profiles[i]))
  {
    Predictions(m, s, ProfileVectors())
  }

  /** One pass of the `while True` loop of `main`. */
  function Step(m: Model, s: Scaler, t: Turn): (r: StepResult)
    ensures r.control == Exit <==>
              t.opcion == "4" || (t.opcion == "1" && Read(t.entradas).data.Some? && !WantsAnother(t.continuar))
    ensures t.opcion == "1" && Read(t.entradas).data.Some? ==>
              var d := Read(t.entradas).data.value;
              var y := Apply(m, s, AsVector(d));
              r.effect == Predicted(Read(t.entradas).warnings, d, y, Categorize(y))
    ensures t.opcion == "1" && Read(t.entradas).data.None? ==>
              r.effect == ReadFailed(Read(t.entradas).warnings)
    ensures t.opcion == "2" ==> r.effect == ShowedExamples(ExampleSalaries(m, s))
    ensures t.opcion == "3" ==> r.effect == ShowedTrainingHint
    ensures t.opcion == "4" ==> r.effect == SaidGoodbye
    ensures t.opcion !in {"1", "2", "3", "4"} ==> r == StepResult(RejectedOption, Continue)
  {
    if t.opcion == "1" then
      var reading := Read(t.entradas);
      match reading.data
      case None => StepResult(ReadFailed(reading.warnings), Continue)
      case Some(datos) =>
        var salario := Apply(m, s, AsVector(datos));
        var effect := Predicted(reading.warnings, datos, salario, Categorize(salario));
        StepResult(effect, if WantsAnother(t.continuar) then Continue else Exit)
    else if t.opcion == "2" then StepResult(ShowedExamples(ExampleSalaries(m, s)), Continue)
    else if t.opcion == "3" then StepResult(ShowedTrainingHint, Continue)
    else if t.opcion == "4" then StepResult(SaidGoodbye, Exit)
    else StepResult(RejectedOption, Continue)
  }

  /** What the menu loop did with a script of passes: the effect of each
      pass it ran, and whether it left the loop (rather than running out
      of input). */
  datatype Trace = Trace(effects: seq<Effect>, exited: bool)

  /** The menu loop over a script of passes. It runs at most one pass per
      turn, every turn unless it exits, and an exit comes from a pass it
      ran. */
  function RunMenu(m: Model, s: Scaler, turns: seq<Turn>): (r: Trace)
    ensures |r.effects| <= |turns|
    ensures r.exited ==> |r.effects| > 0
    ensures !r.exited ==> |r.effects| == |turns|
    decreases |turns|
  {
    if turns == [] then Trace([], false)
    else
      var step := Step(m, s, turns[0]);
      if step.control == Exit then Trace([step.effect], true)
      else
        var rest := RunMenu(m, s, turns[1..]);
        Trace([step.effect] + rest.effects, rest.exited)
  }

  /** Each pass the menu loop runs has the effect a single pass has;
      every pass before the last continued, and the loop exited exactly
      when the last pass exits. */
  lemma {:induction false} RunMenuFollowsStep(m: Model, s: Scaler, turns: seq<Turn>)
    ensures var r := RunMenu(m, s, turns);
            && (forall i :: 0 <= i < |r.effects| ==> r.effects[i] == Step(m, s, turns[i]).effect)
            && (forall i :: 0 <= i < |r.effects| - 1 ==> Step(m, s, turns[i]).control == Continue)
            && (r.exited <==> |r.effects| > 0 && Step(m, s, turns[|r.effects| - 1]).control == Exit)
  {
    RunMenuEffects(m, s, turns);
    RunMenuControl(m, s, turns);
  }

  /** The effects half of `RunMenuFollowsStep`. */
  lemma {:induction false} RunMenuEffects(m: Model, s: Scaler, turns: seq<Turn>)
    ensures var r := RunMenu(m, s, turns);
            forall i :: 0 <= i < |r.effects| ==> r.effects[i] == Step(m, s, turns[i]).effect
    decreases |turns|
  {
    if turns != [] {
      var step := Step(m, s, turns[0]);
      if step.control == Continue {
        var tail := turns[1..];
        RunMenuEffects(m, s, tail);
        var rest := RunMenu(m, s, tail);
        var r := RunMenu(m, s, turns);
        assert r.effects == [step.effect] + rest.effects;
        forall i | 1 <= i < |r.effects|
          ensures r.effects[i] == rest.effects[i - 1] && turns[i] == tail[i - 1]
        {
        }
      }
    }
  }

  /** The control half of `RunMenuFollowsStep`. */
  lemma {:induction false} RunMenuControl(m: Model, s: Scaler, turns: seq<Turn>)
    ensures var r := RunMenu(m, s, turns);
            && (forall i :: 0 <= i < |r.effects| - 1 ==> Step(m, s, turns[i]).control == Continue)
            && (r.exited <==> |r.effects| > 0 && Step(m, s, turns[|r.effects| - 1]).control == Exit)
    decreases |turns|
  {
    if turns != [] {
      var step := Step(m, s, turns[0]);
      if step.control == Continue {
        var tail := turns[1..];
        RunMenuControl(m, s, tail);
        var rest := RunMenu(m, s, tail);
        var r := RunMenu(m, s, turns);
        assert r == Trace([step.effect] + rest.effects, rest.exited);
        assert |r.effects| == 1 + |rest.effects|;
        forall i | 1 <= i < |r.effects|
          ensures turns[i] == tail[i - 1]
        {
        }
      }
    }
  }

  /** The whole session of `main`. */
  datatype Session = EndedBeforeMenu(reason: Start) | Ran(trace: Trace)

  function RunSession(rawRunId: string, load: string -> (Option<Model>, Option<Scaler>),
                      turns: seq<Turn>): (r: Session)
    ensures r.EndedBeforeMenu? <==> !Begin(rawRunId, load).Loaded?
    ensures r.Ran? ==> r.trace == RunMenu(Begin(rawRunId, load).modelo, Begin(rawRunId, load).scaler, turns)
  {
    match Begin(rawRunId, load)
    case Loaded(m, s) => Ran(RunMenu(m, s, turns))
    case reason => EndedBeforeMenu(reason)
  }

  /** Option "4" ends the loop at once; an unrecognised option is answered
      and the loop carries on with the next pass. */
  lemma {:induction false} MenuExitAndRejection(m: Model, s: Scaler, t: Turn, rest: seq<Turn>)
    ensures t.opcion == "4" ==> RunMenu(m, s, [t] + rest) == Trace([SaidGoodbye], true)
    ensures t.opcion !in {"1", "2", "3", "4"} ==>
              RunMenu(m, s, [t] + rest) == Trace([RejectedOption] + RunMenu(m, s, rest).effects,
                                                 RunMenu(m, s, rest).exited)
  {
    assert ([t] + rest)[1..] == rest;
  }
}
