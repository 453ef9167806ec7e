/** The simple front-end: it owns a `PredictorSalarios`, trains it at
    start-up, reads employees without range checks and runs its
    four-option menu, where option "3" retrains. */
module Simple {

  import opened Wrappers
  import opened Console
  import opened SalaryBands
  import opened EmployeeInput
  import opened Predictor

  /** The category printed by `mostrar_resultado`. */
  function Categorize(salario: real): (c: Category)
    ensures InBand(c, salario)
  {
    if salario < 40000.0 then Junior
    else if salario < 60000.0 then Intermedio
    else if salario < 80000.0 then Senior
    else if salario < 100000.0 then Experto
    else MuyExperto
  }

  /** `obtener_datos_empleado` of this front-end: no range checks; the six
      values in prompt order, or `None` once a conversion fails. */
  function Read(e: Entries): (r: Option<Employee>)
    ensures r.Some? <==> FirstFailure(e) == 6
    ensures r.Some? ==> r.value == Entered(e)
  {
    match e.edad
    case None => None
    case Some(edad) =>
      match e.experiencia
      case None => None
      case Some(experiencia) =>
        match e.educacion
        case None => None
        case Some(educacion) =>
          match e.horas
          case None => None
          case Some(horas) =>
            match e.proyectos
            case None => None
            case Some(proyectos) =>
              match e.certificaciones
              case None => None
              case Some(certificaciones) =>
                Some(Employee(edad, experiencia, educacion, horas, proyectos, certificaciones))
  }

  /** One pass of the menu loop: the option typed, the conversions of the
      six answers if option "1" asks for them, and the answer to "another
      prediction?". Inputs an option does not ask for are ignored. */
  datatype Turn = Turn(opcion: string, entradas: Entries, continuar: string)

  /** What a pass of the menu shows. */
  datatype Effect =
    | Predicted(datos: Employee, salario: real, categoria: Category)
    | ReadFailed
    | ShowedExamples(salarios: seq<real>)
    | Retrained
    | SaidGoodbye
    | RejectedOption

  /** A pass of the menu: the predictor afterwards, what was shown, and
      whether the loop goes on. */
  datatype StepResult = StepResult(next: Predictor, effect: Effect, control: Control)

  /** One pass of the `while True` loop of `main`. */
  function Step(p: Predictor, fit: Fit, t: Turn): (r: StepResult)
    requires Invariant(p)
    ensures Invariant(r.next)
    ensures r.control == Exit <==>
              t.opcion == "4" || (t.opcion == "1" && Read(t.entradas).Some? && !WantsAnother(t.continuar))
    ensures t.opcion == "3" ==> r.next == TrainedWith(fit) && r.effect == Retrained
    ensures t.opcion == "1" && Read(t.entradas).None? ==> r == StepResult(p, ReadFailed, Continue)
    ensures t.opcion == "4" ==> r == StepResult(p, SaidGoodbye, Exit)
    ensures t.opcion !in {"1", "2", "3", "4"} ==> r == StepResult(p, RejectedOption, Continue)
    ensures p.entrenado && t.opcion != "3" ==> r.next == p
    ensures t.opcion == "2" ==>
              && r.next.entrenado
              && r.effect == ShowedExamples(Predictions(r.next.modelo.value, r.next.scaler.value, ProfileVectors()))
    ensures t.opcion == "1" && Read(t.entradas).Some? ==>
              var d := Read(t.entradas).value;
              r.next.entrenado &&
              r.effect.Predicted? && r.effect.datos == d &&
              r.effect.salario == Apply(r.next.modelo.value, r.next.scaler.value, AsVector(d)) &&
              r.effect.categoria == Categorize(r.effect.salario)
  {
    if t.opcion == "1" then
      match Read(t.entradas)
      case None => StepResult(p, ReadFailed, Continue)
      case Some(datos) =>
        var (q, salario) := PredictSalary(p, fit, AsVector(datos));
        StepResult(q, Predicted(datos, salario, Categorize(salario)),
                   if WantsAnother(t.continuar) then Continue else Exit)
    else if t.opcion == "2" then
      var (q, salarios) := PredictEach(p, fit, ProfileVectors());
      StepResult(q, ShowedExamples(salarios), Continue)
    else if t.opcion == "3" then StepResult(Train(p, fit).0, Retrained, Continue)
    else if t.opcion == "4" then StepResult(p, SaidGoodbye, Exit)
    else StepResult(p, RejectedOption, Continue)
  }

  /** What the menu loop did with a script of passes: the effect of each
      pass it ran, whether it left the loop (rather than running out of
      input), and the predictor it ended with. */
  datatype Trace = Trace(effects: seq<Effect>, exited: bool, last: Predictor)

  /** The menu loop over a script of passes, threading the predictor. It
      stops right after the first pass that exits and keeps the
      predictor's invariant throughout. */
  function RunMenu(p: Predictor, fit: Fit, turns: seq<Turn>): (r: Trace)
    requires Invariant(p)
    ensures Invariant(r.last)
    ensures |r.effects| <= |turns|
    ensures r.exited ==> |r.effects| > 0
    ensures !r.exited ==> |r.effects| == |turns|
    decreases |turns|
  {
    if turns == [] then Trace([], false, p)
    else
      var step := Step(p, fit, turns[0]);
      if step.control == Exit then Trace([step.effect], true, step.next)
      else
        var rest := RunMenu(step.next, fit, turns[1..]);
        Trace([step.effect] + rest.effects, rest.exited, rest.last)
  }

  /** A menu loop that starts with the predictor trained by `fit` stays
      with exactly that predictor, so every pass it runs does what a
      single pass from that predictor does; every pass but the last
      carries on, and it exited exactly when that last pass exits. */
  lemma {:induction false} RunMenuFromTrained(fit: Fit, turns: seq<Turn>)
    ensures var p := TrainedWith(fit);
            var r := RunMenu(p, fit, turns);
            && r.last == p
            && (forall i :: 0 <= i < |r.effects| ==> r.effects[i] == Step(p, fit, turns[i]).effect)
            && (forall i :: 0 <= i < |r.effects| - 1 ==> Step(p, fit, turns[i]).control == Continue)
            && (r.exited <==> |r.effects| > 0 && Step(p, fit, turns[|r.effects| - 1]).control == Exit)
    decreases |turns|
  {
    var p := TrainedWith(fit);
    if turns != [] {
      var step := Step(p, fit, turns[0]);
      assert step.next == p;
      if step.control == Continue {
        var tail := turns[1..];
        RunMenuFromTrained(fit, tail);
        var rest := RunMenu(p, fit, tail);
        var r := RunMenu(p, fit, turns);
        assert r == Trace([step.effect] + rest.effects, rest.exited, rest.last);
        forall i | 1 <= i < |r.effects|
          ensures r.effects[i] == rest.effects[i - 1] && turns[i] == tail[i - 1]
        {
        }
      }
    }
  }

  /** `main`: a new predictor is trained once, then the menu runs. */
  function RunProgram(fit: Fit, turns: seq<Turn>): (r: Trace)
    ensures r.last == TrainedWith(fit)
    ensures |r.effects| <= |turns|
    ensures !r.exited ==> |r.effects| == |turns|
    ensures forall i :: 0 <= i < |r.effects| ==>
              r.effects[i] == Step(TrainedWith(fit), fit, turns[i]).effect
    ensures forall i :: 0 <= i < |r.effects| - 1 ==>
              Step(TrainedWith(fit), fit, turns[i]).control == Continue
    ensures r.exited <==>
              |r.effects| > 0 && Step(TrainedWith(fit), fit, turns[|r.effects| - 1]).control == Exit
  {
    RunMenuFromTrained(fit, turns);
    RunMenu(Train(New(), fit).0, fit, turns)
  }

  /** In the menu, option "3" retrains and carries on, option "4" leaves,
      and option "1" with a converted employee leaves unless the answer
      is "s" or "S". */
  lemma MenuTransitions(fit: Fit, t: Turn)
    ensures t.opcion == "3" ==>
              Step(TrainedWith(fit), fit, t) == StepResult(TrainedWith(fit), Retrained, Continue)
    ensures t.opcion == "4" ==> Step(TrainedWith(fit), fit, t).control == Exit
    ensures t.opcion == "1" && Read(t.entradas).Some? ==>
              (Step(TrainedWith(fit), fit, t).control == Exit <==> t.continuar != "s" && t.continuar != "S")
  {
    WantsAnotherIff(t.continuar);
  }
}
