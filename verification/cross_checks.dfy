/** Facts that relate the modules to one another: the two front-ends
    agree where the code is duplicated, and the generator's rows fit the
    interactive front-end's documented ranges and its input order. */
module CrossChecks {

  import opened Wrappers
  import opened SalaryBands
  import opened EmployeeInput
  import Predictor
  import SyntheticData
  import Interactive
  import Simple

  /** The two front-ends use the same category thresholds. */
  lemma CategorizeAgrees(salario: real)
    ensures Simple.Categorize(salario) == Interactive.Categorize(salario)
  {
  }

  /** The two readers return the same employee (or both `None`); only the
      interactive one prints warnings. */
  lemma ReadersAgree(e: Entries)
    ensures Interactive.Read(e).data == Simple.Read(e)
  {
  }

  /** Option "2" shows the same five predictions in both front-ends when
      they hold the same fitted scaler and model. */
  lemma ExamplesAgree(fit: Predictor.Fit, t: Simple.Turn)
    requires t.opcion == "2"
    ensures Simple.Step(Predictor.TrainedWith(fit), fit, t).effect
              == Simple.ShowedExamples(Interactive.ExampleSalaries(fit.modelo, fit.scaler))
  {
  }

  /** A generated row as the employee the front-ends would read. */
  function EmployeeOf(r: SyntheticData.Row): Employee {
    Employee(r.edad, r.experiencia, r.educacion, r.horas, r.proyectos, r.certificaciones)
  }

  /** The conversions that typing a generated row's values would give. */
  function EntriesOf(r: SyntheticData.Row): Entries {
    Entries(Some(r.edad), Some(r.experiencia), Some(r.educacion), Some(r.horas),
            Some(r.proyectos), Some(r.certificaciones))
  }

  /** The generator's clipping ranges are the interactive front-end's
      documented ranges: typing any generated row prints no warning and
      returns that row's features. */
  lemma GeneratedRowsRaiseNoWarnings(d: SyntheticData.Draw)
    ensures Interactive.Read(EntriesOf(SyntheticData.GenerateRow(d))).warnings == []
    ensures Interactive.Read(EntriesOf(SyntheticData.GenerateRow(d))).data
              == Some(EmployeeOf(SyntheticData.GenerateRow(d)))
  {
  }

  /** The training features (`data.drop('salario', axis=1)`) are in the
      same order as the rows the predictors are asked about. */
  lemma FeatureOrderMatchesInput(r: SyntheticData.Row)
    ensures SyntheticData.Features(r) == AsVector(EmployeeOf(r))
  {
  }
}
