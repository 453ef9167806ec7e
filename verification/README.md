# Salary predictor: a Dafny model

This project models the pure logic of a small salary-prediction
repository built on scikit-learn and MLflow:

- the ground-truth formula that synthesises the salary dataset
  (`generate_synthetic_salary_data`);
- the five-band salary category both front-ends print;
- the advisory range warnings of the interactive employee reader;
- the `PredictorSalarios` lifecycle of the simple front-end (untrained /
  trained flag, lazy training, scaler-then-model prediction);
- the two menu loops, as transition functions over the options typed.

The random draws, the fitted scaler and model, the MLflow lookup and the
number parsing are parameters: a `Draw` holds the raw random values of one
row; `Scaler` and `Model` are known only through `transform` and
`predict`; a `Fit` is the pair one training run produces; `Entries` holds
what each `float(...)`/`int(...)` conversion gave (`None` for a
`ValueError`); the MLflow load is a function from run id to an optional
model and an optional scaler. Both front-ends' prompts end with a `Turn`
record giving the option typed and the answers that option asks for.

Modules, one per concern:

| file | module | models |
|---|---|---|
| wrappers.dfy | Wrappers | `Option` for Python's `None` results |
| console.dfy | Console | `str.strip()`, `str.lower()`, the "s/n" answer, loop control |
| salary_bands.dfy | SalaryBands | categories and a table-driven definition of each band |
| employee_input.dfy | EmployeeInput | the employee vector, prompt order, conversions, example profiles |
| synthetic_data.dfy | SyntheticData | generate_synthetic_data.py |
| predictor.dfy | Predictor | `PredictorSalarios` in prediccion_simple.py |
| interactive.dfy | Interactive | prediccion_interactiva.py |
| simple.dfy | Simple | the front-end functions of prediccion_simple.py |
| cross_checks.dfy | CrossChecks | agreement between the duplicated pieces |

The code keeps a mutable predictor with a trained flag and calls
scikit-learn for scaling, fitting and scoring; the model follows it.

## Model

| member | source | states |
|---|---|---|
| SyntheticData.Clip | generate_synthetic_data.py:12-15 | the clipped value lies in [lo, hi], is unchanged when already inside, and is the nearer bound otherwise |
| SyntheticData.ClipIdempotent | generate_synthetic_data.py:34 | clipping an already clipped value changes nothing |
| SyntheticData.ClipMonotone | generate_synthetic_data.py:12-15 | clipping preserves order |
| SyntheticData.BaseSalaryStrictlyIncreasing | generate_synthetic_data.py:21 | base salary rises strictly with experience and with education |
| SyntheticData.Bonuses | generate_synthetic_data.py:24-25 | project and certification bonuses are non-negative for non-negative counts and zero for zero counts |
| SyntheticData.AgeFactor | generate_synthetic_data.py:28 | the factor is in [0.8, 1.0]; it is 0.8 exactly below 25, 0.9 exactly above 55, 1.0 exactly on [25, 55] |
| SyntheticData.AgeFactorNeverRaises | generate_synthetic_data.py:28-31 | the age penalty never raises the salary above base plus bonuses |
| SyntheticData.GroundTruthWithinRanges | generate_synthetic_data.py:21-34 | for in-range draws needing no salary clip, salary is (30000 + 2500·exp + 1500·edu + 500·projects + 1000·certs)·factor + noise |
| SyntheticData.GroundTruthOfRow | generate_synthetic_data.py:12-34 | every generated row's salary is the ground-truth formula over that row's clipped features and age factor, plus the noise, clipped to [25000, 150000] |
| SyntheticData.Salary | generate_synthetic_data.py:31-34 | every final salary lies in [25000, 150000] |
| SyntheticData.GrossSalary | generate_synthetic_data.py:31 | base plus bonuses scaled by the age factor is at least 38400 (0.8 × the lowest base, 48000) |
| SyntheticData.GenerateRow | generate_synthetic_data.py:12-34 | each real feature is its draw clipped to its range, counts are the draws, salary is the clipped salary, and all lie in range |
| SyntheticData.Generate | generate_synthetic_data.py:37-47 | n draws give exactly n rows, row i generated from draw i, each in range |
| SyntheticData.Values | generate_synthetic_data.py:37-45 | a row has one value per column and `salario` is the last |
| SyntheticData.Features | prediccion_simple.py:25-26 | the features are the row's values without the last column, and adding the salary back gives the row |
| SyntheticData.HoursDoNotAffectSalary | generate_synthetic_data.py:15-34 | changing only the weekly hours leaves the salary unchanged |
| SyntheticData.SalaryMonotone | generate_synthetic_data.py:21-34 | with the age band and noise fixed, salary never falls as experience, education, projects or certifications grow |
| SalaryBands.BandsDisjoint | prediccion_interactiva.py:97-106 | no salary lies in two bands |
| Interactive.Categorize | prediccion_interactiva.py:97-106 | the category's band, per the threshold table, contains the salary |
| Interactive.CategorizeMonotone | prediccion_interactiva.py:97-106 | a higher salary never gets a lower category |
| Interactive.CategorizeBoundaries | prediccion_interactiva.py:97-106 | 40000 is Intermedio, 100000 is Muy Experto, each boundary belongs to the band above |
| Interactive.Acceptable | prediccion_interactiva.py:47-67 | the range test of each field (closed intervals for the four reals, non-negativity for the two counts); a definition, pinned by `Interactive.WarningsFor`, `Interactive.ZeroCountsAreSilent` and `CrossChecks.GeneratedRowsRaiseNoWarnings` |
| Interactive.WarningsFor | prediccion_interactiva.py:46-68 | a field is warned about iff it was reached, converted and out of range; warnings keep prompt order |
| Interactive.Read | prediccion_interactiva.py:42-74 | the employee is returned iff all six conversions succeed, equals the values entered in order, and each field warns iff reached and outside its closed range; no partial vector on a failure |
| Interactive.ZeroCountsAreSilent | prediccion_interactiva.py:62-68 | for both projects and certifications, zero raises no warning, a negative count does, and neither is rejected |
| Interactive.Begin | prediccion_interactiva.py:197-212 | a blank run id ends the session, a missing model or scaler ends it, otherwise the stripped id's model and scaler are used |
| Interactive.Step | prediccion_interactiva.py:215-246 | the pass exits iff "4" or "1" with a read employee and an answer other than s; "1" predicts scaler-then-model and categorises, or reports the failed reading; "2" shows the examples, "3" the training hint, "4" says goodbye; unknown options continue |
| Interactive.RunMenu | prediccion_interactiva.py:215-246 | the loop runs at most one pass per turn, every turn unless it exits, and an exit comes from a pass it ran |
| Interactive.RunMenuFollowsStep | prediccion_interactiva.py:215-246 | each pass the loop runs has the effect a single pass has, every pass before the last continues, and the loop exited exactly when the last pass exits |
| Interactive.RunSession | prediccion_interactiva.py:183-246 | the menu runs iff the start loaded a model and scaler, and then with them |
| Interactive.MenuExitAndRejection | prediccion_interactiva.py:240-246 | "4" ends the loop at once; an unknown option is answered and the loop goes on |
| Console.IsSpace | prediccion_interactiva.py:197 | the characters Python's `str.isspace` accepts, which `strip()` removes; a definition, used by the contracts of `Console.Strip` and `Console.StripEmptyIffBlank` |
| Console.TrimStart | prediccion_interactiva.py:197 | leading whitespace only is dropped |
| Console.TrimEnd | prediccion_interactiva.py:197 | trailing whitespace only is dropped |
| Console.Strip | prediccion_interactiva.py:197 | the stripped id is the slice of the input after its whitespace prefix, everything outside it is whitespace, and it neither starts nor ends with whitespace |
| Console.StripEmptyIffBlank | prediccion_interactiva.py:197-199 | a run id strips to empty iff it is all whitespace |
| Console.WantsAnotherIff | prediccion_interactiva.py:226-228 | only "s" and "S" ask for another prediction |
| EmployeeInput.AsVector | prediccion_interactiva.py:24 | the row passed to the scaler is the six values in prompt order, counts as reals |
| EmployeeInput.FirstFailure | prediccion_interactiva.py:46-74 | every prompt before it converted, the one at it did not |
| EmployeeInput.Entered | prediccion_interactiva.py:70 | the returned list holds exactly the converted values |
| Predictor.Apply | prediccion_interactiva.py:19-32 | a prediction is the model applied to the scaler's output for the raw row; a definition over the opaque scaler and model, used by the contracts of `Predictor.PredictSalary`, `Predictor.PredictEach` and both `Step`s |
| Predictor.New | prediccion_simple.py:10-13 | a new predictor is untrained with no model and no scaler |
| Predictor.TrainingStates | prediccion_simple.py:34-47 | the flag stays as it was until both scaler and model are assigned; every intermediate state keeps the invariant |
| Predictor.Train | prediccion_simple.py:15-54 | training returns True and leaves the predictor trained with the fitted model and scaler |
| Predictor.PredictSalary | prediccion_simple.py:56-74 | an untrained predictor is trained first, a trained one is unchanged, and the result is the stored model applied to the stored scaler's output |
| Predictor.PredictEach | prediccion_simple.py:151-152 | one prediction per row, the i-th being the trained pair applied to the i-th row, all from the same trained pair |
| Predictor.RetrainReproducesState | prediccion_simple.py:22-47 | training ignores the prior state, so retraining is idempotent |
| Predictor.LazyTrainingOnFirstPrediction | prediccion_simple.py:63-72 | the first prediction of a new predictor trains it and uses the fitted pair |
| Simple.Categorize | prediccion_simple.py:121-130 | the category's band contains the salary |
| Simple.Read | prediccion_simple.py:84-98 | no range checks: the six values in order, or None on a failed conversion |
| Simple.Step | prediccion_simple.py:178-204 | the pass exits iff "4" or "1" with a read employee and an answer other than s; "1" with a read employee predicts and categorises it, and with a failed read reports it and changes nothing; "2" predicts all five profiles with the trained pair; "3" retrains; "4" says goodbye and changes nothing; unknown options change nothing; the invariant holds |
| Simple.RunMenu | prediccion_simple.py:169-204 | the loop keeps the predictor's invariant, runs at most one pass per turn, runs every turn unless it exits, and an exit comes from a pass it ran |
| Simple.RunMenuFromTrained | prediccion_simple.py:169-204 | from the predictor trained by the fit the loop keeps exactly that predictor, each pass has the effect a single pass from it has, every pass before the last carries on, and the loop exited exactly when the last pass exits |
| Simple.RunProgram | prediccion_simple.py:155-204 | after the start-up training the predictor stays trained by the fit, every pass has the effect it has on that predictor, and the loop stops right after the first exiting pass |
| Simple.MenuTransitions | prediccion_simple.py:180-201 | "3" retrains and continues, "4" exits, "1" exits unless the answer is s or S |
| CrossChecks.CategorizeAgrees | prediccion_simple.py:121-130 | both front-ends give every salary the same category |
| CrossChecks.ExamplesAgree | prediccion_simple.py:135-153 | option "2" shows the same five predictions as the interactive front-end's examples for the same fitted pair |
| CrossChecks.ReadersAgree | prediccion_simple.py:87-98 | both readers return the same employee, or both None |
| CrossChecks.GeneratedRowsRaiseNoWarnings | prediccion_interactiva.py:46-60 | typing any generated row prints no warning and returns the row's features |
| CrossChecks.FeatureOrderMatchesInput | prediccion_simple.py:25 | the training feature order is the order the predictors receive |

## Left out

- Random draws and `np.random.seed(42)`: each row's raw draws and noise are a `Draw` parameter; the normal and Poisson distributions are not modelled.
- Rounding of output columns to one and two decimals: float formatting, not modelled; the model's rows carry the unrounded values.
- CSV writing, `describe()` and `save_synthetic_data`: file output and printing.
- scikit-learn: `train_test_split`, `StandardScaler`, `LinearRegression` and the metrics are library code; the fitted scaler and model are opaque functions and a training run is the fixed `Fit` it yields. The MSE and R² that `entrenar_modelo` prints are not modelled.
- An exception inside scikit-learn during training, which would leave the predictor part-updated, is not modelled.
- MLflow: `cargar_modelo_entrenado` is the `load` parameter of `Interactive.Begin`; its printing and exception handling are folded into its optional results.
- mlflow_regression_example.py and ejemplo_uso_modelo.py are not part of this model: training-run logging, artefact saving and a duplicate prediction wrapper.
- Every `print` and the "press Enter" prompts, whose answers are ignored by the code.
- End of input or an interrupt while a prompt waits: a menu run that uses up its script simply reports that it did not exit.
- The scikit-learn fit, split and metrics and the MLflow save and load are opaque, so nothing is proved about them.
- Floating point: values are reals, so `float('nan')` and infinities, which convert without error, are not modelled.
- Console.Lower: lower-cases ASCII letters only; `WantsAnotherIff` holds for Python's full Unicode `lower()` as well, since no other character lower-cases to "s".
- Predictor.PredictSalary: requires the predictor's invariant (trained implies model and scaler set); the code would fail on an object flagged trained without them, which no code path produces.
- Simple.RunMenu: relates each effect to `Simple.Step` (in `Simple.RunMenuFromTrained`) only for a predictor trained by the fit, the only state `main` reaches; for other starting states it states the invariant and the stopping shape only.
