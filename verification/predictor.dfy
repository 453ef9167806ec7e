/** The `PredictorSalarios` object of the simple front-end: a trained flag
    plus the scaler and model it holds. The scikit-learn `StandardScaler`
    and `LinearRegression` are opaque here: a scaler is only its
    `transform`, a model only its `predict`. */
module Predictor {

  import opened Wrappers

  type Vector = seq<real>

  /** A fitted scaler, known only through `transform`. */
  datatype Scaler = Scaler(transform: Vector -> Vector)

  /** A fitted regression model, known only through `predict` on one
      scaled row. */
  datatype Model = Model(predict: Vector -> real)

  /** What one training run produces: the scaler fitted on the training
      split and the model fitted on the scaled training split. The run is
      deterministic (fixed seed for the data, fixed `random_state` for the
      split), so every training run produces the same pair. */
  datatype Fit = Fit(scaler: Scaler, modelo: Model)

  /** `predecir_salario_empleado` and the last step of `predecir_salario`:
      scale the raw row with the scaler, then apply the model. */
  function Apply(m: Model, s: Scaler, x: Vector): real {
    m.predict(s.transform(x))
  }

  /** What one fitted pair predicts for each row in turn. */
  function Predictions(m: Model, s: Scaler, xs: seq<Vector>): (ys: seq<real>)
    ensures |ys| == |xs|
    ensures forall i :: 0 <= i < |xs| ==> ys[i] == Apply(m, s, xs[i])
  {
    seq(|xs|, i requires 0 <= i < |xs| => Apply(m, s, xs[i]))
  }

  /** Predicting a non-empty batch is predicting its first row, then the rest. */
  lemma PredictionsCons(m: Model, s: Scaler, xs: seq<Vector>)
    requires xs != []
    ensures Predictions(m, s, xs) == [Apply(m, s, xs[0])] + Predictions(m, s, xs[1..])
  {
    assert forall i :: 1 <= i < |xs| ==> xs[1..][i - 1] == xs[i];
  }

  datatype Predictor = Predictor(modelo: Option<Model>, scaler: Option<Scaler>, entrenado: bool)

  /** A predictor that claims to be trained holds both a model and a
      scaler. */
  predicate Invariant(p: Predictor) {
    p.entrenado ==> p.modelo.Some? && p.scaler.Some?
  }

  /** The predictor a training run leaves behind. */
  function TrainedWith(fit: Fit): Predictor {
    Predictor(Some(fit.modelo), Some(fit.scaler), true)
  }

  /** `PredictorSalarios()`: untrained, with neither model nor scaler. */
  function New(): (p: Predictor)
    ensures Invariant(p)
    ensures !p.entrenado && p.modelo.None? && p.scaler.None?
  {
    Predictor(None, None, false)
  }

  /** The states `entrenar_modelo` passes through: after the scaler is
      assigned, after the model is assigned, and after the flag is raised.
      Creating the scaler and fitting it in place are one step here, and
      so are creating the model and fitting it: the unfitted objects are
      never used in between. */
  function TrainingStates(p: Predictor, fit: Fit): (states: seq<Predictor>)
    ensures |states| == 3
    ensures Invariant(p) ==> forall i :: 0 <= i < |states| ==> Invariant(states[i])
    ensures states[0].entrenado == p.entrenado && states[1].entrenado == p.entrenado
    ensures states[2] == TrainedWith(fit)
  {
    var s1 := p.(scaler := Some(fit.scaler));
    var s2 := s1.(modelo := Some(fit.modelo));
    var s3 := s2.(entrenado := true);
    [s1, s2, s3]
  }

  /** `entrenar_modelo`: the final state of the training steps, and the
      returned `True`. */
  function Train(p: Predictor, fit: Fit): (r: (Predictor, bool))
    ensures r.1
    ensures r.0 == TrainingStates(p, fit)[2]
    ensures r.0.entrenado && Invariant(r.0)
    ensures r.0.modelo == Some(fit.modelo) && r.0.scaler == Some(fit.scaler)
  {
    var states := TrainingStates(p, fit);
    (states[2], true)
  }

  /** `predecir_salario`: train first if needed, then apply the stored
      scaler and the stored model to the row. */
  function PredictSalary(p: Predictor, fit: Fit, x: Vector): (r: (Predictor, real))
    requires Invariant(p)
    ensures r.0.entrenado && Invariant(r.0)
    ensures p.entrenado ==> r.0 == p
    ensures !p.entrenado ==> r.0 == TrainedWith(fit)
    ensures r.1 == Apply(r.0.modelo.value, r.0.scaler.value, x)
  {
    var q := if p.entrenado then p else Train(p, fit).0;
    (q, Apply(q.modelo.value, q.scaler.value, x))
  }

  /** `predecir_salario` called on each row in turn, threading the
      predictor through the calls. */
  function PredictEach(p: Predictor, fit: Fit, xs: seq<Vector>): (r: (Predictor, seq<real>))
    requires Invariant(p)
    ensures Invariant(r.0) && |r.1| == |xs|
    ensures p.entrenado ==> r.0 == p
    ensures xs != [] ==> r.0.entrenado
    ensures xs != [] && !p.entrenado ==> r.0 == TrainedWith(fit)
    ensures xs != [] ==> r.1 == Predictions(r.0.modelo.value, r.0.scaler.value, xs)
    decreases |xs|
  {
    if xs == [] then (p, [])
    else
      var (q, y) := PredictSalary(p, fit, xs[0]);
      var (q', ys) := PredictEach(q, fit, xs[1..]);
      assert q' == q;
      PredictionsCons(q.modelo.value, q.scaler.value, xs);
      (q', [y] + ys)
  }

  /** Training does not depend on the state it starts from, so retraining
      a trained predictor leaves it as it was. */
  lemma RetrainReproducesState(p: Predictor, fit: Fit)
    ensures Train(p, fit).0 == TrainedWith(fit)
    ensures Train(Train(p, fit).0, fit).0 == Train(p, fit).0
  {
  }

  /** A new predictor asked for a prediction trains itself first and then
      predicts with the trained pair. */
  lemma LazyTrainingOnFirstPrediction(fit: Fit, x: Vector)
    ensures PredictSalary(New(), fit, x).0 == TrainedWith(fit)
    ensures PredictSalary(New(), fit, x).1 == Apply(fit.modelo, fit.scaler, x)
  {
  }
}
