/** `generate_synthetic_salary_data`: the ground-truth salary formula of
    the synthetic dataset. The random draws (four normal samples, two
    Poisson counts and the normal noise of each row) are parameters, so
    generation is a pure function of them. */
module SyntheticData {

  /** The raw random values behind one row, before any clipping. */
  datatype Draw = Draw(
    edad: real,
    experiencia: real,
    educacion: real,
    horas: real,
    proyectos: nat,
    certificaciones: nat,
    ruido: real)

  /** One row of the generated DataFrame; `salario` is the last column. */
  datatype Row = Row(
    edad: real,
    experiencia: real,
    educacion: real,
    horas: real,
    proyectos: nat,
    certificaciones: nat,
    salario: real)

  /** The DataFrame's column names, in order. */
  const Columns: seq<string> := [
    "edad", "experiencia_anos", "educacion_anos", "horas_trabajo",
    "proyectos_completados", "certificaciones", "salario"
  ]

  /** `numpy.clip` with `lo <= hi`: the point of [lo, hi] nearest to `x`. */
  function Clip(x: real, lo: real, hi: real): (r: real)
    requires lo <= hi
    ensures lo <= r <= hi
    ensures lo <= x <= hi ==> r == x
    ensures x < lo ==> r == lo
    ensures hi < x ==> r == hi
  {
    if x < lo then lo else if hi < x then hi else x
  }

  /** Salary before bonuses, age penalty and noise. */
  function BaseSalary(experiencia: real, educacion: real): real {
    30000.0 + experiencia * 2500.0 + educacion * 1500.0
  }

  /** Bonus for completed projects and certifications. */
  function Bonuses(proyectos: int, certificaciones: int): (b: real)
    ensures proyectos >= 0 && certificaciones >= 0 ==> b >= 0.0
    ensures proyectos == 0 && certificaciones == 0 ==> b == 0.0
  {
    proyectos as real * 500.0 + certificaciones as real * 1000.0
  }

  /** Penalty for very young or older employees: 0.8 below 25, 0.9 above
      55, no penalty in between. */
  function AgeFactor(edad: real): (f: real)
    ensures 0.8 <= f <= 1.0
    ensures f == 0.8 <==> edad < 25.0
    ensures f == 0.9 <==> 55.0 < edad
    ensures f == 1.0 <==> 25.0 <= edad <= 55.0
  {
    if edad < 25.0 then 0.8 else if 55.0 < edad then 0.9 else 1.0
  }

  /** The clipped age, experience, education and hours of a draw. */
  function ClipEdad(d: Draw): real { Clip(d.edad, 22.0, 65.0) }
  function ClipExperiencia(d: Draw): real { Clip(d.experiencia, 0.0, 35.0) }
  function ClipEducacion(d: Draw): real { Clip(d.educacion, 12.0, 22.0) }
  function ClipHoras(d: Draw): real { Clip(d.horas, 30.0, 60.0) }

  /** Salary before noise and the final clip: base plus bonuses, scaled by
      the age factor. */
  function GrossSalary(d: Draw): (g: real)
    ensures 38400.0 <= g
  {
    (BaseSalary(ClipExperiencia(d), ClipEducacion(d)) + Bonuses(d.proyectos, d.certificaciones))
      * AgeFactor(ClipEdad(d))
  }

  /** The final salary of a draw: gross salary plus noise, clipped. */
  function Salary(d: Draw): (s: real)
    ensures 25000.0 <= s <= 150000.0
  {
    Clip(GrossSalary(d) + d.ruido, 25000.0, 150000.0)
  }

  /** Every clipped feature lies in its documented range. */
  predicate InRanges(r: Row) {
    && 22.0 <= r.edad <= 65.0
    && 0.0 <= r.experiencia <= 35.0
    && 12.0 <= r.educacion <= 22.0
    && 30.0 <= r.horas <= 60.0
    && 25000.0 <= r.salario <= 150000.0
  }

  /** One row of the dataset from its draws. */
  function GenerateRow(d: Draw): (r: Row)
    ensures InRanges(r)
    ensures r.edad == Clip(d.edad, 22.0, 65.0) && r.experiencia == Clip(d.experiencia, 0.0, 35.0)
    ensures r.educacion == Clip(d.educacion, 12.0, 22.0) && r.horas == Clip(d.horas, 30.0, 60.0)
    ensures r.proyectos == d.proyectos && r.certificaciones == d.certificaciones
    ensures r.salario == Salary(d)
  {
    Row(ClipEdad(d), ClipExperiencia(d), ClipEducacion(d), ClipHoras(d),
        d.proyectos, d.certificaciones, Salary(d))
  }

  /** The whole dataset: one row per draw, in draw order, so `n_samples`
      draws give exactly `n_samples` rows. */
  function Generate(draws: seq<Draw>): (rows: seq<Row>)
    ensures |rows| == |draws|
    ensures forall i :: 0 <= i < |rows| ==> rows[i] == GenerateRow(draws[i])
    ensures forall i :: 0 <= i < |rows| ==> InRanges(rows[i])
    ensures forall i :: 0 <= i < |rows| ==> rows[i].salario == Salary(draws[i])
    ensures forall i :: 0 <= i < |rows| ==> rows[i].proyectos == draws[i].proyectos
    ensures forall i :: 0 <= i < |rows| ==> rows[i].certificaciones == draws[i].certificaciones
  {
    if draws == [] then [] else [GenerateRow(draws[0])] + Generate(draws[1..])
  }

  /** A row's values in column order. */
  function Values(r: Row): (v: seq<real>)
    ensures |v| == |Columns|
    ensures v[|v| - 1] == r.salario
  {
    [r.edad, r.experiencia, r.educacion, r.horas,
     r.proyectos as real, r.certificaciones as real, r.salario]
  }

  /** `data.drop('salario', axis=1)`: the six feature columns. */
  function Features(r: Row): (x: seq<real>)
    ensures |x| == 6
    ensures x == Values(r)[..6]
    ensures x + [r.salario] == Values(r)
  {
    [r.edad, r.experiencia, r.educacion, r.horas,
     r.proyectos as real, r.certificaciones as real]
  }

  /** Clipping twice is clipping once. */
  lemma ClipIdempotent(x: real, lo: real, hi: real)
    requires lo <= hi
    ensures Clip(Clip(x, lo, hi), lo, hi) == Clip(x, lo, hi)
  {
  }

  /** Clipping preserves order. */
  lemma ClipMonotone(x: real, y: real, lo: real, hi: real)
    requires lo <= hi && x <= y
    ensures Clip(x, lo, hi) <= Clip(y, lo, hi)
  {
  }

  /** Base salary rises strictly with experience and with education. */
  lemma BaseSalaryStrictlyIncreasing(e1: real, e2: real, u1: real, u2: real)
    ensures e1 < e2 ==> BaseSalary(e1, u1) < BaseSalary(e2, u1)
    ensures u1 < u2 ==> BaseSalary(e1, u1) < BaseSalary(e1, u2)
  {
  }

  /** Weekly hours never enter the salary: two draws that differ only in
      hours get the same salary. */
  lemma HoursDoNotAffectSalary(d: Draw, horas: real)
    ensures GenerateRow(d.(horas := horas)).salario == GenerateRow(d).salario
  {
    assert GrossSalary(d.(horas := horas)) == GrossSalary(d);
  }

  /** The age factor never raises the salary: the gross salary is at most
      base plus bonuses. */
  lemma AgeFactorNeverRaises(d: Draw)
    ensures GrossSalary(d) <= BaseSalary(ClipExperiencia(d), ClipEducacion(d))
                              + Bonuses(d.proyectos, d.certificaciones)
  {
    var a := BaseSalary(ClipExperiencia(d), ClipEducacion(d)) + Bonuses(d.proyectos, d.certificaciones);
    assert a >= 0.0;
    var f := AgeFactor(ClipEdad(d));
    assert f == 0.8 || f == 0.9 || f == 1.0;
  }

  /** For a draw whose features are already inside their ranges and whose
      noisy salary needs no clipping, the salary is the ground-truth
      formula applied to the raw draws. */
  lemma GroundTruthWithinRanges(d: Draw)
    requires 22.0 <= d.edad <= 65.0 && 0.0 <= d.experiencia <= 35.0
    requires 12.0 <= d.educacion <= 22.0
    requires 25000.0 <= GrossSalary(d) + d.ruido <= 150000.0
    ensures Salary(d) ==
      (30000.0 + 2500.0 * d.experiencia + 1500.0 * d.educacion
       + 500.0 * d.proyectos as real + 1000.0 * d.certificaciones as real)
      * AgeFactor(d.edad) + d.ruido
  {
  }

  /** The salary of every generated row is the ground-truth formula over
      that row's own (clipped) features, plus the noise, clipped to the
      salary range. */
  lemma GroundTruthOfRow(d: Draw)
    ensures var r := GenerateRow(d);
            r.salario ==
              Clip((30000.0 + 2500.0 * r.experiencia + 1500.0 * r.educacion
                    + 500.0 * r.proyectos as real + 1000.0 * r.certificaciones as real)
                   * AgeFactor(r.edad) + d.ruido, 25000.0, 150000.0)
  {
  }

  /** With the age band and the noise fixed, more experience, education,
      projects or certifications never lower the salary. */
  lemma SalaryMonotone(d1: Draw, d2: Draw)
    requires AgeFactor(ClipEdad(d1)) == AgeFactor(ClipEdad(d2)) && d1.ruido == d2.ruido
    requires d1.experiencia <= d2.experiencia && d1.educacion <= d2.educacion
    requires d1.proyectos <= d2.proyectos && d1.certificaciones <= d2.certificaciones
    ensures Salary(d1) <= Salary(d2)
  {
    ClipMonotone(d1.experiencia, d2.experiencia, 0.0, 35.0);
    ClipMonotone(d1.educacion, d2.educacion, 12.0, 22.0);
    var f := AgeFactor(ClipEdad(d1));
    assert f == AgeFactor(ClipEdad(d2));
    var a1 := BaseSalary(ClipExperiencia(d1), ClipEducacion(d1)) + Bonuses(d1.proyectos, d1.certificaciones);
    var a2 := BaseSalary(ClipExperiencia(d2), ClipEducacion(d2)) + Bonuses(d2.proyectos, d2.certificaciones);
    assert a1 <= a2;
    assert a1 * f <= a2 * f by {
      assert f == 0.8 || f == 0.9 || f == 1.0;
    }
    ClipMonotone(GrossSalary(d1) + d1.ruido, GrossSalary(d2) + d2.ruido, 25000.0, 150000.0);
  }
}
