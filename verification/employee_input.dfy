/** The six values a user types for one employee, in the order both
    front-ends ask for them and return them:
    [edad, experiencia, educacion, horas, proyectos, certificaciones]. */
module EmployeeInput {

  import opened Wrappers

  /** One employee as entered: four `float` values and two `int` counts. */
  datatype Employee = Employee(
    edad: real,
    experiencia: real,
    educacion: real,
    horas: real,
    proyectos: int,
    certificaciones: int)

  /** `np.array([datos])`: the counts become floats, the order is kept. */
  function AsVector(e: Employee): (v: seq<real>)
    ensures |v| == 6
    ensures v[0] == e.edad && v[1] == e.experiencia && v[2] == e.educacion && v[3] == e.horas
    ensures v[4] == e.proyectos as real && v[5] == e.certificaciones as real
  {
    [e.edad, e.experiencia, e.educacion, e.horas, e.proyectos as real, e.certificaciones as real]
  }

  /** The six prompts, in the order they are asked. */
  datatype Field = Edad | Experiencia | Educacion | Horas | Proyectos | Certificaciones

  function Position(f: Field): nat {
    match f
    case Edad => 0
    case Experiencia => 1
    case Educacion => 2
    case Horas => 3
    case Proyectos => 4
    case Certificaciones => 5
  }

  /** What the six `float(input(...))` / `int(input(...))` conversions
      yield: `None` where the text typed is not a number of that kind. */
  datatype Entries = Entries(
    edad: Option<real>,
    experiencia: Option<real>,
    educacion: Option<real>,
    horas: Option<real>,
    proyectos: Option<int>,
    certificaciones: Option<int>)

  /** All six prompts, in the order they are asked. */
  const Fields: seq<Field> := [Edad, Experiencia, Educacion, Horas, Proyectos, Certificaciones]

  /** `Fields` lists every prompt, each at its own position. */
  lemma FieldsListed()
    ensures forall f :: f in Fields
    ensures forall i :: 0 <= i < |Fields| ==> Position(Fields[i]) == i
  {
    forall f: Field ensures f in Fields {
      assert Fields[Position(f)] == f;
    }
  }

  predicate Parsed(e: Entries, f: Field) {
    match f
    case Edad => e.edad.Some?
    case Experiencia => e.experiencia.Some?
    case Educacion => e.educacion.Some?
    case Horas => e.horas.Some?
    case Proyectos => e.proyectos.Some?
    case Certificaciones => e.certificaciones.Some?
  }

  /** Position of the first prompt whose answer does not convert, or 6 if
      all of them do. The first failing conversion raises `ValueError`,
      so no later prompt is ever shown. */
  function FirstFailure(e: Entries): (k: nat)
    ensures k <= 6
    ensures forall f :: Position(f) < k ==> Parsed(e, f)
    ensures forall f :: Position(f) == k ==> !Parsed(e, f)
  {
    if e.edad.None? then 0
    else if e.experiencia.None? then 1
    else if e.educacion.None? then 2
    else if e.horas.None? then 3
    else if e.proyectos.None? then 4
    else if e.certificaciones.None? then 5
    else 6
  }

  /** The employee made of the six converted values, in prompt order. */
  function Entered(e: Entries): (emp: Employee)
    requires FirstFailure(e) == 6
    ensures e.edad == Some(emp.edad) && e.experiencia == Some(emp.experiencia)
    ensures e.educacion == Some(emp.educacion) && e.horas == Some(emp.horas)
    ensures e.proyectos == Some(emp.proyectos) && e.certificaciones == Some(emp.certificaciones)
  {
    Employee(e.edad.value, e.experiencia.value, e.educacion.value, e.horas.value,
             e.proyectos.value, e.certificaciones.value)
  }

  /** The five predefined profiles that option "2" of both front-ends
      predicts (Junior, Intermedio, Senior, Arquitecto, Tech Lead). */
  const Profiles: seq<Employee> := [
    Employee(24.0, 1.0, 14.0, 35.0, 3, 1),
    Employee(28.0, 4.0, 16.0, 40.0, 8, 2),
    Employee(32.0, 7.0, 18.0, 45.0, 15, 3),
    Employee(38.0, 12.0, 20.0, 50.0, 25, 5),
    Employee(42.0, 15.0, 22.0, 55.0, 35, 7)
  ]

  /** The profiles as the rows handed to the scaler. */
  function ProfileVectors(): (xs: seq<seq<real>>)
    ensures |xs| == |Profiles|
    ensures forall i :: 0 <= i < |xs| ==> xs[i] == AsVector(Profiles[i])
  {
    seq(|Profiles|, i requires 0 <= i < |Profiles| => AsVector(Profiles[i]))
  }
}
