/** The five salary categories both front-ends print after a prediction,
    and an independent table-driven description of the band each one
    covers. */
module SalaryBands {

  datatype Category = Junior | Intermedio | Senior | Experto | MuyExperto

  /** Position of a category from the lowest band (0) to the highest (4). */
  function Rank(c: Category): nat {
    match c
    case Junior => 0
    case Intermedio => 1
    case Senior => 2
    case Experto => 3
    case MuyExperto => 4
  }

  /** The four band boundaries, in increasing order. */
  const Thresholds: seq<real> := [40000.0, 60000.0, 80000.0, 100000.0]

  /** Band `c` is the half-open interval from the threshold below its rank
      (none for the lowest band) up to, but excluding, the threshold at
      its rank (none for the highest band). */
  predicate InBand(c: Category, salary: real) {
    && (Rank(c) == 0 || Thresholds[Rank(c) - 1] <= salary)
    && (Rank(c) == 4 || salary < Thresholds[Rank(c)])
  }

  /** The bands do not overlap: a salary lies in at most one of them. */
  lemma BandsDisjoint(c: Category, d: Category, salary: real)
    requires InBand(c, salary) && InBand(d, salary)
    ensures c == d
  {
  }
}
