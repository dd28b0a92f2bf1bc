/** The simplest variant of the engine (simulateur.py): an annual state
    pension proportional to the contribution years, capped at a full
    career, and an occupational pension at a 6.8 % conversion rate on the
    capital, with the form fields read with defaults. */
module Simulateur {
  import opened Outils

  const DureeCotisationMax: int := 44
  /** The approximate maximum annual state pension, 2390 a month. */
  const RenteMaxAnnuelle: real := 2390.0 * 12.0
  const TauxConversion: real := 0.068
  const AgeRetraiteParDefaut: int := 65

  /** A form field: missing, empty, a value, or text that does not convert. */
  datatype Champ<T> = Absent | Vide | Valeur(v: T) | Illisible

  /** Reading a field: the default unless it holds a value. */
  function Lire<T>(champ: Champ<T>, defaut: T): (r: T)
    ensures champ.Valeur? ==> r == champ.v
    ensures !champ.Valeur? ==> r == defaut
  {
    if champ.Valeur? then champ.v else defaut
  }

  /** Annual state pension: the maximum times the share of a full career
      (at most one); never negative. */
  function CalculAvs(anneesCotisees: int): (r: real)
    ensures 0.0 <= r <= RenteMaxAnnuelle
    ensures anneesCotisees >= DureeCotisationMax ==> r == RenteMaxAnnuelle
    ensures anneesCotisees <= 0 ==> r == 0.0
    ensures 0 <= anneesCotisees <= DureeCotisationMax ==> r * 44.0 == RenteMaxAnnuelle * anneesCotisees as real
  {
    var tauxCotisation := Min(anneesCotisees as real / DureeCotisationMax as real, 1.0);
    var renteEstimee := RenteMaxAnnuelle * tauxCotisation;
    Max(0.0, renteEstimee)
  }

  lemma CalculAvsCroissante(a: int, b: int)
    requires a <= b
    ensures CalculAvs(a) <= CalculAvs(b)
  {
    assert a as real / 44.0 <= b as real / 44.0;
  }

  /** Annual occupational pension: 6.8 % of the capital, never negative. */
  function CalculLpp(capitalLpp: real): (r: real)
    ensures r >= 0.0
    ensures capitalLpp >= 0.0 ==> r == capitalLpp * TauxConversion
    ensures capitalLpp <= 0.0 ==> r == 0.0
  {
    Max(0.0, capitalLpp * TauxConversion)
  }

  lemma CalculLppCroissante(a: real, b: real)
    requires a <= b
    ensures CalculLpp(a) <= CalculLpp(b)
  {
  }

  datatype Details = Details(
    ageActuel: int,
    ageRetraite: int,
    ramd: real,
    revenuAnnuel: real,
    anneesCotisees: int,
    anneesBe: int,
    anneesBa: int,
    capitalLpp: real)

  datatype Simulation = Simulation(renteAvs: real, renteLpp: real, renteTotale: real, details: Details)

  /** The complete simulation: the fields read with their defaults (65 for
      the retirement age, zero otherwise), the care years added to the
      contribution years, and the two pensions summed. */
  function SimulerPilierComplet(
    ageActuel: Champ<int>, ageRetraite: Champ<int>, revenuAnnuel: Champ<real>, ramd: Champ<real>,
    anneesCotisees: Champ<int>, anneesBe: Champ<int>, anneesBa: Champ<int>, capitalLpp: Champ<real>): (s: Simulation)
    ensures s.details == Details(Lire(ageActuel, 0), Lire(ageRetraite, AgeRetraiteParDefaut), Lire(ramd, 0.0),
                                 Lire(revenuAnnuel, 0.0), Lire(anneesCotisees, 0), Lire(anneesBe, 0),
                                 Lire(anneesBa, 0), Lire(capitalLpp, 0.0))
    ensures s.renteAvs == CalculAvs(s.details.anneesCotisees + s.details.anneesBe + s.details.anneesBa)
    ensures s.renteLpp == CalculLpp(s.details.capitalLpp)
    ensures s.renteTotale == s.renteAvs + s.renteLpp && s.renteTotale >= s.renteAvs && s.renteTotale >= s.renteLpp
  {
    var details := Details(Lire(ageActuel, 0), Lire(ageRetraite, AgeRetraiteParDefaut), Lire(ramd, 0.0),
                           Lire(revenuAnnuel, 0.0), Lire(anneesCotisees, 0), Lire(anneesBe, 0),
                           Lire(anneesBa, 0), Lire(capitalLpp, 0.0));
    var totalCotisation := details.anneesCotisees + details.anneesBe + details.anneesBa;
    var renteAvs := CalculAvs(totalCotisation);
    var renteLpp := CalculLpp(details.capitalLpp);
    Simulation(renteAvs, renteLpp, renteAvs + renteLpp, details)
  }

  /** An empty form gives no pension at all. */
  lemma FormulaireVide()
    ensures SimulerPilierComplet(Absent, Absent, Absent, Absent, Absent, Absent, Absent, Absent).renteTotale == 0.0
  {
  }
}
