/** The web API variant of the engine (simulateur_AVS_LPP.py): the same
    coordinated salary, savings rates and reconstruction as the console
    script, a projection in which the salary grows before each year's
    contribution, a state pension without the care-credit cap on years,
    the couple ceiling for a married person (no default spouse pension),
    and a short diagnostic. */
module SimulateurApi {
  import opened Outils

  // State pension
  const RenteMax: real := 2520.0
  const RenteMin: real := 1260.0
  const SeuilMaxRamd: real := 90720.0
  const CarrierePleine: int := 44
  const BonifCreditAnnuel: real := 3.0 * RenteMin * 12.0
  const PlafondCouple: real := 3780.0

  // Occupational pension
  const DeductionCoordination: real := 26460.0
  const SeuilEntreeLpp: real := 22680.0
  const PlafondCoordonne: real := 62475.0
  const TauxConversion: real := 0.058
  const TauxCroissancePasse: real := 0.005
  const TauxCroissanceFutur: real := 0.005
  const TauxRendement: real := 0.0
  const FacteurPasse: real := 1.0 + TauxCroissancePasse
  const FacteurFutur: real := 1.0 + TauxCroissanceFutur

  // Diagnostic thresholds
  const SeuilAnneesDiagnostic: int := 30
  const SeuilCapitalDiagnostic: real := 50000.0
  const AgeCapitalDiagnostic: int := 35
  const SeuilRenteDiagnostic: real := 3000.0

  // ---------------------------------------------------------------------
  // Tools
  // ---------------------------------------------------------------------

  /** Coordinated salary: none up to the entry threshold (inclusive), then
      the salary less the deduction, between zero and 62475. */
  function SalaireCoordonne(salaire: real): (r: real)
    ensures 0.0 <= r <= PlafondCoordonne
  {
    if salaire <= SeuilEntreeLpp then 0.0
    else Max(0.0, Min(salaire - DeductionCoordination, PlafondCoordonne))
  }

  lemma SalaireCoordonneProprietes(salaire: real)
    ensures salaire <= SeuilEntreeLpp ==> SalaireCoordonne(salaire) == 0.0
    ensures SalaireCoordonne(salaire) == 0.0 <==> salaire <= DeductionCoordination
    ensures SalaireCoordonne(salaire) > 0.0 ==>
      SalaireCoordonne(salaire) == Min(salaire - DeductionCoordination, PlafondCoordonne)
  {
  }

  /** Savings rate from the age table (25, 35, 45, 55). */
  function TauxEpargne(age: int): (r: real)
    ensures 0.0 <= r <= 0.18
    ensures r == 0.0 <==> age < 25
  {
    if age < 25 then 0.0
    else if age <= 34 then 0.07
    else if age <= 44 then 0.10
    else if age <= 54 then 0.15
    else 0.18
  }

  lemma TauxEpargneBaremes(age: int)
    ensures 25 <= age <= 34 ==> TauxEpargne(age) == 0.07
    ensures 35 <= age <= 44 ==> TauxEpargne(age) == 0.10
    ensures 45 <= age <= 54 ==> TauxEpargne(age) == 0.15
    ensures age >= 55 ==> TauxEpargne(age) == 0.18
  {
  }

  // ---------------------------------------------------------------------
  // Occupational pension
  // ---------------------------------------------------------------------

  /** Capital after `n` years from `age`: each year the salary first grows,
      then the capital earns the (zero) return and receives the
      contribution on the grown salary. */
  function Projection(age: int, n: nat, salaire: real, capital: real): real
    decreases n
  {
    if n == 0 then capital
    else
      var s := salaire * FacteurFutur;
      Projection(age + 1, n - 1, s, capital * (1.0 + TauxRendement) + SalaireCoordonne(s) * TauxEpargne(age))
  }

  /** Projection never loses capital, and adds nothing over an empty range
      or before age 25. */
  lemma {:induction false} ProjectionCroissante(age: int, n: nat, salaire: real, capital: real)
    ensures Projection(age, n, salaire, capital) >= capital
    ensures age + n <= 25 ==> Projection(age, n, salaire, capital) == capital
    decreases n
  {
    if n > 0 {
      var s := salaire * FacteurFutur;
      ProjectionCroissante(age + 1, n - 1, s, capital * (1.0 + TauxRendement) + SalaireCoordonne(s) * TauxEpargne(age));
    }
  }

  method ProjectionLpp(ageActuel: int, ageRetraite: int, salaire: real, capitalInitial: real)
    returns (capital: real, renteMensuelle: real)
    ensures capital == Projection(ageActuel, LongueurIntervalle(ageActuel, ageRetraite), salaire, capitalInitial)
    ensures renteMensuelle * 12.0 == capital * TauxConversion
  {
    capital := capitalInitial;
    var salaireAnnuel := salaire;
    ghost var n := LongueurIntervalle(ageActuel, ageRetraite);
    var age := ageActuel;
    while age < ageRetraite
      invariant ageActuel <= age && (age <= ageRetraite || age == ageActuel)
      invariant Projection(age, n - (age - ageActuel), salaireAnnuel, capital) == Projection(ageActuel, n, salaire, capitalInitial)
      decreases ageRetraite - age
    {
      salaireAnnuel := salaireAnnuel * FacteurFutur;
      var sc := SalaireCoordonne(salaireAnnuel);
      capital := capital * (1.0 + TauxRendement) + sc * TauxEpargne(age);
      age := age + 1;
    }
    renteMensuelle := (capital * TauxConversion) / 12.0;
  }

  /** The reconstruction starts at the later of age 25 and the age at which
      the contributions began. */
  function DebutReconstruction(ageActuel: int, anneesAvs: int): (d: int)
    ensures d >= 25 && d >= ageActuel - anneesAvs
    ensures d == 25 || d == ageActuel - anneesAvs
  {
    MaxEntier(25, ageActuel - anneesAvs)
  }

  /** The first year's salary: the current one discounted over the
      reconstructed years. */
  function SalaireDepart(salaireActuel: real, n: nat): real
  {
    salaireActuel / Pow(FacteurPasse, n)
  }

  /** The reconstructed capital: nothing if the start is not before the
      current age; otherwise the first year's contribution on the
      discounted salary, then each later year on a salary grown once more,
      up to the year before the current age. */
  function CapitalReconstruit(ageActuel: int, salaireActuel: real, anneesAvs: int): real
  {
    var debut := DebutReconstruction(ageActuel, anneesAvs);
    if ageActuel <= debut then 0.0
    else
      var n := ageActuel - debut;
      var s0 := SalaireDepart(salaireActuel, n);
      ProjectionPasse(debut + 1, n - 1, s0, 0.0 * (1.0 + TauxRendement) + SalaireCoordonne(s0) * TauxEpargne(debut))
  }

  /** The later years of the reconstruction: the salary grows by the past
      rate before each contribution. */
  function ProjectionPasse(age: int, n: nat, salaire: real, capital: real): real
    decreases n
  {
    if n == 0 then capital
    else
      var s := salaire * FacteurPasse;
      ProjectionPasse(age + 1, n - 1, s, capital * (1.0 + TauxRendement) + SalaireCoordonne(s) * TauxEpargne(age))
  }

  method ReconstruireCapitalLpp(ageActuel: int, salaireActuel: real, anneesAvs: int) returns (capital: real)
    ensures capital == CapitalReconstruit(ageActuel, salaireActuel, anneesAvs)
  {
    var ageDebut := MaxEntier(25, ageActuel - anneesAvs);
    if ageActuel <= ageDebut {
      return 0.0;
    }
    capital := 0.0;
    var salaireEstime := salaireActuel / Pow(FacteurPasse, ageActuel - ageDebut);
    ghost var s0 := salaireEstime;
    assert s0 == SalaireDepart(salaireActuel, ageActuel - ageDebut);
    var age := ageDebut;
    while age < ageActuel
      invariant ageDebut <= age <= ageActuel
      invariant age == ageDebut ==> capital == 0.0 && salaireEstime == s0
      invariant age > ageDebut ==>
        ProjectionPasse(age, ageActuel - age, salaireEstime, capital) == CapitalReconstruit(ageActuel, salaireActuel, anneesAvs)
      decreases ageActuel - age
    {
      if age > ageDebut {
        salaireEstime := salaireEstime * FacteurPasse;
      }
      var sc := SalaireCoordonne(salaireEstime);
      capital := capital * (1.0 + TauxRendement) + sc * TauxEpargne(age);
      age := age + 1;
    }
  }

  /** The reconstruction never gives a negative capital. */
  lemma CapitalReconstruitPositif(ageActuel: int, salaireActuel: real, anneesAvs: int)
    ensures CapitalReconstruit(ageActuel, salaireActuel, anneesAvs) >= 0.0
  {
    var debut := DebutReconstruction(ageActuel, anneesAvs);
    if ageActuel > debut {
      var n := ageActuel - debut;
      var s0 := SalaireDepart(salaireActuel, n);
      ProjectionPasseCroissante(debut + 1, n - 1, s0, 0.0 * (1.0 + TauxRendement) + SalaireCoordonne(s0) * TauxEpargne(debut));
    }
  }

  lemma {:induction false} ProjectionPasseCroissante(age: int, n: nat, salaire: real, capital: real)
    ensures ProjectionPasse(age, n, salaire, capital) >= capital
    decreases n
  {
    if n > 0 {
      var s := salaire * FacteurPasse;
      ProjectionPasseCroissante(age + 1, n - 1, s, capital * (1.0 + TauxRendement) + SalaireCoordonne(s) * TauxEpargne(age));
    }
  }

  // ---------------------------------------------------------------------
  // State pension
  // ---------------------------------------------------------------------

  datatype ResultatAvs = ResultatAvs(renteFinale: real, renteTheorique: real, ramd: real, annees: int)

  /** Full-career pension: the maximum from the ceiling on, otherwise the
      minimum plus the clamped income ratio of the difference. */
  function RenteTheorique(ramd: real): (r: real)
    ensures RenteMin <= r <= RenteMax
    ensures ramd >= SeuilMaxRamd ==> r == RenteMax
    ensures ramd <= 0.0 ==> r == RenteMin
    ensures ramd < SeuilMaxRamd ==> r < RenteMax
  {
    if ramd >= SeuilMaxRamd then RenteMax
    else
      var ratio := Max(0.0, Min(1.0, ramd / SeuilMaxRamd));
      RenteMin + ratio * (RenteMax - RenteMin)
  }

  lemma RenteTheoriqueCroissante(a: real, b: real)
    requires a <= b
    ensures RenteTheorique(a) <= RenteTheorique(b)
  {
  }

  /** The pension of an incomplete career: the theoretical one less its
      share `missing / 44`, at least the minimum; unchanged from 44 years. */
  function RenteAvecLacunes(theorique: real, annees: int): (r: real)
    requires RenteMin <= theorique && annees >= 1
    ensures RenteMin <= r <= theorique
    ensures annees >= CarrierePleine ==> r == theorique
    ensures annees < CarrierePleine ==> r == Max(RenteMin, theorique * (annees as real / 44.0))
  {
    if annees >= CarrierePleine then theorique
    else
      var manque := CarrierePleine - annees;
      var reduction := theorique * (manque as real / CarrierePleine as real);
      assert CarrierePleine as real == 44.0;
      assert theorique - reduction == theorique * (annees as real / 44.0);
      assert theorique * (annees as real / 44.0) <= theorique;
      Max(RenteMin, theorique - reduction)
  }

  /** The care credits spread over the (at least one) years. */
  function Bonification(annees: int, anneesBe: int, anneesBa: int): (b: real)
    requires annees >= 1
    ensures b * annees as real == (anneesBe + anneesBa) as real * BonifCreditAnnuel
  {
    (anneesBe + anneesBa) as real * BonifCreditAnnuel / annees as real
  }

  /** The years are at least one; the care credits are spread over them;
      the pension is the theoretical one of the income, reduced for an
      incomplete career. */
  function CalculAvs(salaireMoyen: real, anneesCotisees: int, anneesBe: int, anneesBa: int): (r: ResultatAvs)
    ensures r.annees == MaxEntier(1, anneesCotisees)
    ensures r.ramd == salaireMoyen + Bonification(r.annees, anneesBe, anneesBa)
    ensures r.renteTheorique == RenteTheorique(r.ramd)
    ensures r.renteFinale == RenteAvecLacunes(r.renteTheorique, r.annees)
    ensures RenteMin <= r.renteFinale <= r.renteTheorique <= RenteMax
  {
    var annees := MaxEntier(1, anneesCotisees);
    var ramd := salaireMoyen + Bonification(annees, anneesBe, anneesBa);
    var theo := RenteTheorique(ramd);
    ResultatAvs(RenteAvecLacunes(theo, annees), theo, ramd, annees)
  }

  // ---------------------------------------------------------------------
  // Couple ceiling
  // ---------------------------------------------------------------------

  /** The couple ceiling: over it, both pensions give up the excess in
      proportion to their shares of the total; otherwise nothing changes. */
  function Plafonnement(renteAvs: real, renteConjoint: real): (real, real)
  {
    var total := renteAvs + renteConjoint;
    if total > PlafondCouple then
      var excedent := total - PlafondCouple;
      var ratio := renteAvs / total;
      (renteAvs - excedent * ratio, renteConjoint - excedent * (1.0 - ratio))
    else (renteAvs, renteConjoint)
  }

  /** Over the ceiling the capped pensions add up to the ceiling and each
      keeps its share of the total; under it they are unchanged. */
  lemma PlafonnementProprietes(a: real, c: real)
    ensures a + c <= PlafondCouple ==> Plafonnement(a, c) == (a, c)
    ensures a + c > PlafondCouple ==>
      && Plafonnement(a, c).0 + Plafonnement(a, c).1 == PlafondCouple
      && Plafonnement(a, c).0 * (a + c) == a * PlafondCouple
      && Plafonnement(a, c).1 * (a + c) == c * PlafondCouple
    ensures a >= 0.0 && c >= 0.0 ==> 0.0 <= Plafonnement(a, c).0 <= a && 0.0 <= Plafonnement(a, c).1 <= c
  {
    if a + c > PlafondCouple {
      PartsReduites(a, c);
      if a >= 0.0 && c >= 0.0 {
        var (u, v) := Plafonnement(a, c);
        assert (u - a) * (a + c) == a * (PlafondCouple - (a + c));
        assert (v - c) * (a + c) == c * (PlafondCouple - (a + c));
      }
    }
  }

  /** The `-=` steps of the source reach the capped pensions. */
  method PlafonnerCouple(renteAvs: real, renteConjoint: real) returns (renteAvsUser: real, renteConjointFinal: real)
    ensures (renteAvsUser, renteConjointFinal) == Plafonnement(renteAvs, renteConjoint)
  {
    renteAvsUser := renteAvs;
    renteConjointFinal := renteConjoint;
    var totalTheorique := renteAvsUser + renteConjoint;
    if totalTheorique > PlafondCouple {
      var excedent := totalTheorique - PlafondCouple;
      var ratio := renteAvsUser / totalTheorique;
      renteAvsUser := renteAvsUser - excedent * ratio;
      renteConjointFinal := renteConjointFinal - excedent * (1.0 - ratio);
      assert Plafonnement(renteAvs, renteConjoint).0 == renteAvsUser;
      assert Plafonnement(renteAvs, renteConjoint).1 == renteConjointFinal;
    }
  }

  lemma {:induction false} PartsReduites(a: real, b: real)
    requires a + b > 0.0
    ensures var t := a + b; var e := t - PlafondCouple; var q := a / t;
      && (a - e * q) * t == a * PlafondCouple
      && (b - e * (1.0 - q)) * t == b * PlafondCouple
      && (a - e * q) + (b - e * (1.0 - q)) == PlafondCouple
  {
    var t := a + b;
    var q := a / t;
    assert q * t == a;
    assert (a - (t - PlafondCouple) * q) * t == a * t - (t - PlafondCouple) * (q * t);
    assert (b - (t - PlafondCouple) * (1.0 - q)) * t == b * t - (t - PlafondCouple) * (t - q * t);
  }

  // ---------------------------------------------------------------------
  // Complete calculation
  // ---------------------------------------------------------------------

  /** What the request carries as the pension-fund capital: nothing, a
      number, or text together with what `float()` makes of it (`None`
      when the text is not a number). */
  datatype SaisieCapital = Absent | Nombre(valeur: real) | Texte(texte: string, conversion: Option<real>)

  datatype SourceLpp = Reconstruit | Declare

  /** The fixed diagnostic messages. */
  datatype Diagnostic = AnneesInsuffisantes | AnneesCoherentes | CapitalFaible | CapitalCoherent | RenteBasse

  /** The values that make the API reconstruct the capital: `""`, `None`,
      `0` or `"0"`. */
  predicate CapitalAReconstruire(saisie: SaisieCapital) {
    saisie.Absent? || saisie == Nombre(0.0) || (saisie.Texte? && (saisie.texte == "" || saisie.texte == "0"))
  }

  /** Two messages on the years and the capital, then a third only when
      the total pension is below 3000. */
  function Diagnostiquer(anneesTotales: int, capitalLpp: real, age: int, total: real): (d: seq<Diagnostic>)
    ensures |d| == if total < SeuilRenteDiagnostic then 3 else 2
    ensures d[0] == AnneesInsuffisantes <==> anneesTotales < SeuilAnneesDiagnostic
    ensures d[0] in {AnneesInsuffisantes, AnneesCoherentes}
    ensures d[1] == CapitalFaible <==> capitalLpp < SeuilCapitalDiagnostic && age > AgeCapitalDiagnostic
    ensures d[1] in {CapitalFaible, CapitalCoherent}
    ensures RenteBasse in d <==> total < SeuilRenteDiagnostic
  {
    var annees := if anneesTotales < SeuilAnneesDiagnostic then AnneesInsuffisantes else AnneesCoherentes;
    var capital := if capitalLpp < SeuilCapitalDiagnostic && age > AgeCapitalDiagnostic then CapitalFaible else CapitalCoherent;
    if total < SeuilRenteDiagnostic then [annees, capital, RenteBasse] else [annees, capital]
  }

  /** The diagnostic as the source builds it, one append per message. */
  method ConstruireDiagnostic(anneesTotales: int, capitalLpp: real, age: int, total: real)
    returns (diagnostic: seq<Diagnostic>)
    ensures diagnostic == Diagnostiquer(anneesTotales, capitalLpp, age, total)
  {
    diagnostic := [];
    if anneesTotales < SeuilAnneesDiagnostic {
      diagnostic := diagnostic + [AnneesInsuffisantes];
    } else {
      diagnostic := diagnostic + [AnneesCoherentes];
    }
    if capitalLpp < SeuilCapitalDiagnostic && age > AgeCapitalDiagnostic {
      diagnostic := diagnostic + [CapitalFaible];
    } else {
      diagnostic := diagnostic + [CapitalCoherent];
    }
    if total < SeuilRenteDiagnostic {
      diagnostic := diagnostic + [RenteBasse];
    }
  }

  datatype ResultatApi = ResultatApi(
    capitalLppInitial: real,
    capitalLppSource: SourceLpp,
    capitalLppFinal: real,
    renteLpp: real,
    renteAvs: real,
    renteConjoint: real,
    totalRetraite: real,
    ramd: real,
    diagnostic: seq<Diagnostic>)

  /** The capital the calculation starts from, and where it comes from. */
  datatype CapitalInitial = CapitalInitial(capital: real, source: SourceLpp)

  /** Reconstruct the capital when none was given, otherwise read it; `None`
      when the text cannot be read as a number. */
  method ObtenirCapital(age: int, salaire: real, anneesAvs: int, capitalSaisi: SaisieCapital)
    returns (res: Option<CapitalInitial>)
    ensures res.None? <==> !CapitalAReconstruire(capitalSaisi) && capitalSaisi.Texte? && capitalSaisi.conversion.None?
    ensures res.Some? ==> (res.value.source == Reconstruit <==> CapitalAReconstruire(capitalSaisi))
    ensures res.Some? && CapitalAReconstruire(capitalSaisi) ==>
      res.value.capital == CapitalReconstruit(age, salaire, anneesAvs)
    ensures res.Some? && !CapitalAReconstruire(capitalSaisi) ==>
      res.value.capital == if capitalSaisi.Nombre? then capitalSaisi.valeur else capitalSaisi.conversion.value
  {
    if CapitalAReconstruire(capitalSaisi) {
      var capital := ReconstruireCapitalLpp(age, salaire, anneesAvs);
      return Some(CapitalInitial(capital, Reconstruit));
    }
    match capitalSaisi
    case Absent =>
      assert false;
    case Nombre(v) =>
      res := Some(CapitalInitial(v, Declare));
    case Texte(_, conversion) =>
      if conversion.None? {
        return None;
      }
      res := Some(CapitalInitial(conversion.value, Declare));
  }

  /** The pensions after the couple block: capped only for a person whose
      status lowers to `marié`. */
  function ApresStatut(statutCivil: string, renteAvs: real, renteConjoint: real): (real, real)
  {
    if Minuscule(statutCivil) == "marié" then Plafonnement(renteAvs, renteConjoint) else (renteAvs, renteConjoint)
  }

  method AppliquerStatut(statutCivil: string, renteAvs: real, renteConjoint: real)
    returns (renteAvsUser: real, renteConjointFinal: real)
    ensures (renteAvsUser, renteConjointFinal) == ApresStatut(statutCivil, renteAvs, renteConjoint)
  {
    renteAvsUser, renteConjointFinal := renteAvs, renteConjoint;
    if Minuscule(statutCivil) == "marié" {
      renteAvsUser, renteConjointFinal := PlafonnerCouple(renteAvs, renteConjoint);
    }
  }

  /** The complete calculation of the API: `None` when the capital text
      cannot be read as a number (the source raises there). */
  method CalculCompletRetraite(
    age: int, ageRetraite: int, salaire: real, salaireMoyen: real,
    anneesAvs: int, anneesBe: int, anneesBa: int,
    statutCivil: string, capitalSaisi: SaisieCapital, renteConjoint: real)
    returns (res: Option<ResultatApi>)
    ensures res.None? <==> !CapitalAReconstruire(capitalSaisi) && capitalSaisi.Texte? && capitalSaisi.conversion.None?
    ensures res.Some? ==> (res.value.capitalLppSource == Reconstruit <==> CapitalAReconstruire(capitalSaisi))
    ensures res.Some? && CapitalAReconstruire(capitalSaisi) ==>
      res.value.capitalLppInitial == CapitalReconstruit(age, salaire, anneesAvs)
    ensures res.Some? && !CapitalAReconstruire(capitalSaisi) ==>
      res.value.capitalLppInitial == if capitalSaisi.Nombre? then capitalSaisi.valeur else capitalSaisi.conversion.value
    ensures res.Some? ==>
      && res.value.capitalLppFinal == Projection(age, LongueurIntervalle(age, ageRetraite), salaire, res.value.capitalLppInitial)
      && res.value.renteLpp * 12.0 == res.value.capitalLppFinal * TauxConversion
    ensures res.Some? ==> res.value.ramd == CalculAvs(salaireMoyen, anneesAvs + (ageRetraite - age), anneesBe, anneesBa).ramd
    ensures res.Some? ==>
      (res.value.renteAvs, res.value.renteConjoint)
      == ApresStatut(statutCivil, CalculAvs(salaireMoyen, anneesAvs + (ageRetraite - age), anneesBe, anneesBa).renteFinale,
                     renteConjoint)
    ensures res.Some? ==> res.value.totalRetraite == res.value.renteAvs + res.value.renteLpp
    ensures res.Some? ==>
      res.value.diagnostic == Diagnostiquer(anneesAvs + (ageRetraite - age), res.value.capitalLppInitial, age, res.value.totalRetraite)
  {
    var initial := ObtenirCapital(age, salaire, anneesAvs, capitalSaisi);
    if initial.None? {
      return None;
    }
    var capitalLpp := initial.value.capital;
    var capitalFinal, renteLpp := ProjectionLpp(age, ageRetraite, salaire, capitalLpp);
    var anneesTotales := anneesAvs + (ageRetraite - age);
    var avs := CalculAvs(salaireMoyen, anneesTotales, anneesBe, anneesBa);
    var renteAvsUser, renteConjointFinal := AppliquerStatut(statutCivil, avs.renteFinale, renteConjoint);
    var total := renteAvsUser + renteLpp;
    var diagnostic := ConstruireDiagnostic(anneesTotales, capitalLpp, age, total);
    res := Some(ResultatApi(capitalLpp, initial.value.source, capitalFinal, renteLpp, renteAvsUser,
                            renteConjointFinal, total, avs.ramd, diagnostic));
  }
}
