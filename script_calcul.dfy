/** The console script variant of the engine (script_calcul.py): a 0 %
    return on pension-fund capital, a 5.8 % conversion rate, a coordinated
    salary capped at 62475, a reduction of `missing / 44` for an incomplete
    career, and a conservative reconstruction of a capital the person does
    not know. Only the arithmetic is modelled; the questions asked on the
    console become parameters. */
module ScriptCalcul {
  import opened Outils

  // State pension (first pillar), scale 44
  const RenteMax: real := 2520.0
  const RenteMin: real := 1260.0
  const RenteMediane: real := 1890.0
  const SeuilMaxRamd: real := 90720.0
  const CarrierePleine: int := 44
  const PlafondCouple: real := 3780.0
  /** Three minimum monthly pensions for a year: the care credit per year. */
  const BonifCreditAnnuel: real := 3.0 * RenteMin * 12.0

  // Occupational pension (second pillar)
  const DeductionCoordination: real := 26460.0
  const SeuilEntreeLpp: real := 22680.0
  const PlafondCoordonne: real := 62475.0
  const TauxRendementMoyen: real := 0.0
  const CroissanceSalaireProjection: real := 0.005
  const CroissanceSalairePasse: real := 0.005
  const TauxConversion: real := 0.058
  /** Yearly salary growth factors, `1 + rate`. */
  const FacteurProjection: real := 1.0 + CroissanceSalaireProjection
  const FacteurPasse: real := 1.0 + CroissanceSalairePasse

  // ---------------------------------------------------------------------
  // Coordinated salary and savings rate
  // ---------------------------------------------------------------------

  /** Coordinated salary: none up to the entry threshold (inclusive), then
      the salary less the coordination deduction, capped at 62475 and
      floored at zero. */
  function SalaireCoordonne(salaire: real): (r: real)
    ensures 0.0 <= r <= PlafondCoordonne
  {
    if salaire <= SeuilEntreeLpp then 0.0
    else Max(0.0, Min(salaire - DeductionCoordination, PlafondCoordonne))
  }

  /** Nothing is insured up to the coordination deduction (the entry
      threshold lies below it); above it, the salary less the deduction,
      capped. */
  lemma SalaireCoordonneProprietes(salaire: real)
    ensures salaire <= SeuilEntreeLpp ==> SalaireCoordonne(salaire) == 0.0
    ensures SalaireCoordonne(salaire) == 0.0 <==> salaire <= DeductionCoordination
    ensures SalaireCoordonne(salaire) > 0.0 ==>
      SalaireCoordonne(salaire) == Min(salaire - DeductionCoordination, PlafondCoordonne)
  {
  }

  lemma SalaireCoordonneCroissant(a: real, b: real)
    requires a <= b
    ensures SalaireCoordonne(a) <= SalaireCoordonne(b)
  {
  }

  /** Legal minimum savings rate by age bracket. */
  function TauxEpargneLegal(age: int): (r: real)
    ensures 0.0 <= r <= 0.18
    ensures r == 0.0 <==> age < 25
  {
    if age < 25 then 0.0
    else if age <= 34 then 0.07
    else if age <= 44 then 0.10
    else if age <= 54 then 0.15
    else 0.18
  }

  /** The four brackets of the legal minimum rate. */
  lemma TauxEpargneLegalBaremes(age: int)
    ensures 25 <= age <= 34 ==> TauxEpargneLegal(age) == 0.07
    ensures 35 <= age <= 44 ==> TauxEpargneLegal(age) == 0.10
    ensures 45 <= age <= 54 ==> TauxEpargneLegal(age) == 0.15
    ensures age >= 55 ==> TauxEpargneLegal(age) == 0.18
  {
  }

  lemma TauxEpargneLegalCroissant(a: int, b: int)
    requires a <= b
    ensures TauxEpargneLegal(a) <= TauxEpargneLegal(b)
  {
  }

  // ---------------------------------------------------------------------
  // Year-by-year accumulation shared by reconstruction and projection
  // ---------------------------------------------------------------------

  /** The year's contribution at `age` on salary `salaire`. */
  function Cotisation(age: int, salaire: real): (c: real)
    ensures 0.0 <= c <= PlafondCoordonne * 0.18
    ensures age < 25 ==> c == 0.0
  {
    SalaireCoordonne(salaire) * TauxEpargneLegal(age)
  }

  /** Capital after `n` years starting at `age`: each year the capital earns
      the (zero) return and receives the contribution on `salaire`, then the
      salary is multiplied by `facteur` for the next year. */
  function Cumul(age: int, n: nat, salaire: real, capital: real, facteur: real): real
    decreases n
  {
    if n == 0 then capital
    else Cumul(age + 1, n - 1, salaire * facteur,
               capital * (1.0 + TauxRendementMoyen) + Cotisation(age, salaire), facteur)
  }

  /** The yearly contributions over the same years, in order. */
  function Cotisations(age: int, n: nat, salaire: real, facteur: real): (cs: seq<real>)
    ensures |cs| == n
    decreases n
  {
    if n == 0 then []
    else [Cotisation(age, salaire)] + Cotisations(age + 1, n - 1, salaire * facteur, facteur)
  }

  function Somme(xs: seq<real>): real
  {
    if xs == [] then 0.0 else xs[0] + Somme(xs[1..])
  }

  /** With the zero return, the accumulated capital is the opening capital
      plus the sum of the yearly contributions. */
  lemma {:induction false} CumulEstSommeCotisations(age: int, n: nat, salaire: real, capital: real, facteur: real)
    ensures Cumul(age, n, salaire, capital, facteur) == capital + Somme(Cotisations(age, n, salaire, facteur))
    decreases n
  {
    if n > 0 {
      var suivant := salaire * facteur;
      var cs := Cotisations(age, n, salaire, facteur);
      CumulEstSommeCotisations(age + 1, n - 1, suivant, capital + Cotisation(age, salaire), facteur);
      assert cs[1..] == Cotisations(age + 1, n - 1, suivant, facteur);
    }
  }

  /** A salary grown `i` times by `facteur`, one year after the other. */
  function Croitre(salaire: real, facteur: real, i: nat): real
    decreases i
  {
    if i == 0 then salaire else Croitre(salaire * facteur, facteur, i - 1)
  }

  /** Growing once more is multiplying the grown salary once more. */
  lemma {:induction false} CroitreEncore(salaire: real, facteur: real, i: nat)
    ensures Croitre(salaire, facteur, i + 1) == Croitre(salaire, facteur, i) * facteur
    decreases i
  {
    if i > 0 {
      CroitreEncore(salaire * facteur, facteur, i - 1);
    }
  }

  /** Growing `i` times is compounding: `salaire * facteur^i`. */
  lemma {:induction false} CroitreEstPuissance(salaire: real, facteur: real, i: nat)
    ensures Croitre(salaire, facteur, i) == salaire * Pow(facteur, i)
    decreases i
  {
    if i > 0 {
      CroitreEstPuissance(salaire * facteur, facteur, i - 1);
      assert (salaire * facteur) * Pow(facteur, i - 1) == salaire * (facteur * Pow(facteur, i - 1));
    }
  }

  /** The salary used in year `i` is the starting salary grown `i` times. */
  lemma {:induction false} CotisationsSalaireCroissant(age: int, n: nat, salaire: real, facteur: real, i: nat)
    requires i < n
    ensures Cotisations(age, n, salaire, facteur)[i] == Cotisation(age + i, Croitre(salaire, facteur, i))
    decreases n
  {
    if i > 0 {
      CotisationsSalaireCroissant(age + 1, n - 1, salaire * facteur, facteur, i - 1);
    }
  }

  /** Contributions are never negative, so the capital never decreases from
      one year to the next: running more years gives at least as much. */
  lemma {:induction false} CumulCroissant(age: int, m: nat, n: nat, salaire: real, capital: real, facteur: real)
    requires m <= n
    ensures capital <= Cumul(age, m, salaire, capital, facteur) <= Cumul(age, n, salaire, capital, facteur)
    decreases m
  {
    if m == 0 {
      CumulMinore(age, n, salaire, capital, facteur);
    } else {
      CumulCroissant(age + 1, m - 1, n - 1, salaire * facteur,
                     capital + Cotisation(age, salaire), facteur);
    }
  }

  lemma {:induction false} CumulMinore(age: int, n: nat, salaire: real, capital: real, facteur: real)
    ensures capital <= Cumul(age, n, salaire, capital, facteur)
    decreases n
  {
    if n > 0 {
      CumulMinore(age + 1, n - 1, salaire * facteur,
                  capital + Cotisation(age, salaire), facteur);
    }
  }

  // ---------------------------------------------------------------------
  // Conservative reconstruction of an unknown capital
  // ---------------------------------------------------------------------

  /** Reconstruction starts at the estimated entry age into the state
      pension, but never before the legal pension-fund age of 25. */
  function DebutReconstruction(ageActuel: int, anneesCotiseesAvs: int): (d: int)
    ensures d >= 25 && d >= ageActuel - anneesCotiseesAvs
    ensures d == 25 || d == ageActuel - anneesCotiseesAvs
  {
    MaxEntier(25, ageActuel - anneesCotiseesAvs)
  }

  /** The starting salary: the current one discounted over the
      reconstructed years. */
  function SalaireDepart(salaireActuel: real, n: nat): real
  {
    salaireActuel / Pow(FacteurPasse, n)
  }

  /** Compounding the discounted salary over the same years gives back the
      current salary. */
  lemma SalaireDepartRetrouve(salaireActuel: real, n: nat)
    ensures Croitre(SalaireDepart(salaireActuel, n), FacteurPasse, n) == salaireActuel
  {
    CroitreEstPuissance(SalaireDepart(salaireActuel, n), FacteurPasse, n);
  }

  /** The reconstructed capital: nothing when the start is not before the
      current age; otherwise the accumulation from zero over the years from
      the start to the year before the current age. */
  function CapitalReconstruit(ageActuel: int, salaireActuel: real, anneesCotiseesAvs: int): real
  {
    var debut := DebutReconstruction(ageActuel, anneesCotiseesAvs);
    if ageActuel <= debut then 0.0
    else
      var n := ageActuel - debut;
      Cumul(debut, n, SalaireDepart(salaireActuel, n), 0.0, FacteurPasse)
  }

  /** The reconstruction loop from year `annee` on, as it runs: the salary
      held is grown before use except in the first year `debut`. */
  ghost function BoucleReconstruction(annee: int, fin: int, debut: int, salaireCourant: real, capital: real): real
    decreases fin - annee
  {
    if annee >= fin then capital
    else
      var salaire := if annee > debut then salaireCourant * FacteurPasse else salaireCourant;
      BoucleReconstruction(annee + 1, fin, debut, salaire,
                           capital * (1.0 + TauxRendementMoyen) + Cotisation(annee, salaire))
  }

  /** The loop is the accumulation `Cumul`, on the held salary in the first
      year and on the grown one afterwards. */
  lemma {:induction false} BoucleEstCumul(annee: int, fin: int, debut: int, salaireCourant: real, capital: real)
    requires debut <= annee <= fin
    ensures BoucleReconstruction(annee, fin, debut, salaireCourant, capital)
            == Cumul(annee, fin - annee, if annee > debut then salaireCourant * FacteurPasse else salaireCourant,
                     capital, FacteurPasse)
    decreases fin - annee
  {
    if annee < fin {
      var salaire := if annee > debut then salaireCourant * FacteurPasse else salaireCourant;
      BoucleEstCumul(annee + 1, fin, debut, salaire,
                     capital * (1.0 + TauxRendementMoyen) + Cotisation(annee, salaire));
    }
  }

  method ReconstruireLppConservateur(ageActuel: int, salaireActuel: real, anneesCotiseesAvs: int)
    returns (capitalReconstruit: real)
    ensures capitalReconstruit == CapitalReconstruit(ageActuel, salaireActuel, anneesCotiseesAvs)
  {
    var debut := MaxEntier(25, ageActuel - anneesCotiseesAvs);
    if ageActuel <= debut {
      return 0.0;
    }
    capitalReconstruit := 0.0;
    var n := ageActuel - debut;
    var salaireCourant := SalaireDepart(salaireActuel, n);
    ghost var s0 := salaireCourant;
    var annee := debut;
    while annee < ageActuel
      invariant debut <= annee <= ageActuel
      invariant BoucleReconstruction(annee, ageActuel, debut, salaireCourant, capitalReconstruit)
                == BoucleReconstruction(debut, ageActuel, debut, s0, 0.0)
      decreases ageActuel - annee
    {
      if annee > debut {
        salaireCourant := salaireCourant * FacteurPasse;
      }
      var tauxEpargne := TauxEpargneLegal(annee);
      var salaireCoordonne := SalaireCoordonne(salaireCourant);
      var cotisationAnnuelle := salaireCoordonne * tauxEpargne;
      var capitalApresRendement := capitalReconstruit * (1.0 + TauxRendementMoyen);
      capitalReconstruit := capitalApresRendement + cotisationAnnuelle;
      annee := annee + 1;
    }
    BoucleEstCumul(debut, ageActuel, debut, s0, 0.0);
  }

  /** Nothing is reconstructed when the start age is not below the current
      age (at most 25 years old, or no contribution year). */
  lemma CapitalReconstruitNul(ageActuel: int, salaireActuel: real, anneesCotiseesAvs: int)
    requires ageActuel <= DebutReconstruction(ageActuel, anneesCotiseesAvs)
    ensures CapitalReconstruit(ageActuel, salaireActuel, anneesCotiseesAvs) == 0.0
  {
  }

  /** Otherwise the reconstructed capital is exactly the sum of the
      contributions of the years from the start to the year before the
      current age, and so never negative. */
  lemma {:induction false} CapitalReconstruitSomme(ageActuel: int, salaireActuel: real, anneesCotiseesAvs: int)
    requires ageActuel > DebutReconstruction(ageActuel, anneesCotiseesAvs)
    ensures var debut := DebutReconstruction(ageActuel, anneesCotiseesAvs);
      var n := ageActuel - debut;
      && CapitalReconstruit(ageActuel, salaireActuel, anneesCotiseesAvs)
         == Somme(Cotisations(debut, n, SalaireDepart(salaireActuel, n), FacteurPasse))
      && CapitalReconstruit(ageActuel, salaireActuel, anneesCotiseesAvs) >= 0.0
  {
    var debut := DebutReconstruction(ageActuel, anneesCotiseesAvs);
    var n := ageActuel - debut;
    var s0 := SalaireDepart(salaireActuel, n);
    CumulEstSommeCotisations(debut, n, s0, 0.0, FacteurPasse);
    CumulMinore(debut, n, s0, 0.0, FacteurPasse);
  }

  /** The contribution of year `start + i` is taken on the discounted
      salary grown `i` times; grown once more after the last year, it is
      the current salary, so the last year uses one growth less than the
      current salary. */
  lemma {:induction false} CapitalReconstruitSalaires(ageActuel: int, salaireActuel: real, debut: int)
    requires ageActuel > debut
    ensures var n := ageActuel - debut;
      var s0 := SalaireDepart(salaireActuel, n);
      && (forall i :: 0 <= i < n ==>
            Cotisations(debut, n, s0, FacteurPasse)[i] == Cotisation(debut + i, Croitre(s0, FacteurPasse, i)))
      && Croitre(s0, FacteurPasse, n - 1) * FacteurPasse == salaireActuel
  {
    var n := ageActuel - debut;
    var s0 := SalaireDepart(salaireActuel, n);
    forall i | 0 <= i < n
      ensures Cotisations(debut, n, s0, FacteurPasse)[i] == Cotisation(debut + i, Croitre(s0, FacteurPasse, i))
    {
      CotisationsSalaireCroissant(debut, n, s0, FacteurPasse, i);
    }
    SalaireDepartRetrouve(salaireActuel, n);
    CroitreEncore(s0, FacteurPasse, n - 1);
  }

  // ---------------------------------------------------------------------
  // Projection to retirement
  // ---------------------------------------------------------------------

  /** Final capital of the projection: the salary grows before each year's
      contribution, so the first year already uses the grown salary. */
  function CapitalProjete(ageActuel: int, ageRetraite: int, salaireInitial: real, capitalInitial: real): real
  {
    Cumul(ageActuel, LongueurIntervalle(ageActuel, ageRetraite),
          salaireInitial * FacteurProjection, capitalInitial, FacteurProjection)
  }

  method CalculerLpp(ageActuel: int, ageRetraite: int, salaireAnnuelInitial: real, capitalInitialLpp: real)
    returns (capitalLpp: real, renteLppMensuelle: real)
    ensures capitalLpp == CapitalProjete(ageActuel, ageRetraite, salaireAnnuelInitial, capitalInitialLpp)
    ensures renteLppMensuelle * 12.0 == capitalLpp * TauxConversion
  {
    capitalLpp := capitalInitialLpp;
    var salaireAnnuel := salaireAnnuelInitial;
    var annee := ageActuel;
    while annee < ageRetraite
      invariant ageActuel <= annee && (annee <= ageRetraite || annee == ageActuel)
      invariant Cumul(annee, LongueurIntervalle(annee, ageRetraite),
                      salaireAnnuel * FacteurProjection, capitalLpp, FacteurProjection)
                == CapitalProjete(ageActuel, ageRetraite, salaireAnnuelInitial, capitalInitialLpp)
      decreases ageRetraite - annee
    {
      ghost var reste := LongueurIntervalle(annee, ageRetraite);
      ghost var capitalAvant := capitalLpp;
      salaireAnnuel := salaireAnnuel * FacteurProjection;
      var tauxEpargne := TauxEpargneLegal(annee);
      var salaireCoordonne := SalaireCoordonne(salaireAnnuel);
      var cotisationAnnuelle := salaireCoordonne * tauxEpargne;
      var capitalApresRendement := capitalLpp * (1.0 + TauxRendementMoyen);
      capitalLpp := capitalApresRendement + cotisationAnnuelle;
      assert capitalLpp == capitalAvant * (1.0 + TauxRendementMoyen) + Cotisation(annee, salaireAnnuel);
      assert Cumul(annee, reste, salaireAnnuel, capitalAvant, FacteurProjection)
             == Cumul(annee + 1, reste - 1, salaireAnnuel * FacteurProjection, capitalLpp, FacteurProjection);
      annee := annee + 1;
    }
    var renteLppAnnuelle := capitalLpp * TauxConversion;
    renteLppMensuelle := renteLppAnnuelle / 12.0;
  }

  /** The projection leaves the capital unchanged for an empty range of
      years, never lowers it, and adds exactly the contributions of each
      year, the year `ageActuel + i` on the salary grown `i + 1` times. */
  lemma {:induction false} CapitalProjeteProprietes(ageActuel: int, ageRetraite: int, salaireInitial: real, capitalInitial: real)
    ensures ageRetraite <= ageActuel ==> CapitalProjete(ageActuel, ageRetraite, salaireInitial, capitalInitial) == capitalInitial
    ensures CapitalProjete(ageActuel, ageRetraite, salaireInitial, capitalInitial) >= capitalInitial
    ensures var n := LongueurIntervalle(ageActuel, ageRetraite);
      var cs := Cotisations(ageActuel, n, salaireInitial * FacteurProjection, FacteurProjection);
      && CapitalProjete(ageActuel, ageRetraite, salaireInitial, capitalInitial) == capitalInitial + Somme(cs)
      && (forall i :: 0 <= i < n ==>
            cs[i] == Cotisation(ageActuel + i, Croitre(salaireInitial, FacteurProjection, i + 1)))
  {
    var n := LongueurIntervalle(ageActuel, ageRetraite);
    var s1 := salaireInitial * FacteurProjection;
    CumulEstSommeCotisations(ageActuel, n, s1, capitalInitial, FacteurProjection);
    CumulMinore(ageActuel, n, s1, capitalInitial, FacteurProjection);
    forall i | 0 <= i < n
      ensures Cotisations(ageActuel, n, s1, FacteurProjection)[i]
              == Cotisation(ageActuel + i, Croitre(salaireInitial, FacteurProjection, i + 1))
    {
      CotisationsSalaireCroissant(ageActuel, n, s1, FacteurProjection, i);
    }
  }

  // ---------------------------------------------------------------------
  // State pension
  // ---------------------------------------------------------------------

  datatype RenteIndividuelle = RenteIndividuelle(rente: real, ramd: real, annees: int)

  /** Theoretical full-career pension: the minimum for a non-positive
      income, the maximum from the income ceiling on, and in between a
      line from the minimum at zero to the maximum at the ceiling. */
  function RenteTheorique(ramd: real): (r: real)
    ensures RenteMin <= r <= RenteMax
    ensures ramd >= SeuilMaxRamd ==> r == RenteMax
    ensures ramd <= 0.0 ==> r == RenteMin
    ensures 0.0 < ramd < SeuilMaxRamd ==> r < RenteMax
  {
    if ramd >= SeuilMaxRamd then RenteMax
    else if ramd <= 0.0 then RenteMin
    else Min(RenteMin + (RenteMax - RenteMin) * (ramd / SeuilMaxRamd), RenteMax)
  }

  lemma RenteTheoriqueCroissante(a: real, b: real)
    requires a <= b
    ensures RenteTheorique(a) <= RenteTheorique(b)
  {
  }

  /** Care credits spread over the (clamped) contribution years. */
  function Bonification(annees: int, anneesBe: int, anneesBa: int): (r: real)
    requires annees >= 1
    ensures r * annees as real == (anneesBe + anneesBa) as real * BonifCreditAnnuel
  {
    (anneesBe + anneesBa) as real * BonifCreditAnnuel / annees as real
  }

  /** The pension of an incomplete career: the theoretical pension scaled
      by `years / 44` (written `1 - missing / 44`), never below the minimum
      pension; unchanged from 44 years on. */
  function RenteAvecLacunes(theorique: real, annees: int): (r: real)
    requires RenteMin <= theorique <= RenteMax && annees >= 1
    ensures RenteMin <= r <= theorique
    ensures annees >= CarrierePleine ==> r == theorique
    ensures annees < CarrierePleine ==>
      && r >= theorique * (annees as real / 44.0)
      && (r == RenteMin || r == theorique * (annees as real / 44.0))
  {
    if annees >= CarrierePleine then theorique
    else
      var tauxLacunes := (CarrierePleine - annees) as real / CarrierePleine as real;
      assert CarrierePleine as real == 44.0;
      assert 1.0 - tauxLacunes == annees as real / 44.0;
      assert theorique * (annees as real / 44.0) <= theorique;
      Max(theorique * (1.0 - tauxLacunes), RenteMin)
  }

  /** The individual (uncapped) state pension: years clamped to at least
      one, care credits spread over them and added to the average income,
      the theoretical pension of that income, reduced for an incomplete
      career. */
  function CalculerRenteIndividuelleAvs(salaireMoyenAvs: real, anneesCotiseesTotal: int,
                                        anneesBe: int, anneesBa: int): (r: RenteIndividuelle)
    ensures r.annees >= 1 && r.annees >= anneesCotiseesTotal
    ensures r.annees == 1 || r.annees == anneesCotiseesTotal
    ensures r.ramd == salaireMoyenAvs + Bonification(r.annees, anneesBe, anneesBa)
    ensures r.rente == RenteAvecLacunes(RenteTheorique(r.ramd), r.annees)
    ensures RenteMin <= r.rente <= RenteTheorique(r.ramd) <= RenteMax
  {
    var annees := MaxEntier(1, anneesCotiseesTotal);
    var bonif := Bonification(annees, anneesBe, anneesBa);
    var ramd := salaireMoyenAvs + bonif;
    RenteIndividuelle(RenteAvecLacunes(RenteTheorique(ramd), annees), ramd, annees)
  }

  lemma RenteIndividuelleCarrierePleine(salaireMoyenAvs: real, annees: int)
    requires annees >= CarrierePleine
    ensures CalculerRenteIndividuelleAvs(salaireMoyenAvs, annees, 0, 0).rente == RenteTheorique(salaireMoyenAvs)
  {
  }

  // ---------------------------------------------------------------------
  // Spouse pension and couple ceiling
  // ---------------------------------------------------------------------

  /** What was typed for the spouse's pension, once stripped and lowered:
      the literal `ne sait pas`, a number, or text that is not a number. */
  datatype SaisieConjoint = NeSaitPas | Nombre(valeur: real) | SaisieInvalide

  datatype OrigineConjoint = MedianeParDefaut | SaisieClient | MedianeSaisieInvalide

  /** The spouse's uncapped pension: the median unless a number was given,
      and a given number clamped to the range of the scale. */
  function RenteConjointNonPlafonnee(saisie: SaisieConjoint): (r: (real, OrigineConjoint))
    ensures RenteMin <= r.0 <= RenteMax
    ensures saisie.Nombre? <==> r.1 == SaisieClient
    ensures !saisie.Nombre? ==> r.0 == RenteMediane
    ensures saisie.Nombre? && RenteMin <= saisie.valeur <= RenteMax ==> r.0 == saisie.valeur
    ensures saisie.Nombre? && saisie.valeur < RenteMin ==> r.0 == RenteMin
    ensures saisie.Nombre? && saisie.valeur > RenteMax ==> r.0 == RenteMax
  {
    match saisie
    case NeSaitPas => (RenteMediane, MedianeParDefaut)
    case Nombre(v) => (Min(RenteMax, Max(RenteMin, v)), SaisieClient)
    case SaisieInvalide => (RenteMediane, MedianeSaisieInvalide)
  }

  /** The couple ceiling, as the script lays it out step by step: nothing
      changes unless the sum exceeds the ceiling strictly; otherwise each
      pension loses the excess in proportion to its share and is floored at
      zero. */
  method PlafonnerCouple(renteUser: real, renteConjoint: real)
    returns (renteVerseeUser: real, renteVerseeConjoint: real, plafondApplique: bool)
    ensures plafondApplique <==> renteUser + renteConjoint > PlafondCouple
    ensures !plafondApplique ==> renteVerseeUser == renteUser && renteVerseeConjoint == renteConjoint
    ensures plafondApplique ==>
      && renteVerseeUser == Max(0.0, renteUser * PlafondCouple / (renteUser + renteConjoint))
      && renteVerseeConjoint == Max(0.0, renteConjoint * PlafondCouple / (renteUser + renteConjoint))
  {
    renteVerseeUser := renteUser;
    renteVerseeConjoint := renteConjoint;
    plafondApplique := false;
    var totalCoupleSansPlafond := renteUser + renteConjoint;
    if totalCoupleSansPlafond > PlafondCouple {
      plafondApplique := true;
      var montantAReduire := totalCoupleSansPlafond - PlafondCouple;
      var ratioPartUtilisateur := renteUser / totalCoupleSansPlafond;
      var renteReductionUser := montantAReduire * ratioPartUtilisateur;
      var renteReductionConjoint := montantAReduire * (1.0 - ratioPartUtilisateur);
      renteVerseeUser := renteUser - renteReductionUser;
      renteVerseeConjoint := renteConjoint - renteReductionConjoint;
      PartReduite(renteUser, renteConjoint);
      PartComplementaire(renteUser, renteConjoint);
      renteVerseeUser := Max(0.0, renteVerseeUser);
      renteVerseeConjoint := Max(0.0, renteVerseeConjoint);
    }
  }

  /** A share less its part of the excess is that share scaled to the
      ceiling. */
  lemma {:induction false} PartReduite(a: real, b: real)
    requires a + b > 0.0
    ensures a - (a + b - PlafondCouple) * (a / (a + b)) == a * PlafondCouple / (a + b)
  {
    var t := a + b;
    var q := a / t;
    assert q * t == a;
    assert (a - (t - PlafondCouple) * q) * t == a * PlafondCouple;
  }

  /** The other share less the complement of the first share's part of
      the excess is that share scaled to the ceiling. */
  lemma {:induction false} PartComplementaire(a: real, b: real)
    requires a + b > 0.0
    ensures b - (a + b - PlafondCouple) * (1.0 - a / (a + b)) == b * PlafondCouple / (a + b)
  {
    var t := a + b;
    var q := a / t;
    assert q * t == a;
    assert (b - (t - PlafondCouple) * (1.0 - q)) * t == b * t - (t - PlafondCouple) * (t - q * t);
    assert (b - (t - PlafondCouple) * (1.0 - q)) * t == b * PlafondCouple;
  }

  /** For two non-negative pensions over the ceiling the capped pair sums
      to the ceiling exactly, and neither pension rises. */
  lemma PlafonnementSomme(renteUser: real, renteConjoint: real)
    requires renteUser >= 0.0 && renteConjoint >= 0.0 && renteUser + renteConjoint > PlafondCouple
    ensures var t := renteUser + renteConjoint;
      && renteUser * PlafondCouple / t + renteConjoint * PlafondCouple / t == PlafondCouple
      && renteUser * PlafondCouple / t <= renteUser
      && renteConjoint * PlafondCouple / t <= renteConjoint
  {
    var t := renteUser + renteConjoint;
    assert (renteUser * PlafondCouple / t) * t == renteUser * PlafondCouple;
    assert (renteConjoint * PlafondCouple / t) * t == renteConjoint * PlafondCouple;
    assert (renteUser * PlafondCouple / t + renteConjoint * PlafondCouple / t) * t == PlafondCouple * t;
    assert renteUser * PlafondCouple <= renteUser * t;
    assert renteConjoint * PlafondCouple <= renteConjoint * t;
  }

  // ---------------------------------------------------------------------
  // The calculation block of the script
  // ---------------------------------------------------------------------

  /** Where the opening pension-fund capital comes from. */
  datatype SourceCapital = Reconstruit | SaisieFactuelle | ReconstruitApresErreur

  /** The answers that stand for "I do not know", once stripped. */
  predicate CapitalInconnu(saisie: string) {
    saisie == "0" || saisie == "je ne sais pas" || saisie == "ne sait pas" || saisie == ""
  }

  /** The source of the opening capital: reconstructed for an answer meaning
      "unknown" (typed `0` included, but not `0.0`), the typed amount when it
      reads as a number, reconstructed after an input error otherwise.
      `valeur` is what `float()` makes of the answer. */
  function SourceCapitalInitial(saisie: string, valeur: Option<real>): (s: SourceCapital)
    ensures s == Reconstruit <==> CapitalInconnu(Strip(saisie))
    ensures s == SaisieFactuelle <==> !CapitalInconnu(Strip(saisie)) && valeur.Some?
  {
    if CapitalInconnu(Strip(saisie)) then Reconstruit
    else if valeur.Some? then SaisieFactuelle
    else ReconstruitApresErreur
  }

  datatype ResultatScript = ResultatScript(
    capitalInitialLpp: real,
    capitalFinalLpp: real,
    renteLppMensuelle: real,
    renteAvsTheorique: real,
    renteConjointTheorique: real,
    renteAvsVersee: real,
    renteConjointVersee: real,
    plafondApplique: bool,
    renteTotaleMensuelle: real)

  /** The spouse block of the script: for a married person the spouse's
      uncapped pension, then the couple ceiling on the pair; for anyone else
      no spouse pension and the person's pension unchanged. */
  method ConjointEtPlafond(marie: bool, renteAvs: real, saisieConjoint: SaisieConjoint)
    returns (renteConjointTheorique: real, renteAvsVersee: real, renteConjointVersee: real, plafondApplique: bool)
    ensures marie ==> renteConjointTheorique == RenteConjointNonPlafonnee(saisieConjoint).0
    ensures !marie ==> renteConjointTheorique == 0.0 && !plafondApplique
                       && renteAvsVersee == renteAvs && renteConjointVersee == 0.0
    ensures plafondApplique <==> marie && renteAvs + renteConjointTheorique > PlafondCouple
    ensures plafondApplique ==>
      && renteAvsVersee == Max(0.0, renteAvs * PlafondCouple / (renteAvs + renteConjointTheorique))
      && renteConjointVersee == Max(0.0, renteConjointTheorique * PlafondCouple / (renteAvs + renteConjointTheorique))
    ensures plafondApplique && renteAvs >= 0.0 ==>
      && renteAvsVersee + renteConjointVersee == PlafondCouple
      && renteAvsVersee <= renteAvs && renteConjointVersee <= renteConjointTheorique
    ensures !plafondApplique ==> renteAvsVersee == renteAvs && renteConjointVersee == renteConjointTheorique
  {
    renteConjointTheorique := 0.0;
    if marie {
      renteConjointTheorique := RenteConjointNonPlafonnee(saisieConjoint).0;
    }
    renteAvsVersee := renteAvs;
    renteConjointVersee := renteConjointTheorique;
    plafondApplique := false;
    if marie {
      renteAvsVersee, renteConjointVersee, plafondApplique := PlafonnerCouple(renteAvs, renteConjointTheorique);
      if plafondApplique && renteAvs >= 0.0 {
        PlafonnementSomme(renteAvs, renteConjointTheorique);
      }
    }
  }

  /** What the calculation block of the script yields for these answers:
      opening capital (typed or reconstructed), projection, individual state
      pension over the projected career, the couple ceiling for a person
      whose status reads `marié`, and the monthly total. */
  predicate ResultatAttendu(
    r: ResultatScript,
    statutCivil: string, ageActuel: int, ageRetraite: int,
    salaireActuelLpp: real, salaireMoyenAvs: real,
    anneesCotisees: int, anneesBe: int, anneesBa: int,
    saisieCapital: string, valeurCapital: Option<real>,
    saisieConjoint: SaisieConjoint)
  {
    && (var source := SourceCapitalInitial(saisieCapital, valeurCapital);
        r.capitalInitialLpp == if source == SaisieFactuelle then valeurCapital.value
                               else CapitalReconstruit(ageActuel, salaireActuelLpp, anneesCotisees))
    && r.capitalFinalLpp == CapitalProjete(ageActuel, ageRetraite, salaireActuelLpp, r.capitalInitialLpp)
    && r.renteLppMensuelle * 12.0 == r.capitalFinalLpp * TauxConversion
    && r.renteAvsTheorique ==
       CalculerRenteIndividuelleAvs(salaireMoyenAvs, anneesCotisees + (ageRetraite - ageActuel), anneesBe, anneesBa).rente
    && (var marie := Minuscule(Strip(statutCivil)) == "marié";
        && (marie ==> r.renteConjointTheorique == RenteConjointNonPlafonnee(saisieConjoint).0)
        && (!marie ==> r.renteConjointTheorique == 0.0 && !r.plafondApplique
                       && r.renteAvsVersee == r.renteAvsTheorique && r.renteConjointVersee == 0.0)
        && (r.plafondApplique <==> marie && r.renteAvsTheorique + r.renteConjointTheorique > PlafondCouple))
    && (r.plafondApplique ==>
      && r.renteAvsVersee == Max(0.0, r.renteAvsTheorique * PlafondCouple / (r.renteAvsTheorique + r.renteConjointTheorique))
      && r.renteConjointVersee
         == Max(0.0, r.renteConjointTheorique * PlafondCouple / (r.renteAvsTheorique + r.renteConjointTheorique))
      && r.renteAvsVersee + r.renteConjointVersee == PlafondCouple
      && r.renteAvsVersee <= r.renteAvsTheorique && r.renteConjointVersee <= r.renteConjointTheorique)
    && (!r.plafondApplique ==> r.renteAvsVersee == r.renteAvsTheorique && r.renteConjointVersee == r.renteConjointTheorique)
    && r.renteTotaleMensuelle == r.renteAvsVersee + r.renteLppMensuelle
  }

  /** The calculation block of the script once the answers are read. */
  method CalculerPilierComplet(
    statutCivil: string, ageActuel: int, ageRetraite: int,
    salaireActuelLpp: real, salaireMoyenAvs: real,
    anneesCotisees: int, anneesBe: int, anneesBa: int,
    saisieCapital: string, valeurCapital: Option<real>,
    saisieConjoint: SaisieConjoint)
    returns (r: ResultatScript)
    ensures ResultatAttendu(r, statutCivil, ageActuel, ageRetraite, salaireActuelLpp, salaireMoyenAvs,
                            anneesCotisees, anneesBe, anneesBa, saisieCapital, valeurCapital, saisieConjoint)
  {
    var statut := Minuscule(Strip(statutCivil));
    var anneesRestantes := ageRetraite - ageActuel;
    var capitalInitialLpp: real;
    if SourceCapitalInitial(saisieCapital, valeurCapital) == SaisieFactuelle {
      capitalInitialLpp := valeurCapital.value;
    } else {
      capitalInitialLpp := ReconstruireLppConservateur(ageActuel, salaireActuelLpp, anneesCotisees);
    }
    var capitalFinalLpp, renteLppMensuelle := CalculerLpp(ageActuel, ageRetraite, salaireActuelLpp, capitalInitialLpp);
    var avs := CalculerRenteIndividuelleAvs(salaireMoyenAvs, anneesCotisees + anneesRestantes, anneesBe, anneesBa);
    var renteConjointUncapped, renteVerseeUser, renteVerseeConjoint, plafondApplique :=
      ConjointEtPlafond(statut == "marié", avs.rente, saisieConjoint);
    r := ResultatScript(capitalInitialLpp, capitalFinalLpp, renteLppMensuelle, avs.rente, renteConjointUncapped,
                        renteVerseeUser, renteVerseeConjoint, plafondApplique, renteVerseeUser + renteLppMensuelle);
  }

  /** The ages the script refuses before calculating anything: a retirement
      that is not in the future, or a current age below 25. */
  predicate AgesInvalides(ageActuel: int, ageRetraite: int) {
    ageRetraite <= ageActuel || ageActuel < 25
  }

  /** The script's run: nothing when the ages are refused, the calculation
      block otherwise. */
  method SimulerPilierComplet(
    statutCivil: string, ageActuel: int, ageRetraite: int,
    salaireActuelLpp: real, salaireMoyenAvs: real,
    anneesCotisees: int, anneesBe: int, anneesBa: int,
    saisieCapital: string, valeurCapital: Option<real>,
    saisieConjoint: SaisieConjoint)
    returns (res: Option<ResultatScript>)
    ensures res.None? <==> AgesInvalides(ageActuel, ageRetraite)
    ensures res.Some? ==>
      ResultatAttendu(res.value, statutCivil, ageActuel, ageRetraite, salaireActuelLpp, salaireMoyenAvs,
                      anneesCotisees, anneesBe, anneesBa, saisieCapital, valeurCapital, saisieConjoint)
  {
    if AgesInvalides(ageActuel, ageRetraite) {
      return None;
    }
    var r := CalculerPilierComplet(statutCivil, ageActuel, ageRetraite, salaireActuelLpp, salaireMoyenAvs,
                                   anneesCotisees, anneesBe, anneesBa, saisieCapital, valeurCapital, saisieConjoint);
    res := Some(r);
  }
}
