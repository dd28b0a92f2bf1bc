/** How the variants of the engine relate: where two of them compute the
    same thing, a lemma proves them equal for every input, which carries
    the properties proved of one over to the other; where they diverge,
    a lemma names the inputs on which they disagree. */
module Variantes {
  import opened Outils
  import C = CalculateurRetraite
  import S = ScriptCalcul
  import B = SimulateurBackend
  import A = SimulateurApi

  // ---------------------------------------------------------------------
  // Savings rate and coordinated salary
  // ---------------------------------------------------------------------

  /** The four variants that have a savings-rate table use the same one. */
  lemma TauxEpargneIdentiques(age: int)
    ensures C.TauxEpargne(age) == S.TauxEpargneLegal(age) == B.TauxEpargne(age) == A.TauxEpargne(age)
  {
  }

  /** The backend computes the canonical coordinated salary. */
  lemma SalaireCoordonneBackendCanonique(salaire: real)
    ensures B.SalaireCoordonne(salaire) == C.SalaireCoordonne(salaire)
  {
  }

  /** The API computes the console script's coordinated salary. */
  lemma SalaireCoordonneApiScript(salaire: real)
    ensures A.SalaireCoordonne(salaire) == S.SalaireCoordonne(salaire)
  {
  }

  /** The two families agree up to the canonical insured-salary cap
      (88200), whether the entry test is `<` or `<=`; above it the
      canonical salary stays at 61740 and the script's keeps growing to
      62475. */
  lemma SalaireCoordonneCanoniqueScript(salaire: real)
    ensures salaire <= C.SalaireMax ==> C.SalaireCoordonne(salaire) == S.SalaireCoordonne(salaire)
    ensures salaire > C.SalaireMax ==>
      && C.SalaireCoordonne(salaire) == C.SalaireMax - C.DeductionCoord
      && C.SalaireCoordonne(salaire) < S.SalaireCoordonne(salaire)
  {
  }

  /** So the API's yearly contribution is the script's. */
  lemma CotisationApiScript(age: int, salaire: real)
    ensures A.SalaireCoordonne(salaire) * A.TauxEpargne(age) == S.Cotisation(age, salaire)
  {
    SalaireCoordonneApiScript(salaire);
    assert A.TauxEpargne(age) == S.TauxEpargneLegal(age);
  }

  // ---------------------------------------------------------------------
  // Occupational pension
  // ---------------------------------------------------------------------

  /** The API's projection (salary grown before each contribution) is the
      script's accumulation from the once-grown salary. */
  lemma {:induction false} ProjectionApiScript(age: int, n: nat, salaire: real, capital: real)
    ensures A.Projection(age, n, salaire, capital)
            == S.Cumul(age, n, salaire * S.FacteurProjection, capital, S.FacteurProjection)
    decreases n
  {
    if n > 0 {
      assert A.FacteurFutur == S.FacteurProjection;
      var s := salaire * A.FacteurFutur;
      var c := capital * (1.0 + A.TauxRendement) + A.SalaireCoordonne(s) * A.TauxEpargne(age);
      assert A.Projection(age, n, salaire, capital) == A.Projection(age + 1, n - 1, s, c);
      assert S.Cumul(age, n, s, capital, S.FacteurProjection) == S.Cumul(age + 1, n - 1, s * S.FacteurProjection, c, S.FacteurProjection) by {
        CotisationApiScript(age, s);
      }
      ProjectionApiScript(age + 1, n - 1, s, c);
    }
  }

  /** So the API and the script project the same capital to retirement. */
  lemma CapitalProjeteApiScript(ageActuel: int, ageRetraite: int, salaire: real, capital: real)
    ensures A.Projection(ageActuel, LongueurIntervalle(ageActuel, ageRetraite), salaire, capital)
            == S.CapitalProjete(ageActuel, ageRetraite, salaire, capital)
  {
    ProjectionApiScript(ageActuel, LongueurIntervalle(ageActuel, ageRetraite), salaire, capital);
  }

  /** The later years of the API's reconstruction are the script's
      accumulation from the once-grown salary. */
  lemma {:induction false} ProjectionPasseApiScript(age: int, n: nat, salaire: real, capital: real)
    ensures A.ProjectionPasse(age, n, salaire, capital)
            == S.Cumul(age, n, salaire * S.FacteurPasse, capital, S.FacteurPasse)
    decreases n
  {
    if n > 0 {
      assert A.FacteurPasse == S.FacteurPasse;
      var s := salaire * A.FacteurPasse;
      var c := capital * (1.0 + A.TauxRendement) + A.SalaireCoordonne(s) * A.TauxEpargne(age);
      assert A.ProjectionPasse(age, n, salaire, capital) == A.ProjectionPasse(age + 1, n - 1, s, c);
      assert S.Cumul(age, n, s, capital, S.FacteurPasse) == S.Cumul(age + 1, n - 1, s * S.FacteurPasse, c, S.FacteurPasse) by {
        CotisationApiScript(age, s);
      }
      ProjectionPasseApiScript(age + 1, n - 1, s, c);
    }
  }

  /** The reconstruction loop: the API's first year then its later years
      are the script's accumulation over all of them. */
  lemma ReconstructionApiScript(debut: int, n: nat, s0: real)
    requires n >= 1
    ensures A.ProjectionPasse(debut + 1, n - 1, s0, 0.0 * (1.0 + A.TauxRendement) + A.SalaireCoordonne(s0) * A.TauxEpargne(debut))
            == S.Cumul(debut, n, s0, 0.0, S.FacteurPasse)
  {
    var c := 0.0 * (1.0 + A.TauxRendement) + A.SalaireCoordonne(s0) * A.TauxEpargne(debut);
    CotisationApiScript(debut, s0);
    assert S.Cumul(debut, n, s0, 0.0, S.FacteurPasse) == S.Cumul(debut + 1, n - 1, s0 * S.FacteurPasse, c, S.FacteurPasse);
    ProjectionPasseApiScript(debut + 1, n - 1, s0, c);
  }

  /** The API reconstructs the script's capital. */
  lemma CapitalReconstruitApiScript(ageActuel: int, salaireActuel: real, anneesAvs: int)
    ensures A.CapitalReconstruit(ageActuel, salaireActuel, anneesAvs) == S.CapitalReconstruit(ageActuel, salaireActuel, anneesAvs)
  {
    var debut := A.DebutReconstruction(ageActuel, anneesAvs);
    assert debut == S.DebutReconstruction(ageActuel, anneesAvs);
    if ageActuel > debut {
      var n := ageActuel - debut;
      var s0 := A.SalaireDepart(salaireActuel, n);
      assert s0 == S.SalaireDepart(salaireActuel, n);
      var c := 0.0 * (1.0 + A.TauxRendement) + A.SalaireCoordonne(s0) * A.TauxEpargne(debut);
      assert A.CapitalReconstruit(ageActuel, salaireActuel, anneesAvs) == A.ProjectionPasse(debut + 1, n - 1, s0, c);
      assert S.CapitalReconstruit(ageActuel, salaireActuel, anneesAvs) == S.Cumul(debut, n, s0, 0.0, S.FacteurPasse);
      ReconstructionApiScript(debut, n, s0);
    }
  }

  /** So the API's reconstruction is the sum of the yearly contributions
      from the start age to the year before the current age. */
  lemma CapitalReconstruitApiSomme(ageActuel: int, salaireActuel: real, anneesAvs: int)
    requires ageActuel > A.DebutReconstruction(ageActuel, anneesAvs)
    ensures var debut := A.DebutReconstruction(ageActuel, anneesAvs);
      var n := ageActuel - debut;
      A.CapitalReconstruit(ageActuel, salaireActuel, anneesAvs)
      == S.Somme(S.Cotisations(debut, n, S.SalaireDepart(salaireActuel, n), S.FacteurPasse))
  {
    CapitalReconstruitApiScript(ageActuel, salaireActuel, anneesAvs);
    S.CapitalReconstruitSomme(ageActuel, salaireActuel, anneesAvs);
  }

  /** Where the backend's projection puts the growth after the
      contribution, starting it from a once-grown salary gives the same
      capital as the same loop with the growth first. */
  lemma {:induction false} OrdreCroissanceBackend(age: int, n: nat, salaire: real, capital: real)
    ensures B.CapitalFinal(age, n, salaire * 1.005, capital) == CroissanceAvant(age, n, salaire, capital)
    decreases n
  {
    if n > 0 {
      var s := salaire * 1.005;
      OrdreCroissanceBackend(age + 1, n - 1, s, capital + B.SalaireCoordonne(s) * B.TauxEpargne(age));
    }
  }

  /** For a non-negative salary, growing it before each contribution (as
      the script and the API do) never gives less capital than the
      backend's order. */
  lemma OrdreCroissanceAvantAvantage(age: int, n: nat, salaire: real, capital: real)
    requires salaire >= 0.0
    ensures B.CapitalFinal(age, n, salaire, capital) <= CroissanceAvant(age, n, salaire, capital)
  {
    B.CapitalFinalCroissant(age, n, salaire, salaire * 1.005, capital, capital);
    OrdreCroissanceBackend(age, n, salaire, capital);
  }

  /** The backend's loop with the salary grown before each contribution,
      as the script and the API do. */
  function CroissanceAvant(age: int, n: nat, salaire: real, capital: real): real
    decreases n
  {
    if n == 0 then capital
    else
      var s := salaire * 1.005;
      CroissanceAvant(age + 1, n - 1, s, capital + B.SalaireCoordonne(s) * B.TauxEpargne(age))
  }

  // ---------------------------------------------------------------------
  // State pension
  // ---------------------------------------------------------------------

  /** The API's and the script's theoretical pensions coincide. */
  lemma RenteTheoriqueApiScript(ramd: real)
    ensures A.RenteTheorique(ramd) == S.RenteTheorique(ramd)
  {
  }

  /** The API and the script reduce an incomplete career's pension
      alike. */
  lemma RenteAvecLacunesApiScript(theorique: real, annees: int)
    requires S.RenteMin <= theorique <= S.RenteMax && annees >= 1
    ensures A.RenteAvecLacunes(theorique, annees) == S.RenteAvecLacunes(theorique, annees)
  {
    if annees < S.CarrierePleine {
      var q := (S.CarrierePleine - annees) as real / S.CarrierePleine as real;
      assert theorique - theorique * q == theorique * (1.0 - q);
    }
  }

  /** The API and the script compute the same individual pension from the
      same inputs. */
  lemma CalculAvsApiScript(salaireMoyen: real, annees: int, anneesBe: int, anneesBa: int)
    ensures var a := A.CalculAvs(salaireMoyen, annees, anneesBe, anneesBa);
      var s := S.CalculerRenteIndividuelleAvs(salaireMoyen, annees, anneesBe, anneesBa);
      a.renteFinale == s.rente && a.ramd == s.ramd && a.annees == s.annees
  {
    var a := A.CalculAvs(salaireMoyen, annees, anneesBe, anneesBa);
    var s := S.CalculerRenteIndividuelleAvs(salaireMoyen, annees, anneesBe, anneesBa);
    assert A.Bonification(a.annees, anneesBe, anneesBa) == S.Bonification(s.annees, anneesBe, anneesBa);
    RenteTheoriqueApiScript(a.ramd);
    RenteAvecLacunesApiScript(a.renteTheorique, a.annees);
  }

  /** The canonical full-career pension has a step at a third of the
      income ceiling that the backend's does not: below it the canonical
      pension is the minimum and the backend's is higher; from above it to
      the ceiling they are equal. */
  lemma RenteCompleteCanoniqueBackend(ramd: real)
    ensures 0.0 < ramd <= C.RamdMax / 3.0 ==> B.RenteCompleteAvs(ramd) > C.RenteComplete(ramd) == C.RenteMin
    ensures ramd <= 0.0 || ramd > C.RamdMax / 3.0 ==> B.RenteCompleteAvs(ramd) == C.RenteComplete(ramd)
  {
  }

  /** The backend reduces a full-career pension for the missing years as
      the canonical variant does before its pro-rata floor. */
  lemma RenteReduiteCanoniqueBackend(renteComplete: real, annees: int)
    requires renteComplete >= 0.0 && annees <= C.CarrierePleine
    ensures B.RenteReduite(renteComplete, B.CarrierePleine - annees)
            == C.RenteReduite(renteComplete, C.AnneesManquantes(annees))
  {
  }
}
