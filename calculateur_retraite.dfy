/** The canonical Swiss retirement calculator (state pension AVS, first
    pillar; occupational pension LPP, second pillar), 2025 constants:
    savings-rate table, coordinated salary, year-by-year capital projection,
    state pension, married-couple ceiling, buy-back scenarios and the
    aggregator with its spouse-pension fallback. */
module CalculateurRetraite {
  import opened Outils

  // ---------------------------------------------------------------------
  // AVS 2025
  // ---------------------------------------------------------------------
  const RenteMax: real := 2520.0
  const RenteMin: real := 1260.0
  const RenteMediane: real := 1890.0
  const RamdMax: real := 90720.0
  const CarrierePleine: int := 44
  const PlafondCouple: real := 3780.0
  const BonifCreditAnnuel: real := 45360.0
  const ReductionParAnnee: real := 0.0227

  // ---------------------------------------------------------------------
  // LPP 2025
  // ---------------------------------------------------------------------
  const DeductionCoord: real := 26460.0
  const SalaireMax: real := 88200.0
  const SalaireMin: real := 22680.0
  const TauxConversion: real := 0.068
  const TauxInteret: real := 0.01
  /** Default yearly salary progression of the projection (0.5 %). */
  const ProgressionSalariale: real := 0.005

  // ---------------------------------------------------------------------
  // Result records
  // ---------------------------------------------------------------------

  datatype ResultatAvs = ResultatAvs(
    rente: real,
    renteComplete: real,
    ramd: real,
    anneesManquantes: int,
    tauxReduction: real,   // in percent
    bonifications: real)

  /** One projected year; `tauxEpargne` is in percent. */
  datatype ProjectionAnnuelle = ProjectionAnnuelle(
    age: int,
    salaire: real,
    salaireCoordonne: real,
    tauxEpargne: real,
    cotisation: real,
    interets: real,
    capitalDebut: real,
    capitalFin: real)

  datatype ResultatLpp = ResultatLpp(
    capitalInitial: real,
    capitalFinal: real,
    renteMensuelle: real,
    salaireCoordonne: real,
    projection: seq<ProjectionAnnuelle>,
    totalCotisations: real,
    totalInterets: real)

  datatype PlafonnementCouple = PlafonnementCouple(
    rentePersonne: real,
    renteConjoint: real,
    plafonne: bool,
    excedent: real,
    totalTheorique: real,
    totalFinal: real)

  datatype ScenarioRachat = ScenarioRachat(
    nom: string,
    coutTotal: real,
    gainMensuel: real,
    gainAnnuel: real,
    gain20Ans: real,
    renteTotale: real,
    recommande: bool,
    coutNet: Option<real>,
    economieImpot: Option<real>)

  // ---------------------------------------------------------------------
  // Savings-rate table
  // ---------------------------------------------------------------------

  /** Mandatory LPP savings rate for an age: nothing below 25, then one
      rate per bracket 25-34, 35-44, 45-54 and 55+. */
  function TauxEpargne(age: int): (r: real)
    ensures 0.0 <= r <= 0.18
    ensures r == 0.0 <==> age < 25
  {
    if age < 25 then 0.0
    else if age <= 34 then 0.07
    else if age <= 44 then 0.10
    else if age <= 54 then 0.15
    else 0.18
  }

  lemma TauxEpargneCroissant(a: int, b: int)
    requires a <= b
    ensures TauxEpargne(a) <= TauxEpargne(b)
  {
  }

  /** The rate table's own test cases. */
  lemma TauxEpargneExemples()
    ensures TauxEpargne(20) == 0.0 && TauxEpargne(30) == 0.07
    ensures TauxEpargne(40) == 0.10 && TauxEpargne(50) == 0.15
    ensures TauxEpargne(60) == 0.18
  {
  }

  // ---------------------------------------------------------------------
  // Coordinated salary
  // ---------------------------------------------------------------------

  /** Insured salary above the coordination deduction: zero below the entry
      threshold, else the salary capped at the insured maximum, minus the
      deduction, floored at zero. */
  function SalaireCoordonne(brut: real): (r: real)
    ensures 0.0 <= r <= SalaireMax - DeductionCoord
    ensures r == 0.0 <==> brut <= DeductionCoord
    ensures brut < SalaireMin ==> r == 0.0
    ensures r > 0.0 ==> r == Min(brut, SalaireMax) - DeductionCoord
  {
    if brut < SalaireMin then 0.0
    else Max(0.0, Min(brut, SalaireMax) - DeductionCoord)
  }

  lemma SalaireCoordonneCroissant(a: real, b: real)
    requires a <= b
    ensures SalaireCoordonne(a) <= SalaireCoordonne(b)
  {
  }

  lemma SalaireCoordonneExemples()
    ensures SalaireCoordonne(50000.0) == 50000.0 - 26460.0
    ensures SalaireCoordonne(20000.0) == 0.0
  {
  }

  // ---------------------------------------------------------------------
  // Year-by-year LPP projection
  // ---------------------------------------------------------------------

  /** The record of the year at `age`, for gross salary `salaire` and
      opening capital `capital`: interest accrues on the opening capital
      only, and the closing capital adds the year's contribution and
      interest. */
  function Annee(age: int, salaire: real, capital: real): (p: ProjectionAnnuelle)
    ensures p.age == age && p.salaire == salaire && p.capitalDebut == capital
    ensures p.salaireCoordonne == SalaireCoordonne(salaire)
    ensures p.cotisation == p.salaireCoordonne * TauxEpargne(age) && p.cotisation >= 0.0
    ensures p.interets == capital * TauxInteret
    ensures p.capitalFin == p.capitalDebut + p.cotisation + p.interets
  {
    var sc := SalaireCoordonne(salaire);
    var taux := TauxEpargne(age);
    var cotisation := sc * taux;
    var interets := capital * TauxInteret;
    ProjectionAnnuelle(age, salaire, sc, taux * 100.0, cotisation, interets,
                       capital, capital + cotisation + interets)
  }

  /** The trace of `n` projected years starting at `age`, with the salary
      grown by `progression` after each year. */
  function Projection(age: int, n: nat, salaire: real, capital: real, progression: real)
    : (ps: seq<ProjectionAnnuelle>)
    decreases n
    ensures |ps| == n
  {
    if n == 0 then []
    else
      var p := Annee(age, salaire, capital);
      [p] + Projection(age + 1, n - 1, salaire * (1.0 + progression), p.capitalFin, progression)
  }

  /** The trace holds one step per age, in increasing order, each step opens
      with the previous step's closing capital (the first with the initial
      capital), earns interest on its opening capital only, and closes with
      opening capital + contribution + interest. */
  lemma {:induction false} ProjectionChronologique(age: int, n: nat, salaire: real, capital: real, g: real)
    ensures var ps := Projection(age, n, salaire, capital, g);
      && (forall i :: 0 <= i < n ==> ps[i].age == age + i)
      && (n > 0 ==> ps[0].capitalDebut == capital && ps[0].salaire == salaire)
      && (forall i, j :: 0 <= i && j == i + 1 && j < n ==> ps[j].capitalDebut == ps[i].capitalFin)
      && (forall i :: 0 <= i < n ==>
            && ps[i].capitalFin == ps[i].capitalDebut + ps[i].cotisation + ps[i].interets
            && ps[i].interets == ps[i].capitalDebut * TauxInteret
            && ps[i].cotisation >= 0.0)
    decreases n
  {
    if n > 0 {
      var p := Annee(age, salaire, capital);
      var ps := Projection(age, n, salaire, capital, g);
      var reste := Projection(age + 1, n - 1, salaire * (1.0 + g), p.capitalFin, g);
      ProjectionChronologique(age + 1, n - 1, salaire * (1.0 + g), p.capitalFin, g);
      assert ps == [p] + reste;
      forall i | 1 <= i < n ensures ps[i] == reste[i - 1] { }
    }
  }

  /** The capital after `n` projected years. */
  function CapitalFinal(age: int, n: nat, salaire: real, capital: real, progression: real): real
    decreases n
  {
    if n == 0 then capital
    else CapitalFinal(age + 1, n - 1, salaire * (1.0 + progression),
                      Annee(age, salaire, capital).capitalFin, progression)
  }

  function SommeCotisations(ps: seq<ProjectionAnnuelle>): real
  {
    if ps == [] then 0.0 else ps[0].cotisation + SommeCotisations(ps[1..])
  }

  function SommeInterets(ps: seq<ProjectionAnnuelle>): real
  {
    if ps == [] then 0.0 else ps[0].interets + SommeInterets(ps[1..])
  }

  /** The final capital is the closing capital of the last projected year,
      or the initial capital when nothing is projected. */
  lemma {:induction false} CapitalFinalDernierPas(age: int, n: nat, salaire: real, capital: real, g: real)
    ensures var ps := Projection(age, n, salaire, capital, g);
      CapitalFinal(age, n, salaire, capital, g) == if n == 0 then capital else ps[n - 1].capitalFin
    decreases n
  {
    if n > 0 {
      var p := Annee(age, salaire, capital);
      CapitalFinalDernierPas(age + 1, n - 1, salaire * (1.0 + g), p.capitalFin, g);
    }
  }

  /** Additivity over the whole projection: final capital = initial capital
      + all contributions + all interest. */
  lemma {:induction false} CapitalFinalBilan(age: int, n: nat, salaire: real, capital: real, g: real)
    ensures var ps := Projection(age, n, salaire, capital, g);
      CapitalFinal(age, n, salaire, capital, g) == capital + SommeCotisations(ps) + SommeInterets(ps)
    decreases n
  {
    if n > 0 {
      var p := Annee(age, salaire, capital);
      var ps := Projection(age, n, salaire, capital, g);
      var reste := Projection(age + 1, n - 1, salaire * (1.0 + g), p.capitalFin, g);
      assert ps[1..] == reste;
      CapitalFinalBilan(age + 1, n - 1, salaire * (1.0 + g), p.capitalFin, g);
    }
  }

  /** With a non-negative initial capital the projection never loses money. */
  lemma {:induction false} CapitalFinalCroissant(age: int, n: nat, salaire: real, capital: real, g: real)
    requires capital >= 0.0
    ensures CapitalFinal(age, n, salaire, capital, g) >= capital
    decreases n
  {
    if n > 0 {
      var p := Annee(age, salaire, capital);
      CapitalFinalCroissant(age + 1, n - 1, salaire * (1.0 + g), p.capitalFin, g);
    }
  }

  /** The LPP result the projection is specified by. */
  function ResultatLppAttendu(ageActuel: int, ageRetraite: int, salaireActuel: real,
                              capitalInitial: real, progression: real): ResultatLpp
  {
    var n := LongueurIntervalle(ageActuel, ageRetraite);
    var ps := Projection(ageActuel, n, salaireActuel, capitalInitial, progression);
    var capital := CapitalFinal(ageActuel, n, salaireActuel, capitalInitial, progression);
    ResultatLpp(capitalInitial, capital, capital * TauxConversion / 12.0,
                SalaireCoordonne(salaireActuel), ps, SommeCotisations(ps), SommeInterets(ps))
  }

  /** What the specified LPP result promises: one trace step per age in
      increasing order, additive steps chained from the initial capital to
      the final capital, totals that add up, the annuity at the conversion
      rate, and no loss of capital when starting from a non-negative one. */
  lemma ResultatLppProprietes(r: ResultatLpp, ageActuel: int, ageRetraite: int,
                              salaireActuel: real, capitalInitial: real, progression: real)
    requires r == ResultatLppAttendu(ageActuel, ageRetraite, salaireActuel, capitalInitial, progression)
    ensures r.capitalInitial == capitalInitial
    ensures |r.projection| == LongueurIntervalle(ageActuel, ageRetraite)
    ensures forall i :: 0 <= i < |r.projection| ==> r.projection[i].age == ageActuel + i
    ensures forall i, j :: 0 <= i && j == i + 1 && j < |r.projection| ==>
      r.projection[j].capitalDebut == r.projection[i].capitalFin
    ensures forall i :: 0 <= i < |r.projection| ==>
      r.projection[i].capitalFin
        == r.projection[i].capitalDebut + r.projection[i].cotisation + r.projection[i].interets
      && r.projection[i].interets == r.projection[i].capitalDebut * TauxInteret
    ensures ageRetraite <= ageActuel ==> r.capitalFinal == capitalInitial
    ensures r.projection != [] ==>
      r.projection[0].capitalDebut == capitalInitial
      && r.projection[|r.projection| - 1].capitalFin == r.capitalFinal
    ensures r.capitalFinal == capitalInitial + r.totalCotisations + r.totalInterets
    ensures r.renteMensuelle == r.capitalFinal * TauxConversion / 12.0
    ensures capitalInitial >= 0.0 ==> r.capitalFinal >= capitalInitial
  {
    var n := LongueurIntervalle(ageActuel, ageRetraite);
    ProjectionChronologique(ageActuel, n, salaireActuel, capitalInitial, progression);
    CapitalFinalDernierPas(ageActuel, n, salaireActuel, capitalInitial, progression);
    CapitalFinalBilan(ageActuel, n, salaireActuel, capitalInitial, progression);
    if capitalInitial >= 0.0 {
      CapitalFinalCroissant(ageActuel, n, salaireActuel, capitalInitial, progression);
    }
  }

  /** The yearly loop of the projection: from `ageActuel` to
      `ageRetraite - 1`, records each year and accumulates the capital. */
  method ProjeterAnnees(ageActuel: int, ageRetraite: int, salaireActuel: real,
                        capitalInitial: real, progression: real)
    returns (projectionAnnuelle: seq<ProjectionAnnuelle>, capital: real)
    ensures var n := LongueurIntervalle(ageActuel, ageRetraite);
      && projectionAnnuelle == Projection(ageActuel, n, salaireActuel, capitalInitial, progression)
      && capital == CapitalFinal(ageActuel, n, salaireActuel, capitalInitial, progression)
  {
    ghost var n := LongueurIntervalle(ageActuel, ageRetraite);
    capital := capitalInitial;
    var salaire := salaireActuel;
    projectionAnnuelle := [];
    var age := ageActuel;
    while age < ageRetraite
      invariant ageActuel <= age && (age <= ageRetraite || age == ageActuel)
      invariant |projectionAnnuelle| == age - ageActuel <= n
      invariant projectionAnnuelle + Projection(age, n - |projectionAnnuelle|, salaire, capital, progression)
                == Projection(ageActuel, n, salaireActuel, capitalInitial, progression)
      invariant CapitalFinal(age, n - |projectionAnnuelle|, salaire, capital, progression)
                == CapitalFinal(ageActuel, n, salaireActuel, capitalInitial, progression)
    {
      var annee := Annee(age, salaire, capital);
      ghost var reste := n - |projectionAnnuelle|;
      ghost var debut := projectionAnnuelle;
      ghost var suite := Projection(age + 1, reste - 1, salaire * (1.0 + progression), annee.capitalFin, progression);
      assert Projection(age, reste, salaire, capital, progression) == [annee] + suite;
      assert CapitalFinal(age, reste, salaire, capital, progression)
             == CapitalFinal(age + 1, reste - 1, salaire * (1.0 + progression), annee.capitalFin, progression);
      projectionAnnuelle := projectionAnnuelle + [annee];
      capital := capital + (annee.cotisation + annee.interets);
      salaire := salaire * (1.0 + progression);
      assert (debut + [annee]) + suite == debut + ([annee] + suite);
      age := age + 1;
    }
    assert projectionAnnuelle == Projection(ageActuel, n, salaireActuel, capitalInitial, progression);
  }

  /** Projects the LPP capital to the retirement age, recording each year,
      and converts the final capital into a monthly annuity. */
  method CalculerLpp(ageActuel: int, ageRetraite: int, salaireActuel: real,
                     capitalInitial: real, progression: real)
    returns (res: ResultatLpp)
    ensures res == ResultatLppAttendu(ageActuel, ageRetraite, salaireActuel, capitalInitial, progression)
    ensures |res.projection| == LongueurIntervalle(ageActuel, ageRetraite)
    ensures ageRetraite <= ageActuel ==> res.capitalFinal == capitalInitial
    ensures res.projection != [] ==> res.projection[|res.projection| - 1].capitalFin == res.capitalFinal
    ensures res.capitalFinal == capitalInitial + res.totalCotisations + res.totalInterets
    ensures capitalInitial >= 0.0 ==> res.capitalFinal >= capitalInitial
  {
    ghost var n := LongueurIntervalle(ageActuel, ageRetraite);
    var projectionAnnuelle, capital := ProjeterAnnees(ageActuel, ageRetraite, salaireActuel, capitalInitial, progression);
    var renteMensuelle := (capital * TauxConversion) / 12.0;
    res := ResultatLpp(capitalInitial, capital, renteMensuelle, SalaireCoordonne(salaireActuel),
                       projectionAnnuelle, SommeCotisations(projectionAnnuelle),
                       SommeInterets(projectionAnnuelle));
    assert |res.projection| == n;
    assert n > 0 ==> res.projection[n - 1].capitalFin == res.capitalFinal by {
      CapitalFinalDernierPas(ageActuel, n, salaireActuel, capitalInitial, progression);
    }
    CapitalFinalBilan(ageActuel, n, salaireActuel, capitalInitial, progression);
    if capitalInitial >= 0.0 {
      CapitalFinalCroissant(ageActuel, n, salaireActuel, capitalInitial, progression);
    }
  }

  // ---------------------------------------------------------------------
  // State pension (AVS)
  // ---------------------------------------------------------------------

  /** Care credits (education and assistance years) spread over the
      contribution years; none without any contribution year. */
  function Bonifications(anneesCotisees: int, anneesEducation: int, anneesAssistance: int): (r: real)
    ensures anneesCotisees <= 0 ==> r == 0.0
    ensures anneesCotisees > 0 ==>
      r * anneesCotisees as real == (anneesEducation + anneesAssistance) as real * BonifCreditAnnuel
  {
    if anneesCotisees > 0 then
      (anneesEducation + anneesAssistance) as real * BonifCreditAnnuel / anneesCotisees as real
    else 0.0
  }

  /** Full-career pension by the income scale: the minimum up to one third of
      the income ceiling, the maximum from the ceiling on, and in between a
      line anchored at zero income (not at the one-third breakpoint). */
  function RenteComplete(ramd: real): (r: real)
    ensures RenteMin <= r <= RenteMax
    ensures ramd >= RamdMax ==> r == RenteMax
    ensures ramd <= RamdMax / 3.0 ==> r == RenteMin
    ensures RamdMax / 3.0 < ramd < RamdMax ==> r == RenteMin + (RenteMax - RenteMin) * (ramd / RamdMax)
  {
    if ramd >= RamdMax then RenteMax
    else if ramd <= RamdMax / 3.0 then RenteMin
    else RenteMin + (RenteMax - RenteMin) * (ramd / RamdMax)
  }

  lemma RenteCompleteCroissante(a: real, b: real)
    requires a <= b
    ensures RenteComplete(a) <= RenteComplete(b)
  {
  }

  /** Because the line is anchored at zero income, the pension jumps at the
      one-third breakpoint from the minimum to a third of the way up. */
  lemma RenteCompleteSautAuTiers(ramd: real)
    requires ramd > RamdMax / 3.0
    ensures RenteComplete(ramd) > RenteMin + (RenteMax - RenteMin) / 3.0
    ensures RenteComplete(RamdMax / 3.0) == RenteMin
  {
  }

  function AnneesManquantes(anneesCotisees: int): (m: int)
    ensures m >= 0 && m >= CarrierePleine - anneesCotisees
    ensures m == 0 || m == CarrierePleine - anneesCotisees
  {
    MaxEntier(0, CarrierePleine - anneesCotisees)
  }

  /** The full-career pension reduced by 2.27 % per missing year, the
      reduction clamped to the whole pension. */
  function RenteReduite(renteComplete: real, anneesManquantes: int): (r: real)
    requires renteComplete >= 0.0 && anneesManquantes >= 0
    ensures 0.0 <= r <= renteComplete
    ensures anneesManquantes == 0 ==> r == renteComplete
  {
    var taux := Min(anneesManquantes as real * ReductionParAnnee, 1.0);
    assert renteComplete * taux >= 0.0 && renteComplete * taux <= renteComplete;
    renteComplete * (1.0 - taux)
  }

  /** The state pension result as the source computes it: bonification,
      capped indexed income, full-career pension, reduction for missing
      years and a pro-rata floor `minimum x years / 44`. */
  function CalculerAvs(salaireMoyen: real, anneesCotisees: int,
                       anneesEducation: int, anneesAssistance: int): (r: ResultatAvs)
    ensures r.bonifications == Bonifications(anneesCotisees, anneesEducation, anneesAssistance)
    ensures r.ramd <= 1.5 * RamdMax && r.ramd <= salaireMoyen + r.bonifications
    ensures r.ramd == 1.5 * RamdMax || r.ramd == salaireMoyen + r.bonifications
    ensures r.renteComplete == RenteComplete(r.ramd) && RenteMin <= r.renteComplete <= RenteMax
    ensures r.anneesManquantes == AnneesManquantes(anneesCotisees)
    ensures r.tauxReduction == r.anneesManquantes as real * ReductionParAnnee * 100.0
    ensures anneesCotisees <= 0 ==> r.rente == 0.0 && r.bonifications == 0.0
    ensures anneesCotisees > 0 ==>
      && r.rente >= RenteMin * (anneesCotisees as real / CarrierePleine as real)
      && r.rente >= RenteReduite(r.renteComplete, r.anneesManquantes)
      && (r.rente == RenteMin * (anneesCotisees as real / CarrierePleine as real)
          || r.rente == RenteReduite(r.renteComplete, r.anneesManquantes))
    ensures 0 < anneesCotisees <= CarrierePleine ==> r.rente <= r.renteComplete
    ensures anneesCotisees >= CarrierePleine ==> r.anneesManquantes == 0 && r.rente >= r.renteComplete
  {
    var bonif := Bonifications(anneesCotisees, anneesEducation, anneesAssistance);
    var ramd := Min(salaireMoyen + bonif, RamdMax * 1.5);
    var complete := RenteComplete(ramd);
    var manquantes := AnneesManquantes(anneesCotisees);
    var brute := RenteReduite(complete, manquantes);
    var rente :=
      if anneesCotisees > 0 then Max(brute, RenteMin * (anneesCotisees as real / CarrierePleine as real))
      else 0.0;
    ResultatAvs(rente, complete, ramd, manquantes, manquantes as real * ReductionParAnnee * 100.0, bonif)
  }

  /** As written, the pro-rata floor exceeds the full-career pension for a
      career longer than 44 years at a low income: 45 years at an average
      income of 25000 give more than the full-career minimum pension. */
  lemma PlancherDepasseRenteComplete()
    ensures CalculerAvs(25000.0, 45, 0, 0).renteComplete == RenteMin
    ensures CalculerAvs(25000.0, 45, 0, 0).rente > CalculerAvs(25000.0, 45, 0, 0).renteComplete
  {
    var r := CalculerAvs(25000.0, 45, 0, 0);
    assert r.ramd == 25000.0;
    assert r.rente >= RenteMin * (45.0 / 44.0);
  }

  /** The state pension with the pro-rata floor counted on at most a full
      career (44 years): never above the full-career pension, and equal to
      the source's result for every career of at most 44 years. */
  function CalculerAvsCorrige(salaireMoyen: real, anneesCotisees: int,
                              anneesEducation: int, anneesAssistance: int): (r: ResultatAvs)
    ensures r.rente <= r.renteComplete
    ensures anneesCotisees <= 0 ==> r.rente == 0.0
    ensures anneesCotisees > 0 ==>
      r.rente >= RenteMin * (MinEntier(anneesCotisees, CarrierePleine) as real / CarrierePleine as real)
    ensures anneesCotisees <= CarrierePleine ==>
      r == CalculerAvs(salaireMoyen, anneesCotisees, anneesEducation, anneesAssistance)
    ensures r.renteComplete == CalculerAvs(salaireMoyen, anneesCotisees, anneesEducation, anneesAssistance).renteComplete
    ensures r.anneesManquantes == AnneesManquantes(anneesCotisees)
    ensures anneesCotisees >= CarrierePleine ==> r.anneesManquantes == 0 && r.rente == r.renteComplete
  {
    var bonif := Bonifications(anneesCotisees, anneesEducation, anneesAssistance);
    var ramd := Min(salaireMoyen + bonif, RamdMax * 1.5);
    var complete := RenteComplete(ramd);
    var manquantes := AnneesManquantes(anneesCotisees);
    var brute := RenteReduite(complete, manquantes);
    var anneesPlancher := MinEntier(anneesCotisees, CarrierePleine);
    var rente :=
      if anneesCotisees > 0 then Max(brute, RenteMin * (anneesPlancher as real / CarrierePleine as real))
      else 0.0;
    ResultatAvs(rente, complete, ramd, manquantes, manquantes as real * ReductionParAnnee * 100.0, bonif)
  }

  /** What the correction gives up: past a full career the pension is the
      full-career pension, below the as-written floor `1260 x years / 44`
      that the source still pays for 45 years at an income of 25000. */
  lemma CorrigeSansPlancherProportionnel()
    ensures CalculerAvsCorrige(25000.0, 45, 0, 0).rente == RenteMin
    ensures CalculerAvsCorrige(25000.0, 45, 0, 0).rente < RenteMin * (45.0 / 44.0)
    ensures CalculerAvs(25000.0, 45, 0, 0).rente >= RenteMin * (45.0 / 44.0)
  {
    var r := CalculerAvsCorrige(25000.0, 45, 0, 0);
    assert r.ramd == 25000.0;
  }

  /** The state-pension test cases of the source: a full career at the
      income ceiling earns the maximum; four missing years reduce the
      pension below the full-career one. */
  lemma CalculerAvsExemples()
    ensures CalculerAvs(90720.0, 44, 0, 0).rente == 2520.0
    ensures CalculerAvs(90720.0, 44, 0, 0).anneesManquantes == 0
    ensures CalculerAvs(75000.0, 40, 0, 0).anneesManquantes == 4
    ensures CalculerAvs(75000.0, 40, 0, 0).tauxReduction > 0.0
    ensures CalculerAvs(75000.0, 40, 0, 0).rente < CalculerAvs(75000.0, 40, 0, 0).renteComplete
  {
    var r := CalculerAvs(75000.0, 40, 0, 0);
    assert r.ramd == 75000.0;
    assert r.renteComplete == RenteMin + (RenteMax - RenteMin) * (75000.0 / RamdMax);
  }

  // ---------------------------------------------------------------------
  // Couple ceiling
  // ---------------------------------------------------------------------

  /** Removing the excess `total - ceiling` in proportion to one share of
      the total leaves that share scaled to the ceiling. */
  lemma {:induction false} PartProportionnelle(part: real, total: real, plafond: real)
    requires total > 0.0
    ensures (part - (total - plafond) * (part / total)) * total == part * plafond
  {
    var q := part / total;
    assert q * total == part;
    calc {
      (part - (total - plafond) * q) * total;
      part * total - (total - plafond) * (q * total);
      part * total - (total - plafond) * part;
      part * plafond;
    }
  }

  /** The same for the other share, reduced by the complement of the first
      share's ratio. */
  lemma {:induction false} PartComplementaire(a: real, b: real, plafond: real)
    requires a + b > 0.0
    ensures (b - (a + b - plafond) * (1.0 - a / (a + b))) * (a + b) == b * plafond
  {
    var t := a + b;
    var q := a / t;
    assert q * t == a;
    calc {
      (b - (t - plafond) * (1.0 - q)) * t;
      b * t - (t - plafond) * (t - q * t);
      b * t - (t - plafond) * b;
      b * plafond;
    }
  }

  /** The married couple's two pensions, reduced in proportion to each
      share when their sum exceeds 150 % of the maximum pension. */
  function AppliquerPlafonnementCouple(rentePersonne: real, renteConjoint: real): (p: PlafonnementCouple)
    ensures p.totalTheorique == rentePersonne + renteConjoint
    ensures p.plafonne <==> rentePersonne + renteConjoint > PlafondCouple
    ensures !p.plafonne ==>
      && p.rentePersonne == rentePersonne && p.renteConjoint == renteConjoint
      && p.excedent == 0.0 && p.totalFinal == p.totalTheorique
    ensures p.plafonne ==>
      && p.totalFinal == PlafondCouple
      && p.excedent == p.totalTheorique - PlafondCouple
      && p.rentePersonne + p.renteConjoint == PlafondCouple
      && p.rentePersonne * p.totalTheorique == rentePersonne * PlafondCouple
      && p.renteConjoint * p.totalTheorique == renteConjoint * PlafondCouple
    ensures p.rentePersonne + p.renteConjoint == Min(rentePersonne + renteConjoint, PlafondCouple)
  {
    var total := rentePersonne + renteConjoint;
    if total <= PlafondCouple then
      PlafonnementCouple(rentePersonne, renteConjoint, false, 0.0, total, total)
    else
      var excedent := total - PlafondCouple;
      var ratio := rentePersonne / total;
      PartProportionnelle(rentePersonne, total, PlafondCouple);
      PartComplementaire(rentePersonne, renteConjoint, PlafondCouple);
      PlafonnementCouple(rentePersonne - excedent * ratio,
                         renteConjoint - excedent * (1.0 - ratio),
                         true, excedent, total, PlafondCouple)
  }

  /** With non-negative pensions the ceiling only ever lowers each pension
      and never makes one negative. */
  lemma PlafonnementBorne(rentePersonne: real, renteConjoint: real)
    requires rentePersonne >= 0.0 && renteConjoint >= 0.0
    ensures var p := AppliquerPlafonnementCouple(rentePersonne, renteConjoint);
      && 0.0 <= p.rentePersonne <= rentePersonne
      && 0.0 <= p.renteConjoint <= renteConjoint
  {
    var p := AppliquerPlafonnementCouple(rentePersonne, renteConjoint);
    if p.plafonne {
      var t := p.totalTheorique;
      assert t > PlafondCouple;
      assert p.rentePersonne * t == rentePersonne * PlafondCouple;
      assert p.renteConjoint * t == renteConjoint * PlafondCouple;
      assert rentePersonne * PlafondCouple <= rentePersonne * t;
      assert renteConjoint * PlafondCouple <= renteConjoint * t;
    }
  }

  /** The couple case of the source: two maximum pensions are capped to
      1890 each, 3780 together. */
  lemma PlafonnementExemple()
    ensures AppliquerPlafonnementCouple(2520.0, 2520.0).plafonne
    ensures AppliquerPlafonnementCouple(2520.0, 2520.0).totalFinal == 3780.0
    ensures AppliquerPlafonnementCouple(2520.0, 2520.0).rentePersonne == 1890.0
    ensures AppliquerPlafonnementCouple(2520.0, 2520.0).renteConjoint == 1890.0
  {
    var p := AppliquerPlafonnementCouple(2520.0, 2520.0);
    assert p.rentePersonne * 5040.0 == 2520.0 * 3780.0;
    assert p.renteConjoint * 5040.0 == 2520.0 * 3780.0;
  }

  // ---------------------------------------------------------------------
  // Buy-back scenarios
  // ---------------------------------------------------------------------

  const NomSansRachat: string := "Sans rachat"
  const NomRachatLpp: string := "Rachat LPP optimisé"
  const NomLacunesAvs: string := "Comblement lacunes AVS"

  /** Share of a pension-fund buy-back assumed to come back as tax saving. */
  const TauxEconomieImpot: real := 0.25
  /** Estimated cost of buying back one missing state-pension year. */
  const CoutAnneeAvs: real := 10500.0

  /** The baseline: no buy-back, current projected pensions. */
  function ScenarioSansRachat(avs: ResultatAvs, lpp: ResultatLpp): (s: ScenarioRachat)
    ensures s.nom == NomSansRachat && !s.recommande
    ensures s.coutTotal == 0.0 && s.gainMensuel == 0.0 && s.gainAnnuel == 0.0 && s.gain20Ans == 0.0
    ensures s.renteTotale == avs.rente + lpp.renteMensuelle
    ensures s.coutNet == None && s.economieImpot == None
  {
    ScenarioRachat(NomSansRachat, 0.0, 0.0, 0.0, 0.0, avs.rente + lpp.renteMensuelle, false, None, None)
  }

  predicate EligibleRachatLpp(lpp: ResultatLpp, anneesRestantes: int) {
    lpp.salaireCoordonne > 0.0 && anneesRestantes >= 3
  }

  /** Buying back the savings credits of up to ten remaining years at the
      top rate; the capital bought converts at the conversion rate and a
      quarter of the cost is taken back as tax saving. */
  function ScenarioRachatLpp(avs: ResultatAvs, lpp: ResultatLpp, anneesRestantes: int): (s: ScenarioRachat)
    ensures s.nom == NomRachatLpp && s.recommande
    ensures s.coutTotal == lpp.salaireCoordonne * 0.18 * MinEntier(anneesRestantes, 10) as real
    ensures s.economieImpot.Some? && s.coutNet.Some?
    ensures s.economieImpot.value == TauxEconomieImpot * s.coutTotal
    ensures s.coutNet.value + s.economieImpot.value == s.coutTotal
    ensures s.gainMensuel * 12.0 == s.coutTotal * TauxConversion
    ensures s.gainAnnuel == 12.0 * s.gainMensuel && s.gain20Ans == 20.0 * s.gainAnnuel
    ensures s.renteTotale == ScenarioSansRachat(avs, lpp).renteTotale + s.gainMensuel
  {
    var potentiel := lpp.salaireCoordonne * 0.18 * MinEntier(anneesRestantes, 10) as real;
    var gainMensuel := potentiel * TauxConversion / 12.0;
    var economie := potentiel * TauxEconomieImpot;
    ScenarioRachat(NomRachatLpp, potentiel, gainMensuel, gainMensuel * 12.0, gainMensuel * 12.0 * 20.0,
                   avs.rente + lpp.renteMensuelle + gainMensuel, true,
                   Some(potentiel - economie), Some(economie))
  }

  predicate EligibleLacunesAvs(avs: ResultatAvs) {
    0 < avs.anneesManquantes <= 5
  }

  /** Buying back the missing state-pension years: each one restores the
      2.27 % reduction of the maximum pension; recommended from three
      missing years on. */
  function ScenarioLacunesAvs(avs: ResultatAvs, lpp: ResultatLpp): (s: ScenarioRachat)
    ensures s.nom == NomLacunesAvs
    ensures s.recommande <==> avs.anneesManquantes >= 3
    ensures s.coutTotal == avs.anneesManquantes as real * CoutAnneeAvs
    ensures s.gainMensuel == avs.anneesManquantes as real * (RenteMax * ReductionParAnnee)
    ensures s.gainAnnuel == 12.0 * s.gainMensuel && s.gain20Ans == 20.0 * s.gainAnnuel
    ensures s.renteTotale == avs.renteComplete + lpp.renteMensuelle
    ensures s.coutNet == None && s.economieImpot == None
  {
    var gainMensuel := RenteMax * ReductionParAnnee * avs.anneesManquantes as real;
    ScenarioRachat(NomLacunesAvs, avs.anneesManquantes as real * CoutAnneeAvs, gainMensuel,
                   gainMensuel * 12.0, gainMensuel * 12.0 * 20.0,
                   avs.renteComplete + lpp.renteMensuelle, avs.anneesManquantes >= 3, None, None)
  }

  /** The baseline first, then the pension-fund buy-back when there is a
      coordinated salary and at least three years remain, then the
      state-pension buy-back when one to five years are missing. */
  method CalculerScenariosRachats(avs: ResultatAvs, lpp: ResultatLpp, anneesRestantes: int)
    returns (scenarios: seq<ScenarioRachat>)
    ensures 1 <= |scenarios| <= 3
    ensures |scenarios| == 1 + (if EligibleRachatLpp(lpp, anneesRestantes) then 1 else 0)
                             + (if EligibleLacunesAvs(avs) then 1 else 0)
    ensures scenarios[0] == ScenarioSansRachat(avs, lpp)
    ensures EligibleRachatLpp(lpp, anneesRestantes) ==>
      scenarios[1] == ScenarioRachatLpp(avs, lpp, anneesRestantes)
    ensures EligibleLacunesAvs(avs) ==> scenarios[|scenarios| - 1] == ScenarioLacunesAvs(avs, lpp)
    ensures (exists i :: 0 <= i < |scenarios| && scenarios[i].nom == NomRachatLpp)
            <==> EligibleRachatLpp(lpp, anneesRestantes)
    ensures (exists i :: 0 <= i < |scenarios| && scenarios[i].nom == NomLacunesAvs)
            <==> EligibleLacunesAvs(avs)
  {
    scenarios := [ScenarioSansRachat(avs, lpp)];
    if EligibleRachatLpp(lpp, anneesRestantes) {
      scenarios := scenarios + [ScenarioRachatLpp(avs, lpp, anneesRestantes)];
    }
    if EligibleLacunesAvs(avs) {
      scenarios := scenarios + [ScenarioLacunesAvs(avs, lpp)];
    }
  }

  // ---------------------------------------------------------------------
  // Complete calculation
  // ---------------------------------------------------------------------

  /** Where the spouse's pension comes from. */
  datatype SourceConjoint = MontantSaisi | RenteMinimaleEstimee | EstimationMediane

  datatype EstimationConjoint = EstimationConjoint(rente: real, source: SourceConjoint)

  /** What the result reports about the spouse of a married person. */
  datatype InfoConjoint = InfoConjoint(rente: real, source: SourceConjoint, plafonnement: PlafonnementCouple)

  datatype ResultatComplet = ResultatComplet(
    avs: ResultatAvs,
    lpp: ResultatLpp,
    conjoint: Option<InfoConjoint>,
    scenarios: seq<ScenarioRachat>,
    total: real,
    anneesTotales: int,
    anneesRestantes: int)

  /** The spouse's pension: the declared amount when the person knows it
      and gave it, the minimum pension for a spouse who never worked, the
      median pension otherwise (unknown, or known but not given). */
  function EstimerRenteConjoint(situation: Option<string>, rente: Option<real>): (e: EstimationConjoint)
    ensures e.source == MontantSaisi <==> situation == Some("sait") && rente.Some?
    ensures e.source == RenteMinimaleEstimee <==> situation == Some("jamais_travaille")
    ensures e.source == MontantSaisi ==> e.rente == rente.value
    ensures e.source == RenteMinimaleEstimee ==> e.rente == RenteMin
    ensures e.source == EstimationMediane ==> e.rente == RenteMediane
  {
    if situation == Some("sait") && rente.Some? then EstimationConjoint(rente.value, MontantSaisi)
    else if situation == Some("jamais_travaille") then EstimationConjoint(RenteMin, RenteMinimaleEstimee)
    else EstimationConjoint(RenteMediane, EstimationMediane)
  }

  /** State pension on the projected career, pension-fund projection to the
      retirement age, couple ceiling for a married person, buy-back
      scenarios on the adjusted pension and the monthly total. */
  method CalculerRetraiteComplete(
    ageActuel: int, ageRetraite: int, statutCivil: string,
    salaireActuel: real, salaireMoyen: real,
    anneesCotisees: int, anneesEducation: int, anneesAssistance: int,
    capitalLpp: real,
    situationConjoint: Option<string>, renteConjoint: Option<real>)
    returns (res: ResultatComplet)
    ensures res.anneesRestantes == ageRetraite - ageActuel
    ensures res.anneesTotales == anneesCotisees + res.anneesRestantes
    ensures res.lpp == ResultatLppAttendu(ageActuel, ageRetraite, salaireActuel, capitalLpp, ProgressionSalariale)
    ensures var avs := CalculerAvsCorrige(salaireMoyen, res.anneesTotales, anneesEducation, anneesAssistance);
      && res.avs.renteComplete == avs.renteComplete
      && res.avs == avs.(rente := res.avs.rente)
      && (statutCivil != "marie" ==> res.conjoint == None && res.avs == avs)
      && (statutCivil == "marie" ==>
            var e := EstimerRenteConjoint(situationConjoint, renteConjoint);
            && res.conjoint.Some?
            && res.conjoint.value.source == e.source
            && res.conjoint.value.plafonnement == AppliquerPlafonnementCouple(avs.rente, e.rente)
            && res.avs.rente + res.conjoint.value.rente == Min(avs.rente + e.rente, PlafondCouple)
            && (avs.rente + e.rente <= PlafondCouple ==>
                  res.avs.rente == avs.rente && res.conjoint.value.rente == e.rente)
            && (avs.rente + e.rente > PlafondCouple ==>
                  && res.avs.rente == AppliquerPlafonnementCouple(avs.rente, e.rente).rentePersonne
                  && res.conjoint.value.rente == AppliquerPlafonnementCouple(avs.rente, e.rente).renteConjoint))
    ensures res.total == res.avs.rente + res.lpp.renteMensuelle
    ensures res.avs.rente <= res.avs.renteComplete
    ensures 1 <= |res.scenarios| <= 3
    ensures |res.scenarios| == 1 + (if EligibleRachatLpp(res.lpp, res.anneesRestantes) then 1 else 0)
                                 + (if EligibleLacunesAvs(res.avs) then 1 else 0)
    ensures res.scenarios[0] == ScenarioSansRachat(res.avs, res.lpp)
    ensures res.scenarios[0].renteTotale == res.total
    ensures EligibleRachatLpp(res.lpp, res.anneesRestantes) ==>
      res.scenarios[1] == ScenarioRachatLpp(res.avs, res.lpp, res.anneesRestantes)
    ensures EligibleLacunesAvs(res.avs) ==>
      res.scenarios[|res.scenarios| - 1] == ScenarioLacunesAvs(res.avs, res.lpp)
  {
    var anneesRestantes := ageRetraite - ageActuel;
    var anneesTotales := anneesCotisees + anneesRestantes;
    var avs := CalculerAvsCorrige(salaireMoyen, anneesTotales, anneesEducation, anneesAssistance);
    var lpp := CalculerLpp(ageActuel, ageRetraite, salaireActuel, capitalLpp, ProgressionSalariale);
    var avsAjuste := avs;
    var conjoint: Option<InfoConjoint> := None;
    if statutCivil == "marie" {
      var e := EstimerRenteConjoint(situationConjoint, renteConjoint);
      var plafonnement := AppliquerPlafonnementCouple(avs.rente, e.rente);
      if plafonnement.plafonne {
        avsAjuste := avs.(rente := plafonnement.rentePersonne);
      }
      var renteConj := if plafonnement.plafonne then plafonnement.renteConjoint else e.rente;
      conjoint := Some(InfoConjoint(renteConj, e.source, plafonnement));
      AjustementSousRenteComplete(avs, e.rente);
    }
    var scenarios := CalculerScenariosRachats(avsAjuste, lpp, anneesRestantes);
    var total := avsAjuste.rente + lpp.renteMensuelle;
    res := ResultatComplet(avsAjuste, lpp, conjoint, scenarios, total, anneesTotales, anneesRestantes);
  }

  /** The ceiling never lifts the person's pension above the full-career
      pension. */
  lemma AjustementSousRenteComplete(avs: ResultatAvs, renteConjoint: real)
    requires avs.rente <= avs.renteComplete && avs.renteComplete >= 0.0
    ensures var p := AppliquerPlafonnementCouple(avs.rente, renteConjoint);
      p.plafonne ==> p.rentePersonne <= avs.renteComplete
  {
    var p := AppliquerPlafonnementCouple(avs.rente, renteConjoint);
    if p.plafonne {
      var t := p.totalTheorique;
      assert p.rentePersonne * t == avs.rente * PlafondCouple;
      if avs.rente >= 0.0 {
        assert avs.rente * PlafondCouple <= avs.rente * t;
      } else {
        assert p.rentePersonne * t < 0.0;
        assert p.rentePersonne < 0.0;
      }
    }
  }
}
