/** The backend engine variant (simulateur_avs_lpp.py): a full-career
    pension line without the one-third breakpoint, no capped income and no
    pro-rata floor in the state pension, a pension-fund projection without
    interest that records the capital year by year, and the loss and
    buy-back figures of the complete calculation. */
module SimulateurBackend {
  import opened Outils

  // State pension
  const RenteMax: real := 2520.0
  const RenteMin: real := 1260.0
  const RenteMediane: real := 1890.0
  /** A "healthy" monthly pension-fund annuity used as the reference. */
  const LppReferenceMensuelle: real := 1500.0
  const RamdMax: real := 90720.0
  const CarrierePleine: int := 44
  const ReductionParAnnee: real := 0.0227
  const BonifAnnuel: real := 45360.0
  const PlafondCouple: real := 3780.0

  // Occupational pension
  const DeductionCoord: real := 26460.0
  const SeuilEntreeLpp: real := 22680.0
  const SalaireMaxLpp: real := 88200.0
  const TauxConversionLpp: real := 0.058
  /** Share of a buy-back assumed to come back as tax saving. */
  const TauxEconomieFiscale: real := 0.25

  // ---------------------------------------------------------------------
  // Tools
  // ---------------------------------------------------------------------

  function TauxEpargne(age: int): (r: real)
    ensures 0.0 <= r <= 0.18
    ensures r == 0.0 <==> age < 25
  {
    if age < 25 then 0.0
    else if age <= 34 then 0.07
    else if age <= 44 then 0.10
    else if age <= 54 then 0.15
    else 0.18
  }

  lemma TauxEpargneBaremes(age: int)
    ensures 25 <= age <= 34 ==> TauxEpargne(age) == 0.07
    ensures 35 <= age <= 44 ==> TauxEpargne(age) == 0.10
    ensures 45 <= age <= 54 ==> TauxEpargne(age) == 0.15
    ensures age >= 55 ==> TauxEpargne(age) == 0.18
  {
  }

  lemma TauxEpargneCroissant(a: int, b: int)
    requires a <= b
    ensures TauxEpargne(a) <= TauxEpargne(b)
  {
  }

  /** Coordinated salary: none below the entry threshold (strictly), then
      the insured salary (capped at 88200) less the coordination deduction,
      floored at zero. */
  function SalaireCoordonne(salaire: real): (r: real)
    ensures 0.0 <= r <= SalaireMaxLpp - DeductionCoord
  {
    if salaire < SeuilEntreeLpp then 0.0
    else Max(0.0, Min(salaire, SalaireMaxLpp) - DeductionCoord)
  }

  lemma SalaireCoordonneProprietes(salaire: real)
    ensures salaire < SeuilEntreeLpp ==> SalaireCoordonne(salaire) == 0.0
    ensures SalaireCoordonne(salaire) == 0.0 <==> salaire <= DeductionCoord
    ensures SalaireCoordonne(salaire) > 0.0 ==> SalaireCoordonne(salaire) == Min(salaire, SalaireMaxLpp) - DeductionCoord
  {
  }

  lemma SalaireCoordonneCroissant(a: real, b: real)
    requires a <= b
    ensures SalaireCoordonne(a) <= SalaireCoordonne(b)
  {
  }

  /** Full-career pension: the maximum from the income ceiling on, below it
      a line from the minimum at zero income (negative incomes count as
      zero) to the maximum at the ceiling. */
  function RenteCompleteAvs(ramd: real): (r: real)
    ensures RenteMin <= r <= RenteMax
    ensures ramd >= RamdMax ==> r == RenteMax
    ensures ramd <= 0.0 ==> r == RenteMin
    ensures ramd < RamdMax ==> r < RenteMax
    ensures ramd < RamdMax ==> r == RenteMin + (RenteMax - RenteMin) * Max(0.0, ramd / RamdMax)
    ensures 0.0 < ramd < RamdMax ==> (r - RenteMin) * RamdMax == (RenteMax - RenteMin) * ramd
  {
    if ramd >= RamdMax then RenteMax
    else
      var ratio := Max(0.0, ramd / RamdMax);
      RenteMin + (RenteMax - RenteMin) * ratio
  }

  lemma RenteCompleteAvsCroissante(a: real, b: real)
    requires a <= b
    ensures RenteCompleteAvs(a) <= RenteCompleteAvs(b)
  {
  }

  // ---------------------------------------------------------------------
  // State pension
  // ---------------------------------------------------------------------

  datatype ResultatAvs = ResultatAvs(
    anneesValidees: int,
    anneesManquantes: int,
    ramd: real,
    renteComplete: real,
    renteFinale: real,
    impactPct: real)

  /** The care credits spread over the validated years (at least one). */
  function Bonification(anneesValidees: int, anneesBe: int, anneesBa: int): (b: real)
    ensures b * MaxEntier(anneesValidees, 1) as real == (anneesBe + anneesBa) as real * BonifAnnuel
  {
    (anneesBe + anneesBa) as real * BonifAnnuel / MaxEntier(anneesValidees, 1) as real
  }

  /** The full pension less 2.27 % of it per missing year, at most all of
      it, with no floor. */
  function RenteReduite(renteComplete: real, anneesManquantes: int): (r: real)
    requires renteComplete >= 0.0 && anneesManquantes >= 0
    ensures 0.0 <= r <= renteComplete
    ensures r + renteComplete * Min(anneesManquantes as real * ReductionParAnnee, 1.0) == renteComplete
    ensures anneesManquantes == 0 ==> r == renteComplete
    ensures anneesManquantes >= 45 ==> r == 0.0
  {
    var t := Min(anneesManquantes as real * ReductionParAnnee, 1.0);
    assert 0.0 <= renteComplete * t <= renteComplete;
    renteComplete * (1.0 - t)
  }

  /** Validated years are capped at a full career; the income is the
      average plus the care credits, not capped; the pension is the
      full-career one reduced for the missing years. */
  function CalculAvs(salaireMoyen: real, anneesCotisees: int, anneesBe: int, anneesBa: int): (r: ResultatAvs)
    ensures r.anneesValidees <= CarrierePleine && r.anneesValidees <= anneesCotisees
    ensures r.anneesValidees == CarrierePleine || r.anneesValidees == anneesCotisees
    ensures r.anneesManquantes == CarrierePleine - r.anneesValidees && r.anneesManquantes >= 0
    ensures r.ramd == salaireMoyen + Bonification(r.anneesValidees, anneesBe, anneesBa)
    ensures r.renteComplete == RenteCompleteAvs(r.ramd)
    ensures r.impactPct == r.anneesManquantes as real * ReductionParAnnee * 100.0
    ensures r.renteFinale == RenteReduite(r.renteComplete, r.anneesManquantes)
    ensures 0.0 <= r.renteFinale <= r.renteComplete
  {
    var anneesValidees := MinEntier(anneesCotisees, CarrierePleine);
    var anneesManquantes := MaxEntier(0, CarrierePleine - anneesValidees);
    var ramd := salaireMoyen + Bonification(anneesValidees, anneesBe, anneesBa);
    var renteComplete := RenteCompleteAvs(ramd);
    var tauxReduction := anneesManquantes as real * ReductionParAnnee;
    ResultatAvs(anneesValidees, anneesManquantes, ramd, renteComplete,
                RenteReduite(renteComplete, anneesManquantes), tauxReduction * 100.0)
  }

  /** From 45 missing years (a negative contribution count) the reduction
      takes the whole pension. */
  lemma CalculAvsReductionTotale(salaireMoyen: real, anneesCotisees: int, anneesBe: int, anneesBa: int)
    requires anneesCotisees <= -1
    ensures CalculAvs(salaireMoyen, anneesCotisees, anneesBe, anneesBa).renteFinale == 0.0
  {
  }

  // ---------------------------------------------------------------------
  // Occupational pension
  // ---------------------------------------------------------------------

  /** One recorded year: the age and the capital at its end. */
  datatype PointHistorique = PointHistorique(age: int, capital: real)

  datatype ResultatLpp = ResultatLpp(capitalFinal: real, renteMensuelle: real, historique: seq<PointHistorique>)

  const StatutIndependant: string := "independant"

  /** Capital at the end of `n` years from `age`: each year adds the
      contribution on the current salary, then the salary grows 0.5 %. */
  function CapitalFinal(age: int, n: nat, salaire: real, capital: real): real
    decreases n
  {
    if n == 0 then capital
    else CapitalFinal(age + 1, n - 1, salaire * 1.005, capital + SalaireCoordonne(salaire) * TauxEpargne(age))
  }

  /** The capital recorded at the end of each of those years. */
  function Historique(age: int, n: nat, salaire: real, capital: real): (h: seq<PointHistorique>)
    ensures |h| == n
    decreases n
  {
    if n == 0 then []
    else
      var c := capital + SalaireCoordonne(salaire) * TauxEpargne(age);
      [PointHistorique(age, c)] + Historique(age + 1, n - 1, salaire * 1.005, c)
  }

  /** The history has one point per age, in order; each point's capital
      is at least the previous one's and the first is at least the opening
      capital; the last point is the final capital. */
  lemma {:induction false} HistoriqueProprietes(age: int, n: nat, salaire: real, capital: real)
    ensures var h := Historique(age, n, salaire, capital);
      && (forall i :: 0 <= i < n ==> h[i].age == age + i)
      && (n > 0 ==> h[0].capital >= capital && h[n - 1].capital == CapitalFinal(age, n, salaire, capital))
      && (forall i, j :: 0 <= i && j == i + 1 && j < n ==> h[i].capital <= h[j].capital)
      && CapitalFinal(age, n, salaire, capital) >= capital
    decreases n
  {
    if n > 0 {
      var c := capital + SalaireCoordonne(salaire) * TauxEpargne(age);
      var reste := Historique(age + 1, n - 1, salaire * 1.005, c);
      HistoriqueProprietes(age + 1, n - 1, salaire * 1.005, c);
      var h := Historique(age, n, salaire, capital);
      assert h == [PointHistorique(age, c)] + reste;
      forall i | 1 <= i < n
        ensures h[i] == reste[i - 1]
      {
      }
    }
  }

  /** A higher salary or opening capital never gives a lower final
      capital. */
  lemma {:induction false} CapitalFinalCroissant(age: int, n: nat, s1: real, s2: real, c1: real, c2: real)
    requires 0.0 <= s1 <= s2 && c1 <= c2
    ensures CapitalFinal(age, n, s1, c1) <= CapitalFinal(age, n, s2, c2)
    decreases n
  {
    if n > 0 {
      SalaireCoordonneCroissant(s1, s2);
      assert SalaireCoordonne(s1) * TauxEpargne(age) <= SalaireCoordonne(s2) * TauxEpargne(age);
      CapitalFinalCroissant(age + 1, n - 1, s1 * 1.005, s2 * 1.005,
                            c1 + SalaireCoordonne(s1) * TauxEpargne(age), c2 + SalaireCoordonne(s2) * TauxEpargne(age));
    }
  }

  /** What `calcul_lpp` returns: for a self-employed person the capital
      unchanged, no annuity and no history; otherwise the projection. */
  function LppAttendu(ageActuel: int, ageRetraite: int, salaireActuel: real, capitalInitial: real, statutPro: string): ResultatLpp
  {
    if statutPro == StatutIndependant then ResultatLpp(capitalInitial, 0.0, [])
    else
      var n := LongueurIntervalle(ageActuel, ageRetraite);
      var capital := CapitalFinal(ageActuel, n, salaireActuel, capitalInitial);
      ResultatLpp(capital, capital * TauxConversionLpp / 12.0, Historique(ageActuel, n, salaireActuel, capitalInitial))
  }

  method CalculLpp(ageActuel: int, ageRetraite: int, salaireActuel: real, capitalInitial: real, statutPro: string)
    returns (res: ResultatLpp)
    ensures res == LppAttendu(ageActuel, ageRetraite, salaireActuel, capitalInitial, statutPro)
    ensures statutPro == StatutIndependant ==> res.capitalFinal == capitalInitial && res.renteMensuelle == 0.0
    ensures |res.historique| == if statutPro == StatutIndependant then 0 else LongueurIntervalle(ageActuel, ageRetraite)
    ensures res.renteMensuelle * 12.0 == if statutPro == StatutIndependant then 0.0 else res.capitalFinal * TauxConversionLpp
  {
    if statutPro == StatutIndependant {
      return ResultatLpp(capitalInitial, 0.0, []);
    }
    var capital := capitalInitial;
    var salaire := salaireActuel;
    var capitalHistory: seq<PointHistorique> := [];
    ghost var n := LongueurIntervalle(ageActuel, ageRetraite);
    var age := ageActuel;
    while age < ageRetraite
      invariant ageActuel <= age && (age <= ageRetraite || age == ageActuel)
      invariant |capitalHistory| == age - ageActuel
      invariant capitalHistory + Historique(age, n - |capitalHistory|, salaire, capital)
                == Historique(ageActuel, n, salaireActuel, capitalInitial)
      invariant CapitalFinal(age, n - |capitalHistory|, salaire, capital)
                == CapitalFinal(ageActuel, n, salaireActuel, capitalInitial)
      decreases ageRetraite - age
    {
      var taux := TauxEpargne(age);
      var sc := SalaireCoordonne(salaire);
      ghost var suite := Historique(age + 1, n - |capitalHistory| - 1, salaire * 1.005, capital + sc * taux);
      assert Historique(age, n - |capitalHistory|, salaire, capital)
             == [PointHistorique(age, capital + sc * taux)] + suite;
      assert CapitalFinal(age, n - |capitalHistory|, salaire, capital)
             == CapitalFinal(age + 1, n - |capitalHistory| - 1, salaire * 1.005, capital + sc * taux);
      capital := capital + sc * taux;
      salaire := salaire * 1.005;
      assert (capitalHistory + [PointHistorique(age, capital)]) + suite
             == capitalHistory + ([PointHistorique(age, capital)] + suite);
      capitalHistory := capitalHistory + [PointHistorique(age, capital)];
      age := age + 1;
    }
    assert capitalHistory == Historique(ageActuel, n, salaireActuel, capitalInitial);
    var renteMensuelle := capital * TauxConversionLpp / 12.0;
    res := ResultatLpp(capital, renteMensuelle, capitalHistory);
  }

  // ---------------------------------------------------------------------
  // Complete calculation
  // ---------------------------------------------------------------------

  /** The couple's pair of pensions after the couple block: a married
      person's spouse pension defaults to the median when not positive; over
      the ceiling, both pensions are scaled to it in proportion to their
      shares. */
  function Couple(statutCivil: string, renteAvs: real, renteConjoint: real): (p: (real, real))
    ensures statutCivil != "marie" ==> p == (renteAvs, renteConjoint)
    ensures renteAvs >= 0.0 ==> 0.0 <= p.0 <= renteAvs
    ensures statutCivil == "marie" ==>
      var conjoint := if renteConjoint <= 0.0 then RenteMediane else renteConjoint;
      var total := renteAvs + conjoint;
      && (total <= PlafondCouple ==> p == (renteAvs, conjoint))
      && (total > PlafondCouple ==>
            && p.0 + p.1 == PlafondCouple
            && p.0 * total == renteAvs * PlafondCouple
            && p.1 * total == conjoint * PlafondCouple)
  {
    if statutCivil != "marie" then (renteAvs, renteConjoint)
    else
      var conjoint := if renteConjoint <= 0.0 then RenteMediane else renteConjoint;
      var total := renteAvs + conjoint;
      if total <= PlafondCouple then (renteAvs, conjoint)
      else
        var excedent := total - PlafondCouple;
        var ratio := renteAvs / total;
        PartsReduites(renteAvs, conjoint);
        if renteAvs >= 0.0 then
          ReductionCoupleBornee(renteAvs, conjoint, renteAvs - excedent * ratio);
          (renteAvs - excedent * ratio, conjoint - excedent * (1.0 - ratio))
        else
          (renteAvs - excedent * ratio, conjoint - excedent * (1.0 - ratio))
  }

  /** The couple block, in the source's in-place form. */
  method AppliquerCouple(statutCivil: string, renteAvsInitiale: real, renteConjointSaisie: real)
    returns (renteAvs: real, renteConjoint: real)
    ensures (renteAvs, renteConjoint) == Couple(statutCivil, renteAvsInitiale, renteConjointSaisie)
  {
    renteAvs := renteAvsInitiale;
    renteConjoint := renteConjointSaisie;
    if statutCivil == "marie" {
      if renteConjoint <= 0.0 {
        renteConjoint := RenteMediane;
      }
      var total := renteAvs + renteConjoint;
      if total > PlafondCouple {
        var excedent := total - PlafondCouple;
        var ratio := renteAvs / total;
        assert Couple(statutCivil, renteAvsInitiale, renteConjointSaisie).0
               == renteAvs - excedent * ratio;
        renteAvs := renteAvs - excedent * ratio;
        renteConjoint := renteConjoint - excedent * (1.0 - ratio);
      }
    }
  }

  /** Removing the excess over the ceiling in proportion to the shares
      scales both pensions to the ceiling. */
  lemma {:induction false} PartsReduites(a: real, b: real)
    requires a + b > 0.0
    ensures var t := a + b; var e := t - PlafondCouple; var q := a / t;
      && (a - e * q) * t == a * PlafondCouple
      && (b - e * (1.0 - q)) * t == b * PlafondCouple
      && (a - e * q) + (b - e * (1.0 - q)) == PlafondCouple
  {
    var t := a + b;
    var q := a / t;
    assert q * t == a;
    assert (a - (t - PlafondCouple) * q) * t == a * t - (t - PlafondCouple) * (q * t);
    assert (b - (t - PlafondCouple) * (1.0 - q)) * t == b * t - (t - PlafondCouple) * (t - q * t);
  }

  datatype Synthese = Synthese(
    avsMensuel: real,
    lppMensuel: real,
    totalMensuel: real,
    totalAnnuel: real,
    partAvsPct: real,
    partLppPct: real)

  /** The loss figures, reported negated as the source reports them. */
  datatype Impacts = Impacts(
    mensuel: real,
    annuel: real,
    projection20Ans: real,
    montantRecuperable: real,
    economieFiscale: real)

  datatype ResultatComplet = ResultatComplet(
    anneesValidees: int,
    anneesManquantes: int,
    impactPct: real,
    impacts: Impacts,
    synthese: Synthese,
    avs: ResultatAvs,
    lpp: ResultatLpp)

  /** A share of the monthly total, in percent; none of a total that is not
      positive. */
  function Part(montant: real, total: real): (p: real)
    ensures total <= 0.0 ==> p == 0.0
    ensures total > 0.0 ==> p * total == montant * 100.0
  {
    if total > 0.0 then (montant / total) * 100.0 else 0.0
  }

  /** The two shares of a positive total add up to 100 %. */
  lemma PartsComplementaires(a: real, b: real)
    requires a + b > 0.0
    ensures Part(a, a + b) + Part(b, a + b) == 100.0
  {
    var t := a + b;
    var pa, pb := Part(a, t), Part(b, t);
    assert (pa + pb) * t == pa * t + pb * t;
    assert (pa + pb - 100.0) * t == 0.0;
  }

  /** The monthly summary: both pensions, their monthly and annual total
      and each one's share of the total. */
  function Synthetiser(renteAvs: real, renteLpp: real): (s: Synthese)
    ensures s.avsMensuel == renteAvs && s.lppMensuel == renteLpp
    ensures s.totalMensuel == renteAvs + renteLpp && s.totalAnnuel == 12.0 * s.totalMensuel
    ensures s.totalMensuel > 0.0 ==>
      && s.partAvsPct * s.totalMensuel == renteAvs * 100.0
      && s.partLppPct * s.totalMensuel == renteLpp * 100.0
      && s.partAvsPct + s.partLppPct == 100.0
    ensures s.totalMensuel <= 0.0 ==> s.partAvsPct == 0.0 && s.partLppPct == 0.0
  {
    var total := renteAvs + renteLpp;
    if total > 0.0 then
      PartsComplementaires(renteAvs, renteLpp);
      Synthese(renteAvs, renteLpp, total, total * 12.0, Part(renteAvs, total), Part(renteLpp, total))
    else
      Synthese(renteAvs, renteLpp, total, total * 12.0, 0.0, 0.0)
  }

  /** From a monthly loss: its annual and 20-year figures, the amount over
      the bought-back years (at most five of the missing ones) and the tax
      saving on it; the first three are reported negated. */
  function CalculerImpacts(perteMensuelle: real, anneesManquantes: int): (i: Impacts)
    ensures i.mensuel == -perteMensuelle
    ensures i.annuel == 12.0 * i.mensuel && i.projection20Ans == 20.0 * i.annuel
    ensures i.montantRecuperable == perteMensuelle * 12.0 * MinEntier(5, anneesManquantes) as real
    ensures i.economieFiscale == TauxEconomieFiscale * i.montantRecuperable
    ensures perteMensuelle >= 0.0 && anneesManquantes >= 0 ==> i.montantRecuperable >= 0.0 && i.economieFiscale >= 0.0
  {
    var perteAnnuelle := perteMensuelle * 12.0;
    var montantRecuperable := perteAnnuelle * MinEntier(5, anneesManquantes) as real;
    Impacts(-perteMensuelle, -perteAnnuelle, -(perteAnnuelle * 20.0),
            montantRecuperable, montantRecuperable * TauxEconomieFiscale)
  }

  /** The complete calculation: state pension, pension-fund projection, the
      couple block, the monthly loss against the full-career pension plus a
      reference annuity (the fixed one for a self-employed person without
      capital, otherwise the projected one), its derived figures and the
      monthly summary. The loss is never negative. */
  method CalculCompletRetraite(
    ageActuel: int, ageRetraite: int, salaireActuel: real, salaireMoyen: real,
    anneesCotisees: int, anneesBe: int, anneesBa: int,
    statutCivil: string, statutPro: string, capitalLpp: real, renteConjoint: real)
    returns (r: ResultatComplet)
    ensures r.avs == CalculAvs(salaireMoyen, anneesCotisees, anneesBe, anneesBa)
    ensures r.lpp == LppAttendu(ageActuel, ageRetraite, salaireActuel, capitalLpp, statutPro)
    ensures r.anneesValidees == r.avs.anneesValidees && r.anneesManquantes == r.avs.anneesManquantes
    ensures r.impactPct == -r.avs.impactPct
    ensures r.synthese.avsMensuel == Couple(statutCivil, r.avs.renteFinale, renteConjoint).0
    ensures statutCivil != "marie" ==> r.synthese.avsMensuel == r.avs.renteFinale
    ensures 0.0 <= r.synthese.avsMensuel <= r.avs.renteFinale
    ensures r.synthese == Synthetiser(r.synthese.avsMensuel, r.lpp.renteMensuelle)
    ensures var lppReference := if statutPro == StatutIndependant && capitalLpp <= 0.0 then LppReferenceMensuelle
                                else r.lpp.renteMensuelle;
      r.impacts == CalculerImpacts((r.avs.renteComplete + lppReference) - (r.synthese.avsMensuel + r.lpp.renteMensuelle),
                                   r.avs.anneesManquantes)
    ensures r.impacts.mensuel <= 0.0
    ensures statutPro != StatutIndependant ==> -r.impacts.mensuel == r.avs.renteComplete - r.synthese.avsMensuel
    ensures statutPro == StatutIndependant && capitalLpp <= 0.0 ==> -r.impacts.mensuel >= LppReferenceMensuelle
  {
    var avs := CalculAvs(salaireMoyen, anneesCotisees, anneesBe, anneesBa);
    var lpp := CalculLpp(ageActuel, ageRetraite, salaireActuel, capitalLpp, statutPro);
    var renteAvs, renteConjointAjustee := AppliquerCouple(statutCivil, avs.renteFinale, renteConjoint);
    var lppReference: real;
    if statutPro == StatutIndependant && capitalLpp <= 0.0 {
      lppReference := LppReferenceMensuelle;
    } else {
      lppReference := lpp.renteMensuelle;
    }
    var renteReferenceTotale := avs.renteComplete + lppReference;
    var renteReelleTotale := renteAvs + lpp.renteMensuelle;
    var perteMensuelle := renteReferenceTotale - renteReelleTotale;
    r := ResultatComplet(avs.anneesValidees, avs.anneesManquantes, -avs.impactPct,
                         CalculerImpacts(perteMensuelle, avs.anneesManquantes),
                         Synthetiser(renteAvs, lpp.renteMensuelle), avs, lpp);
  }

  /** Scaling a non-negative pension to the ceiling keeps it between zero
      and its value. */
  lemma ReductionCoupleBornee(a: real, b: real, aReduite: real)
    requires a >= 0.0 && b > 0.0
    requires a + b > PlafondCouple ==> aReduite * (a + b) == a * PlafondCouple
    requires a + b <= PlafondCouple ==> aReduite == a
    ensures 0.0 <= aReduite <= a
  {
    if a + b > PlafondCouple {
      assert a * PlafondCouple <= a * (a + b);
    }
  }
}
