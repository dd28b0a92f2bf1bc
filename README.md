# Swiss retirement-income engine, modelled in Dafny

The repository estimates a person's retirement income in Switzerland from
two sources:

- the state pension (AVS, first pillar);
- the occupational pension fund (LPP, second pillar).

The engine exists in five near-duplicate variants whose constants and
formulas differ. Each variant is modelled as its own module with its own
constants, and the divergences are kept visible:

| module | source file | what it is |
|---|---|---|
| `CalculateurRetraite` | `calculateur_retraite.py` | the canonical calculator (6.8 % conversion, 1 % interest, 2.27 % reduction per missing year, one-third breakpoint, pro-rata floor, buy-back scenarios) |
| `ScriptCalcul` | `script_calcul.py` | the console script (5.8 % conversion, 0 % return, coordinated salary capped at 62475, reduction `missing/44`, conservative capital reconstruction) |
| `SimulateurBackend` | `simulateur_avs_lpp.py` | the backend engine (no one-third breakpoint, no floor, no income cap, salary grown after each contribution, loss and optimisation figures, percentage shares) |
| `SimulateurApi` | `simulateur_AVS_LPP.py` | the API engine (same formulas as the console script, capital fallback, diagnostic list) |
| `Simulateur` | `simulateur.py` | the simplest form (annual pension proportional to the years, 6.8 % of the capital) |

Two more modules support them:

- `Outils` holds shared helpers: `Option`, `Min` and `Max`, `Pow`, the length of an age range, Python's `strip()` on every character `str.isspace()` accepts, and `lower()` on ASCII and Latin-1 letters.
- `Variantes` proves, for all inputs, where the variants agree and where they diverge. Where two variants agree, the properties proved of one carry over to the other.

Amounts of money are `real`. Python's `round()` is presentation only, so every property is stated on the unrounded values.

The loops of the source, the projections and the reconstructions, are kept as `while` loops in methods, each proved equal to a recursive specification function whose properties are lemmas. The scenario list, the diagnostic list and the step-by-step couple cap, which the source builds by appends and `-=` updates, are kept as methods with sequential updates, whose contracts give the resulting list or pair.

Console input, form decoding and `float()` parsing become parameters:

- a `Champ` field in `Simulateur`;
- `SaisieCapital` in `SimulateurApi`;
- an `Option<real>` standing for what `float()` returns, in `ScriptCalcul`.

## Model

| member | source | states |
|---|---|---|
| CalculateurRetraite.TauxEpargne | calculateur_retraite.py:119-137 | the savings rate lies in [0, 0.18] and is 0 exactly below age 25 |
| CalculateurRetraite.TauxEpargneCroissant | calculateur_retraite.py:129-137 | the savings rate never decreases with age |
| CalculateurRetraite.TauxEpargneExemples | calculateur_retraite.py:739-743 | the source's own cases: 0 at 20, 0.07 at 30, 0.10 at 40, 0.15 at 50, 0.18 at 60 |
| CalculateurRetraite.SalaireCoordonne | calculateur_retraite.py:140-154 | the coordinated salary lies in [0, 61740]; it is 0 below 22680 and 0 exactly when the salary is at most the 26460 deduction; when positive it is min(salary, 88200) − 26460 |
| CalculateurRetraite.SalaireCoordonneCroissant | calculateur_retraite.py:150-154 | the coordinated salary never decreases with the gross salary |
| CalculateurRetraite.SalaireCoordonneExemples | calculateur_retraite.py:733-734 | the source's own cases: 50000 gives 50000 − 26460, and 20000 gives 0 |
| CalculateurRetraite.Annee | calculateur_retraite.py:182-196 | one projected year: the contribution is the coordinated salary times the age's rate and is never negative; interest accrues on the opening capital only; the closing capital is opening + contribution + interest |
| CalculateurRetraite.Projection | calculateur_retraite.py:181-199 | the trace has exactly one step per projected year |
| CalculateurRetraite.ProjectionChronologique | calculateur_retraite.py:181-199 | steps are at ages age, age+1, … in order; the first step opens with the initial capital; each step opens with the previous step's closing capital; each step is additive, with interest on its opening capital |
| CalculateurRetraite.CapitalFinalDernierPas | calculateur_retraite.py:195-198 | the final capital is the last step's closing capital, or the initial capital when no year is projected |
| CalculateurRetraite.CapitalFinalBilan | calculateur_retraite.py:198-203 | final capital = initial capital + sum of contributions + sum of interest |
| CalculateurRetraite.CapitalFinalCroissant | calculateur_retraite.py:181-199 | from a non-negative initial capital, the final capital is never below it |
| CalculateurRetraite.ResultatLppProprietes | calculateur_retraite.py:177-213 | the specified pension-fund result has one trace step per age in order, chained additive steps, the final capital equal to the initial one for an empty age range, totals that add up, an annuity of capital·0.068/12, and no loss from a non-negative start |
| CalculateurRetraite.ProjeterAnnees | calculateur_retraite.py:181-199 | the yearly loop's trace is exactly `Projection` of the inputs and its capital exactly `CapitalFinal` |
| CalculateurRetraite.CalculerLpp | calculateur_retraite.py:157-213 | the loop's result is the specified pension-fund result: trace length, empty-range case, last step = final capital, additivity, no loss from a non-negative start |
| CalculateurRetraite.Bonifications | calculateur_retraite.py:242-248 | the care credit is 0 without contribution years; otherwise credit × years = (education + assistance years) × 45360 |
| CalculateurRetraite.RenteComplete | calculateur_retraite.py:253-262 | the full-career pension lies in [1260, 2520]; it is 2520 from an income of 90720 on, 1260 up to 30240, and 1260 + 1260 × income/90720 strictly between |
| CalculateurRetraite.RenteCompleteCroissante | calculateur_retraite.py:253-262 | the full-career pension never decreases with income |
| CalculateurRetraite.RenteCompleteSautAuTiers | calculateur_retraite.py:256-262 | the line anchored at zero income makes the pension jump at 30240, from 1260 to more than a third of the way to 2520 |
| CalculateurRetraite.AnneesManquantes | calculateur_retraite.py:265 | missing years are max(0, 44 − years) |
| CalculateurRetraite.RenteReduite | calculateur_retraite.py:266-267 | the reduced pension lies between 0 and the full-career pension, and equals it when no year is missing |
| CalculateurRetraite.CalculerAvs | calculateur_retraite.py:220-283 | the state pension as written: income min(average + credit, 1.5·90720); the full-career pension of that income; missing years and reduction rate; 0 without years; otherwise the larger of the reduced pension and the floor 1260·years/44; at most the full-career pension for 1 to 44 years |
| CalculateurRetraite.PlancherDepasseRenteComplete | calculateur_retraite.py:269-272 | 45 years at an average income of 25000 give a full-career pension of 1260, yet a final pension above 1260 |
| CalculateurRetraite.CalculerAvsCorrige | calculateur_retraite.py:269-272 | with the floor counted on at most 44 years, the pension never exceeds the full-career pension; for careers up to 44 years it equals the result as written; from 44 years on no year is missing and the pension is exactly the full-career pension |
| CalculateurRetraite.CorrigeSansPlancherProportionnel | calculateur_retraite.py:268-272 | the trade-off of the correction: for 45 years at an average income of 25000 the corrected pension is 1260, below the proportional minimum 1260 × 45/44 that the code as written pays |
| CalculateurRetraite.CalculerAvsExemples | calculateur_retraite.py:748-757 | the source's own cases: a full career at 90720 earns 2520 with no missing year; 40 years at 75000 leave 4 missing years, a positive reduction and less than the full-career pension |
| CalculateurRetraite.AppliquerPlafonnementCouple | calculateur_retraite.py:286-323 | capped iff the sum exceeds 3780; otherwise both pensions are unchanged, with no excess; when capped the pair sums to 3780, each pension is its share of the total scaled to 3780, and the excess is total − 3780 |
| CalculateurRetraite.PlafonnementBorne | calculateur_retraite.py:312-318 | for non-negative pensions the cap only lowers each pension and never makes one negative |
| CalculateurRetraite.PlafonnementExemple | calculateur_retraite.py:762-764 | the source's own case: 2520 + 2520 is capped to 3780, that is 1890 each |
| CalculateurRetraite.ScenarioSansRachat | calculateur_retraite.py:348-358 | the baseline scenario: no cost, no gain, not recommended, current total pension |
| CalculateurRetraite.ScenarioRachatLpp | calculateur_retraite.py:361-382 | the pension-fund buy-back costs sc·0.18·min(years, 10); a quarter of the cost is the tax saving and the rest the net cost; the monthly gain × 12 is the cost × 0.068; annual and 20-year gains follow |
| CalculateurRetraite.ScenarioLacunesAvs | calculateur_retraite.py:385-399 | the state-pension buy-back costs missing × 10500 and gains missing × 2520 × 2.27 % a month; it is recommended iff at least 3 years are missing |
| CalculateurRetraite.CalculerScenariosRachats | calculateur_retraite.py:330-401 | the baseline comes first; the pension-fund scenario is present iff the coordinated salary is positive and at least 3 years remain; the state-pension scenario is present iff 1 to 5 years are missing, and comes last; the list has 1 to 3 entries |
| CalculateurRetraite.EstimerRenteConjoint | calculateur_retraite.py:472-482 | the spouse's pension is the declared amount iff the situation is `sait` and an amount is given; it is 1260 iff the spouse never worked; it is the 1890 median otherwise |
| CalculateurRetraite.CalculerRetraiteComplete | calculateur_retraite.py:408-566 | projected years; the pension-fund projection at 0.5 % salary growth; the state pension on the projected career; for a married person the spouse fallback and the couple cap: unchanged pensions at or under 3780, and over it the person's and the spouse's paid pensions are exactly the cap's two shares; the person's pension never above the full-career pension; the total; the scenario list of that adjusted pension: its length from the two eligibility conditions, the baseline first, the pension-fund buy-back second when eligible, the state-pension buy-back last when eligible |
| CalculateurRetraite.AjustementSousRenteComplete | calculateur_retraite.py:485-496 | the couple cap never lifts the person's pension above the full-career pension |
| ScriptCalcul.SalaireCoordonne | script_calcul.py:34-39 | the coordinated salary lies in [0, 62475] |
| ScriptCalcul.SalaireCoordonneProprietes | script_calcul.py:36-39 | 0 up to 22680 inclusive; 0 exactly when the salary is at most 26460; when positive, min(salary − 26460, 62475) |
| ScriptCalcul.SalaireCoordonneCroissant | script_calcul.py:34-39 | the coordinated salary never decreases with the salary |
| ScriptCalcul.TauxEpargneLegal | script_calcul.py:41-47 | the legal rate lies in [0, 0.18] and is 0 exactly below 25 |
| ScriptCalcul.TauxEpargneLegalBaremes | script_calcul.py:28-47 | the four brackets give 0.07, 0.10, 0.15 and 0.18 |
| ScriptCalcul.TauxEpargneLegalCroissant | script_calcul.py:41-47 | the legal rate never decreases with age |
| ScriptCalcul.Cotisation | script_calcul.py:81-83 | a year's contribution lies in [0, 62475·0.18] and is 0 below 25 |
| ScriptCalcul.CumulEstSommeCotisations | script_calcul.py:86-87 | with the 0 % return (line 22), the accumulated capital is the opening capital plus the sum of the yearly contributions |
| ScriptCalcul.CroitreEstPuissance | script_calcul.py:78 | growing a salary i times by the factor compounds it: salary·factor^i |
| ScriptCalcul.CotisationsSalaireCroissant | script_calcul.py:73-83 | the contribution of the year i after the start is taken on the starting salary grown i times |
| ScriptCalcul.CumulCroissant | script_calcul.py:73-87 | the accumulated capital never decreases from one year to the next |
| ScriptCalcul.DebutReconstruction | script_calcul.py:57-61 | the reconstruction starts at max(25, age − contribution years) |
| ScriptCalcul.SalaireDepartRetrouve | script_calcul.py:69-70 | compounding the discounted starting salary over the reconstructed years gives back the current salary |
| ScriptCalcul.BoucleEstCumul | script_calcul.py:73-87 | the loop, which grows the salary only on iterations after the first, is the accumulation over the same years from the discounted salary |
| ScriptCalcul.ReconstruireLppConservateur | script_calcul.py:50-89 | the loop's result is the specified reconstructed capital |
| ScriptCalcul.CapitalReconstruitNul | script_calcul.py:64 | nothing is reconstructed when the age is not above the start |
| ScriptCalcul.CapitalReconstruitSomme | script_calcul.py:64-89 | otherwise the reconstructed capital is the sum of the contributions of the years from the start to the year before the current age, non-negative |
| ScriptCalcul.CapitalReconstruitSalaires | script_calcul.py:69-83 | year start + i contributes on the discounted salary grown i times |
| ScriptCalcul.CalculerLpp | script_calcul.py:92-117 | the loop's result is the specified projection, and the monthly annuity × 12 equals the capital × 0.058 |
| ScriptCalcul.CapitalProjeteProprietes | script_calcul.py:101-112 | the capital is unchanged for an empty age range and never decreases; it is the opening capital plus the contributions, each taken on the salary already grown for that year |
| ScriptCalcul.RenteTheorique | script_calcul.py:126-134 | the theoretical pension lies in [1260, 2520]; it is 2520 from 90720 on and 1260 at or below 0; below 90720 it is under 2520 |
| ScriptCalcul.RenteTheoriqueCroissante | script_calcul.py:126-134 | the theoretical pension never decreases with income |
| ScriptCalcul.Bonification | script_calcul.py:122-123 | credit × years = (education + assistance years) × 3·1260·12 |
| ScriptCalcul.RenteAvecLacunes | script_calcul.py:137-143 | the pension lies in [1260, theoretical]; from 44 years it is the theoretical pension; below 44 it is theo·(1 − missing/44) floored at 1260 |
| ScriptCalcul.CalculerRenteIndividuelleAvs | script_calcul.py:120-145 | years are clamped to at least 1; income = average + credit; pension = the reduced theoretical pension, within [1260, 2520] |
| ScriptCalcul.RenteIndividuelleCarrierePleine | script_calcul.py:137-138 | from 44 years on, without credits, the pension is the theoretical pension of the average income |
| ScriptCalcul.RenteConjointNonPlafonnee | script_calcul.py:222-237 | the spouse's pension is the 1890 median unless a number was typed; a typed number is clamped to [1260, 2520] |
| ScriptCalcul.PlafonnerCouple | script_calcul.py:259-277 | capped iff the sum strictly exceeds 3780; otherwise unchanged; when capped each pension is max(0, its share of the total scaled to 3780) |
| ScriptCalcul.PlafonnementSomme | script_calcul.py:267-277 | for non-negative pensions over the ceiling, the capped pair sums to 3780 and neither pension rises |
| ScriptCalcul.ConjointEtPlafond | script_calcul.py:216-277 | for a married person the spouse pension is the clamped or median estimate, and the cap applies iff the pair exceeds 3780; a capped pension is max(0, its share of the total scaled to 3780), and for a non-negative own pension the capped pair sums to 3780 with neither pension raised; for anyone else there is no spouse pension and the person's pension is unchanged |
| ScriptCalcul.SourceCapitalInitial | script_calcul.py:196-212 | the capital is reconstructed iff the stripped answer is `0`, `je ne sais pas`, `ne sait pas` or empty; it is the typed amount iff otherwise the answer reads as a number; it is reconstructed after an input error otherwise |
| ScriptCalcul.CalculerPilierComplet | script_calcul.py:196-286 | the result is `ResultatAttendu` of the answers: the opening capital (typed or reconstructed); its projection and annuity; the individual pension over the projected career; for a status reading `marié`, the spouse pension and the cap, applied iff the sum exceeds 3780, each capped pension max(0, its share scaled to 3780), the pair summing to 3780; the monthly total |
| ScriptCalcul.SimulerPilierComplet | script_calcul.py:172-177 | no result iff retirement is not after the current age or the current age is below 25; otherwise the result is `ResultatAttendu` of the answers, every field as in the calculation block |
| SimulateurBackend.TauxEpargne | simulateur_avs_lpp.py:42-51 | the savings rate lies in [0, 0.18] and is 0 exactly below 25 |
| SimulateurBackend.TauxEpargneBaremes | simulateur_avs_lpp.py:42-51 | the four brackets give 0.07, 0.10, 0.15 and 0.18 |
| SimulateurBackend.TauxEpargneCroissant | simulateur_avs_lpp.py:42-51 | the savings rate never decreases with age |
| SimulateurBackend.SalaireCoordonne | simulateur_avs_lpp.py:54-58 | the coordinated salary lies in [0, 61740] |
| SimulateurBackend.SalaireCoordonneProprietes | simulateur_avs_lpp.py:54-58 | 0 strictly below 22680; 0 exactly when the salary is at most 26460; when positive, min(salary, 88200) − 26460 |
| SimulateurBackend.SalaireCoordonneCroissant | simulateur_avs_lpp.py:54-58 | the coordinated salary never decreases with the salary |
| SimulateurBackend.RenteCompleteAvs | simulateur_avs_lpp.py:61-65 | the full-career pension lies in [1260, 2520]; it is 2520 from 90720 on and 1260 at or below 0; below 90720 it is 1260 + 1260 × max(0, income/90720), under 2520 |
| SimulateurBackend.RenteCompleteAvsCroissante | simulateur_avs_lpp.py:61-65 | the full-career pension never decreases with income |
| SimulateurBackend.Bonification | simulateur_avs_lpp.py:82-84 | credit × max(validated years, 1) = (education + assistance years) × 45360 |
| SimulateurBackend.RenteReduite | simulateur_avs_lpp.py:89-90 | the reduced pension lies in [0, full]; full − reduced = full × min(missing·2.27 %, 1); no missing year gives the full pension, and 45 or more give 0 |
| SimulateurBackend.CalculAvs | simulateur_avs_lpp.py:72-99 | validated years are min(years, 44); missing = 44 − validated ≥ 0; income = average + credit, with no cap; the full-career pension of that income; the reduction percentage; the final pension reduced, in [0, full], with no floor |
| SimulateurBackend.CalculAvsReductionTotale | simulateur_avs_lpp.py:79-90 | a negative number of years leaves more than 44 missing, so the final pension is 0 |
| SimulateurBackend.Historique | simulateur_avs_lpp.py:126-136 | the history has one entry per projected year |
| SimulateurBackend.HistoriqueProprietes | simulateur_avs_lpp.py:126-142 | entries are at ages age, age+1, … in order; the first is at least the initial capital; the last is the final capital; consecutive entries never decrease; the final capital is at least the initial one |
| SimulateurBackend.CapitalFinalCroissant | simulateur_avs_lpp.py:126-130 | the final capital never decreases with the (non-negative) salary or the initial capital |
| SimulateurBackend.CalculLpp | simulateur_avs_lpp.py:105-148 | the loop's result is the specified projection; for `independant` the capital is unchanged with no annuity and no history; otherwise the history has one entry per year and the annuity × 12 is the capital × 0.058 |
| SimulateurBackend.Couple | simulateur_avs_lpp.py:199-208 | unchanged unless the status is `marie`; for a married person a spouse pension ≤ 0 becomes 1890; at or under 3780 the pair is the person's pension and that spouse pension; over it the pair sums to 3780 and each pension is its share scaled to 3780; a non-negative pension never rises nor turns negative |
| SimulateurBackend.AppliquerCouple | simulateur_avs_lpp.py:199-208 | the in-place couple block computes the pair `Couple` specifies |
| SimulateurBackend.Part | simulateur_avs_lpp.py:244-245 | a share is 0 for a non-positive total, otherwise share × total = amount × 100 |
| SimulateurBackend.PartsComplementaires | simulateur_avs_lpp.py:244-245 | the two shares of a positive total sum to 100 |
| SimulateurBackend.Synthetiser | simulateur_avs_lpp.py:235-246 | the monthly total is the sum of the two pensions; the annual total is 12 × that; the shares sum to 100 when the total is positive, both are 0 otherwise |
| SimulateurBackend.CalculerImpacts | simulateur_avs_lpp.py:222-231 | the annual loss is 12 × the monthly loss, and the 20-year loss 20 × the annual; the recoverable amount is the annual loss × min(5, missing); the tax saving is 25 % of it; both are non-negative for a non-negative loss |
| SimulateurBackend.CalculCompletRetraite | simulateur_avs_lpp.py:156-273 | the state pension and the projection of the inputs; the reduction shown negated; the couple-adjusted pension, exactly `Couple`'s first component and in [0, final pension]; the summary; the loss = (full-career pension + reference annuity) − (adjusted pension + annuity), where the reference is 1500 only for a self-employed person without capital; the loss is never negative; without self-employment the loss is full − adjusted pension; for a self-employed person without capital it is at least 1500 |
| SimulateurApi.SalaireCoordonne | simulateur_AVS_LPP.py:38-41 | the coordinated salary lies in [0, 62475] |
| SimulateurApi.SalaireCoordonneProprietes | simulateur_AVS_LPP.py:38-41 | 0 up to 22680 inclusive; 0 exactly when the salary is at most 26460; when positive, min(salary − 26460, 62475) |
| SimulateurApi.TauxEpargne | simulateur_AVS_LPP.py:44-53 | the savings rate lies in [0, 0.18] and is 0 exactly below 25 |
| SimulateurApi.TauxEpargneBaremes | simulateur_AVS_LPP.py:44-53 | the four brackets give 0.07, 0.10, 0.15 and 0.18 |
| SimulateurApi.ProjectionCroissante | simulateur_AVS_LPP.py:108-111 | the projection never loses capital, and leaves it unchanged for years that all lie before age 25 |
| SimulateurApi.ProjectionLpp | simulateur_AVS_LPP.py:104-114 | the loop's result is the specified projection (salary grown before each contribution, 0 % return), and the annuity × 12 is the capital × 0.058 |
| SimulateurApi.DebutReconstruction | simulateur_AVS_LPP.py:60 | the reconstruction starts at max(25, age − years) |
| SimulateurApi.ReconstruireCapitalLpp | simulateur_AVS_LPP.py:59-74 | the loop's result is the specified reconstructed capital: 0 when the age is not above the start, otherwise the projection from the discounted salary |
| SimulateurApi.CapitalReconstruitPositif | simulateur_AVS_LPP.py:59-74 | the reconstructed capital is never negative |
| SimulateurApi.ProjectionPasseCroissante | simulateur_AVS_LPP.py:67-72 | the reconstruction loop never loses capital |
| SimulateurApi.RenteTheorique | simulateur_AVS_LPP.py:85-89 | the theoretical pension lies in [1260, 2520]; it is 2520 from 90720 on and 1260 at or below 0; below 90720 it is under 2520 |
| SimulateurApi.RenteTheoriqueCroissante | simulateur_AVS_LPP.py:85-89 | the theoretical pension never decreases with income |
| SimulateurApi.RenteAvecLacunes | simulateur_AVS_LPP.py:91-96 | the pension lies in [1260, theoretical]; from 44 years on it is the theoretical pension; below 44 it is max(1260, theo·years/44) |
| SimulateurApi.Bonification | simulateur_AVS_LPP.py:81-82 | credit × years = (education + assistance years) × 3·1260·12 |
| SimulateurApi.CalculAvs | simulateur_AVS_LPP.py:80-98 | years = max(1, years); income = average + credit; the theoretical and the final pension, with 1260 ≤ final ≤ theoretical ≤ 2520 |
| SimulateurApi.PlafonnementProprietes | simulateur_AVS_LPP.py:155-160 | at most 3780 the pair is unchanged; over it the pair sums to 3780 and each pension is its share scaled to 3780; non-negative pensions never rise nor turn negative |
| SimulateurApi.PlafonnerCouple | simulateur_AVS_LPP.py:154-160 | the in-place `-=` reductions compute the specified cap |
| SimulateurApi.Diagnostiquer | simulateur_AVS_LPP.py:166-178 | the list has 3 entries iff the total is below 3000, 2 otherwise; the first flags the years iff total years < 30; the second flags the capital iff it is below 50000 past age 35; the low-pension remark is present iff the total is below 3000 |
| SimulateurApi.ConstruireDiagnostic | simulateur_AVS_LPP.py:166-178 | the appends build the specified diagnostic list |
| SimulateurApi.ObtenirCapital | simulateur_AVS_LPP.py:133-139 | the capital is reconstructed iff it is missing, empty, 0 or `"0"`; otherwise it is the declared number; there is no result iff the declared text does not convert |
| SimulateurApi.AppliquerStatut | simulateur_AVS_LPP.py:154-160 | the couple cap applies iff the status lower-cases to `marié` |
| SimulateurApi.CalculCompletRetraite | simulateur_AVS_LPP.py:120-193 | no result iff the declared capital is text that does not convert (the source raises there); otherwise the capital fallback and its source; the projection and annuity; the state pension over annees_avs + (retirement age − age); the couple cap by status; total = pension + annuity; the diagnostic list of the total years, the capital, the age and the total |
| Simulateur.Lire | simulateur.py:7-23 | a field reads as its value when it holds one, as the default when it is missing, empty or unreadable |
| Simulateur.CalculAvs | simulateur.py:30-42 | the annual pension lies in [0, 28680]; it is 28680 from 44 years on and 0 for no year; in between, pension × 44 = 28680 × years |
| Simulateur.CalculAvsCroissante | simulateur.py:35-42 | the pension never decreases with the years |
| Simulateur.CalculLpp | simulateur.py:49-58 | the annual occupational pension is max(0, capital × 0.068) |
| Simulateur.CalculLppCroissante | simulateur.py:55-58 | the occupational pension never decreases with the capital |
| Simulateur.SimulerPilierComplet | simulateur.py:65-117 | the fields read with their defaults (65 for the retirement age); the pension of years + education + assistance years; the occupational pension of the capital; total = the sum of the two |
| Simulateur.FormulaireVide | simulateur.py:71-101 | an empty form gives no pension at all |
| Variantes.TauxEpargneIdentiques | calculateur_retraite.py:129-137 | the four savings-rate tables are the same (also script_calcul.py:41-47, simulateur_avs_lpp.py:42-51, simulateur_AVS_LPP.py:44-53) |
| Variantes.SalaireCoordonneBackendCanonique | simulateur_avs_lpp.py:54-58 | the backend's coordinated salary is the canonical one (calculateur_retraite.py:150-154) |
| Variantes.SalaireCoordonneApiScript | simulateur_AVS_LPP.py:38-41 | the API's coordinated salary is the console script's (script_calcul.py:34-39) |
| Variantes.SalaireCoordonneCanoniqueScript | calculateur_retraite.py:150-154 | the canonical and script coordinated salaries agree up to 88200, whichever entry test is used; above it the canonical one stays at 61740, below the script's |
| Variantes.CotisationApiScript | simulateur_AVS_LPP.py:71-72 | a year's contribution in the API is the script's (script_calcul.py:81-83) |
| Variantes.ProjectionApiScript | simulateur_AVS_LPP.py:108-111 | the API's projection is the script's accumulation from the salary grown once (script_calcul.py:101-112) |
| Variantes.CapitalProjeteApiScript | simulateur_AVS_LPP.py:104-114 | the API and the script project the same capital to retirement (script_calcul.py:92-117) |
| Variantes.ProjectionPasseApiScript | simulateur_AVS_LPP.py:67-72 | the later years of the API's reconstruction are the script's accumulation (script_calcul.py:73-87) |
| Variantes.ReconstructionApiScript | simulateur_AVS_LPP.py:64-72 | the API's first reconstructed year followed by the later ones is the script's accumulation over all of them |
| Variantes.CapitalReconstruitApiScript | simulateur_AVS_LPP.py:59-74 | the API reconstructs the script's capital (script_calcul.py:50-89) |
| Variantes.CapitalReconstruitApiSomme | simulateur_AVS_LPP.py:59-74 | with the 0 % return, the API's reconstruction is the sum of the yearly contributions |
| Variantes.OrdreCroissanceBackend | simulateur_avs_lpp.py:126-130 | the backend's loop (grow after contributing), started from a salary grown once, is the loop that grows the salary before contributing |
| Variantes.OrdreCroissanceAvantAvantage | simulateur_avs_lpp.py:126-130 | for a non-negative salary, growing it before each contribution (as in simulateur_AVS_LPP.py:108-111) never gives less capital than the backend's order |
| Variantes.RenteTheoriqueApiScript | simulateur_AVS_LPP.py:85-89 | the API's theoretical pension is the script's (script_calcul.py:126-134) |
| Variantes.RenteAvecLacunesApiScript | simulateur_AVS_LPP.py:91-96 | the API's theo − theo·missing/44 equals the script's theo·(1 − missing/44) (script_calcul.py:137-143) |
| Variantes.CalculAvsApiScript | simulateur_AVS_LPP.py:80-98 | the API and the script compute the same pension, income and years (script_calcul.py:120-145) |
| Variantes.RenteCompleteCanoniqueBackend | simulateur_avs_lpp.py:61-65 | from a positive income up to 30240 the backend's full-career pension exceeds the canonical 1260; elsewhere they are equal (calculateur_retraite.py:253-262) |
| Variantes.RenteReduiteCanoniqueBackend | simulateur_avs_lpp.py:89-90 | for at most 44 years the backend reduces the full-career pension exactly as the canonical variant does before its floor (calculateur_retraite.py:265-267) |
| Outils.Strip | script_calcul.py:199 | `strip()`: the result is the input less its leading and trailing whitespace, with no whitespace left at either end |
| Outils.Minuscule | simulateur_AVS_LPP.py:154 | `lower()`: same length, each character lowered on its own |

## Definitions

The contracts above are stated against these specification functions and predicates. They carry no contract of their own; each is written to follow the cited lines.

| definition | source | defines |
|---|---|---|
| `CalculateurRetraite.CapitalFinal` | calculateur_retraite.py:181-199 | the capital after the projected years: each year adds the contribution and 1 % interest on the opening capital, then the salary grows |
| `CalculateurRetraite.ResultatLppAttendu` | calculateur_retraite.py:157-213 | the pension-fund result: initial and final capital, annuity capital × 6.8 % / 12, coordinated salary, the yearly trace and its two totals |
| `CalculateurRetraite.EligibleRachatLpp` | calculateur_retraite.py:361 | the pension-fund buy-back is offered iff the coordinated salary is positive and at least 3 years remain |
| `CalculateurRetraite.EligibleLacunesAvs` | calculateur_retraite.py:385 | the state-pension buy-back is offered iff 1 to 5 years are missing |
| `ScriptCalcul.Cumul` | script_calcul.py:73-87 | one accumulation: each year the capital earns the 0 % return and receives the contribution, then the salary grows |
| `ScriptCalcul.CapitalReconstruit` | script_calcul.py:50-89 | the reconstructed capital: 0 unless the current age is above the start; otherwise the accumulation from the discounted salary, grown by 0.5 % from the second year on |
| `ScriptCalcul.CapitalProjete` | script_calcul.py:92-113 | the projected capital: the accumulation with the salary grown by 0.5 % before each year's contribution |
| `ScriptCalcul.CapitalInconnu` | script_calcul.py:199 | the answers meaning "unknown": `0`, `je ne sais pas`, `ne sait pas` and the empty answer |
| `ScriptCalcul.AgesInvalides` | script_calcul.py:174 | the refused ages: retirement not after the current age, or a current age below 25 |
| `ScriptCalcul.ResultatAttendu` | script_calcul.py:196-286 | what the calculation block yields, field by field |
| `SimulateurApi.Projection` | simulateur_AVS_LPP.py:104-111 | the projected capital: each year the salary grows, then the capital earns the 0 % return and receives the contribution on the grown salary |
| `SimulateurApi.CapitalReconstruit` | simulateur_AVS_LPP.py:59-72 | the reconstructed capital: 0 unless the current age is above the start; otherwise the first year on the discounted salary, then `ProjectionPasse` |
| `SimulateurApi.ProjectionPasse` | simulateur_AVS_LPP.py:67-70 | the later reconstruction years: the salary grows by the past rate before each contribution |
| `SimulateurApi.Plafonnement` | simulateur_AVS_LPP.py:155-160 | over 3780, each pension gives up its share of the excess; otherwise both are unchanged |
| `SimulateurApi.CapitalAReconstruire` | simulateur_AVS_LPP.py:134 | the capital values that trigger the reconstruction: missing, `""`, `0` and `"0"` |
| `SimulateurApi.ApresStatut` | simulateur_AVS_LPP.py:154-160 | the pair after the couple block: `Plafonnement` iff the status lowers to `marié` |
| `SimulateurBackend.CapitalFinal` | simulateur_avs_lpp.py:126-130 | the capital after the projected years: each year adds the contribution on the current salary, then the salary grows 0.5 % |
| `SimulateurBackend.LppAttendu` | simulateur_avs_lpp.py:105-148 | what `calcul_lpp` returns: for `independant` the capital unchanged, no annuity and no history; otherwise the projected capital, annuity capital × 5.8 % / 12 and the history |

## Left out

- Rounding: Python's `round()` on the returned and displayed amounts is not modelled. All amounts are exact reals, so the canonical `total_cotisations` and `total_interets` are sums of the unrounded yearly figures, not of the rounded fields.
- Floating point: IEEE arithmetic is not modelled. `1.005 ** n` is the exact power and `/` is exact division.
- Console and forms: `input()`, `print()`, the explanatory texts, `capitalize()`/`upper()` of names, and `int()`/`float()` parsing with its `try/except` are not modelled. The parsed value, or its absence, is a parameter (`Champ`, `SaisieCapital`, `Option<real>`, `SaisieConjoint`). In `SimulateurBackend` and `SimulateurApi` the values extracted from the request dictionary are the parameters, with the backend's `donnees.get(…, default)` defaults and `int()`/`float()` conversions already applied (simulateur_avs_lpp.py:158-172); the `KeyError` that the API's `d[...]` lookups raise on a missing key (simulateur_AVS_LPP.py:122-131) is not modelled. An unreadable age or salary in the console script ends the run before any calculation; that path is not modelled.
- Text: `lower()` is modelled on ASCII and Latin-1 capitals only; other scripts' capitals are kept as they are.
- The PDF payload past the summary (`avs_detail`, `lpp_detail`), the descriptions and f-strings of the scenarios, and the JSON of the returned dictionaries are not modelled; the summary's figures are.
- Unused parameters: the ages, income and marital status passed to `calcul_avs` and `calcul_lpp` in simulateur.py are unused by the source and are not parameters of the model.
- SimulateurApi.CalculCompletRetraite: a missing spouse pension (`None`) would raise a `TypeError` in the source's couple block; the model takes the spouse pension as a number.
- CalculateurRetraite.CalculerRetraiteComplete: is stated over `CalculerAvsCorrige`, the corrected state pension (see Findings), where the source calls `calculer_avs`. The two agree for careers of at most 44 years. Past 44 years the model pays exactly the full-career pension, where `calculer_avs` pays the larger of it and the proportional minimum 1260 × years / 44; so, past a full career, the model gives up the proportional minimum of the comment at calculateur_retraite.py:268 whenever that minimum exceeds the full-career pension (`CorrigeSansPlancherProportionnel`).
- The example, export, test-driver and Shopify JSON wrapper functions of calculateur_retraite.py (lines 573-718, 774-792) only print or serialise and are not modelled; the cases asserted by `test_calculs` are lemmas.
- PDF generation (pdf_generator.py), the web routes and database models (routes_avis.py, models.py, main.py) and the debug scripts are not part of this model.

## Findings

| source | as written | input that shows it | evidently intended | confidence | as-written member | corrected member |
|---|---|---|---|---|---|---|
| calculateur_retraite.py:269-272 | the pro-rata floor is `1260 × years / 44` with the projected years uncapped | an average income of 25000 over 45 years with no credits: the full-career pension is 1260, yet the final pension is 1260 × 45/44 ≈ 1288.64 | the floor counted on at most a full career, `1260 × min(years, 44) / 44`, so the pension never exceeds the full-career pension; this intent is the model's own reading: `rente_complete` is the pension of a full 44-year career, line 269 calls the floor a proportional minimum, so a longer career should not earn more than a full one, and the source's own tests (lines 747-757) cover only 44- and 40-year careers | medium, not executed | CalculateurRetraite.PlancherDepasseRenteComplete, CalculateurRetraite.CalculerAvs | CalculateurRetraite.CalculerAvsCorrige |
