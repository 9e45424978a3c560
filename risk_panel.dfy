/**
 * The pure helpers of the risk panel (src/components/RiskPanel.tsx): the order
 * of the evaluations, the "starts within 3 h" filter, the count per tier and
 * the 1–4 to 0–20 scale. They work on the evaluations the risk evaluator writes.
 */
module RiskPanel {
  import opened Wrappers
  import opened Seqs
  import opened JsText
  import opened RiskEvaluator

  /** `niveles`: the tiers in the order the panel shows them. */
  const Niveles: seq<Tier> := [Alto, Moderado, Bajo]

  // ------------------------------------------------------------ ordenar

  /** `a.localeCompare(b)` as the sign of the code-unit order. */
  function LocaleCompare(a: string, b: string): (c: int)
    ensures c == 0 <==> a == b
    ensures c < 0 <==> LexLess(a, b)
    ensures -1 <= c <= 1
  {
    LexLessIrreflexive(a);
    LexLessTotal(a, b);
    if a == b then 0 else if LexLess(a, b) then -1 else 1
  }

  /** `a` is shown before `b`: a higher score first, and by subzone between equal scores. */
  predicate Before(a: Evaluacion, b: Evaluacion) {
    a.scoreIa > b.scoreIa || (a.scoreIa == b.scoreIa && LexLess(a.subzona, b.subzona))
  }

  /** `ordenar`: `b.score_ia - a.score_ia || a.subzona.localeCompare(b.subzona)`. */
  function Ordenar(a: Evaluacion, b: Evaluacion): (r: real)
    ensures r < 0.0 <==> Before(a, b)
    ensures r == 0.0 <==> a.scoreIa == b.scoreIa && a.subzona == b.subzona
  {
    var d := b.scoreIa - a.scoreIa;
    if d != 0.0 then d else LocaleCompare(a.subzona, b.subzona) as real
  }

  /** The comparator is antisymmetric: `a` goes first exactly when `b` goes last. */
  lemma OrdenarAntisymmetric(a: Evaluacion, b: Evaluacion)
    ensures Ordenar(a, b) < 0.0 <==> Ordenar(b, a) > 0.0
  {
    LexLessTotal(a.subzona, b.subzona);
    if LexLess(a.subzona, b.subzona) {
      LexLessAsymmetric(a.subzona, b.subzona);
    }
  }

  /** ... and transitive, so it is a consistent comparator for `sort`. */
  lemma OrdenarTransitive(a: Evaluacion, b: Evaluacion, c: Evaluacion)
    requires Ordenar(a, b) < 0.0 && Ordenar(b, c) < 0.0
    ensures Ordenar(a, c) < 0.0
  {
    if a.scoreIa == b.scoreIa == c.scoreIa {
      LexLessTransitive(a.subzona, b.subzona, c.subzona);
    }
  }

  /** A list in the order of `ordenar`. */
  predicate Ordered(s: seq<Evaluacion>) {
    forall i, j :: 0 <= i < j < |s| ==> Ordenar(s[i], s[j]) <= 0.0
  }

  /** In that order the scores never increase, and equal scores are listed by subzone. */
  lemma OrderedScores(s: seq<Evaluacion>)
    requires Ordered(s)
    ensures forall i, j :: 0 <= i < j < |s| ==> s[i].scoreIa >= s[j].scoreIa
    ensures forall i, j :: 0 <= i < j < |s| && s[i].scoreIa == s[j].scoreIa ==>
              s[i].subzona == s[j].subzona || LexLess(s[i].subzona, s[j].subzona)
  {
    forall i, j | 0 <= i < j < |s|
      ensures s[i].scoreIa >= s[j].scoreIa
      ensures s[i].scoreIa == s[j].scoreIa ==> s[i].subzona == s[j].subzona || LexLess(s[i].subzona, s[j].subzona)
    {
      LexLessTotal(s[i].subzona, s[j].subzona);
      assert Ordenar(s[i], s[j]) <= 0.0;
    }
  }

  // ------------------------------------------------------------ filtrados

  /** `typeof d.window?.imminenceHours === 'number' && d.window.imminenceHours <= 3` */
  predicate Imminent(d: Evaluacion) {
    d.window.imminenceTenths.Some? && d.window.imminenceTenths.value <= 30
  }

  function ShownBy(onlyImminent: bool): Evaluacion -> bool {
    (d: Evaluacion) => !onlyImminent || Imminent(d)
  }

  /** `filtrados`: everything, or only the evaluations that start within 3 hours, in the order given. */
  function Filtrados(datos: seq<Evaluacion>, onlyImminent: bool): (r: seq<Evaluacion>)
    ensures !onlyImminent ==> r == datos
    ensures forall d :: d in r <==> d in datos && (!onlyImminent || Imminent(d))
  {
    if onlyImminent then Filter(datos, ShownBy(true))
    else
      FilterAll(datos, ShownBy(false));
      Filter(datos, ShownBy(false))
  }

  // ------------------------------------------------------------ contar

  function HasTier(t: Tier): Evaluacion -> bool {
    (d: Evaluacion) => d.nivelRiesgo == t
  }

  /** `contar(nivel)`: how many of the shown evaluations have that tier. */
  function Contar(filtrados: seq<Evaluacion>, t: Tier): nat {
    |Filter(filtrados, HasTier(t))|
  }

  /** The three counts cover every shown evaluation once. */
  lemma {:induction false} ContarSum(filtrados: seq<Evaluacion>)
    ensures Contar(filtrados, Niveles[0]) + Contar(filtrados, Niveles[1]) + Contar(filtrados, Niveles[2]) == |filtrados|
  {
    if filtrados != [] {
      var init, last := filtrados[..|filtrados| - 1], filtrados[|filtrados| - 1];
      ContarSum(init);
      assert filtrados == init + [last];
      FilterSnoc(init, last, HasTier(Alto));
      FilterSnoc(init, last, HasTier(Moderado));
      FilterSnoc(init, last, HasTier(Bajo));
    }
  }

  // ------------------------------------------------------------ toScale20

  /** `Math.round(x)`: the nearest integer, halves rounded up. */
  function Round(x: real): (n: int)
    ensures x - 0.5 < n as real <= x + 0.5
  {
    (x + 0.5).Floor
  }

  /** `toScale20`: a score of the 1–4 scale on the 0–20 scale. */
  function ToScale20(score14: real): int {
    Round(((score14 - 1.0) / 3.0) * 20.0)
  }

  lemma {:induction false} RoundMonotone(x: real, y: real)
    requires x <= y
    ensures Round(x) <= Round(y)
  {
    assert (Round(x) as real) <= x + 0.5 <= y + 0.5 < (Round(y) + 1) as real;
  }

  /** The scale is non-decreasing. */
  lemma ToScale20Monotone(a: real, b: real)
    requires a <= b
    ensures ToScale20(a) <= ToScale20(b)
  {
    RoundMonotone(((a - 1.0) / 3.0) * 20.0, ((b - 1.0) / 3.0) * 20.0);
  }

  /** 1 maps to 0, 4 to 20, and every score of the 1–4 scale into [0, 20]. */
  lemma ToScale20Range(score14: real)
    requires 1.0 <= score14 <= 4.0
    ensures ToScale20(1.0) == 0 && ToScale20(4.0) == 20
    ensures 0 <= ToScale20(score14) <= 20
  {
    assert ToScale20(1.0) == Round(0.0) == 0;
    assert ToScale20(4.0) == Round(20.0) == 20;
    ToScale20Monotone(1.0, score14);
    ToScale20Monotone(score14, 4.0);
  }
}
