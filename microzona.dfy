/**
 * What both microzone summarisers (agents/netlify/functions/_lib/microzonificador.ts
 * and agents/almassora/microzonificador.ts) share: the target subzone, the
 * report they write, and the first and last elements of a default `sort()` of
 * strings, which are the least and greatest strings in code-unit order.
 */
module Microzona {
  import opened Wrappers
  import opened JsText

  const Target := "771204"
  const Fuente := "AEMET / Agente IA"
  const NotaSinAvisos := "No hay avisos meteorológicos activos para esta subzona en el momento de la última descarga."
  const NotaActivos := "Se han detectado avisos meteorológicos activos para esta subzona."
  const NotaCanales := "Este agente IA no sustituye a los canales oficiales."
  const Desconocido := "Desconocido"

  /**
   * The report of one run. `inicio`/`fin` are `None` where the JSON property is
   * `undefined` (and so left out when written).
   */
  datatype Report = Report(
    activo: bool,
    subzona: string,
    inicio: Option<string>,
    fin: Option<string>,
    fenomenos: seq<string>,
    centrosAfectados: seq<string>,
    caminosAfectados: seq<string>,
    zonasRiesgoIntersectadas: seq<string>,
    fuente: string,
    generatedAt: string,
    notas: seq<string>)

  /** The report written when no warning concerns the target subzone. */
  function NoWarnings(now: string): Report {
    Report(false, Target, Some(""), Some(""), [], [], [], [], Fuente, now, [NotaSinAvisos])
  }

  /** The report written when some warnings do. */
  function Active(inicio: Option<string>, fin: Option<string>, fenomenos: seq<string>, now: string): Report {
    Report(true, Target, inicio, fin, fenomenos, [], [], [], Fuente, now, [NotaActivos, NotaCanales])
  }

  /** `a <= b` in the order of the default `sort()`. */
  predicate LexLeq(a: string, b: string) {
    a == b || LexLess(a, b)
  }

  /** Non-decreasing in the order of the default `sort()`. */
  predicate SortedLex(s: seq<string>) {
    forall i, j :: 0 <= i < j < |s| ==> LexLeq(s[i], s[j])
  }

  /** The least string of a non-empty list. */
  function Least(xs: seq<string>): (r: string)
    requires |xs| >= 1
    ensures r in xs
    ensures forall y :: y in xs ==> LexLeq(r, y)
  {
    if |xs| == 1 then xs[0]
    else
      var m := Least(xs[1..]);
      assert xs == [xs[0]] + xs[1..];
      LexLessTotal(xs[0], m);
      if LexLess(xs[0], m) then
        assert forall y :: y in xs[1..] && LexLess(m, y) ==> LexLess(xs[0], y) by {
          forall y | y in xs[1..] && LexLess(m, y) ensures LexLess(xs[0], y) {
            LexLessTransitive(xs[0], m, y);
          }
        }
        xs[0]
      else
        m
  }

  /** The greatest string of a non-empty list. */
  function Greatest(xs: seq<string>): (r: string)
    requires |xs| >= 1
    ensures r in xs
    ensures forall y :: y in xs ==> LexLeq(y, r)
  {
    if |xs| == 1 then xs[0]
    else
      var m := Greatest(xs[1..]);
      assert xs == [xs[0]] + xs[1..];
      LexLessTotal(xs[0], m);
      if LexLess(m, xs[0]) then
        assert forall y :: y in xs[1..] && LexLess(y, m) ==> LexLess(y, xs[0]) by {
          forall y | y in xs[1..] && LexLess(y, m) ensures LexLess(y, xs[0]) {
            LexLessTransitive(y, m, xs[0]);
          }
        }
        xs[0]
      else
        m
  }

  /** Two strings each at most the other are equal. */
  lemma LexLeqAntisymmetric(a: string, b: string)
    requires LexLeq(a, b) && LexLeq(b, a)
    ensures a == b
  {
    if a != b {
      LexLessAsymmetric(a, b);
    }
  }

  /**
   * Whatever algorithm `sort()` uses, the first element of the sorted copy is
   * `Least` and the last is `Greatest`.
   */
  lemma SortedEnds(s: seq<string>, xs: seq<string>)
    requires SortedLex(s) && multiset(s) == multiset(xs) && |xs| >= 1
    ensures |s| == |xs|
    ensures s[0] == Least(xs) && s[|s| - 1] == Greatest(xs)
  {
    assert |s| == |multiset(s)| == |xs|;
    assert s[0] in multiset(xs) && s[|s| - 1] in multiset(xs);
    var lo, hi := Least(xs), Greatest(xs);
    assert lo in multiset(s) && hi in multiset(s);
    var i :| 0 <= i < |s| && s[i] == lo;
    var j :| 0 <= j < |s| && s[j] == hi;
    assert LexLeq(s[0], s[i]) by { if i != 0 { } }
    assert LexLeq(s[j], s[|s| - 1]) by { if j != |s| - 1 { } }
    LexLeqAntisymmetric(s[0], lo);
    LexLeqAntisymmetric(s[|s| - 1], hi);
  }
}
