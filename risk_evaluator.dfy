/**
 * The risk evaluator (agents/risk_evaluator.ts). It groups the warnings by
 * subzone and scores each subzone: the rank of the worst warning, plus a
 * capped bonus for several significant warnings, plus a time weight for an
 * imminent or long-lasting warning. The score is clamped to [1, 4], rounded
 * to a tier, and explained by an ordered list of reasons. The trend is then
 * set against the evaluation of the previous run.
 *
 * Instants are integer milliseconds. `now` (`Date.now()`, read once per
 * run) is a parameter, and so is `clock`: `clock(i)` is the instant the
 * `new Date()` of the i-th evaluated subzone reads for its `generatedAt`.
 * `Date.parse` is a function that gives None for NaN. Scores are exact reals.
 */
module RiskEvaluator {
  import opened Wrappers
  import opened Seqs
  import JsText
  import PropertyOrder

  // ------------------------------------------------------------ data

  datatype Nivel = Verde | Amarillo | Naranja | Rojo

  /** `niveles = { verde: 1, amarillo: 2, naranja: 3, rojo: 4 }` */
  function Rank(n: Nivel): (r: int)
    ensures r == 1 <==> n == Verde
    ensures r == 2 <==> n == Amarillo
    ensures r == 3 <==> n == Naranja
    ensures r == 4 <==> n == Rojo
    ensures 1 <= r <= 4
  {
    match n
    case Verde => 1
    case Amarillo => 2
    case Naranja => 3
    case Rojo => 4
  }

  /** A warning as read from the input file; a missing `f_inicio` / `f_fin` is the empty string. */
  datatype Aviso = Aviso(subzona: string, areaDesc: string, fenomeno: string, nivel: Nivel, fInicio: string, fFin: string)

  /** `'BAJO' | 'MODERADO' | 'ALTO'` */
  datatype Tier = Bajo | Moderado | Alto

  datatype Trend = Up | Down | Same | New

  datatype Counts = Counts(verde: nat, amarillo: nat, naranja: nat, rojo: nat)

  /** `window`: the instants as milliseconds, the hours as whole tenths of an hour (`imminenceHours == imminenceTenths / 10`). */
  datatype Window = Window(onsetSoonest: Option<int>, expiresLatest: Option<int>, imminenceTenths: Option<int>, durationTenths: Option<nat>)

  /** One subzone's evaluation; the reasons are the rendered texts. */
  datatype Evaluacion = Evaluacion(
    subzona: string,
    areaDesc: string,
    nivelRiesgo: Tier,
    scoreIa: real,
    fenomenoPrincipal: string,
    generatedAt: int,
    counts: Counts,
    timeWeight: real,
    reasons: seq<string>,
    window: Window,
    trend: Option<Trend>)

  function MinReal(a: real, b: real): real { if a <= b then a else b }
  function MaxReal(a: real, b: real): real { if a >= b then a else b }

  // ------------------------------------------------------------ configuration

  datatype RiskConfig = RiskConfig(
    imminenceHoursThreshold: real,
    longDurationHoursThreshold: real,
    multiplicityStep: real,
    multiplicityMaxBonus: real)

  const Defaults := RiskConfig(6.0, 12.0, 0.25, 1.0)

  /** The configuration file: absent, unreadable or not JSON, or the numeric fields it sets. */
  datatype ConfigFile =
    | NoConfigFile
    | UnreadableConfig
    | Overrides(imminence: Option<real>, longDuration: Option<real>, step: Option<real>, maxBonus: Option<real>)

  /** `loadConfig`: `{ ...defaults, ...parsed }`, or the defaults when the file is absent or cannot be read. */
  function LoadConfig(f: ConfigFile): (cfg: RiskConfig)
    ensures !f.Overrides? ==> cfg == Defaults
    ensures f.Overrides? ==>
      && (f.imminence.Some? ==> cfg.imminenceHoursThreshold == f.imminence.value)
      && (f.imminence.None? ==> cfg.imminenceHoursThreshold == 6.0)
      && (f.longDuration.Some? ==> cfg.longDurationHoursThreshold == f.longDuration.value)
      && (f.longDuration.None? ==> cfg.longDurationHoursThreshold == 12.0)
      && (f.step.Some? ==> cfg.multiplicityStep == f.step.value)
      && (f.step.None? ==> cfg.multiplicityStep == 0.25)
      && (f.maxBonus.Some? ==> cfg.multiplicityMaxBonus == f.maxBonus.value)
      && (f.maxBonus.None? ==> cfg.multiplicityMaxBonus == 1.0)
  {
    match f
    case Overrides(i, l, s, m) =>
      RiskConfig(i.GetOr(Defaults.imminenceHoursThreshold), l.GetOr(Defaults.longDurationHoursThreshold),
                 s.GetOr(Defaults.multiplicityStep), m.GetOr(Defaults.multiplicityMaxBonus))
    case _ => Defaults
  }

  predicate NonNegative(cfg: RiskConfig) {
    cfg.multiplicityStep >= 0.0 && cfg.multiplicityMaxBonus >= 0.0
  }

  // ------------------------------------------------------------ rounding and tiers

  /** `Math.round` */
  function JsRound(x: real): int {
    (x + 0.5).Floor
  }

  /** `toLevel`: the rounded score, forced into 1..4. */
  function ToLevel(score: real): (n: int)
    ensures 1 <= n <= 4
  {
    var n := JsRound(score);
    if n <= 1 then 1
    else if n >= 4 then 4
    else if n == 2 then 2
    else 3
  }

  /** `riesgo_txt` */
  function TierOf(level: int): Tier
    requires 1 <= level <= 4
  {
    if level == 1 then Bajo else if level == 2 then Moderado else Alto
  }

  /** `Math.max(1, Math.min(4, score))` */
  function Clamp(score: real): real {
    MaxReal(1.0, MinReal(4.0, score))
  }

  /** `Number(score.toFixed(2))` for a positive score: the nearest hundredth, ties upwards. */
  function RoundTo2(x: real): real {
    (x * 100.0 + 0.5).Floor as real / 100.0
  }

  /** On a clamped score, `toLevel` is plain `Math.round`. */
  lemma ToLevelOnClampedScore(score: real)
    requires 1.0 <= score <= 4.0
    ensures ToLevel(score) == JsRound(score)
  {
    assert 1 <= JsRound(score) <= 4;
  }

  /** Two decimals keep a score inside [1, 4] and move it by at most half a hundredth. */
  lemma RoundTo2Bounds(x: real)
    requires 1.0 <= x <= 4.0
    ensures 1.0 <= RoundTo2(x) <= 4.0
    ensures -0.005 <= x - RoundTo2(x) < 0.005
  {
    var f := (x * 100.0 + 0.5).Floor;
    assert f as real <= x * 100.0 + 0.5 < f as real + 1.0;
    assert 100 <= f <= 400;
  }

  // ------------------------------------------------------------ counting

  /** Number of warnings of level `n`. */
  function Count(g: seq<Aviso>, n: Nivel): nat {
    if g == [] then 0 else Count(g[..|g| - 1], n) + (if g[|g| - 1].nivel == n then 1 else 0)
  }

  function CountsOf(g: seq<Aviso>): Counts {
    Counts(Count(g, Verde), Count(g, Amarillo), Count(g, Naranja), Count(g, Rojo))
  }

  /** `counts[n] += 1` */
  function Tally(c: Counts, n: Nivel): Counts {
    match n
    case Verde => c.(verde := c.verde + 1)
    case Amarillo => c.(amarillo := c.amarillo + 1)
    case Naranja => c.(naranja := c.naranja + 1)
    case Rojo => c.(rojo := c.rojo + 1)
  }

  /** `for (const a of grupo) counts[a.nivel] += 1;` */
  method CountLevels(g: seq<Aviso>) returns (counts: Counts)
    ensures counts == CountsOf(g)
  {
    counts := Counts(0, 0, 0, 0);
    for i := 0 to |g|
      invariant counts == CountsOf(g[..i])
    {
      assert g[..i + 1][..i] == g[..i];
      counts := Tally(counts, g[i].nivel);
    }
    assert g[..|g|] == g;
  }

  /** Every warning is counted under exactly one level. */
  lemma {:induction false} CountsTotal(g: seq<Aviso>)
    ensures Count(g, Verde) + Count(g, Amarillo) + Count(g, Naranja) + Count(g, Rojo) == |g|
  {
    if g != [] {
      CountsTotal(g[..|g| - 1]);
    }
  }

  /** A level is counted exactly when some warning has it. */
  lemma {:induction false} CountPositive(g: seq<Aviso>, n: Nivel)
    ensures Count(g, n) > 0 <==> exists i :: 0 <= i < |g| && g[i].nivel == n
  {
    if g != [] {
      var init := g[..|g| - 1];
      CountPositive(init, n);
      if exists i :: 0 <= i < |init| && init[i].nivel == n {
        var i :| 0 <= i < |init| && init[i].nivel == n;
        assert g[i].nivel == n;
      }
    }
  }

  // ------------------------------------------------------------ dominant warning

  /**
   * `grupo.reduce((prev, curr) => niveles[curr.nivel] > niveles[prev.nivel] ? curr : prev)`:
   * the position of the first warning of the highest level.
   */
  function Dominant(g: seq<Aviso>): (d: nat)
    requires |g| >= 1
    ensures d < |g|
    ensures forall k :: 0 <= k < |g| ==> Rank(g[k].nivel) <= Rank(g[d].nivel)
    ensures forall k :: 0 <= k < d ==> Rank(g[k].nivel) < Rank(g[d].nivel)
  {
    if |g| == 1 then 0
    else
      var d := Dominant(g[..|g| - 1]);
      if Rank(g[|g| - 1].nivel) > Rank(g[d].nivel) then |g| - 1 else d
  }

  /** The multiplicity bonus: `multiplicityStep` per significant warning beyond the first, capped at `multiplicityMaxBonus`. */
  function MultiplicityBonus(c: Counts, cfg: RiskConfig): real {
    var multiplicadores := c.rojo + c.naranja + c.amarillo - 1;
    if multiplicadores > 0 then MinReal(cfg.multiplicityMaxBonus, multiplicadores as real * cfg.multiplicityStep) else 0.0
  }

  /** Green warnings never add to the bonus, and with non-negative settings the bonus lies in [0, multiplicityMaxBonus]. */
  lemma MultiplicityBonusProperties(c: Counts, cfg: RiskConfig, extraGreen: nat)
    ensures MultiplicityBonus(c.(verde := c.verde + extraGreen), cfg) == MultiplicityBonus(c, cfg)
    ensures c.rojo + c.naranja + c.amarillo <= 1 ==> MultiplicityBonus(c, cfg) == 0.0
    ensures NonNegative(cfg) ==> 0.0 <= MultiplicityBonus(c, cfg) <= cfg.multiplicityMaxBonus
  {
  }

  // ------------------------------------------------------------ time weight and window

  /** `new Date(...)` / `Date.parse` on an optional text: an empty or missing text gives NaN (None). */
  function Instant(s: string, parseDate: string -> Option<int>): Option<int> {
    if s == "" then None else parseDate(s)
  }

  datatype Fechas = Fechas(inicio: Option<int>, fin: Option<int>)

  predicate HasDate(t: Fechas) {
    t.inicio.Some? || t.fin.Some?
  }

  /** `grupo.map(g => ({ inicio, fin }))` */
  function FechasOf(g: seq<Aviso>, parseDate: string -> Option<int>): (ts: seq<Fechas>)
    ensures |ts| == |g|
  {
    seq(|g|, i requires 0 <= i < |g| => Fechas(Instant(g[i].fInicio, parseDate), Instant(g[i].fFin, parseDate)))
  }

  /** `fechasValidas`: the pairs with at least one valid instant. */
  function FechasValidas(g: seq<Aviso>, parseDate: string -> Option<int>): seq<Fechas> {
    Filter(FechasOf(g, parseDate), HasDate)
  }

  /** Hours from `now` until `instant`. */
  function HoursUntil(instant: int, now: int): real {
    (instant - now) as real / 3600000.0
  }

  /** The start is no more than `imminenceHoursThreshold` hours away (or already past). */
  predicate Imminent(t: Fechas, now: int, cfg: RiskConfig) {
    t.inicio.Some? && HoursUntil(t.inicio.value, now) <= cfg.imminenceHoursThreshold
  }

  /** The end is at least `longDurationHoursThreshold` hours away. */
  predicate LongLasting(t: Fechas, now: int, cfg: RiskConfig) {
    t.fin.Some? && HoursUntil(t.fin.value, now) >= cfg.longDurationHoursThreshold
  }

  predicate AnyTrigger(ts: seq<Fechas>, now: int, cfg: RiskConfig) {
    exists t :: t in ts && (Imminent(t, now, cfg) || LongLasting(t, now, cfg))
  }

  /** `time_weight`: one step (never below 0) as soon as any warning is imminent or long-lasting, else 0. */
  function TimeWeight(ts: seq<Fechas>, now: int, cfg: RiskConfig): real {
    if AnyTrigger(ts, now, cfg) then MaxReal(0.0, cfg.multiplicityStep) else 0.0
  }

  /** `onsetSoonest`: the earliest valid start, if any. */
  function MinOnset(ts: seq<Fechas>): (m: Option<int>)
    ensures m.None? <==> forall i :: 0 <= i < |ts| ==> ts[i].inicio.None?
    ensures m.Some? ==> exists i :: 0 <= i < |ts| && ts[i].inicio == m
    ensures m.Some? ==> forall i :: 0 <= i < |ts| && ts[i].inicio.Some? ==> m.value <= ts[i].inicio.value
  {
    if ts == [] then None
    else
      var m := MinOnset(ts[..|ts| - 1]);
      var t := ts[|ts| - 1];
      if t.inicio.Some? && (m.None? || t.inicio.value < m.value) then t.inicio else m
  }

  /** `expiresLatest`: the latest valid end, if any. */
  function MaxExpiry(ts: seq<Fechas>): (m: Option<int>)
    ensures m.None? <==> forall i :: 0 <= i < |ts| ==> ts[i].fin.None?
    ensures m.Some? ==> exists i :: 0 <= i < |ts| && ts[i].fin == m
    ensures m.Some? ==> forall i :: 0 <= i < |ts| && ts[i].fin.Some? ==> ts[i].fin.value <= m.value
  {
    if ts == [] then None
    else
      var m := MaxExpiry(ts[..|ts| - 1]);
      var t := ts[|ts| - 1];
      if t.fin.Some? && (m.None? || t.fin.value > m.value) then t.fin else m
  }

  /** The loop over `fechasValidas`: the time weight and the soonest start and latest end. */
  method TimeWindow(ts: seq<Fechas>, now: int, cfg: RiskConfig) returns (timeWeight: real, onsetSoonest: Option<int>, expiresLatest: Option<int>)
    ensures timeWeight == TimeWeight(ts, now, cfg)
    ensures onsetSoonest == MinOnset(ts)
    ensures expiresLatest == MaxExpiry(ts)
  {
    timeWeight := 0.0;
    onsetSoonest := None;
    expiresLatest := None;
    for i := 0 to |ts|
      invariant timeWeight == TimeWeight(ts[..i], now, cfg)
      invariant onsetSoonest == MinOnset(ts[..i])
      invariant expiresLatest == MaxExpiry(ts[..i])
    {
      var t := ts[i];
      TimeWindowStep(ts, i, now, cfg);
      if t.inicio.Some? {
        var horasHastaInicio := HoursUntil(t.inicio.value, now);
        if horasHastaInicio <= cfg.imminenceHoursThreshold {
          timeWeight := MaxReal(timeWeight, cfg.multiplicityStep);
        }
        if onsetSoonest.None? || t.inicio.value < onsetSoonest.value {
          onsetSoonest := t.inicio;
        }
      }
      if t.fin.Some? {
        var horasHastaFin := HoursUntil(t.fin.value, now);
        if horasHastaFin >= cfg.longDurationHoursThreshold {
          timeWeight := MaxReal(timeWeight, cfg.multiplicityStep);
        }
        if expiresLatest.None? || t.fin.value > expiresLatest.value {
          expiresLatest := t.fin;
        }
      }
    }
    assert ts[..|ts|] == ts;
  }

  /** One pass of the loop of `TimeWindow`: how each of the three values changes with warning `i`. */
  lemma TimeWindowStep(ts: seq<Fechas>, i: nat, now: int, cfg: RiskConfig)
    requires i < |ts|
    ensures var t, w := ts[i], TimeWeight(ts[..i], now, cfg);
            TimeWeight(ts[..i + 1], now, cfg) == if Imminent(t, now, cfg) || LongLasting(t, now, cfg) then MaxReal(w, cfg.multiplicityStep) else w
    ensures var t, m := ts[i], MinOnset(ts[..i]);
            MinOnset(ts[..i + 1]) == if t.inicio.Some? && (m.None? || t.inicio.value < m.value) then t.inicio else m
    ensures var t, m := ts[i], MaxExpiry(ts[..i]);
            MaxExpiry(ts[..i + 1]) == if t.fin.Some? && (m.None? || t.fin.value > m.value) then t.fin else m
  {
    var t := ts[i];
    assert ts[..i + 1][..i] == ts[..i];
    assert ts[..i + 1] == ts[..i] + [t];
    if Imminent(t, now, cfg) || LongLasting(t, now, cfg) {
      assert t in ts[..i + 1];
    }
  }

  /** Rounded tenths of an hour between two instants: `Math.round(hours * 10)`. */
  function Tenths(from: int, to: int): int {
    JsRound((to - from) as real / 360000.0)
  }

  function MaxNat(k: int): nat {
    if k < 0 then 0 else k
  }

  /**
   * `window`. The instants are tested for truthiness, so an instant of 0
   * (the epoch) reads as missing there, although the reasons use it.
   */
  function WindowOf(onset: Option<int>, expires: Option<int>, now: int): Window {
    var onsetTruthy := onset.Some? && onset.value != 0;
    var expiresTruthy := expires.Some? && expires.value != 0;
    Window(
      if onsetTruthy then onset else None,
      if expiresTruthy then expires else None,
      if onsetTruthy then Some(Tenths(now, onset.value)) else None,
      if onsetTruthy && expiresTruthy then Some(MaxNat(Tenths(onset.value, expires.value))) else None)
  }

  // ------------------------------------------------------------ reasons

  datatype Reason =
    | RedActive
    | OrangeActive
    | ManyYellow(count: nat)
    | Multiplicity
    | StartsIn(tenths: nat)
    | LongDuration(tenths: nat)

  /** Position of each kind of reason in the fixed order. */
  function Ordinal(r: Reason): nat {
    match r
    case RedActive => 0
    case OrangeActive => 1
    case ManyYellow(_) => 2
    case Multiplicity => 3
    case StartsIn(_) => 4
    case LongDuration(_) => 5
  }

  /** The text pushed for each reason; a duration of k tenths prints as JavaScript prints k / 10. */
  function ReasonText(r: Reason): string {
    match r
    case RedActive => "Aviso rojo activo"
    case OrangeActive => "Aviso naranja activo"
    case ManyYellow(n) => JsText.NatToString(n) + " avisos amarillos simultáneos"
    case Multiplicity => "Multiplicidad de fenómenos en la subzona"
    case StartsIn(k) => "Comienza en " + JsText.TenthsToString(k) + " h"
    case LongDuration(k) => "Duración ≥ " + JsText.TenthsToString(k) + " h"
  }

  function Texts(rs: seq<Reason>): (ts: seq<string>)
    ensures |ts| == |rs|
  {
    seq(|rs|, i requires 0 <= i < |rs| => ReasonText(rs[i]))
  }

  /** The hard-coded thresholds of the reasons, in tenths of an hour: 6 h and 12 h. */
  const StartsSoonTenths := 60
  const LongDurationTenths := 120

  /** `Math.round(((onsetSoonest - ahora) / 3600000) * 10)`, when there is a soonest start. */
  function Imminence(onset: Option<int>, now: int): Option<int> {
    if onset.Some? then Some(Tenths(now, onset.value)) else None
  }

  /** `Math.max(0, Math.round(((expiresLatest - onsetSoonest) / 3600000) * 10))`, when there are both. */
  function Duration(onset: Option<int>, expires: Option<int>): Option<nat> {
    if onset.Some? && expires.Some? then Some(MaxNat(Tenths(onset.value, expires.value))) else None
  }

  /** The reasons, in the order they are pushed, from the counts and the start and duration in tenths of an hour. */
  function Reasons(c: Counts, imminence: Option<int>, duration: Option<nat>): seq<Reason> {
    (if c.rojo > 0 then [RedActive] else [])
    + (if c.naranja > 0 then [OrangeActive] else [])
    + (if c.amarillo > 1 then [ManyYellow(c.amarillo)] else [])
    + (if c.naranja + c.rojo + c.amarillo > 1 && c.naranja + c.rojo > 0 then [Multiplicity] else [])
    + (if imminence.Some? && imminence.value <= StartsSoonTenths then [StartsIn(MaxNat(imminence.value))] else [])
    + (if duration.Some? && duration.value >= LongDurationTenths then [LongDuration(duration.value)] else [])
  }

  predicate StrictlyOrdered(rs: seq<Reason>) {
    forall i, j :: 0 <= i < j < |rs| ==> Ordinal(rs[i]) < Ordinal(rs[j])
  }

  /** The reasons come in the fixed order red, orange, yellows, multiplicity, start, duration, each at most once. */
  lemma ReasonsOrdered(c: Counts, imminence: Option<int>, duration: Option<nat>)
    ensures StrictlyOrdered(Reasons(c, imminence, duration))
  {
    var a := if c.rojo > 0 then [RedActive] else [];
    var b := if c.naranja > 0 then [OrangeActive] else [];
    var y := if c.amarillo > 1 then [ManyYellow(c.amarillo)] else [];
    var m := if c.naranja + c.rojo + c.amarillo > 1 && c.naranja + c.rojo > 0 then [Multiplicity] else [];
    var s := if imminence.Some? && imminence.value <= StartsSoonTenths then [StartsIn(MaxNat(imminence.value))] else [];
    var l := if duration.Some? && duration.value >= LongDurationTenths then [LongDuration(duration.value)] else [];
    assert Reasons(c, imminence, duration) == a + b + y + m + s + l;
    OrderedAppend(a, b, 0, 1);
    OrderedAppend(a + b, y, 1, 2);
    OrderedAppend(a + b + y, m, 2, 3);
    OrderedAppend(a + b + y + m, s, 3, 4);
    OrderedAppend(a + b + y + m + s, l, 4, 5);
  }

  lemma OrderedAppend(xs: seq<Reason>, ys: seq<Reason>, bound: nat, next: nat)
    requires StrictlyOrdered(xs) && forall r :: r in xs ==> Ordinal(r) <= bound
    requires |ys| <= 1 && bound < next && forall r :: r in ys ==> Ordinal(r) == next
    ensures StrictlyOrdered(xs + ys) && forall r :: r in xs + ys ==> Ordinal(r) <= next
  {
    forall i, j | 0 <= i < j < |xs + ys|
      ensures Ordinal((xs + ys)[i]) < Ordinal((xs + ys)[j])
    {
      if j >= |xs| {
        assert (xs + ys)[i] in xs;
        assert (xs + ys)[j] in ys;
      }
    }
  }

  /** The condition under which the evaluator lists reason `r`, read off each reason on its own. */
  predicate Fires(r: Reason, c: Counts, imminence: Option<int>, duration: Option<nat>) {
    match r
    case RedActive => c.rojo > 0
    case OrangeActive => c.naranja > 0
    case ManyYellow(n) => c.amarillo > 1 && n == c.amarillo
    case Multiplicity => c.naranja + c.rojo + c.amarillo > 1 && c.naranja + c.rojo > 0
    case StartsIn(k) => imminence.Some? && imminence.value <= StartsSoonTenths && k == MaxNat(imminence.value)
    case LongDuration(k) => duration.Some? && duration.value >= LongDurationTenths && k == duration.value
  }

  /** A reason is listed exactly when its own condition holds. */
  lemma ReasonsConditions(c: Counts, imminence: Option<int>, duration: Option<nat>, r: Reason)
    ensures r in Reasons(c, imminence, duration) <==> Fires(r, c, imminence, duration)
  {
    var k := if imminence.Some? then MaxNat(imminence.value) else 0;
    var d := if duration.Some? then duration.value else 0;
    assert Reasons(c, imminence, duration) ==
      Optional(c.rojo > 0, RedActive)
      + Optional(c.naranja > 0, OrangeActive)
      + Optional(c.amarillo > 1, ManyYellow(c.amarillo))
      + Optional(c.naranja + c.rojo + c.amarillo > 1 && c.naranja + c.rojo > 0, Multiplicity)
      + Optional(imminence.Some? && imminence.value <= StartsSoonTenths, StartsIn(k))
      + Optional(duration.Some? && duration.value >= LongDurationTenths, LongDuration(d));
    InSix(r,
      c.rojo > 0, RedActive,
      c.naranja > 0, OrangeActive,
      c.amarillo > 1, ManyYellow(c.amarillo),
      c.naranja + c.rojo + c.amarillo > 1 && c.naranja + c.rojo > 0, Multiplicity,
      imminence.Some? && imminence.value <= StartsSoonTenths, StartsIn(k),
      duration.Some? && duration.value >= LongDurationTenths, LongDuration(d));
  }

  function Optional(cond: bool, x: Reason): seq<Reason> {
    if cond then [x] else []
  }

  lemma InSix(r: Reason, c1: bool, x1: Reason, c2: bool, x2: Reason, c3: bool, x3: Reason,
              c4: bool, x4: Reason, c5: bool, x5: Reason, c6: bool, x6: Reason)
    ensures r in Optional(c1, x1) + Optional(c2, x2) + Optional(c3, x3) + Optional(c4, x4) + Optional(c5, x5) + Optional(c6, x6)
            <==> (c1 && r == x1) || (c2 && r == x2) || (c3 && r == x3) || (c4 && r == x4) || (c5 && r == x5) || (c6 && r == x6)
  {
    var p := Optional(c1, x1);
    InOptionalAppend([], c1, x1, r);
    assert [] + p == p;
    InOptionalAppend(p, c2, x2, r);
    p := p + Optional(c2, x2);
    InOptionalAppend(p, c3, x3, r);
    p := p + Optional(c3, x3);
    InOptionalAppend(p, c4, x4, r);
    p := p + Optional(c4, x4);
    InOptionalAppend(p, c5, x5, r);
    p := p + Optional(c5, x5);
    InOptionalAppend(p, c6, x6, r);
  }

  lemma InOptionalAppend(xs: seq<Reason>, c: bool, x: Reason, r: Reason)
    ensures r in xs + Optional(c, x) <==> r in xs || (c && r == x)
  {
  }

  lemma ReasonsTimes(onset: int, expires: int, now: int)
    ensures onset <= now ==> Imminence(Some(onset), now).value <= 0
    ensures expires - onset >= 12 * 3600000 ==> Duration(Some(onset), Some(expires)).value >= LongDurationTenths
    ensures expires - onset < 11 * 3600000 ==> Duration(Some(onset), Some(expires)).value < LongDurationTenths
  {
    if onset <= now {
      assert (onset - now) as real / 360000.0 <= 0.0;
    }
    if expires - onset >= 12 * 3600000 {
      assert (expires - onset) as real / 360000.0 >= 120.0;
    }
    if expires - onset < 11 * 3600000 {
      assert (expires - onset) as real / 360000.0 < 110.0;
    }
  }

  /** `const reasons = []; if (...) reasons.push(...); ...` */
  method Motivos(counts: Counts, imminence: Option<int>, duration: Option<nat>) returns (reasons: seq<Reason>)
    ensures reasons == Reasons(counts, imminence, duration)
  {
    ghost var r := if counts.rojo > 0 then [RedActive] else [];
    ghost var o := if counts.naranja > 0 then [OrangeActive] else [];
    ghost var y := if counts.amarillo > 1 then [ManyYellow(counts.amarillo)] else [];
    ghost var m := if counts.naranja + counts.rojo + counts.amarillo > 1 && counts.naranja + counts.rojo > 0 then [Multiplicity] else [];
    ghost var s := if imminence.Some? && imminence.value <= StartsSoonTenths then [StartsIn(MaxNat(imminence.value))] else [];
    ghost var l := if duration.Some? && duration.value >= LongDurationTenths then [LongDuration(duration.value)] else [];
    reasons := [];
    if counts.rojo > 0 {
      reasons := reasons + [RedActive];
    }
    assert reasons == r;
    if counts.naranja > 0 {
      reasons := reasons + [OrangeActive];
    }
    assert reasons == r + o;
    if counts.amarillo > 1 {
      reasons := reasons + [ManyYellow(counts.amarillo)];
    }
    assert reasons == r + o + y;
    if counts.naranja + counts.rojo + counts.amarillo > 1 && counts.naranja + counts.rojo > 0 {
      reasons := reasons + [Multiplicity];
    }
    assert reasons == r + o + y + m;
    if imminence.Some? && imminence.value <= StartsSoonTenths {
      reasons := reasons + [StartsIn(MaxNat(imminence.value))];
    }
    assert reasons == r + o + y + m + s;
    if duration.Some? && duration.value >= LongDurationTenths {
      reasons := reasons + [LongDuration(duration.value)];
    }
    assert reasons == r + o + y + m + s + l;
  }

  // ------------------------------------------------------------ one subzone

  /** The clamped score of a non-empty group. */
  function Score(g: seq<Aviso>, now: int, cfg: RiskConfig, parseDate: string -> Option<int>): real
    requires |g| >= 1
  {
    Clamp(Rank(g[Dominant(g)].nivel) as real + MultiplicityBonus(CountsOf(g), cfg) + TimeWeight(FechasValidas(g, parseDate), now, cfg))
  }

  /** The evaluation of one subzone, from its warnings in input order. */
  function Evaluate(subzona: string, g: seq<Aviso>, now: int, stamp: int, cfg: RiskConfig, parseDate: string -> Option<int>): Evaluacion
    requires |g| >= 1
  {
    var c := CountsOf(g);
    var max := g[Dominant(g)];
    var ts := FechasValidas(g, parseDate);
    var score := Score(g, now, cfg, parseDate);
    Evaluacion(subzona, max.areaDesc, TierOf(ToLevel(score)), RoundTo2(score), max.fenomeno, stamp, c,
               TimeWeight(ts, now, cfg), Texts(Reasons(c, Imminence(MinOnset(ts), now), Duration(MinOnset(ts), MaxExpiry(ts)))),
               WindowOf(MinOnset(ts), MaxExpiry(ts), now), None)
  }

  /** The score, and the reported `score_ia`, always lie in [1, 4]. */
  lemma ScoreInRange(subzona: string, g: seq<Aviso>, now: int, stamp: int, cfg: RiskConfig, parseDate: string -> Option<int>)
    requires |g| >= 1
    ensures 1.0 <= Score(g, now, cfg, parseDate) <= 4.0
    ensures 1.0 <= Evaluate(subzona, g, now, stamp, cfg, parseDate).scoreIa <= 4.0
  {
    RoundTo2Bounds(Score(g, now, cfg, parseDate));
  }

  /** With non-negative settings, a subzone with an orange or red warning is always ALTO. */
  lemma SevereIsAlto(subzona: string, g: seq<Aviso>, i: nat, now: int, stamp: int, cfg: RiskConfig, parseDate: string -> Option<int>)
    requires i < |g| && (g[i].nivel == Naranja || g[i].nivel == Rojo)
    requires NonNegative(cfg)
    ensures Evaluate(subzona, g, now, stamp, cfg, parseDate).nivelRiesgo == Alto
  {
    var c := CountsOf(g);
    MultiplicityBonusProperties(c, cfg, 0);
    assert Rank(g[Dominant(g)].nivel) >= 3;
    var score := Score(g, now, cfg, parseDate);
    assert score >= 3.0;
    assert JsRound(score) >= 3;
  }

  /** A subzone with only green warnings and no time trigger scores 1 and is BAJO. */
  lemma GreenOnlyIsBajo(subzona: string, g: seq<Aviso>, now: int, stamp: int, cfg: RiskConfig, parseDate: string -> Option<int>)
    requires |g| >= 1 && forall k :: 0 <= k < |g| ==> g[k].nivel == Verde
    requires !AnyTrigger(FechasValidas(g, parseDate), now, cfg)
    ensures Score(g, now, cfg, parseDate) == 1.0
    ensures Evaluate(subzona, g, now, stamp, cfg, parseDate).nivelRiesgo == Bajo
  {
    CountsTotal(g);
    CountPositive(g, Amarillo);
    CountPositive(g, Naranja);
    CountPositive(g, Rojo);
    assert RoundTo2(1.0) == 1.0;
  }

  /** The time weight is 0 or one step, never two; a warning whose start is already past counts as imminent. */
  lemma TimeWeightOneStep(g: seq<Aviso>, k: nat, now: int, cfg: RiskConfig, parseDate: string -> Option<int>)
    requires k < |g| && Instant(g[k].fInicio, parseDate).Some? && Instant(g[k].fInicio, parseDate).value <= now
    requires cfg.imminenceHoursThreshold >= 0.0
    ensures TimeWeight(FechasValidas(g, parseDate), now, cfg) == MaxReal(0.0, cfg.multiplicityStep)
  {
    var t := FechasOf(g, parseDate)[k];
    assert t in FechasOf(g, parseDate) && HasDate(t);
    assert t in FechasValidas(g, parseDate);
    assert HoursUntil(t.inicio.value, now) <= 0.0;
  }

  /** Without any valid instant there is no time weight and no window. */
  lemma NoDatesNoWindow(g: seq<Aviso>, now: int, cfg: RiskConfig, parseDate: string -> Option<int>)
    requires forall k :: 0 <= k < |g| ==> Instant(g[k].fInicio, parseDate).None? && Instant(g[k].fFin, parseDate).None?
    ensures FechasValidas(g, parseDate) == []
    ensures TimeWeight(FechasValidas(g, parseDate), now, cfg) == 0.0
    ensures WindowOf(MinOnset(FechasValidas(g, parseDate)), MaxExpiry(FechasValidas(g, parseDate)), now) == Window(None, None, None, None)
  {
    var p: Fechas -> bool := HasDate;
    forall t | t in FechasOf(g, parseDate) ensures !p(t) {
      var k :| 0 <= k < |g| && FechasOf(g, parseDate)[k] == t;
    }
    FilterNone(FechasOf(g, parseDate), p);
  }

  // ------------------------------------------------------------ grouping

  /** `a => a.subzona === k` */
  function InSubzona(k: string): Aviso -> bool {
    (a: Aviso) => a.subzona == k
  }

  function Subzonas(avisos: seq<Aviso>): (s: seq<string>)
    ensures |s| == |avisos|
  {
    seq(|avisos|, i requires 0 <= i < |avisos| => avisos[i].subzona)
  }

  /** A subzone has warnings exactly when some warning names it. */
  lemma {:induction false} GroupOf(avisos: seq<Aviso>, k: string)
    ensures k in Subzonas(avisos) <==> Filter(avisos, InSubzona(k)) != []
  {
    if avisos != [] {
      var init := avisos[..|avisos| - 1];
      GroupOf(init, k);
      assert Subzonas(avisos) == Subzonas(init) + [avisos[|avisos| - 1].subzona];
    }
  }

  /** The dictionary after the warnings `prefix`: a key per subzone in order of first appearance, each holding that subzone's warnings. */
  ghost predicate Grouped(groups: map<string, seq<Aviso>>, keys: seq<string>, prefix: seq<Aviso>) {
    && keys == Distinct(Subzonas(prefix))
    && SameKeys(groups, keys)
    && HoldsGroups(groups, prefix)
  }

  ghost predicate SameKeys(groups: map<string, seq<Aviso>>, keys: seq<string>) {
    forall k :: k in groups <==> k in keys
  }

  ghost predicate HoldsGroups(groups: map<string, seq<Aviso>>, prefix: seq<Aviso>) {
    forall k :: k in groups ==> groups[k] == Filter(prefix, InSubzona(k)) && |groups[k]| >= 1
  }

  /** The dictionary after pushing `a` onto its subzone's list, created first when missing. */
  function PushGroup(groups: map<string, seq<Aviso>>, a: Aviso): map<string, seq<Aviso>>
  {
    groups[a.subzona := (if a.subzona in groups then groups[a.subzona] else []) + [a]]
  }

  /** The key order after pushing `a`: its subzone is appended when it was not yet a key. */
  function PushKey(groups: map<string, seq<Aviso>>, keys: seq<string>, a: Aviso): seq<string>
  {
    if a.subzona in groups then keys else keys + [a.subzona]
  }

  /** Pushing one more warning onto its subzone's list keeps every list equal to its subzone's warnings. */
  lemma ListsStep(groups: map<string, seq<Aviso>>, prefix: seq<Aviso>, a: Aviso, next: seq<Aviso>)
    requires next == prefix + [a]
    requires HoldsGroups(groups, prefix)
    requires a.subzona !in groups ==> a.subzona !in Subzonas(prefix)
    ensures HoldsGroups(PushGroup(groups, a), next)
  {
    var groups' := PushGroup(groups, a);
    forall k | k in groups'
      ensures groups'[k] == Filter(next, InSubzona(k))
    {
      FilterSnoc(prefix, a, InSubzona(k));
      if k == a.subzona && a.subzona !in groups {
        GroupOf(prefix, k);
      }
    }
  }

  /** A key is added exactly at its subzone's first warning. */
  lemma KeysStep(groups: map<string, seq<Aviso>>, keys: seq<string>, prefix: seq<Aviso>, a: Aviso, next: seq<Aviso>)
    requires next == prefix + [a]
    requires keys == Distinct(Subzonas(prefix)) && SameKeys(groups, keys)
    ensures a.subzona !in groups ==> a.subzona !in Subzonas(prefix)
    ensures PushKey(groups, keys, a) == Distinct(Subzonas(next))
    ensures SameKeys(PushGroup(groups, a), PushKey(groups, keys, a))
  {
    assert Subzonas(next) == Subzonas(prefix) + [a.subzona];
    DistinctSnoc(Subzonas(prefix), a.subzona);
  }

  /** One iteration of the grouping loop keeps the dictionary grouped. */
  lemma GroupStep(groups: map<string, seq<Aviso>>, keys: seq<string>, avisos: seq<Aviso>, i: nat)
    requires i < |avisos| && Grouped(groups, keys, avisos[..i])
    ensures Grouped(PushGroup(groups, avisos[i]), PushKey(groups, keys, avisos[i]), avisos[..i + 1])
  {
    var a, prefix, next := avisos[i], avisos[..i], avisos[..i + 1];
    assert next == prefix + [a];
    KeysStep(groups, keys, prefix, a, next);
    ListsStep(groups, prefix, a, next);
  }

  /**
   * Some warning names a subzone that the grouping object inherits:
   * `out[a.subzona]` is then the inherited value, which is truthy and has no
   * `push`, so `agruparPorSubzona` throws a TypeError.
   */
  predicate ThrowsOnGrouping(avisos: seq<Aviso>) {
    exists i :: 0 <= i < |avisos| && avisos[i].subzona in PropertyOrder.ObjectPrototypeNames
  }

  /** Whether the loop has thrown after one more warning; and a throw in a prefix is a throw in the whole. */
  lemma ThrowsOnGroupingStep(avisos: seq<Aviso>, i: nat)
    requires i < |avisos|
    ensures ThrowsOnGrouping(avisos[..i + 1]) <==> ThrowsOnGrouping(avisos[..i]) || avisos[i].subzona in PropertyOrder.ObjectPrototypeNames
    ensures ThrowsOnGrouping(avisos[..i + 1]) ==> ThrowsOnGrouping(avisos)
  {
    var prefix, next := avisos[..i], avisos[..i + 1];
    if ThrowsOnGrouping(next) {
      var j :| 0 <= j < |next| && next[j].subzona in PropertyOrder.ObjectPrototypeNames;
      assert avisos[j] == next[j];
      if j < i {
        assert prefix[j] == next[j];
      }
    }
    if ThrowsOnGrouping(prefix) {
      var j :| 0 <= j < |prefix| && prefix[j].subzona in PropertyOrder.ObjectPrototypeNames;
      assert next[j] == prefix[j];
    }
    if avisos[i].subzona in PropertyOrder.ObjectPrototypeNames {
      assert next[i] == avisos[i];
    }
  }

  /**
   * `agruparPorSubzona`: the object built by pushing each warning onto the
   * list of its subzone, as a map plus the order in which its keys were
   * added; `ok` is false when the loop throws on an inherited name.
   */
  method AgruparPorSubzona(avisos: seq<Aviso>) returns (groups: map<string, seq<Aviso>>, keys: seq<string>, ok: bool)
    ensures ok <==> !ThrowsOnGrouping(avisos)
    ensures ok ==> keys == Distinct(Subzonas(avisos))
    ensures ok ==> forall k :: k in groups <==> k in keys
    ensures ok ==> forall k :: k in groups ==> groups[k] == Filter(avisos, InSubzona(k)) && |groups[k]| >= 1
  {
    groups := map[];
    keys := [];
    for i := 0 to |avisos|
      invariant Grouped(groups, keys, avisos[..i])
      invariant !ThrowsOnGrouping(avisos[..i])
    {
      var a := avisos[i];
      ThrowsOnGroupingStep(avisos, i);
      if a.subzona in PropertyOrder.ObjectPrototypeNames {
        return groups, keys, false;
      }
      GroupStep(groups, keys, avisos, i);
      ghost var groups', keys' := PushGroup(groups, a), PushKey(groups, keys, a);
      var list := if a.subzona in groups then groups[a.subzona] else [];
      if a.subzona !in groups {
        keys := keys + [a.subzona];
      }
      groups := groups[a.subzona := list + [a]];
      assert groups == groups' && keys == keys';
    }
    assert avisos[..|avisos|] == avisos;
    ok := true;
  }

  // ------------------------------------------------------------ all subzones

  /** `for (const subzona in agrupados)`: the keys as the object yields them. */
  function VisitOrder(avisos: seq<Aviso>): seq<string> {
    PropertyOrder.OwnKeys(Distinct(Subzonas(avisos)))
  }

  lemma VisitOrderCoversSubzones(avisos: seq<Aviso>)
    ensures NoDuplicates(VisitOrder(avisos))
    ensures forall k :: k in VisitOrder(avisos) <==> k in Subzonas(avisos)
  {
    PropertyOrder.OwnKeysNoDuplicates(Distinct(Subzonas(avisos)));
  }

  /**
   * The evaluation of the subzone visited at a given position, from its list
   * of warnings; defined for a non-empty list.
   */
  type Evaluator = (nat, string, seq<Aviso>) --> Evaluacion

  ghost predicate EvaluatesGroups(ev: Evaluator) {
    forall i, k, g :: |g| >= 1 ==> ev.requires(i, k, g)
  }

  /** The evaluation `calcularEvaluacion` applies to the subzone it visits i-th, stamped `clock(i)`. */
  function EvaluateWith(now: int, clock: nat -> int, cfg: RiskConfig, parseDate: string -> Option<int>): (ev: Evaluator)
    ensures EvaluatesGroups(ev)
  {
    (i: nat, k: string, g: seq<Aviso>) requires |g| >= 1 => Evaluate(k, g, now, clock(i), cfg, parseDate)
  }

  /** The evaluations of the first `n` subzones of `keys`, in that order. */
  function EvaluateFirst(keys: seq<string>, n: nat, avisos: seq<Aviso>, ev: Evaluator): (es: seq<Evaluacion>)
    requires n <= |keys| && forall k :: k in keys ==> k in Subzonas(avisos)
    requires EvaluatesGroups(ev)
    ensures |es| == n
  {
    if n == 0 then []
    else
      var k := keys[n - 1];
      GroupOf(avisos, k);
      EvaluateFirst(keys, n - 1, avisos, ev) + [ev(n - 1, k, Filter(avisos, InSubzona(k)))]
  }

  /** One evaluation per subzone, in the object's key order. */
  function EvaluateAll(avisos: seq<Aviso>, ev: Evaluator): seq<Evaluacion>
    requires EvaluatesGroups(ev)
  {
    VisitOrderCoversSubzones(avisos);
    EvaluateFirst(VisitOrder(avisos), |VisitOrder(avisos)|, avisos, ev)
  }

  /** `calcularEvaluacion`'s result. */
  function Evaluations(avisos: seq<Aviso>, now: int, clock: nat -> int, cfg: RiskConfig, parseDate: string -> Option<int>): seq<Evaluacion> {
    EvaluateAll(avisos, EvaluateWith(now, clock, cfg, parseDate))
  }

  lemma {:induction false} EvaluateFirstAt(keys: seq<string>, n: nat, avisos: seq<Aviso>, ev: Evaluator, i: nat)
    requires n <= |keys| && forall k :: k in keys ==> k in Subzonas(avisos)
    requires EvaluatesGroups(ev)
    requires i < n
    ensures |Filter(avisos, InSubzona(keys[i]))| >= 1
    ensures EvaluateFirst(keys, n, avisos, ev)[i] == ev(i, keys[i], Filter(avisos, InSubzona(keys[i])))
  {
    assert keys[i] in keys;
    GroupOf(avisos, keys[i]);
    if i < n - 1 {
      EvaluateFirstAt(keys, n - 1, avisos, ev, i);
    }
  }

  /**
   * Exactly one evaluation per distinct subzone, in the object's key order,
   * each computed from exactly that subzone's warnings and its position in
   * the visit (`Evaluations` passes `Evaluate` with the i-th clock reading
   * as `ev`).
   */
  lemma EvaluationsPerSubzone(avisos: seq<Aviso>, ev: Evaluator)
    requires EvaluatesGroups(ev)
    ensures NoDuplicates(VisitOrder(avisos))
    ensures forall k :: k in VisitOrder(avisos) <==> k in Subzonas(avisos)
    ensures var es, order := EvaluateAll(avisos, ev), VisitOrder(avisos);
            && |es| == |order|
            && forall i :: 0 <= i < |es| ==>
                 |Filter(avisos, InSubzona(order[i]))| >= 1 &&
                 es[i] == ev(i, order[i], Filter(avisos, InSubzona(order[i])))
  {
    VisitOrderCoversSubzones(avisos);
    var order := VisitOrder(avisos);
    forall i | 0 <= i < |order|
      ensures |Filter(avisos, InSubzona(order[i]))| >= 1
      ensures EvaluateAll(avisos, ev)[i] == ev(i, order[i], Filter(avisos, InSubzona(order[i])))
    {
      EvaluateFirstAt(order, |order|, avisos, ev, i);
    }
  }

  /**
   * Each subzone's result is `Evaluate` on its own warnings, stamped with the
   * clock reading taken when the loop reached it: the i-th result carries
   * the i-th subzone of the visit and the i-th reading.
   */
  lemma EvaluationsStamped(avisos: seq<Aviso>, now: int, clock: nat -> int, cfg: RiskConfig, parseDate: string -> Option<int>)
    ensures var es, order := Evaluations(avisos, now, clock, cfg, parseDate), VisitOrder(avisos);
            && |es| == |order|
            && forall i :: 0 <= i < |es| ==>
                 |Filter(avisos, InSubzona(order[i]))| >= 1 &&
                 es[i] == Evaluate(order[i], Filter(avisos, InSubzona(order[i])), now, clock(i), cfg, parseDate) &&
                 es[i].subzona == order[i] && es[i].generatedAt == clock(i)
  {
    var ev := EvaluateWith(now, clock, cfg, parseDate);
    EvaluationsPerSubzone(avisos, ev);
  }

  /** The body of the `for...in` loop of `calcularEvaluacion`: one subzone's evaluation from its non-empty group. */
  method EvaluarSubzona(subzona: string, grupo: seq<Aviso>, now: int, stamp: int, cfg: RiskConfig, parseDate: string -> Option<int>)
    returns (e: Evaluacion)
    requires |grupo| >= 1
    ensures e == Evaluate(subzona, grupo, now, stamp, cfg, parseDate)
  {
    var counts := CountLevels(grupo);
    var max := grupo[Dominant(grupo)];
    var score := Rank(max.nivel) as real;

    var multiplicadores := counts.rojo + counts.naranja + counts.amarillo - 1;
    if multiplicadores > 0 {
      score := score + MinReal(cfg.multiplicityMaxBonus, multiplicadores as real * cfg.multiplicityStep);
    }

    assert score == Rank(max.nivel) as real + MultiplicityBonus(counts, cfg);
    var fechasValidas := FechasValidas(grupo, parseDate);
    var timeWeight, onsetSoonest, expiresLatest := TimeWindow(fechasValidas, now, cfg);
    score := score + timeWeight;
    score := MaxReal(1.0, MinReal(4.0, score));
    assert score == Score(grupo, now, cfg, parseDate);
    var nivelRedondeado := ToLevel(score);

    var reasons := Motivos(counts, Imminence(onsetSoonest, now), Duration(onsetSoonest, expiresLatest));
    e := Evaluacion(subzona, max.areaDesc, TierOf(nivelRedondeado), RoundTo2(score), max.fenomeno, stamp,
                    counts, timeWeight, Texts(reasons), WindowOf(onsetSoonest, expiresLatest, now), None);
  }

  /**
   * `calcularEvaluacion`, with the configuration already loaded; the j-th
   * subzone visited is stamped with the j-th clock reading. None when the
   * grouping throws on an inherited name.
   */
  method CalcularEvaluacion(avisos: seq<Aviso>, now: int, clock: nat -> int, cfg: RiskConfig, parseDate: string -> Option<int>)
    returns (resultados: Option<seq<Evaluacion>>)
    ensures resultados.None? <==> ThrowsOnGrouping(avisos)
    ensures resultados.Some? ==> resultados.value == Evaluations(avisos, now, clock, cfg, parseDate)
  {
    var agrupados, insertion, ok := AgruparPorSubzona(avisos);
    if !ok {
      return None;
    }
    var order := PropertyOrder.OwnKeys(insertion);
    VisitOrderCoversSubzones(avisos);
    ghost var ev := EvaluateWith(now, clock, cfg, parseDate);
    var rs: seq<Evaluacion> := [];
    for j := 0 to |order|
      invariant rs == EvaluateFirst(order, j, avisos, ev)
    {
      var subzona := order[j];
      GroupOf(avisos, subzona);
      var e := EvaluarSubzona(subzona, agrupados[subzona], now, clock(j), cfg, parseDate);
      rs := rs + [e];
    }
    resultados := Some(rs);
  }
}

/**
 * `main` of agents/risk_evaluator.ts: the run around `calcularEvaluacion`,
 * with the trend set against the previous output.
 */
module RiskEvaluatorMain {
  import opened Wrappers
  import opened RiskEvaluator

  /**
   * The `score_ia` of a previous entry: a number, `null` (which is how a NaN
   * score is written), or no field at all.
   */
  datatype PrevScore = Number(value: real) | Null | Absent

  /** An entry of the previous output: its subzone and its `score_ia`. */
  datatype PrevEntry = PrevEntry(subzona: string, scoreIa: PrevScore)

  /**
   * The number `>` and `<` compare a previous score as: `null` converts to 0,
   * and a missing field to NaN (`None`), which compares false both ways.
   */
  function Compared(s: PrevScore): (r: Option<real>)
    ensures s.Number? ==> r == Some(s.value)
    ensures s.Null? ==> r == Some(0.0)
    ensures r.None? <==> s.Absent?
  {
    match s
    case Number(v) => Some(v)
    case Null => Some(0.0)
    case Absent => None
  }

  /** `new Map(previa.map(p => [p.subzona, p]))`: a later entry for the same subzone replaces an earlier one. */
  function PrevMap(previa: seq<PrevEntry>): (m: map<string, PrevEntry>)
    ensures forall k :: k in m <==> exists i :: 0 <= i < |previa| && previa[i].subzona == k
  {
    if previa == [] then map[]
    else
      var init := previa[..|previa| - 1];
      var p := previa[|previa| - 1];
      var m := PrevMap(init);
      assert forall i :: 0 <= i < |init| ==> init[i] == previa[i];
      m[p.subzona := p]
  }

  /** The entry kept for a subzone is the last one naming it. */
  lemma {:induction false} PrevMapKeepsLast(previa: seq<PrevEntry>, i: nat)
    requires i < |previa|
    requires forall j :: i < j < |previa| ==> previa[j].subzona != previa[i].subzona
    ensures PrevMap(previa)[previa[i].subzona] == previa[i]
  {
    if i < |previa| - 1 {
      PrevMapKeepsLast(previa[..|previa| - 1], i);
    }
  }

  /**
   * NEW without a previous entry, otherwise UP / DOWN by strict comparison
   * with the previous score (a `null` one as 0), and SAME when neither holds,
   * which is always the case against a missing score.
   */
  function TrendOf(score: real, p: Option<PrevEntry>): (t: Trend)
    ensures t == New <==> p.None?
    ensures p.Some? && p.value.scoreIa.Number? ==>
              (t == Up <==> score > p.value.scoreIa.value) && (t == Down <==> score < p.value.scoreIa.value)
    ensures p.Some? && p.value.scoreIa.Null? ==> (t == Up <==> score > 0.0) && (t == Down <==> score < 0.0)
    ensures p.Some? && p.value.scoreIa.Absent? ==> t == Same
  {
    if p.None? then New
    else
      var prev := Compared(p.value.scoreIa);
      if prev.Some? && score > prev.value then Up
      else if prev.Some? && score < prev.value then Down
      else Same
  }

  function Lookup(m: map<string, PrevEntry>, k: string): Option<PrevEntry> {
    if k in m then Some(m[k]) else None
  }

  function WithTrend(e: Evaluacion, m: map<string, PrevEntry>): Evaluacion {
    e.(trend := Some(TrendOf(e.scoreIa, Lookup(m, e.subzona))))
  }

  /** The evaluations with their trends set against the previous output. */
  function WithTrends(es: seq<Evaluacion>, previa: seq<PrevEntry>): (r: seq<Evaluacion>)
    ensures |r| == |es|
  {
    var m := PrevMap(previa);
    seq(|es|, i requires 0 <= i < |es| => WithTrend(es[i], m))
  }

  /** A trend is NEW exactly for a subzone that the previous output does not hold. */
  lemma TrendNewIffAbsent(es: seq<Evaluacion>, previa: seq<PrevEntry>, i: nat)
    requires i < |es|
    ensures WithTrends(es, previa)[i].trend == Some(New) <==>
            forall j :: 0 <= j < |previa| ==> previa[j].subzona != es[i].subzona
    ensures WithTrends(es, previa)[i] == es[i].(trend := WithTrends(es, previa)[i].trend)
  {
  }

  /** The trend loop of `main`: each evaluation's `trend` is set in place. */
  method AnnotateTrends(evaluacion: array<Evaluacion>, previa: seq<PrevEntry>)
    modifies evaluacion
    ensures evaluacion[..] == WithTrends(old(evaluacion[..]), previa)
  {
    var mapaPrev := PrevMap(previa);
    for i := 0 to evaluacion.Length
      invariant forall j :: 0 <= j < i ==> evaluacion[j] == WithTrend(old(evaluacion[j]), mapaPrev)
      invariant forall j :: i <= j < evaluacion.Length ==> evaluacion[j] == old(evaluacion[j])
    {
      var e := evaluacion[i];
      if e.subzona !in mapaPrev {
        evaluacion[i] := e.(trend := Some(New));
        continue;
      }
      var p := mapaPrev[e.subzona];
      var prev := Compared(p.scoreIa);
      if prev.Some? && e.scoreIa > prev.value {
        evaluacion[i] := e.(trend := Some(Up));
      } else if prev.Some? && e.scoreIa < prev.value {
        evaluacion[i] := e.(trend := Some(Down));
      } else {
        evaluacion[i] := e.(trend := Some(Same));
      }
    }
  }

  // ------------------------------------------------------------ main

  /**
   * The warnings file: absent, not JSON, JSON that cannot be iterated (null,
   * a number, a boolean, an object), a JSON string, or the warnings.
   */
  datatype InputFile = NoInputFile | MalformedInput | InputNotIterable | InputText(text: string) | Warnings(avisos: seq<Aviso>)

  /** The previous output: absent, unreadable or not JSON, JSON that is not a list, or its entries. */
  datatype PreviousFile = NoPreviousFile | UnreadablePrevious | PreviousNotAList | Previous(entries: seq<PrevEntry>)

  /**
   * What a run leaves behind: nothing (an error was logged), an uncaught
   * TypeError, the written evaluation, or the one entry a non-empty JSON
   * string produces. Its characters have no `subzona`, so they form one group
   * under the key "undefined"; its level is undefined, so the score is NaN:
   * `toLevel(NaN)` gives 3 (ALTO), `score_ia` is written as null, the counts
   * and time weight are 0, there are no reasons and the window is empty. What
   * varies is the stamp and the trend.
   */
  datatype RunOutcome =
    | NothingWritten
    | Crashed
    | Written(evaluacion: seq<Evaluacion>)
    | WrittenUndefinedSubzone(generatedAt: int, trend: Trend)

  /** The key `out[a.subzona]` uses when `a.subzona` is undefined. */
  const UndefinedKey := "undefined"

  /** An unreadable previous output counts as empty. */
  function PreviousEntries(f: PreviousFile): seq<PrevEntry> {
    if f.Previous? then f.entries else []
  }

  /**
   * `main`: read the warnings and the previous output, evaluate, set the
   * trends and write. A warnings value that cannot be iterated fails on
   * `for...of`, a grouping on an inherited name fails on `push`, and a
   * non-list previous value fails on `previa.map`; none is caught. A JSON
   * string is iterated by character: the empty one evaluates nothing, any
   * other gives the single NaN entry of `WrittenUndefinedSubzone`, whose
   * trend is NEW without a previous "undefined" entry and SAME with one
   * (NaN compares false both ways).
   */
  method RunEvaluator(input: InputFile, previous: PreviousFile, config: ConfigFile, now: int, clock: nat -> int, parseDate: string -> Option<int>)
    returns (outcome: RunOutcome)
    ensures input.NoInputFile? || input.MalformedInput? ==> outcome == NothingWritten
    ensures input.InputNotIterable? ==> outcome == Crashed
    ensures input.Warnings? && ThrowsOnGrouping(input.avisos) ==> outcome == Crashed
    ensures (input.Warnings? || input.InputText?) && previous.PreviousNotAList? ==> outcome == Crashed
    ensures input.Warnings? && !ThrowsOnGrouping(input.avisos) && !previous.PreviousNotAList? ==>
              outcome == Written(WithTrends(Evaluations(input.avisos, now, clock, LoadConfig(config), parseDate), PreviousEntries(previous)))
    ensures input.InputText? && input.text == "" && !previous.PreviousNotAList? ==> outcome == Written([])
    ensures input.InputText? && input.text != "" && !previous.PreviousNotAList? ==>
              outcome == WrittenUndefinedSubzone(clock(0), if UndefinedKey in PrevMap(PreviousEntries(previous)) then Same else New)
  {
    if input.NoInputFile? || input.MalformedInput? {
      return NothingWritten;
    }
    var previa: seq<PrevEntry> := PreviousEntries(previous);
    if input.InputNotIterable? {
      return Crashed;
    }
    if input.InputText? {
      if previous.PreviousNotAList? {
        return Crashed;
      }
      if input.text == "" {
        return Written([]);
      }
      var mapaPrev := PrevMap(previa);
      return WrittenUndefinedSubzone(clock(0), if UndefinedKey in mapaPrev then Same else New);
    }
    var resultados := CalcularEvaluacion(input.avisos, now, clock, LoadConfig(config), parseDate);
    if resultados.None? || previous.PreviousNotAList? {
      return Crashed;
    }
    var evaluacion := new Evaluacion[|resultados.value|];
    forall i | 0 <= i < |resultados.value| {
      evaluacion[i] := resultados.value[i];
    }
    assert evaluacion[..] == resultados.value;
    AnnotateTrends(evaluacion, previa);
    outcome := Written(evaluacion[..]);
  }

  /**
   * The previous entries the next run reads back from what this run wrote:
   * each evaluation's subzone and score, or, for the NaN entry, "undefined"
   * with `null`. `None` when nothing was written and the old file stays.
   */
  function Reread(outcome: RunOutcome): (previa: Option<seq<PrevEntry>>)
    ensures previa.None? <==> outcome.NothingWritten? || outcome.Crashed?
    ensures outcome.Written? ==>
              && |previa.value| == |outcome.evaluacion|
              && forall i :: 0 <= i < |previa.value| ==>
                   previa.value[i] == PrevEntry(outcome.evaluacion[i].subzona, Number(outcome.evaluacion[i].scoreIa))
    ensures outcome.WrittenUndefinedSubzone? ==> previa == Some([PrevEntry(UndefinedKey, Null)])
  {
    match outcome
    case Written(es) => Some(seq(|es|, i requires 0 <= i < |es| => PrevEntry(es[i].subzona, Number(es[i].scoreIa))))
    case WrittenUndefinedSubzone(_, _) => Some([PrevEntry(UndefinedKey, Null)])
    case _ => None
  }

  /** Evaluating the same subzones and scores again against what was written gives SAME for every one. */
  lemma RerunIsSame(es: seq<Evaluacion>, i: nat)
    requires i < |es|
    requires forall j, k :: 0 <= j < k < |es| ==> es[j].subzona != es[k].subzona
    ensures WithTrends(es, Reread(Written(es)).value)[i].trend == Some(Same)
  {
    var previa := Reread(Written(es)).value;
    PrevMapKeepsLast(previa, i);
  }

  /**
   * After a run on a non-empty JSON string, whose entry is written with
   * `score_ia: null`, a scored subzone "undefined" rises: `null` compares as 0.
   */
  lemma RisesAfterNullScore(generatedAt: int, t: Trend, e: Evaluacion)
    requires e.subzona == UndefinedKey && e.scoreIa >= 1.0
    ensures WithTrends([e], Reread(WrittenUndefinedSubzone(generatedAt, t)).value)[0].trend == Some(Up)
  {
    var previa := Reread(WrittenUndefinedSubzone(generatedAt, t)).value;
    PrevMapKeepsLast(previa, 0);
  }
}
