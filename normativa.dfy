/**
 * What agents/legal/legal_analyzer.ts and scripts/analizar-normativa-simple.ts
 * share: the regulation record, the criteria extracted from it, the match of
 * `/(\d+)\s*(metros?|m)/i` that turns a safety-distance text into a number,
 * and the minimum distance of the recommended configuration.
 */
module Normativa {
  import opened Wrappers
  import opened JsText
  import opened Seqs

  datatype ContenidoRelevante = ContenidoRelevante(
    distanciaSeguridad: seq<string>,
    protocolosEvacuacion: seq<string>,
    responsabilidades: seq<string>,
    criteriosActivacion: seq<string>)

  datatype NormativaValenciana = NormativaValenciana(
    id: string, titulo: string, tipo: string, fecha: string, organo: string,
    url: Option<string>, contenido: ContenidoRelevante, estado: string)

  /** `valor: string | number` */
  datatype Valor = Number(n: nat) | Text(s: string)

  datatype CriterioOperativo = CriterioOperativo(
    tipo: string, descripcion: string, fuenteNormativa: string, valor: Valor,
    unidad: Option<string>, aplicableDesde: string)

  const DistanciaSeguridad := "distancia_seguridad"
  const CriterioActivacion := "criterio_activacion"
  const Metros := "metros"

  // ------------------------------------------------------------ the "N metros" match

  /** The end of the run of ASCII digits (`\d`) starting at `p`. */
  function DigitsEnd(s: string, p: nat): (q: nat)
    requires p <= |s|
    ensures p <= q <= |s| && AllDigits(s[p..q]) && (q < |s| ==> !IsDigit(s[q]))
    decreases |s| - p
  {
    if p < |s| && IsDigit(s[p]) then
      var q := DigitsEnd(s, p + 1);
      assert s[p..q] == [s[p]] + s[p + 1..q];
      q
    else p
  }

  /**
   * The match attempted at position `p`: digits, optional spaces, then an `m`
   * in either case (`metros?` and `m` both start with it, so `m` decides).
   * Backtracking cannot help: fewer digits or spaces leave a digit or a space
   * where the `m` must be.
   */
  function MatchAt(s: string, p: nat): Option<nat>
    requires p <= |s|
  {
    var q := DigitsEnd(s, p);
    var r := SpacesEnd(s, q);
    if q > p && r < |s| && (s[r] == 'm' || s[r] == 'M') then Some(DigitsValue(s[p..q])) else None
  }

  /**
   * `MatchAt` is the regular expression anchored at `p`, with backtracking: it
   * matches exactly when some non-empty run of digits, then some run of spaces,
   * then an `m` or `M` start at `p`, and then the captured digits are the whole
   * run of digits at `p`.
   */
  lemma MatchAtIsPattern(s: string, p: nat)
    requires p <= |s|
    ensures MatchAt(s, p).Some? <==>
              exists q, r :: p < q <= r < |s| && AllDigits(s[p..q]) && (forall k :: q <= k < r ==> IsSpace(s[k]))
                          && (s[r] == 'm' || s[r] == 'M')
    ensures MatchAt(s, p).Some? ==> MatchAt(s, p).value == DigitsValue(s[p..DigitsEnd(s, p)])
  {
    forall q, r | p < q <= r < |s| && AllDigits(s[p..q]) && (forall k :: q <= k < r ==> IsSpace(s[k])) && (s[r] == 'm' || s[r] == 'M')
      ensures q == DigitsEnd(s, p) && r == SpacesEnd(s, q)
    {
      assert !IsDigit(s[q]) by {
        if q < r { assert IsSpace(s[q]); }
      }
      DigitsEndAt(s, p, q);
      SpacesEndAt(s, q, r);
    }
  }

  /** A run of digits from `p` that stops at a non-digit is the one `DigitsEnd` finds. */
  lemma {:induction false} DigitsEndAt(s: string, p: nat, q: nat)
    requires p <= q <= |s| && AllDigits(s[p..q]) && (q < |s| ==> !IsDigit(s[q]))
    ensures DigitsEnd(s, p) == q
    decreases q - p
  {
    if p < q {
      assert IsDigit(s[p..q][0]);
      assert s[p + 1..q] == s[p..q][1..];
      DigitsEndAt(s, p + 1, q);
    }
  }

  /** The positions of `s` where the pattern matches. */
  function MatchesAt(s: string): nat -> bool {
    (j: nat) => j <= |s| && MatchAt(s, j).Some?
  }

  /** Where the leftmost match at or after `p` starts: `|s|` when there is none. */
  function FirstMatchFrom(s: string, p: nat): (i: nat)
    requires p <= |s|
    ensures p <= i <= |s|
  {
    FirstFrom(|s|, p, MatchesAt(s))
  }

  /** The search stops at a match, and at the first one. */
  lemma FirstMatchFromLeftmost(s: string, p: nat)
    requires p <= |s|
    ensures FirstMatchFrom(s, p) < |s| ==> MatchAt(s, FirstMatchFrom(s, p)).Some?
    ensures forall j :: p <= j < FirstMatchFrom(s, p) ==> MatchAt(s, j).None?
  {
    FirstFromLeftmost(|s|, p, MatchesAt(s));
    forall j | p <= j < FirstMatchFrom(s, p) ensures MatchAt(s, j).None? {
      assert !MatchesAt(s)(j);
    }
  }

  /**
   * `parseInt(texto.match(/(\d+)\s*(metros?|m)/i)[1])`, or `None` when there is
   * no match: the number of the leftmost match.
   */
  function MetrosValue(texto: string): Option<nat> {
    var i := FirstMatchFrom(texto, 0);
    if i < |texto| then MatchAt(texto, i) else None
  }

  /** There is no value exactly when no position matches; otherwise it is the value of the leftmost match. */
  lemma MetrosValueLeftmost(texto: string)
    ensures MetrosValue(texto).None? <==> forall i :: 0 <= i <= |texto| ==> MatchAt(texto, i).None?
    ensures MetrosValue(texto).Some? ==>
              exists i :: 0 <= i < |texto| && MatchAt(texto, i) == MetrosValue(texto) && forall j :: 0 <= j < i ==> MatchAt(texto, j).None?
  {
    FirstMatchFromLeftmost(texto, 0);
    var i := FirstMatchFrom(texto, 0);
    if i == |texto| {
      assert MatchAt(texto, |texto|).None?;
    }
  }

  // ------------------------------------------------------------ extraction

  /** The criterion a distance text yields, if it matches: its number in metres. */
  function DistanceOf(titulo: string, fecha: string): string -> Option<CriterioOperativo> {
    (t: string) =>
      var m := MetrosValue(t);
      if m.Some? then Some(CriterioOperativo(DistanciaSeguridad, t, titulo, Number(m.value), Some(Metros), fecha)) else None
  }

  /** The distance criteria of one regulation: one per text that matches, in order. */
  function DistanceCriteria(titulo: string, fecha: string, textos: seq<string>): (cs: seq<CriterioOperativo>)
    ensures |cs| <= |textos|
  {
    if textos == [] then []
    else
      var texto := textos[|textos| - 1];
      var m := MetrosValue(texto);
      DistanceCriteria(titulo, fecha, textos[..|textos| - 1])
      + (if m.Some? then [CriterioOperativo(DistanciaSeguridad, texto, titulo, Number(m.value), Some(Metros), fecha)] else [])
  }

  /** The distance criteria are the answers of `DistanceOf` that are not `None`. */
  lemma {:induction false} DistanceCriteriaFilterMap(titulo: string, fecha: string, textos: seq<string>)
    ensures DistanceCriteria(titulo, fecha, textos) == FilterMap(textos, DistanceOf(titulo, fecha))
  {
    if textos != [] {
      DistanceCriteriaFilterMap(titulo, fecha, textos[..|textos| - 1]);
    }
  }

  /** The activation criteria of one regulation: one per text, carrying the text as its value. */
  function ActivationCriteria(titulo: string, fecha: string, textos: seq<string>): (cs: seq<CriterioOperativo>)
    ensures |cs| == |textos|
  {
    if textos == [] then []
    else
      var texto := textos[|textos| - 1];
      ActivationCriteria(titulo, fecha, textos[..|textos| - 1])
      + [CriterioOperativo(CriterioActivacion, texto, titulo, Text(texto), None, fecha)]
  }

  /** The criteria of one regulation: its distance criteria, then its activation criteria. */
  function CriteriaOf(n: NormativaValenciana): seq<CriterioOperativo> {
    DistanceCriteria(n.titulo, n.fecha, n.contenido.distanciaSeguridad)
    + ActivationCriteria(n.titulo, n.fecha, n.contenido.criteriosActivacion)
  }

  /** `extraerCriteriosOperativos`: the criteria of every regulation, regulation by regulation. */
  function Criterios(ns: seq<NormativaValenciana>): seq<CriterioOperativo> {
    if ns == [] then [] else Criterios(ns[..|ns| - 1]) + CriteriaOf(ns[|ns| - 1])
  }

  /** The loop over `distancia_seguridad` of one regulation, pushing onto `criterios`. */
  method PushDistanceCriteria(n: NormativaValenciana, criterios: seq<CriterioOperativo>) returns (out: seq<CriterioOperativo>)
    ensures out == criterios + DistanceCriteria(n.titulo, n.fecha, n.contenido.distanciaSeguridad)
  {
    var textos := n.contenido.distanciaSeguridad;
    out := criterios;
    for i := 0 to |textos|
      invariant out == criterios + DistanceCriteria(n.titulo, n.fecha, textos[..i])
    {
      var texto := textos[i];
      DistanceCriteriaStep(n.titulo, n.fecha, textos, i);
      var m := MetrosValue(texto);
      if m.Some? {
        out := out + [CriterioOperativo(DistanciaSeguridad, texto, n.titulo, Number(m.value), Some(Metros), n.fecha)];
      }
    }
    assert textos[..|textos|] == textos;
  }

  lemma DistanceCriteriaStep(titulo: string, fecha: string, textos: seq<string>, i: nat)
    requires i < |textos|
    ensures var m := MetrosValue(textos[i]);
            DistanceCriteria(titulo, fecha, textos[..i + 1])
            == DistanceCriteria(titulo, fecha, textos[..i])
               + (if m.Some? then [CriterioOperativo(DistanciaSeguridad, textos[i], titulo, Number(m.value), Some(Metros), fecha)] else [])
  {
    assert textos[..i + 1][..i] == textos[..i];
  }

  /** The loop over `criterios_activacion` of one regulation, pushing onto `criterios`. */
  method PushActivationCriteria(n: NormativaValenciana, criterios: seq<CriterioOperativo>) returns (out: seq<CriterioOperativo>)
    ensures out == criterios + ActivationCriteria(n.titulo, n.fecha, n.contenido.criteriosActivacion)
  {
    var textos := n.contenido.criteriosActivacion;
    out := criterios;
    for i := 0 to |textos|
      invariant out == criterios + ActivationCriteria(n.titulo, n.fecha, textos[..i])
    {
      var texto := textos[i];
      assert textos[..i + 1][..i] == textos[..i];
      out := out + [CriterioOperativo(CriterioActivacion, texto, n.titulo, Text(texto), None, n.fecha)];
    }
    assert textos[..|textos|] == textos;
  }

  /** The nested `forEach` loops of `extraerCriteriosOperativos`. */
  method ExtractCriteria(normativas: seq<NormativaValenciana>) returns (criterios: seq<CriterioOperativo>)
    ensures criterios == Criterios(normativas)
  {
    criterios := [];
    for i := 0 to |normativas|
      invariant criterios == Criterios(normativas[..i])
    {
      var n := normativas[i];
      var before := criterios;
      var middle := PushDistanceCriteria(n, before);
      criterios := PushActivationCriteria(n, middle);
      ExtractStep(normativas, i, before, middle, criterios);
    }
    assert normativas[..|normativas|] == normativas;
  }

  /** The extraction is a flat-map of `CriteriaOf`. */
  lemma {:induction false} CriteriosFlatMap(ns: seq<NormativaValenciana>)
    ensures Criterios(ns) == FlatMap(ns, CriteriaOf)
  {
    if ns != [] {
      CriteriosFlatMap(ns[..|ns| - 1]);
    }
  }

  /** One turn of the outer loop: both inner loops push the criteria of the next regulation. */
  lemma ExtractStep(ns: seq<NormativaValenciana>, i: nat, before: seq<CriterioOperativo>, middle: seq<CriterioOperativo>, after: seq<CriterioOperativo>)
    requires i < |ns| && before == Criterios(ns[..i])
    requires middle == before + DistanceCriteria(ns[i].titulo, ns[i].fecha, ns[i].contenido.distanciaSeguridad)
    requires after == middle + ActivationCriteria(ns[i].titulo, ns[i].fecha, ns[i].contenido.criteriosActivacion)
    ensures after == Criterios(ns[..i + 1])
  {
    CriteriosStep(ns, i);
  }

  lemma CriteriosStep(ns: seq<NormativaValenciana>, i: nat)
    requires i < |ns|
    ensures Criterios(ns[..i + 1]) == Criterios(ns[..i]) + CriteriaOf(ns[i])
  {
    assert ns[..i + 1][..i] == ns[..i];
  }

  // ------------------------------------------------------------ properties of the extraction

  /** A distance text yields a criterion exactly when it matches, carrying the matched number. */
  lemma DistanceCriteriaMatch(titulo: string, fecha: string, textos: seq<string>, c: CriterioOperativo)
    ensures c in DistanceCriteria(titulo, fecha, textos) <==>
              exists t :: t in textos && MetrosValue(t).Some?
                       && c == CriterioOperativo(DistanciaSeguridad, t, titulo, Number(MetrosValue(t).value), Some(Metros), fecha)
  {
    var f := DistanceOf(titulo, fecha);
    DistanceCriteriaFilterMap(titulo, fecha, textos);
    FilterMapMembers(textos, f, c);
    if exists t :: t in textos && MetrosValue(t).Some?
                && c == CriterioOperativo(DistanciaSeguridad, t, titulo, Number(MetrosValue(t).value), Some(Metros), fecha) {
      var t :| t in textos && MetrosValue(t).Some?
               && c == CriterioOperativo(DistanciaSeguridad, t, titulo, Number(MetrosValue(t).value), Some(Metros), fecha);
      var i :| 0 <= i < |textos| && textos[i] == t;
      assert f(textos[i]) == Some(c);
    }
  }

  /** Every activation text yields one criterion, in order, whose value is the text. */
  lemma {:induction false} ActivationCriteriaAt(titulo: string, fecha: string, textos: seq<string>, i: nat)
    requires i < |textos|
    ensures ActivationCriteria(titulo, fecha, textos)[i] == CriterioOperativo(CriterioActivacion, textos[i], titulo, Text(textos[i]), None, fecha)
  {
    if i < |textos| - 1 {
      ActivationCriteriaAt(titulo, fecha, textos[..|textos| - 1], i);
    }
  }

  /** Only the safety distances and the activation criteria count: the other two lists never yield a criterion. */
  lemma {:induction false} OnlyTwoLists(ns: seq<NormativaValenciana>, ms: seq<NormativaValenciana>)
    requires |ns| == |ms|
    requires forall i :: 0 <= i < |ns| ==>
               ms[i] == ns[i].(contenido := ns[i].contenido.(protocolosEvacuacion := ms[i].contenido.protocolosEvacuacion,
                                                             responsabilidades := ms[i].contenido.responsabilidades))
    ensures Criterios(ns) == Criterios(ms)
  {
    if ns != [] {
      OnlyTwoLists(ns[..|ns| - 1], ms[..|ms| - 1]);
    }
  }

  /** Every criterion is of one of the two kinds and names its regulation's title and date. */
  lemma {:induction false} CriteriaProvenance(ns: seq<NormativaValenciana>, c: CriterioOperativo)
    requires c in Criterios(ns)
    ensures c.tipo == DistanciaSeguridad || c.tipo == CriterioActivacion
    ensures exists n :: n in ns && c.fuenteNormativa == n.titulo && c.aplicableDesde == n.fecha
    ensures c.tipo == DistanciaSeguridad <==> c.valor.Number?
  {
    var init, last := ns[..|ns| - 1], ns[|ns| - 1];
    assert ns == init + [last];
    if c in Criterios(init) {
      CriteriaProvenance(init, c);
      var n :| n in init && c.fuenteNormativa == n.titulo && c.aplicableDesde == n.fecha;
      assert n in ns;
    } else if c in DistanceCriteria(last.titulo, last.fecha, last.contenido.distanciaSeguridad) {
      DistanceCriteriaMatch(last.titulo, last.fecha, last.contenido.distanciaSeguridad, c);
    } else {
      var textos := last.contenido.criteriosActivacion;
      var i :| 0 <= i < |ActivationCriteria(last.titulo, last.fecha, textos)| && ActivationCriteria(last.titulo, last.fecha, textos)[i] == c;
      ActivationCriteriaAt(last.titulo, last.fecha, textos, i);
    }
  }

  /** Two distance texts that both match yield two criteria, in order. */
  lemma TwoDistances(titulo: string, fecha: string, a: string, b: string)
    requires MetrosValue(a).Some? && MetrosValue(b).Some?
    ensures DistanceCriteria(titulo, fecha, [a, b]) ==
              [CriterioOperativo(DistanciaSeguridad, a, titulo, Number(MetrosValue(a).value), Some(Metros), fecha),
               CriterioOperativo(DistanciaSeguridad, b, titulo, Number(MetrosValue(b).value), Some(Metros), fecha)]
  {
    assert [a, b][..1] == [a] && [a][..0] == [];
  }

  /** One that matches and one that does not yield one criterion. */
  lemma OneDistance(titulo: string, fecha: string, a: string)
    requires MetrosValue(a).Some?
    ensures DistanceCriteria(titulo, fecha, [a]) ==
              [CriterioOperativo(DistanciaSeguridad, a, titulo, Number(MetrosValue(a).value), Some(Metros), fecha)]
  {
    assert [a][..0] == [];
  }

  lemma TwoActivations(titulo: string, fecha: string, a: string, b: string)
    ensures ActivationCriteria(titulo, fecha, [a, b]) ==
              [CriterioOperativo(CriterioActivacion, a, titulo, Text(a), None, fecha),
               CriterioOperativo(CriterioActivacion, b, titulo, Text(b), None, fecha)]
  {
    assert [a, b][..1] == [a] && [a][..0] == [];
  }

  lemma OneActivation(titulo: string, fecha: string, a: string)
    ensures ActivationCriteria(titulo, fecha, [a]) == [CriterioOperativo(CriterioActivacion, a, titulo, Text(a), None, fecha)]
  {
    assert [a][..0] == [];
  }

  /** The criteria of a single regulation, and of a regulation after others. */
  lemma CriteriosOne(n: NormativaValenciana)
    ensures Criterios([n]) == CriteriaOf(n)
  {
    assert [n][..0] == [];
  }

  lemma CriteriosTwo(n: NormativaValenciana, m: NormativaValenciana)
    ensures Criterios([n, m]) == CriteriaOf(n) + CriteriaOf(m)
  {
    assert [n, m][..1] == [n];
    CriteriosOne(n);
  }

  // ------------------------------------------------------------ the minimum distance

  /** `Math.min(...)` of the distances: `Infinity` for an empty list. */
  datatype Distance = Finite(metros: nat) | Infinity

  function MinDistance(criterios: seq<CriterioOperativo>): Distance {
    if criterios == [] then Infinity
    else
      var rest := MinDistance(criterios[..|criterios| - 1]);
      var c := criterios[|criterios| - 1];
      if c.tipo != DistanciaSeguridad || !c.valor.Number? then rest
      else if rest.Finite? && rest.metros <= c.valor.n then rest
      else Finite(c.valor.n)
  }

  /** The minimum of a concatenation, combining the minima of the parts. */
  lemma {:induction false} MinDistanceAppend(xs: seq<CriterioOperativo>, ys: seq<CriterioOperativo>)
    ensures MinDistance(xs + ys) == MinOf(MinDistance(xs), MinDistance(ys))
    decreases |ys|
  {
    if ys == [] {
      assert xs + ys == xs;
    } else {
      var init := ys[..|ys| - 1];
      assert (xs + ys)[..|xs + ys| - 1] == xs + init;
      MinDistanceAppend(xs, init);
    }
  }

  function MinOf(a: Distance, b: Distance): Distance {
    if a.Infinity? then b else if b.Infinity? then a else if a.metros <= b.metros then a else b
  }

  /** The minimum is a distance criterion's value and no distance criterion is smaller; `Infinity` when there is none. */
  lemma {:induction false} MinDistanceIsMinimum(criterios: seq<CriterioOperativo>)
    ensures MinDistance(criterios).Infinity? <==>
              forall c :: c in criterios ==> !(c.tipo == DistanciaSeguridad && c.valor.Number?)
    ensures MinDistance(criterios).Finite? ==>
              exists c :: c in criterios && c.tipo == DistanciaSeguridad && c.valor == Number(MinDistance(criterios).metros)
    ensures forall c :: c in criterios && c.tipo == DistanciaSeguridad && c.valor.Number? ==>
              MinDistance(criterios).Finite? && MinDistance(criterios).metros <= c.valor.n
  {
    if criterios != [] {
      var init := criterios[..|criterios| - 1];
      MinDistanceIsMinimum(init);
      assert criterios == init + [criterios[|criterios| - 1]];
    }
  }

  // ------------------------------------------------------------ the configuration written

  datatype Resumen = Resumen(id: string, titulo: string, fecha: string, estado: string)

  datatype Recomendada = Recomendada(
    distanciaMinimaSeguridad: Distance, umbralActivacion: string,
    responsabilidadPrincipal: string, coordinacionRequerida: seq<string>)

  datatype Configuracion = Configuracion(
    municipio: string, fechaAnalisis: string, normativasAplicables: seq<Resumen>,
    criteriosExtraidos: seq<CriterioOperativo>, recomendada: Recomendada)

  function Resumenes(ns: seq<NormativaValenciana>): (rs: seq<Resumen>)
    ensures |rs| == |ns|
    ensures forall i :: 0 <= i < |ns| ==> rs[i] == Resumen(ns[i].id, ns[i].titulo, ns[i].fecha, ns[i].estado)
  {
    seq(|ns|, i requires 0 <= i < |ns| => Resumen(ns[i].id, ns[i].titulo, ns[i].fecha, ns[i].estado))
  }

  /**
   * The configuration object built from the regulations and the criteria
   * extracted from them, with `now` for `new Date().toISOString()`. The
   * recommended threshold, authority and coordination are fixed.
   */
  function Configurar(municipio: string, now: string, ns: seq<NormativaValenciana>, criterios: seq<CriterioOperativo>): Configuracion {
    Configuracion(municipio, now, Resumenes(ns), criterios,
      Recomendada(MinDistance(criterios), "naranja_rojo_aemet", "alcalde_municipio", ["aemet", "policia_local", "proteccion_civil"]))
  }
}

/**
 * The regulation both scripts build in: Decree 30/2015, the Territorial
 * Emergency Plan of the Valencian Community. The scheduled analyser gives it a
 * `url`, the one-off script does not. What the pattern finds in its two
 * safety-distance texts is proved here position by position.
 */
module Decreto30 {
  import opened Wrappers
  import opened JsText
  import opened Normativa
  import opened Seqs

  const Titulo := "Decreto 30/2015, Plan Territorial de Emergencias de la Comunidad Valenciana"
  const Fecha := "2015-03-06"

  // The long texts are written in pieces; each is the source's string.
  const Distancia500 := "Artículo 45: Zonas de seguridad mínima de " + "500 metros de cauces" + " en episodios de lluvia intensa"
  const Distancia300 := "Artículo 67: Evacuación preventiva " + "en un radio de " + "300 metros de zonas inundables"
  const ProtocoloNiveles := "Artículo 89: Protocolo de activación por niveles de alerta meteorológica"
  const ProtocoloAemet := "Artículo 91: Coordinación con AEMET para activación de planes municipales"
  const ResponsableAlcalde := "Artículo 23: Alcalde como máxima autoridad municipal en emergencias"
  const ResponsablePolicia := "Artículo 34: Policía Local responsable del control de accesos y evacuación"
  const ActivacionAemet := "Artículo 78: Activación por aviso naranja o rojo de AEMET"
  const ActivacionCentros := "Artículo 82: Criterios específicos para centros educativos y sanitarios"

  function Decreto(url: Option<string>): NormativaValenciana {
    NormativaValenciana(
      "decreto_30_2015", Titulo, "decreto", Fecha, "Generalitat Valenciana", url,
      ContenidoRelevante(
        [Distancia500, Distancia300],
        [ProtocoloNiveles, ProtocoloAemet],
        [ResponsableAlcalde, ResponsablePolicia],
        [ActivacionAemet, ActivacionCentros]),
      "vigente")
  }

  // ------------------------------------------------------------ matching a given text

  /** No match starts where there is no digit. */
  lemma NoMatchWithoutDigits(s: string, a: nat, b: nat)
    requires a <= b <= |s| && forall k :: a <= k < b ==> !IsDigit(s[k])
    ensures forall k :: a <= k < b ==> MatchAt(s, k).None?
  {
  }

  /** No match starts inside a run of digits followed by something that is neither a space nor an `m`. */
  lemma NoMatchInUnitlessNumber(s: string, a: nat, b: nat)
    requires a < b < |s| && AllDigits(s[a..b]) && !IsDigit(s[b]) && !IsSpace(s[b]) && s[b] != 'm' && s[b] != 'M'
    ensures forall k :: a <= k <= b ==> MatchAt(s, k).None?
  {
    forall k | a <= k < b ensures MatchAt(s, k).None? {
      assert s[k..b] == s[a..b][k - a..];
      DigitsEndAt(s, k, b);
      SpacesEndAt(s, b, b);
    }
  }

  /** Digits, spaces and an `m` at `a` match, capturing the digits. */
  lemma MatchOfRun(s: string, a: nat, b: nat, c: nat)
    requires a < b <= c < |s| && AllDigits(s[a..b]) && (forall k :: b <= k < c ==> IsSpace(s[k]))
    requires !IsDigit(s[b]) && (s[c] == 'm' || s[c] == 'M')
    ensures MatchAt(s, a) == Some(DigitsValue(s[a..b]))
  {
    DigitsEndAt(s, a, b);
    SpacesEndAt(s, b, c);
  }

  /** `parseInt` of the three digits at `i`. */
  lemma ThreeDigitsAt(s: string, i: nat)
    requires i + 3 <= |s| && IsDigit(s[i]) && IsDigit(s[i + 1]) && IsDigit(s[i + 2])
    ensures AllDigits(s[i..i + 3])
    ensures DigitsValue(s[i..i + 3]) == 100 * (s[i] as int - '0' as int) + 10 * (s[i + 1] as int - '0' as int) + (s[i + 2] as int - '0' as int)
  {
    var one, two, three := [s[i]], [s[i], s[i + 1]], s[i..i + 3];
    assert one[..0] == [] && two[..1] == one && three[..2] == two;
    assert DigitsValue(one) == s[i] as int - '0' as int;
    assert DigitsValue(two) == 10 * (s[i] as int - '0' as int) + (s[i + 1] as int - '0' as int);
  }

  /** The article number before the colon is not a distance. */
  lemma Head(s: string)
    requires |s| > 12 && s[8] == ' ' && IsDigit(s[9]) && IsDigit(s[10]) && s[11] == ':'
    requires forall k :: 0 <= k < 8 ==> !IsDigit(s[k])
    ensures forall k :: 0 <= k < 12 ==> MatchAt(s, k).None?
  {
    NoMatchWithoutDigits(s, 0, 9);
    NoMatchInUnitlessNumber(s, 9, 11);
  }

  /** With nothing matching before `i`, the match at `i` is the value. */
  lemma LeftmostAt(s: string, i: nat)
    requires i < |s| && MatchAt(s, i).Some? && forall k :: 0 <= k < i ==> MatchAt(s, k).None?
    ensures MetrosValue(s) == MatchAt(s, i)
  {
    forall j | 0 <= j < i ensures !MatchesAt(s)(j) {
      assert MatchAt(s, j).None?;
    }
    FirstFromAt(|s|, 0, MatchesAt(s), i);
  }

  lemma Distancia500Head()
    ensures forall k :: 0 <= k < 42 ==> MatchAt(Distancia500, k).None?
  {
    Distancia500Letters();
    Head(Distancia500);
    NoMatchWithoutDigits(Distancia500, 12, 42);
  }

  lemma Distancia500Letters()
    ensures |Distancia500| > 42 && Distancia500[8] == ' ' && IsDigit(Distancia500[9]) && IsDigit(Distancia500[10]) && Distancia500[11] == ':'
    ensures forall k :: 0 <= k < 8 ==> !IsDigit(Distancia500[k])
    ensures forall k :: 12 <= k < 42 ==> !IsDigit(Distancia500[k])
  {
  }

  /** The first text of the decree gives 500 metres (the article number 45 is skipped). */
  lemma Distancia500Value()
    ensures MetrosValue(Distancia500) == Some(500)
  {
    Distancia500Head();
    Distancia500Match();
    LeftmostAt(Distancia500, 42);
  }

  lemma Distancia500Match()
    ensures MatchAt(Distancia500, 42) == Some(500)
  {
    Distancia500Digits();
    ThreeDigitsAt(Distancia500, 42);
    MatchOfRun(Distancia500, 42, 45, 46);
  }

  lemma Distancia500Digits()
    ensures |Distancia500| > 46
    ensures Distancia500[42] == '5' && Distancia500[43] == '0' && Distancia500[44] == '0' && Distancia500[45] == ' ' && Distancia500[46] == 'm'
  {
  }

  lemma Distancia300Head()
    ensures forall k :: 0 <= k < 50 ==> MatchAt(Distancia300, k).None?
  {
    Distancia300Letters();
    Head(Distancia300);
    NoMatchWithoutDigits(Distancia300, 12, 50);
  }

  lemma Distancia300Letters()
    ensures |Distancia300| > 50 && Distancia300[8] == ' ' && IsDigit(Distancia300[9]) && IsDigit(Distancia300[10]) && Distancia300[11] == ':'
    ensures forall k :: 0 <= k < 8 ==> !IsDigit(Distancia300[k])
    ensures forall k :: 12 <= k < 50 ==> !IsDigit(Distancia300[k])
  {
  }

  /** The second gives 300 metres. */
  lemma Distancia300Value()
    ensures MetrosValue(Distancia300) == Some(300)
  {
    Distancia300Head();
    Distancia300Match();
    LeftmostAt(Distancia300, 50);
  }

  lemma Distancia300Match()
    ensures MatchAt(Distancia300, 50) == Some(300)
  {
    Distancia300Digits();
    ThreeDigitsAt(Distancia300, 50);
    MatchOfRun(Distancia300, 50, 53, 54);
  }

  lemma Distancia300Digits()
    ensures |Distancia300| > 54
    ensures Distancia300[50] == '3' && Distancia300[51] == '0' && Distancia300[52] == '0' && Distancia300[53] == ' ' && Distancia300[54] == 'm'
  {
  }

  // ------------------------------------------------------------ what the decree yields

  /** The four criteria of the decree: 500 then 300 metres, then its two activation texts. */
  function Expected(): seq<CriterioOperativo> {
    [CriterioOperativo(DistanciaSeguridad, Distancia500, Titulo, Number(500), Some(Metros), Fecha),
     CriterioOperativo(DistanciaSeguridad, Distancia300, Titulo, Number(300), Some(Metros), Fecha),
     CriterioOperativo(CriterioActivacion, ActivacionAemet, Titulo, Text(ActivacionAemet), None, Fecha),
     CriterioOperativo(CriterioActivacion, ActivacionCentros, Titulo, Text(ActivacionCentros), None, Fecha)]
  }

  /** Whatever its `url`, the decree alone yields exactly the four expected criteria. */
  lemma DecretoCriteria(url: Option<string>)
    ensures Criterios([Decreto(url)]) == Expected()
  {
    Distancia500Value();
    Distancia300Value();
    TwoDistances(Titulo, Fecha, Distancia500, Distancia300);
    TwoActivations(Titulo, Fecha, ActivacionAemet, ActivacionCentros);
    DecretoFields(url);
    CriteriosOne(Decreto(url));
  }

  lemma DecretoFields(url: Option<string>)
    ensures var d := Decreto(url);
            && d.titulo == Titulo && d.fecha == Fecha
            && d.contenido.distanciaSeguridad == [Distancia500, Distancia300]
            && d.contenido.criteriosActivacion == [ActivacionAemet, ActivacionCentros]
  {
  }

  /** Their minimum distance is 300 metres. */
  lemma DecretoMinimum()
    ensures MinDistance(Expected()) == Finite(300)
  {
    var e := Expected();
    assert e == [e[0]] + [e[1]] + e[2..];
    MinDistanceAppend([e[0]], [e[1]]);
    MinDistanceAppend([e[0]] + [e[1]], e[2..]);
    assert [e[0]][..0] == [] && [e[1]][..0] == [];
    assert e[2..][..1] == [e[2]] && [e[2]][..0] == [];
  }
}
