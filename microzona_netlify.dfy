/**
 * `runMicrozonificador` of the scheduled function
 * (agents/netlify/functions/_lib/microzonificador.ts): the warnings of subzone
 * 771204 summarised as a validity window and the distinct phenomena.
 */
module MicrozonaNetlify {
  import opened Wrappers
  import opened Seqs
  import opened JsText
  import opened Microzona

  /** The record of `parseCapXml.ts`, with its fields as the interface declares them (strings). */
  datatype Aviso = Aviso(subzona: string, areaDesc: string, fenomeno: string, fInicio: Option<string>, fFin: Option<string>)

  function InTarget(a: Aviso): bool {
    a.subzona == Target
  }

  /** `avisosFiltrados.map(a => a.f_inicio ?? '').filter(Boolean)` */
  function Starts(f: seq<Aviso>): (r: seq<string>)
    ensures forall s :: s in r <==> s != "" && exists a :: a in f && a.fInicio == Some(s)
  {
    if f == [] then []
    else
      var a := f[|f| - 1];
      var s := a.fInicio.GetOr("");
      assert f == f[..|f| - 1] + [a];
      Starts(f[..|f| - 1]) + (if s != "" then [s] else [])
  }

  /** `avisosFiltrados.map(a => a.f_fin ?? '').filter(Boolean)` */
  function Ends(f: seq<Aviso>): (r: seq<string>)
    ensures forall s :: s in r <==> s != "" && exists a :: a in f && a.fFin == Some(s)
  {
    if f == [] then []
    else
      var a := f[|f| - 1];
      var s := a.fFin.GetOr("");
      assert f == f[..|f| - 1] + [a];
      Ends(f[..|f| - 1]) + (if s != "" then [s] else [])
  }

  /** `avisosFiltrados.map(a => a.fenomeno)` */
  function Fenomenos(f: seq<Aviso>): (r: seq<string>)
    ensures |r| == |f| && forall i :: 0 <= i < |f| ==> r[i] == f[i].fenomeno
  {
    seq(|f|, i requires 0 <= i < |f| => f[i].fenomeno)
  }

  /** `sorted[0] ?? ''` and `sorted.slice(-1)[0] ?? ''` of the sorted non-empty values. */
  function FirstOr(xs: seq<string>): string {
    if xs == [] then "" else Least(xs)
  }

  function LastOr(xs: seq<string>): string {
    if xs == [] then "" else Greatest(xs)
  }

  /** `runMicrozonificador(avisos)`, with `now` for `new Date().toISOString()`. */
  function Summarize(avisos: seq<Aviso>, now: string): Report {
    var f := Filter(avisos, InTarget);
    if f == [] then NoWarnings(now)
    else Active(Some(FirstOr(Starts(f))), Some(LastOr(Ends(f))), Distinct(Fenomenos(f)), now)
  }

  /** The report is active exactly when some warning is for subzone 771204; otherwise it is the empty report with one note. */
  lemma ActiveIffTarget(avisos: seq<Aviso>, now: string)
    ensures Summarize(avisos, now).activo <==> exists a :: a in avisos && a.subzona == Target
    ensures !Summarize(avisos, now).activo ==> Summarize(avisos, now) == NoWarnings(now)
    ensures Summarize(avisos, now).activo ==> |Summarize(avisos, now).notas| == 2
    ensures var r := Summarize(avisos, now);
            r.subzona == Target && r.centrosAfectados == [] && r.caminosAfectados == [] && r.zonasRiesgoIntersectadas == []
  {
    var f := Filter(avisos, InTarget);
    if f == [] {
      assert Summarize(avisos, now) == NoWarnings(now);
      forall a | a in avisos ensures a.subzona != Target {
        assert a !in f;
      }
    } else {
      assert f[0] in avisos && f[0].subzona == Target;
      assert Summarize(avisos, now).activo;
    }
  }

  /**
   * `inicio` is the earliest non-empty start among the target's warnings, or ''
   * when none has one; `fin` the latest non-empty end, or ''.
   */
  lemma WindowBounds(avisos: seq<Aviso>, now: string)
    requires Summarize(avisos, now).activo
    ensures var r := Summarize(avisos, now);
            var f := Filter(avisos, InTarget);
            && r.inicio.Some? && r.fin.Some?
            && (r.inicio.value == "" <==> forall a :: a in f ==> a.fInicio.GetOr("") == "")
            && (r.inicio.value != "" ==> exists a :: a in f && a.fInicio == r.inicio)
            && (forall a :: a in f && a.fInicio.GetOr("") != "" ==> LexLeq(r.inicio.value, a.fInicio.value))
            && (r.fin.value == "" <==> forall a :: a in f ==> a.fFin.GetOr("") == "")
            && (r.fin.value != "" ==> exists a :: a in f && a.fFin == r.fin)
            && (forall a :: a in f && a.fFin.GetOr("") != "" ==> LexLeq(a.fFin.value, r.fin.value))
  {
    var f := Filter(avisos, InTarget);
    var starts, ends := Starts(f), Ends(f);
    forall a | a in f && a.fInicio.GetOr("") != "" ensures a.fInicio.value in starts { }
    forall a | a in f && a.fFin.GetOr("") != "" ensures a.fFin.value in ends { }
    if starts != [] {
      assert Least(starts) in starts;
    }
    if ends != [] {
      assert Greatest(ends) in ends;
    }
  }

  /** `fenomenos` lists each phenomenon of the target's warnings once, in order of first occurrence. */
  lemma PhenomenaDistinct(avisos: seq<Aviso>, now: string)
    requires Summarize(avisos, now).activo
    ensures var r := Summarize(avisos, now);
            var f := Filter(avisos, InTarget);
            && NoDuplicates(r.fenomenos)
            && (forall x :: x in r.fenomenos <==> exists a :: a in f && a.fenomeno == x)
            && r.fenomenos == Distinct(Fenomenos(f))
  {
    var f := Filter(avisos, InTarget);
    assert f != [];
    FenomenosMembers(f);
  }

  lemma FenomenosMembers(f: seq<Aviso>)
    ensures forall x :: x in Fenomenos(f) <==> exists a :: a in f && a.fenomeno == x
  {
    forall x ensures x in Fenomenos(f) <==> exists a :: a in f && a.fenomeno == x {
      if exists a :: a in f && a.fenomeno == x {
        var a :| a in f && a.fenomeno == x;
        var i :| 0 <= i < |f| && f[i] == a;
        assert Fenomenos(f)[i] == x;
      }
    }
  }
}
