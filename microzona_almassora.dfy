/**
 * The computation of `runMicrozonificador` in agents/almassora/microzonificador.ts.
 * Unlike the scheduled-function copy, it reads `agent_ui.json`, does not drop
 * missing or empty dates before sorting, and falls back from `fenomeno` to
 * `evento` to 'Desconocido'.
 */
module MicrozonaAlmassora {
  import opened Wrappers
  import opened Seqs
  import opened JsText
  import opened Microzona

  /** One element of the input array; a missing property is `None`. */
  datatype Entry = Entry(subzona: Option<string>, fenomeno: Option<string>, evento: Option<string>,
                         fInicio: Option<string>, fFin: Option<string>)

  /** What `JSON.parse` of the input file gives: an array, something else, or an exception (missing file, bad JSON). */
  datatype AgentUiFile = Unreadable | NotAList | Entries(entries: seq<Entry>)

  function InTarget(e: Entry): bool {
    e.subzona == Some(Target)
  }

  /** `a.fenomeno || a.evento || 'Desconocido'` */
  function Phenomenon(e: Entry): (p: string)
    ensures p != ""
  {
    if e.fenomeno.Some? && e.fenomeno.value != "" then e.fenomeno.value
    else if e.evento.Some? && e.evento.value != "" then e.evento.value
    else Desconocido
  }

  /** The values present in a list of optional strings, in order. */
  function Present(xs: seq<Option<string>>): (r: seq<string>)
    ensures forall s :: s in r <==> Some(s) in xs
    ensures |r| <= |xs|
  {
    if xs == [] then []
    else
      assert xs == xs[..|xs| - 1] + [xs[|xs| - 1]];
      Present(xs[..|xs| - 1]) + (if xs[|xs| - 1].Some? then [xs[|xs| - 1].value] else [])
  }

  function StartsOf(f: seq<Entry>): (r: seq<Option<string>>)
    ensures |r| == |f| && forall i :: 0 <= i < |f| ==> r[i] == f[i].fInicio
  {
    seq(|f|, i requires 0 <= i < |f| => f[i].fInicio)
  }

  function EndsOf(f: seq<Entry>): (r: seq<Option<string>>)
    ensures |r| == |f| && forall i :: 0 <= i < |f| ==> r[i] == f[i].fFin
  {
    seq(|f|, i requires 0 <= i < |f| => f[i].fFin)
  }

  /** `values.sort()[0]`: the default sort moves `undefined` to the end, so this is the least present value, if any. */
  function FirstSorted(values: seq<Option<string>>): Option<string> {
    var p := Present(values);
    if p == [] then None else Some(Least(p))
  }

  /** `values.sort().slice(-1)[0]`: `undefined` as soon as one value is missing, else the greatest. */
  function LastSorted(values: seq<Option<string>>): Option<string> {
    if values == [] || None in values then None else Some(Greatest(Present(values)))
  }

  /** The array the default `sort()` returns: the present values in order, then the missing ones. */
  function DefaultSorted(sortedPresent: seq<string>, missing: nat): seq<Option<string>> {
    seq(|sortedPresent|, i requires 0 <= i < |sortedPresent| => Some(sortedPresent[i])) + seq(missing, i => None)
  }

  lemma DefaultSortedAt(sortedPresent: seq<string>, missing: nat, i: nat)
    requires i < |sortedPresent| + missing
    ensures |DefaultSorted(sortedPresent, missing)| == |sortedPresent| + missing
    ensures DefaultSorted(sortedPresent, missing)[i] == if i < |sortedPresent| then Some(sortedPresent[i]) else None
  {
  }

  function CountMissing(values: seq<Option<string>>): nat {
    if values == [] then 0 else CountMissing(values[..|values| - 1]) + (if values[|values| - 1].None? then 1 else 0)
  }

  lemma {:induction false} CountMissingPositive(values: seq<Option<string>>)
    ensures CountMissing(values) > 0 <==> None in values
    ensures |Present(values)| + CountMissing(values) == |values|
  {
    if values != [] {
      CountMissingPositive(values[..|values| - 1]);
      assert values == values[..|values| - 1] + [values[|values| - 1]];
    }
  }

  /**
   * Whatever algorithm sorts the present values, the first element of the
   * array `sort()` returns is `FirstSorted`.
   */
  lemma DefaultSortFirst(values: seq<Option<string>>, sortedPresent: seq<string>)
    requires |values| >= 1
    requires SortedLex(sortedPresent) && multiset(sortedPresent) == multiset(Present(values))
    ensures var arr := DefaultSorted(sortedPresent, CountMissing(values));
            |arr| == |values| && arr[0] == FirstSorted(values)
  {
    var p := Present(values);
    var n, k := |sortedPresent|, CountMissing(values);
    CountMissingPositive(values);
    assert n == |p| by { assert |sortedPresent| == |multiset(sortedPresent)|; }
    DefaultSortedAt(sortedPresent, k, 0);
    if n != 0 {
      SortedEnds(sortedPresent, p);
    }
  }

  /** ... and the last one is `LastSorted`. */
  lemma DefaultSortLast(values: seq<Option<string>>, sortedPresent: seq<string>)
    requires |values| >= 1
    requires SortedLex(sortedPresent) && multiset(sortedPresent) == multiset(Present(values))
    ensures var arr := DefaultSorted(sortedPresent, CountMissing(values));
            |arr| == |values| && arr[|arr| - 1] == LastSorted(values)
  {
    var p := Present(values);
    var n, k := |sortedPresent|, CountMissing(values);
    CountMissingPositive(values);
    assert n == |p| by { assert |sortedPresent| == |multiset(sortedPresent)|; }
    DefaultSortedAt(sortedPresent, k, n + k - 1);
    if k == 0 {
      SortedEnds(sortedPresent, p);
    }
  }

  /** The computation of `runMicrozonificador` once the input is an array. */
  function Summarize(entries: seq<Entry>, now: string): Report {
    var f := Filter(entries, InTarget);
    if f == [] then NoWarnings(now)
    else
      Active(FirstSorted(StartsOf(f)), LastSorted(EndsOf(f)), Distinct(Phenomena(f)), now)
  }

  /** `avisosFiltrados.map(a => a.fenomeno || a.evento || 'Desconocido')` */
  function Phenomena(f: seq<Entry>): (ps: seq<string>)
    ensures |ps| == |f| && forall i :: 0 <= i < |f| ==> ps[i] == Phenomenon(f[i])
  {
    seq(|f|, i requires 0 <= i < |f| => Phenomenon(f[i]))
  }

  lemma PhenomenaMembers(f: seq<Entry>)
    ensures forall x :: x in Phenomena(f) <==> exists e :: e in f && Phenomenon(e) == x
  {
    forall x | exists e :: e in f && Phenomenon(e) == x
      ensures x in Phenomena(f)
    {
      var e :| e in f && Phenomenon(e) == x;
      var i :| 0 <= i < |f| && f[i] == e;
      assert Phenomena(f)[i] == x;
    }
  }

  /** The report written, or `None` when reading, parsing or `avisos.filter` throws and the error is only logged. */
  function Run(file: AgentUiFile, now: string): Option<Report> {
    match file
    case Entries(entries) => Some(Summarize(entries, now))
    case _ => None
  }

  /** Active exactly when an entry's `subzona` is the string '771204'; otherwise the empty report with one note. */
  lemma ActiveIffTarget(entries: seq<Entry>, now: string)
    ensures Summarize(entries, now).activo <==> exists e :: e in entries && e.subzona == Some(Target)
    ensures !Summarize(entries, now).activo ==> Summarize(entries, now) == NoWarnings(now)
    ensures Summarize(entries, now).activo ==> |Summarize(entries, now).notas| == 2
  {
    var f := Filter(entries, InTarget);
    if f == [] {
      assert Summarize(entries, now) == NoWarnings(now);
      forall e | e in entries ensures e.subzona != Some(Target) {
        assert e !in f;
      }
    } else {
      assert f[0] in entries && f[0].subzona == Some(Target);
      assert Summarize(entries, now).activo;
    }
  }

  /** The first element after the default sort: missing only when every value is, else the least present value. */
  lemma FirstSortedBounds(values: seq<Option<string>>)
    ensures FirstSorted(values).None? <==> forall x :: x in values ==> x.None?
    ensures FirstSorted(values).Some? ==>
              FirstSorted(values) in values && forall s :: Some(s) in values ==> LexLeq(FirstSorted(values).value, s)
  {
    var p := Present(values);
    if p != [] {
      assert p[0] in p;
    }
  }

  /** The last element after the default sort: missing as soon as one value is, else the greatest value. */
  lemma LastSortedBounds(values: seq<Option<string>>)
    requires |values| >= 1
    ensures LastSorted(values).None? <==> None in values
    ensures LastSorted(values).Some? ==>
              LastSorted(values) in values && forall x :: x in values ==> LexLeq(x.value, LastSorted(values).value)
  {
    if None !in values {
      var p := Present(values);
      assert values[0].value in p;
      forall x | x in values ensures LexLeq(x.value, Greatest(p)) {
        assert x.value in p;
      }
    }
  }

  lemma StartsEndsMembers(f: seq<Entry>)
    ensures forall x :: x in StartsOf(f) <==> exists e :: e in f && e.fInicio == x
    ensures forall x :: x in EndsOf(f) <==> exists e :: e in f && e.fFin == x
  {
    var starts, ends := StartsOf(f), EndsOf(f);
    forall e | e in f ensures e.fInicio in starts && e.fFin in ends {
      var i :| 0 <= i < |f| && f[i] == e;
      assert starts[i] == e.fInicio && ends[i] == e.fFin;
    }
    forall x | x in starts ensures exists e :: e in f && e.fInicio == x {
      var i :| 0 <= i < |starts| && starts[i] == x;
      assert f[i] in f;
    }
    forall x | x in ends ensures exists e :: e in f && e.fFin == x {
      var i :| 0 <= i < |ends| && ends[i] == x;
      assert f[i] in f;
    }
  }

  /**
   * `inicio` is the least present start, which may be ''; it is missing only when
   * no target entry has one. `fin` is missing as soon as one target entry has no
   * end; otherwise it is the greatest end.
   */
  lemma WindowBounds(entries: seq<Entry>, now: string)
    requires Summarize(entries, now).activo
    ensures var r := Summarize(entries, now);
            var f := Filter(entries, InTarget);
            && r.inicio == FirstSorted(StartsOf(f))
            && r.fin == LastSorted(EndsOf(f))
            && (r.inicio.None? <==> forall e :: e in f ==> e.fInicio.None?)
            && (r.fin.None? <==> exists e :: e in f && e.fFin.None?)
  {
    var f := Filter(entries, InTarget);
    assert f != [];
    StartsEndsMembers(f);
    FirstSortedBounds(StartsOf(f));
    LastSortedBounds(EndsOf(f));
  }

  /** Each phenomenon (after the fallbacks) is listed once, and exactly those of the target entries are. */
  lemma PhenomenaDistinct(entries: seq<Entry>, now: string)
    requires Summarize(entries, now).activo
    ensures var r := Summarize(entries, now);
            var f := Filter(entries, InTarget);
            && NoDuplicates(r.fenomenos)
            && (forall x :: x in r.fenomenos <==> exists e :: e in f && Phenomenon(e) == x)
            && "" !in r.fenomenos
  {
    var f := Filter(entries, InTarget);
    assert f != [];
    assert Summarize(entries, now).fenomenos == Distinct(Phenomena(f));
    PhenomenaMembers(f);
  }

  /** A failed read, bad JSON or a non-array input writes nothing. */
  lemma FailureWritesNothing(file: AgentUiFile, now: string)
    ensures Run(file, now).None? <==> !file.Entries?
  {
  }
}
