/**
 * scripts/validate_centros.ts: every vulnerable centre is checked against the
 * bounding box of the municipality of Almassora and counted as inside (`ok`)
 * or outside (`out`); each outside centre is reported once.
 */
module ValidateCentros {
  import opened Wrappers
  import opened Seqs
  import JsText

  const MinLat: real := 39.91
  const MaxLat: real := 39.98
  const MinLon: real := -0.10
  const MaxLon: real := -0.02

  /** One element of the centres file; `c.coordenadas?.lat` and `?.lon` are `None` when missing. */
  datatype Entrada = Entrada(nombre: string, lat: Option<real>, lon: Option<real>)

  /** The box test: both coordinates present and within the bounds, which are inclusive. */
  predicate InZone(c: Entrada) {
    && c.lat.Some? && c.lon.Some?
    && MinLat <= c.lat.value <= MaxLat
    && MinLon <= c.lon.value <= MaxLon
  }

  predicate OutOfZone(c: Entrada) {
    !InZone(c)
  }

  /**
   * The counting loop. `ok` and `out` are the two counters; `fuera` lists the
   * centres that get a warning, in the order of the file.
   */
  method Validate(data: seq<Entrada>) returns (ok: nat, out: nat, fuera: seq<Entrada>)
    ensures ok == |Filter(data, InZone)|
    ensures fuera == Filter(data, OutOfZone) && out == |fuera|
    ensures ok + out == |data|
  {
    ok, out, fuera := 0, 0, [];
    for i := 0 to |data|
      invariant ok == |Filter(data[..i], InZone)|
      invariant fuera == Filter(data[..i], OutOfZone) && out == |fuera|
    {
      if InZone(data[i]) {
        assert ok + 1 == |Filter(data[..i + 1], InZone)| && fuera == Filter(data[..i + 1], OutOfZone) by {
          FilterPrefixStep(data, i, InZone);
          FilterPrefixStep(data, i, OutOfZone);
        }
        ok := ok + 1;
      } else {
        assert ok == |Filter(data[..i + 1], InZone)| && fuera + [data[i]] == Filter(data[..i + 1], OutOfZone) by {
          FilterPrefixStep(data, i, InZone);
          FilterPrefixStep(data, i, OutOfZone);
        }
        out := out + 1;
        fuera := fuera + [data[i]];
      }
    }
    assert data[..|data|] == data;
    Partition(data);
  }

  /**
   * What `JSON.parse(fs.readFileSync(IN, 'utf-8'))` gives: the read or the
   * parse throws (missing file, bad JSON), a value `for...of` cannot iterate
   * (null, a number, a boolean, an object), a JSON string, or the centres.
   */
  datatype CentrosFile = Unreadable | NotIterable | Text(text: string) | Centros(data: seq<Entrada>)

  /** What the script reports: the two counters, the centres warned about, and `data.length`. */
  datatype Report = Report(ok: nat, out: nat, fuera: seq<Entrada>, total: nat)

  /** The report on the entries `for...of` visits, with `total` the value's `length`. */
  function ReportOf(data: seq<Entrada>, total: nat): Report {
    Report(|Filter(data, InZone)|, |Filter(data, OutOfZone)|, Filter(data, OutOfZone), total)
  }

  /**
   * A JSON string is walked by character: a character has no `coordenadas`,
   * so both coordinates are undefined, and its `nombre` prints as "undefined".
   * Its `length`, the total printed, counts UTF-16 code units instead.
   */
  function CharEntries(text: string): (es: seq<Entrada>)
    ensures |es| == |text|
    ensures forall i :: 0 <= i < |es| ==> es[i] == Entrada("undefined", None, None)
  {
    seq(|text|, i => Entrada("undefined", None, None))
  }

  /**
   * The script as a whole: it throws, and reports nothing, when the file
   * cannot be read, parsed or iterated; otherwise it counts the entries it
   * iterates and prints `data.length` as the total.
   */
  method Run(file: CentrosFile) returns (report: Option<Report>)
    ensures report.None? <==> file.Unreadable? || file.NotIterable?
    ensures file.Centros? ==> report == Some(ReportOf(file.data, |file.data|))
    ensures file.Text? ==> report == Some(ReportOf(CharEntries(file.text), JsText.Utf16Length(file.text)))
  {
    if file.Unreadable? || file.NotIterable? {
      return None;
    }
    var data := if file.Centros? then file.data else CharEntries(file.text);
    var total := if file.Centros? then |file.data| else JsText.Utf16Length(file.text);
    var ok, out, fuera := Validate(data);
    report := Some(Report(ok, out, fuera, total));
  }

  /**
   * Every character of a JSON string is counted as outside the municipality,
   * and none inside; the total matches the count of those outside exactly
   * when no character lies outside the basic plane.
   */
  lemma TextAllOutside(text: string)
    ensures var r := ReportOf(CharEntries(text), JsText.Utf16Length(text));
            && r == Report(0, |text|, CharEntries(text), JsText.Utf16Length(text))
            && (r.out == r.total <==> forall i :: 0 <= i < |text| ==> !JsText.Astral(text[i]))
  {
    var es := CharEntries(text);
    FilterNone(es, InZone);
    FilterAll(es, OutOfZone);
    JsText.Utf16LengthOfBasic(text);
  }

  /** Every centre is counted on exactly one side: the inside and outside lists partition the file. */
  lemma Partition(data: seq<Entrada>)
    ensures multiset(Filter(data, InZone)) + multiset(Filter(data, OutOfZone)) == multiset(data)
    ensures |Filter(data, InZone)| + |Filter(data, OutOfZone)| == |data|
  {
    FilterPartition(data, InZone, OutOfZone);
    assert |multiset(Filter(data, InZone)) + multiset(Filter(data, OutOfZone))| == |multiset(data)|;
  }

  /** A centre with a missing coordinate, or one outside the box, is reported; the others are counted as inside. */
  lemma {:induction false} ReportedIff(data: seq<Entrada>, c: Entrada)
    requires c in data
    ensures c in Filter(data, OutOfZone) <==>
              c.lat.None? || c.lon.None? || !(MinLat <= c.lat.value <= MaxLat) || !(MinLon <= c.lon.value <= MaxLon)
    ensures c.lat.None? || c.lon.None? ==> c !in Filter(data, InZone)
  {
  }
}
