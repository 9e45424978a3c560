/**
 * scripts/geocode_simple.ts: the CSV of vulnerable centres (schools,
 * residences) is split into records, each record is geocoded, and the centres
 * that got coordinates are written with a type derived from their name.
 * The geocoding service is a parameter: `geocode(i, address)` is the answer to
 * the `i`-th request, `None` when it found nothing or failed.
 */
module Geocode {
  import opened Wrappers
  import opened Seqs
  import opened JsText

  datatype CentroRaw = CentroRaw(
    code: string, nombre: string, titularidad: string, direccion: string,
    cp: string, municipio: string, telefono: string)

  // ------------------------------------------------------------ tokens of a line

  /** `(?=\s*,|\s*$)` at `x`: after optional white space comes a comma or the end of the line. */
  predicate FieldEndsAt(s: string, x: nat)
    requires x <= |s|
  {
    var y := SpacesEnd(s, x);
    y == |s| || s[y] == ','
  }

  /** A character `[^",]` matches. */
  predicate Plain(c: char) {
    c != '"' && c != ','
  }

  /** The end of the run of `[^",]` characters starting at `p`. */
  function PlainEnd(s: string, p: nat): (e: nat)
    requires p <= |s|
    ensures p <= e <= |s| && (forall k :: p <= k < e ==> Plain(s[k])) && (e < |s| ==> !Plain(s[e]))
    decreases |s| - p
  {
    if p < |s| && Plain(s[p]) then PlainEnd(s, p + 1) else p
  }

  /**
   * The lazy `.*?"` after an opening quote, from `q` on: the first quote that
   * the lookahead accepts, provided no line terminator (which `.` does not
   * match) comes before it.
   */
  function ClosingQuote(s: string, q: nat): (r: Option<nat>)
    requires q <= |s|
    ensures r.Some? ==> q <= r.value < |s| && s[r.value] == '"' && FieldEndsAt(s, r.value + 1)
    ensures r.Some? ==> forall k :: q <= k < r.value ==> !IsLineTerminator(s[k]) && !(s[k] == '"' && FieldEndsAt(s, k + 1))
    decreases |s| - q
  {
    if q == |s| then None
    else if s[q] == '"' && FieldEndsAt(s, q + 1) then Some(q)
    else if IsLineTerminator(s[q]) then None
    else ClosingQuote(s, q + 1)
  }

  /** Where the match of `(".*?"|[^",]+)(?=\s*,|\s*$)` attempted at `p` ends, if it matches. */
  function TokenEnd(s: string, p: nat): (e: Option<nat>)
    requires p < |s|
    ensures e.Some? ==> p < e.value <= |s|
  {
    if s[p] == '"' then
      match ClosingQuote(s, p + 1)
      case Some(q) => Some(q + 1)
      case None => None
    else
      var e := PlainEnd(s, p);
      if e > p && FieldEndsAt(s, e) then Some(e) else None
  }

  /** The successive matches of the global regular expression from `p` on. */
  function TokensFrom(s: string, p: nat): seq<string>
    requires p <= |s|
    decreases |s| - p
  {
    if p == |s| then []
    else
      match TokenEnd(s, p)
      case Some(e) => [s[p..e]] + TokensFrom(s, e)
      case None => TokensFrom(s, p + 1)
  }

  /** `line.match(/(".*?"|[^",]+)(?=\s*,|\s*$)/g)`, with `null` as the empty list. */
  function Tokens(line: string): seq<string> {
    TokensFrom(line, 0)
  }

  /**
   * Backtracking into `[^",]+` cannot help: if some shorter run of plain
   * characters is followed by the lookahead, so is the whole run.
   */
  lemma PlainBacktrack(s: string, p: nat, q: nat)
    requires p < |s| && p < q <= PlainEnd(s, p) && FieldEndsAt(s, q)
    ensures FieldEndsAt(s, PlainEnd(s, p))
  {
    var e, y := PlainEnd(s, p), SpacesEnd(s, q);
    assert e <= y;
    SpacesEndAt(s, e, y);
  }

  /** A quoted field is one token, commas and all. */
  lemma QuotedFieldIsOneToken(s: string, p: nat, q: nat)
    requires p < q < |s| && s[p] == '"' && s[q] == '"' && FieldEndsAt(s, q + 1)
    requires forall k :: p < k < q ==> s[k] != '"' && !IsLineTerminator(s[k])
    ensures TokenEnd(s, p) == Some(q + 1)
    ensures TokensFrom(s, p) == [s[p..q + 1]] + TokensFrom(s, q + 1)
  {
    ClosingQuoteAt(s, p + 1, q);
    assert TokenEnd(s, p) == Some(q + 1);
  }

  lemma {:induction false} ClosingQuoteAt(s: string, k: nat, q: nat)
    requires k <= q < |s| && s[q] == '"' && FieldEndsAt(s, q + 1)
    requires forall j :: k <= j < q ==> s[j] != '"' && !IsLineTerminator(s[j])
    ensures ClosingQuote(s, k) == Some(q)
    decreases q - k
  {
    if k < q {
      ClosingQuoteAt(s, k + 1, q);
    }
  }

  function NonEmpty(): string -> bool {
    (x: string) => x != ""
  }

  /** On a line without quotes the tokens are the non-empty comma-separated fields, in order. */
  lemma {:induction false} QuoteFreeTokens(s: string, p: nat)
    requires p <= |s| && '"' !in s
    ensures TokensFrom(s, p) == FilterFront(Split(s[p..], ','), NonEmpty())
    decreases |s| - p
  {
    var t := s[p..];
    if p == |s| {
      assert t == "" && Split(t, ',') == [""];
      FilterFrontCons("", [], NonEmpty());
      assert [""] + [] == [""];
    } else {
      var e := PlainEnd(s, p);
      if e == |s| {
        SplitNoSeparator(t, ',');
        LastField(s, p);
        FilterFrontCons(t, [], NonEmpty());
        assert [t] + [] == [t] && t != "";
      } else {
        SplitQuoteFree(s, p, e);
        TokensAtComma(s, p, e);
        QuoteFreeTokens(s, e + 1);
        FilterFrontCons(s[p..e], Split(s[e + 1..], ','), NonEmpty());
      }
    }
  }

  /** A quote-free line splits at the comma that ends its first run of plain characters. */
  lemma SplitQuoteFree(s: string, p: nat, e: nat)
    requires p <= e < |s| && e == PlainEnd(s, p) && '"' !in s
    ensures Split(s[p..], ',') == [s[p..e]] + Split(s[e + 1..], ',')
  {
    var t := s[p..];
    assert s[e] in s;
    assert t[e - p] == s[e] == ',';
    forall j | 0 <= j < e - p
      ensures t[j] != ','
    {
      assert t[j] == s[p + j];
    }
    SplitAt(t, ',', e - p);
    assert t[e - p + 1..] == s[e + 1..];
    assert t[..e - p] == s[p..e];
  }

  /** At that comma, the run before it (when not empty) is the next token. */
  lemma TokensAtComma(s: string, p: nat, e: nat)
    requires p <= e < |s| && e == PlainEnd(s, p) && '"' !in s
    ensures TokensFrom(s, p) == (if e > p then [s[p..e]] else []) + TokensFrom(s, e + 1)
  {
    assert s[e] in s;
    SkipComma(s, e);
    if e > p {
      FirstField(s, p);
    }
  }

  /** A field of a quote-free line followed by a comma is one token. */
  lemma FirstField(s: string, p: nat)
    requires p < |s| && p < PlainEnd(s, p) < |s| && '"' !in s
    ensures TokensFrom(s, p) == [s[p..PlainEnd(s, p)]] + TokensFrom(s, PlainEnd(s, p))
  {
    var e := PlainEnd(s, p);
    assert s[p] in s && s[e] in s && s[e] == ',';
    SpacesEndAt(s, e, e);
    assert TokenEnd(s, p) == Some(e);
  }

  /** The last field of a quote-free line is one token. */
  lemma LastField(s: string, p: nat)
    requires p < |s| && '"' !in s && PlainEnd(s, p) == |s|
    ensures TokensFrom(s, p) == [s[p..]]
  {
    assert s[p] in s && FieldEndsAt(s, |s|);
    assert TokenEnd(s, p) == Some(|s|);
    assert TokensFrom(s, |s|) == [] && s[p..|s|] == s[p..];
  }

  /** No token starts at a comma. */
  lemma SkipComma(s: string, e: nat)
    requires e < |s| && s[e] == ','
    ensures TokensFrom(s, e) == TokensFrom(s, e + 1)
  {
    assert PlainEnd(s, e) == e;
  }

  lemma FilterFrontCons<T>(x: T, rest: seq<T>, p: T -> bool)
    ensures FilterFront([x] + rest, p) == (if p(x) then [x] else []) + FilterFront(rest, p)
  {
    assert ([x] + rest)[1..] == rest;
  }

  /** A string without the separator splits into itself. */
  lemma {:induction false} SplitNoSeparator(t: string, sep: char)
    requires sep !in t
    ensures Split(t, sep) == [t]
  {
    if t != [] {
      SplitNoSeparator(t[1..], sep);
      assert [t[0]] + t[1..] == t;
    }
  }

  /** Splitting at the first separator, at `k`. */
  lemma {:induction false} SplitAt(t: string, sep: char, k: nat)
    requires k < |t| && t[k] == sep && forall j :: 0 <= j < k ==> t[j] != sep
    ensures Split(t, sep) == [t[..k]] + Split(t[k + 1..], sep)
  {
    if k > 0 {
      SplitAt(t[1..], sep, k - 1);
      assert t[1..][k..] == t[k + 1..];
      assert [t[0]] + t[1..][..k - 1] == t[..k];
    }
  }

  /** Every token is a quoted field or a run of plain characters. */
  lemma {:induction false} TokenShapes(s: string, p: nat, t: string)
    requires p <= |s| && t in TokensFrom(s, p)
    ensures (|t| >= 2 && t[0] == '"' && t[|t| - 1] == '"') || (t != "" && forall k :: 0 <= k < |t| ==> Plain(t[k]))
    decreases |s| - p
  {
    if p < |s| {
      match TokenEnd(s, p)
      case Some(e) =>
        if t != s[p..e] {
          TokenShapes(s, e, t);
        }
      case None =>
        TokenShapes(s, p + 1, t);
    }
  }

  // ------------------------------------------------------------ fields

  /** `s.replace(/^"|"$/g, '')`: one leading and one trailing quote go. */
  function StripQuotes(s: string): (r: string)
    ensures |s| >= 2 && s[0] == '"' && s[|s| - 1] == '"' ==> r == s[1..|s| - 1]
    ensures '"' !in s ==> r == s
    ensures s == "\"" ==> r == ""
  {
    var a := if |s| > 0 && s[0] == '"' then 1 else 0;
    var b := if |s| > a && s[|s| - 1] == '"' then |s| - 1 else |s|;
    s[a..b]
  }

  /** What each field becomes: its quotes stripped and then trimmed. */
  function Clean(token: string): string {
    Trim(StripQuotes(token))
  }

  /** One data line: `null` when it has fewer than six tokens, else the record. */
  function ParseLine(line: string): Option<CentroRaw> {
    var toks := Tokens(line);
    if |toks| < 6 then None
    else
      var localitat := Clean(toks[4]);
      var parts := Split(localitat, '-');
      Some(CentroRaw(Clean(toks[0]), Clean(toks[1]), Clean(toks[2]), Clean(toks[3]),
                     Trim(parts[0]), Trim(Join(parts[1..], '-')), Clean(toks[5])))
  }

  /**
   * A line gives a record exactly when it has at least six tokens; the first
   * four and the sixth are the cleaned tokens, `cp` is the fifth up to its
   * first '-' and `municipio` what follows that '-', both trimmed.
   */
  lemma ParseLineFields(line: string)
    ensures ParseLine(line).Some? <==> |Tokens(line)| >= 6
    ensures ParseLine(line).Some? ==>
              var toks := Tokens(line);
              var c := ParseLine(line).value;
              var loc := Clean(toks[4]);
              var i := IndexOf(loc, '-');
              && c.code == Clean(toks[0]) && c.nombre == Clean(toks[1]) && c.titularidad == Clean(toks[2])
              && c.direccion == Clean(toks[3]) && c.telefono == Clean(toks[5])
              && c.cp == Trim(loc[..i])
              && c.municipio == Trim(if i < |loc| then loc[i + 1..] else "")
  {
    var toks := Tokens(line);
    if |toks| >= 6 {
      SplitAtFirst(Clean(toks[4]), '-');
    }
  }

  /** `parseCSV`: the trimmed text split on '\n', without its first line, each line parsed and the failures dropped. */
  function ParseCSV(text: string): seq<CentroRaw> {
    var lines := Split(Trim(text), '\n');
    FilterMap(lines[1..], ParseLine)
  }

  /** The header line never gives a record, and neither does an empty text. */
  lemma ParseCSVSpec(text: string, c: CentroRaw)
    ensures var lines := Split(Trim(text), '\n');
            c in ParseCSV(text) <==> exists i :: 1 <= i < |lines| && ParseLine(lines[i]) == Some(c)
    ensures Trim(text) == "" ==> ParseCSV(text) == []
  {
    var lines := Split(Trim(text), '\n');
    FilterMapMembers(lines[1..], ParseLine, c);
    ShiftedExists(lines, l => ParseLine(l) == Some(c));
  }

  // ------------------------------------------------------------ the type of a centre

  const Educativos: seq<string> := ["ceip", "ies", "fp", "infantil", "escola", "coleg"]
  const Asistenciales: seq<string> := ["residencia", "geriátrica"]

  /** `/w1|w2|.../i.test(nombre)` */
  predicate MatchesAny(nombre: string, words: seq<string>) {
    exists w :: w in words && IncludesIgnoringCase(nombre, w)
  }

  /** `educativo` for a school word, else `asistencial` for a residence word, else `otro`. */
  function Tipo(nombre: string): (t: string)
    ensures t == "educativo" <==> MatchesAny(nombre, Educativos)
    ensures t == "asistencial" <==> !MatchesAny(nombre, Educativos) && MatchesAny(nombre, Asistenciales)
    ensures t == "otro" <==> !MatchesAny(nombre, Educativos) && !MatchesAny(nombre, Asistenciales)
  {
    if MatchesAny(nombre, Educativos) then "educativo"
    else if MatchesAny(nombre, Asistenciales) then "asistencial"
    else "otro"
  }

  /** The words match in any letter case: an occurrence of `u` whose lower case is `w` counts as `w`. */
  lemma AnyCaseMatches(nombre: string, u: string, i: nat, w: string)
    requires OccursAt(nombre, u, i) && Lower(u) == w
    ensures IncludesIgnoringCase(nombre, w)
  {
    var l := Lower(nombre);
    assert l[i..i + |u|] == Lower(nombre[i..i + |u|]);
    assert OccursAt(l, w, i);
  }

  /** So a name containing, say, `CEIP` or `Colegio` is a school, whatever else it contains. */
  lemma SchoolWordMakesSchool(nombre: string, u: string, i: nat, w: string)
    requires w in Educativos && OccursAt(nombre, u, i) && Lower(u) == w
    ensures Tipo(nombre) == "educativo"
  {
    AnyCaseMatches(nombre, u, i, w);
  }

  // ------------------------------------------------------------ geocoding

  datatype Coordenadas = Coordenadas(lat: real, lon: real)

  datatype Centro = Centro(
    code: string, nombre: string, tipo: string, titularidad: string, direccion: string,
    municipio: string, cp: string, telefono: string, coordenadas: Coordenadas, fuente: string)

  const Fuente := "nominatim-autogeo"

  /** `${c.direccion}, ${c.cp} ${c.municipio}` */
  function FullAddress(c: CentroRaw): string {
    c.direccion + ", " + c.cp + " " + c.municipio
  }

  function Emit(c: CentroRaw, geo: Coordenadas): Centro {
    Centro(c.code, c.nombre, Tipo(c.nombre), c.titularidad, c.direccion, c.municipio, c.cp, c.telefono, geo, Fuente)
  }

  /** The answer to the request for the `i`-th centre. */
  function Answer(centros: seq<CentroRaw>, geocode: (nat, string) -> Option<Coordenadas>, i: nat): Option<Coordenadas>
    requires i < |centros|
  {
    geocode(i, FullAddress(centros[i]))
  }

  /** The centres emitted for `centros`, the `i`-th request being for `centros[i]`. */
  function Geocoded(centros: seq<CentroRaw>, geocode: (nat, string) -> Option<Coordenadas>): (out: seq<Centro>)
    ensures |out| <= |centros|
  {
    if centros == [] then []
    else
      var i := |centros| - 1;
      var geo := Answer(centros, geocode, i);
      Geocoded(centros[..i], geocode) + (if geo.Some? then [Emit(centros[i], geo.value)] else [])
  }

  /** The loop of `main`: one request per centre, in order, pushing the centres that were found. */
  method Geocodificar(centros: seq<CentroRaw>, geocode: (nat, string) -> Option<Coordenadas>) returns (out: seq<Centro>)
    ensures out == Geocoded(centros, geocode)
  {
    out := [];
    for i := 0 to |centros|
      invariant out == Geocoded(centros[..i], geocode)
    {
      assert centros[..i + 1][..i] == centros[..i] && Answer(centros[..i + 1], geocode, i) == geocode(i, FullAddress(centros[i]));
      var c := centros[i];
      var geo := geocode(i, FullAddress(c));
      if geo.Some? {
        out := out + [Emit(c, geo.value)];
      }
    }
    assert centros[..|centros|] == centros;
  }

  /**
   * `main`: read the file, parse it, then geocode every record. `input` is
   * the file's text, None when `readFileSync` throws; the error then reaches
   * `main().catch`, which exits with status 1 and nothing is written (None).
   */
  method Run(input: Option<string>, geocode: (nat, string) -> Option<Coordenadas>) returns (out: Option<seq<Centro>>)
    ensures out.None? <==> input.None?
    ensures input.Some? ==> out == Some(Geocoded(ParseCSV(input.value), geocode))
  {
    if input.None? {
      return None;
    }
    var centros := Geocodificar(ParseCSV(input.value), geocode);
    out := Some(centros);
  }

  /** Exactly the centres that were found are emitted, each with its answer's coordinates. */
  lemma {:induction false} GeocodedMembers(centros: seq<CentroRaw>, geocode: (nat, string) -> Option<Coordenadas>, o: Centro)
    ensures o in Geocoded(centros, geocode) <==>
              exists i :: 0 <= i < |centros| && Answer(centros, geocode, i).Some?
                       && o == Emit(centros[i], Answer(centros, geocode, i).value)
  {
    if centros != [] {
      var n := |centros| - 1;
      var init := centros[..n];
      GeocodedMembers(init, geocode, o);
      assert forall i :: 0 <= i < n ==> Answer(init, geocode, i) == Answer(centros, geocode, i) && init[i] == centros[i];
    }
  }

  /** Input order is kept: what the first `k` centres give comes first. */
  lemma {:induction false} GeocodedPrefix(centros: seq<CentroRaw>, geocode: (nat, string) -> Option<Coordenadas>, k: nat)
    requires k <= |centros|
    ensures var whole, part := Geocoded(centros, geocode), Geocoded(centros[..k], geocode);
            |part| <= |whole| && whole[..|part|] == part
    decreases |centros| - k
  {
    if k < |centros| {
      GeocodedPrefix(centros, geocode, k + 1);
      assert centros[..k + 1][..k] == centros[..k];
    } else {
      assert centros[..k] == centros;
    }
  }

  /** Every emitted centre is typed from its name and marked as geocoded by Nominatim. */
  lemma EmittedShape(centros: seq<CentroRaw>, geocode: (nat, string) -> Option<Coordenadas>, o: Centro)
    requires o in Geocoded(centros, geocode)
    ensures o.tipo == Tipo(o.nombre) && o.fuente == Fuente
    ensures o.tipo == "educativo" || o.tipo == "asistencial" || o.tipo == "otro"
  {
    GeocodedMembers(centros, geocode, o);
  }
}
