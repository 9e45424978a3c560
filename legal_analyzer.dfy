/**
 * The class `LegalAnalyzer` of agents/legal/legal_analyzer.ts: two built-in
 * Valencian regulations, the municipal file appended to them, the criteria
 * extraction and the recommended configuration.
 */
module LegalAnalyzer {
  import opened Wrappers
  import opened JsText
  import opened Seqs
  import opened Normativa
  import Decreto30

  const DecretoUrl := "https://www.dogv.gva.es/datos/2015/03/09/pdf/2015_1896.pdf"

  // ------------------------------------------------------------ Law 10/2021

  const LeyTitulo := "Ley 10/2021, de Cambio Climático y Transición Ecológica"
  const LeyFecha := "2021-12-20"
  const LeyUrl := "https://www.boe.es/buscar/act.php?id=BOE-A-2022-1942"
  // Written in pieces; the value is the source's string.
  const Distancia200 := "Artículo 67: Zonas de alto riesgo " + "de inundación con restricciones de " + "200 metros"
  const LeyProtocolo := "Artículo 89: Adaptación de planes de emergencia al cambio climático"
  const LeyResponsable := "Artículo 45: Obligaciones municipales de adaptación climática"
  const LeyActivacion := "Artículo 78: Nuevos umbrales de precipitación para activación"

  function Ley10(): NormativaValenciana {
    NormativaValenciana(
      "ley_10_2021", LeyTitulo, "ley", LeyFecha, "Corts Valencianes", Some(LeyUrl),
      ContenidoRelevante([Distancia200], [LeyProtocolo], [LeyResponsable], [LeyActivacion]),
      "vigente")
  }

  /** `cargarNormativasBase`: the decree, then the law. */
  function BaseNormativas(): seq<NormativaValenciana> {
    [Decreto30.Decreto(Some(DecretoUrl)), Ley10()]
  }

  // ------------------------------------------------------------ the class

  /** What reading and `JSON.parse` of `<municipio>_normativa.json` give. */
  datatype MunicipalFile =
    | Unreadable                               // missing file or bad JSON
    | NotIterable                              // parsed, but spreading it throws
    | Entries(entries: seq<NormativaValenciana>)

  class Analyzer {
    var normativas: seq<NormativaValenciana>
    var criterios: seq<CriterioOperativo>

    constructor()
      ensures normativas == BaseNormativas() && criterios == []
    {
      normativas := BaseNormativas();
      criterios := [];
    }

    /**
     * `analizarNormativaMunicipal`: the regulations followed by the municipal
     * ones; when the file cannot be read, parsed or spread, the regulations alone.
     */
    method AnalizarNormativaMunicipal(file: MunicipalFile) returns (r: seq<NormativaValenciana>)
      ensures file.Entries? ==> r == normativas + file.entries
      ensures !file.Entries? ==> r == normativas
    {
      match file {
        case Entries(entries) => r := normativas + entries;
        case _ => r := normativas;
      }
    }

    /** `extraerCriteriosOperativos` */
    method ExtraerCriteriosOperativos(ns: seq<NormativaValenciana>) returns (cs: seq<CriterioOperativo>)
      ensures cs == Criterios(ns)
    {
      cs := ExtractCriteria(ns);
    }

    /** `generarConfiguracionOperativa`: always over the analyser's own regulations. */
    method GenerarConfiguracionOperativa(municipio: string, now: string) returns (config: Configuracion)
      ensures config == Configurar(municipio, now, normativas, Criterios(normativas))
    {
      var cs := ExtraerCriteriosOperativos(normativas);
      config := Configurar(municipio, now, normativas, cs);
    }

    /**
     * `guardarAnalisis`: the configuration written to the output file, or
     * nothing when writing fails; the failure is only logged.
     */
    method GuardarAnalisis(municipio: string, now: string, writeSucceeds: bool) returns (written: Option<Configuracion>)
      ensures writeSucceeds ==> written == Some(Configurar(municipio, now, normativas, Criterios(normativas)))
      ensures !writeSucceeds ==> written.None?
    {
      var config := GenerarConfiguracionOperativa(municipio, now);
      written := if writeSucceeds then Some(config) else None;
    }
  }

  /**
   * `analizarNormativaAlmassora`: the municipal regulations are looked up and
   * their criteria extracted (for the log only); the configuration saved and
   * the one returned are over the two built-in regulations. Each is built by
   * its own `generarConfiguracionOperativa` call, so each carries its own
   * `new Date()`: `nowSaved` for the saved one, `nowReturned` for the result.
   */
  method AnalizarNormativaAlmassora(file: MunicipalFile, nowSaved: string, nowReturned: string, writeSucceeds: bool)
    returns (found: seq<NormativaValenciana>, extracted: seq<CriterioOperativo>, written: Option<Configuracion>, result: Configuracion)
    ensures found == (if file.Entries? then BaseNormativas() + file.entries else BaseNormativas())
    ensures extracted == Criterios(found)
    ensures written == (if writeSucceeds then Some(Configurar("Almassora", nowSaved, BaseNormativas(), Criterios(BaseNormativas()))) else None)
    ensures result == Configurar("Almassora", nowReturned, BaseNormativas(), Criterios(BaseNormativas()))
  {
    var analyzer := new Analyzer();
    found := analyzer.AnalizarNormativaMunicipal(file);
    extracted := analyzer.ExtraerCriteriosOperativos(found);
    written := analyzer.GuardarAnalisis("Almassora", nowSaved, writeSucceeds);
    result := analyzer.GenerarConfiguracionOperativa("Almassora", nowReturned);
  }

  /**
   * The saved and the returned configurations of `analizarNormativaAlmassora`
   * differ at most in their analysis date.
   */
  lemma SavedMatchesReturned(nowSaved: string, nowReturned: string)
    ensures var saved, returned := Configurar("Almassora", nowSaved, BaseNormativas(), Criterios(BaseNormativas())),
                                   Configurar("Almassora", nowReturned, BaseNormativas(), Criterios(BaseNormativas()));
            && saved.fechaAnalisis == nowSaved && returned.fechaAnalisis == nowReturned
            && saved.(fechaAnalisis := nowReturned) == returned
  {
  }

  // ------------------------------------------------------------ properties

  /** The municipal list never loses the built-in regulations, and an unreadable file changes nothing. */
  lemma MunicipalKeepsBase(base: seq<NormativaValenciana>, file: MunicipalFile)
    ensures var r := if file.Entries? then base + file.entries else base;
            && |r| >= |base| && r[..|base|] == base
            && (file.Entries? ==> r[|base|..] == file.entries)
            && (!file.Entries? ==> r == base)
  {
  }

  /** The criteria of a concatenation are those of its parts: the municipal criteria follow the built-in ones. */
  lemma CriteriosAppend(ns: seq<NormativaValenciana>, ms: seq<NormativaValenciana>)
    ensures Criterios(ns + ms) == Criterios(ns) + Criterios(ms)
  {
    CriteriosFlatMap(ns + ms);
    CriteriosFlatMap(ns);
    CriteriosFlatMap(ms);
    FlatMapAppend(ns, ms, CriteriaOf);
  }

  lemma Distancia200Letters()
    ensures |Distancia200| > 71 && Distancia200[8] == ' ' && IsDigit(Distancia200[9]) && IsDigit(Distancia200[10])
    ensures Distancia200[11] == ':'
    ensures forall k :: 0 <= k < 8 ==> !IsDigit(Distancia200[k])
  {
  }

  lemma Distancia200Middle()
    ensures |Distancia200| > 71
    ensures forall k :: 12 <= k < 40 ==> !IsDigit(Distancia200[k])
  {
  }

  lemma Distancia200Tail()
    ensures |Distancia200| > 71
    ensures forall k :: 40 <= k < 69 ==> !IsDigit(Distancia200[k])
  {
  }

  lemma Distancia200Digits()
    ensures |Distancia200| > 73
    ensures Distancia200[69] == '2' && Distancia200[70] == '0' && Distancia200[71] == '0'
    ensures Distancia200[72] == ' ' && Distancia200[73] == 'm'
  {
  }

  /** The law's text gives 200 metres (its article number 67 is skipped). */
  lemma Distancia200Value()
    ensures MetrosValue(Distancia200) == Some(200)
  {
    Distancia200Letters();
    Decreto30.Head(Distancia200);
    Distancia200Middle();
    Distancia200Tail();
    Decreto30.NoMatchWithoutDigits(Distancia200, 12, 69);
    Distancia200Digits();
    Decreto30.ThreeDigitsAt(Distancia200, 69);
    Decreto30.MatchOfRun(Distancia200, 69, 72, 73);
    Decreto30.LeftmostAt(Distancia200, 69);
  }

  /** The law's two criteria. */
  function LeyExpected(): seq<CriterioOperativo> {
    [CriterioOperativo(DistanciaSeguridad, Distancia200, LeyTitulo, Number(200), Some(Metros), LeyFecha),
     CriterioOperativo(CriterioActivacion, LeyActivacion, LeyTitulo, Text(LeyActivacion), None, LeyFecha)]
  }

  lemma LeyCriteria()
    ensures CriteriaOf(Ley10()) == LeyExpected()
  {
    Distancia200Value();
    OneDistance(LeyTitulo, LeyFecha, Distancia200);
    OneActivation(LeyTitulo, LeyFecha, LeyActivacion);
  }

  /** The built-in regulations yield six criteria: the decree's four, then the law's two. */
  lemma BaseCriteria()
    ensures Criterios(BaseNormativas()) == Decreto30.Expected() + LeyExpected()
  {
    Decreto30.DecretoCriteria(Some(DecretoUrl));
    CriteriosOne(Decreto30.Decreto(Some(DecretoUrl)));
    LeyCriteria();
    CriteriosTwo(Decreto30.Decreto(Some(DecretoUrl)), Ley10());
  }

  /** With the built-in data the recommended minimum safety distance is 200 metres, whatever the municipality. */
  lemma BaseMinimumIs200(municipio: string, now: string)
    ensures Configurar(municipio, now, BaseNormativas(), Criterios(BaseNormativas())).recomendada.distanciaMinimaSeguridad == Finite(200)
  {
    BaseCriteria();
    Decreto30.DecretoMinimum();
    MinDistanceAppend(Decreto30.Expected(), LeyExpected());
    var l := LeyExpected();
    assert l[..1] == [l[0]] && [l[0]][..0] == [];
  }
}
