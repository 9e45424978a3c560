/**
 * `analizarNormativaAlmassora` of scripts/analizar-normativa-simple.ts: the
 * same extraction over the decree alone (without its `url`), saved to
 * `public/data/normativa_almassora.json`; a failed write is rethrown and the
 * script exits with status 1.
 */
module NormativaSimple {
  import opened Wrappers
  import opened Normativa
  import Decreto30

  /** Why the script fails: the output file could not be written. */
  datatype Failure = WriteFailed

  /** The script's analysis, with `now` for the clock and `writeSucceeds` for the file system. */
  method AnalizarNormativaAlmassora(now: string, writeSucceeds: bool) returns (r: Result<Configuracion, Failure>)
    ensures writeSucceeds ==> r == Ok(Configurar("Almassora", now, [Decreto30.Decreto(None)], Criterios([Decreto30.Decreto(None)])))
    ensures !writeSucceeds ==> r == Err(WriteFailed)
  {
    var normativas := [Decreto30.Decreto(None)];
    var criterios := ExtractCriteria(normativas);
    var configuracion := Configurar("Almassora", now, normativas, criterios);
    if !writeSucceeds {
      return Err(WriteFailed);
    }
    return Ok(configuracion);
  }

  /** `main`: exit status 1 when the analysis throws, else 0. */
  function ExitStatus(r: Result<Configuracion, Failure>): (status: nat)
    ensures status == 0 <==> r.Ok?
    ensures status <= 1
  {
    if r.Ok? then 0 else 1
  }

  /**
   * A successful run extracts four criteria, 500 then 300 metres and then the
   * two activation texts, lists the decree as the one applicable regulation,
   * and recommends a minimum safety distance of 300 metres.
   */
  lemma SuccessfulRun(now: string)
    ensures var c := Configurar("Almassora", now, [Decreto30.Decreto(None)], Criterios([Decreto30.Decreto(None)]));
            && c.criteriosExtraidos == Decreto30.Expected()
            && |c.criteriosExtraidos| == 4
            && c.criteriosExtraidos[0].valor == Number(500) && c.criteriosExtraidos[1].valor == Number(300)
            && c.criteriosExtraidos[2].tipo == CriterioActivacion && c.criteriosExtraidos[3].tipo == CriterioActivacion
            && c.recomendada.distanciaMinimaSeguridad == Finite(300)
            && |c.normativasAplicables| == 1 && c.normativasAplicables[0].id == "decreto_30_2015"
  {
    Decreto30.DecretoCriteria(None);
    Decreto30.DecretoMinimum();
  }
}
