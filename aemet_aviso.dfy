/**
 * The warning record of `public/data/aemet_avisos.json` as the brain and
 * pre-alert agents read it (agents/brain.ts and agents/prealert.ts declare the
 * same type `AvisoAEMET`). Optional fields are `Option`s; `nivel` is kept as the
 * string found in the file, since nothing checks it against the three levels.
 */
module AemetAviso {
  import opened Wrappers

  const Critica := "CRÍTICA"
  const Media := "MEDIA"
  const Normalidad := "NORMALIDAD"

  datatype Parametro = Parametro(valueName: string, value: string)

  datatype AvisoAemet = AvisoAemet(
    id: string,
    subzona: Option<string>,
    zona: Option<string>,
    nivel: string,
    evento: Option<string>,
    desde: Option<string>,
    hasta: Option<string>,
    desc: Option<string>,
    probabilidad: Option<string>,
    valor: Option<string>,
    comentario: Option<string>,
    parametros: Option<seq<Parametro>>,
    origenXml: Option<string>,
    area: Option<string>)

  /**
   * What `readJsonSafe(avisosPath, [])` gives for the warnings file: a
   * missing or corrupt file reads as the fallback `[]`; a file that parses
   * gives its value, which is either a list of warnings or some other JSON
   * value (null, a number, a string, an object).
   */
  datatype AvisosFile = Unreadable | Avisos(avisos: seq<AvisoAemet>) | NotAList

  /** The batch a readable list file holds, the fallback `[]` for an unreadable one. */
  function Batch(f: AvisosFile): (avisos: seq<AvisoAemet>)
    requires !f.NotAList?
    ensures f.Avisos? ==> avisos == f.avisos
    ensures f.Unreadable? ==> avisos == []
  {
    if f.Avisos? then f.avisos else []
  }

  /** The ids of a batch, as the set `new Set(avisos.map(a => a.id))`. */
  function Ids(avisos: seq<AvisoAemet>): (ids: set<string>)
    ensures forall a :: a in avisos ==> a.id in ids
    ensures forall id :: id in ids ==> exists a :: a in avisos && a.id == id
  {
    set a | a in avisos :: a.id
  }
}
