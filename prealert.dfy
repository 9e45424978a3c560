/**
 * The pre-alert agent of agents/prealert.ts: it keeps the warnings at level
 * MEDIA or CRÍTICA, in input order, and turns each into a pre-alert task with
 * null (here `None`) or empty-string defaults for the missing fields.
 */
module Prealert {
  import opened Wrappers
  import opened Seqs
  import opened AemetAviso

  const TaskPrefix := "prealert-"

  datatype Ventana = Ventana(desde: Option<string>, hasta: Option<string>)

  datatype Task = Task(
    id: string,
    subzona: Option<string>,
    zona: Option<string>,
    nivel: string,
    evento: string,
    ventana: Ventana,
    descripcion: string,
    probabilidad: Option<string>,
    comentario: Option<string>,
    origenXml: Option<string>,
    createdAt: string)

  datatype PrealertUi = PrealertUi(lastRunAt: string, total: nat, items: seq<Task>)

  /** `isRelevant`: MEDIA and CRÍTICA warnings become pre-alerts. */
  predicate IsRelevant(a: AvisoAemet) {
    a.nivel == Media || a.nivel == Critica
  }

  /** The task built for one relevant warning. */
  function ToTask(a: AvisoAemet, now: string): Task {
    Task(TaskPrefix + a.id, a.subzona, a.zona, a.nivel, a.evento.GetOr(""),
         Ventana(a.desde, a.hasta), a.desc.GetOr(""),
         a.probabilidad, a.comentario, a.origenXml, now)
  }

  /** `relevantes.map(...)` */
  function Tasks(relevantes: seq<AvisoAemet>, now: string): (tasks: seq<Task>)
    ensures |tasks| == |relevantes|
    ensures forall i :: 0 <= i < |tasks| ==> tasks[i] == ToTask(relevantes[i], now)
  {
    seq(|relevantes|, i requires 0 <= i < |relevantes| => ToTask(relevantes[i], now))
  }

  /** The file `prealert_ui.json` for one batch. */
  function Prealerts(avisos: seq<AvisoAemet>, now: string): PrealertUi {
    var tasks := Tasks(Filter(avisos, IsRelevant), now);
    PrealertUi(now, |tasks|, tasks)
  }

  /**
   * `run`: `readJsonSafe(avisosPath, [])` reads a missing or corrupt file as
   * no warnings. A file that parses to something other than a list has no
   * `filter`: the call throws, the process exits and nothing is written
   * (`None`).
   */
  function Run(avisosFile: AvisosFile, now: string): (written: Option<PrealertUi>)
    ensures written.None? <==> avisosFile.NotAList?
    ensures avisosFile.Avisos? ==> written == Some(Prealerts(avisosFile.avisos, now))
    ensures avisosFile.Unreadable? ==> written == Some(Prealerts([], now))
  {
    if avisosFile.NotAList? then None else Some(Prealerts(Batch(avisosFile), now))
  }

  /** A task's id gives back its warning's id. */
  lemma TaskIdRoundTrip(a: AvisoAemet, now: string)
    ensures var id := ToTask(a, now).id;
            |id| >= |TaskPrefix| && id[..|TaskPrefix|] == TaskPrefix && id[|TaskPrefix|..] == a.id
  {
  }

  /** A task keeps what was present and fills what was missing with null or the empty string. */
  lemma TaskDefaults(a: AvisoAemet, now: string)
    ensures var t := ToTask(a, now);
            && (a.subzona.None? <==> t.subzona.None?)
            && (a.zona.None? <==> t.zona.None?)
            && (a.probabilidad.None? <==> t.probabilidad.None?)
            && (a.comentario.None? <==> t.comentario.None?)
            && (a.origenXml.None? <==> t.origenXml.None?)
            && (a.desde.None? <==> t.ventana.desde.None?)
            && (a.hasta.None? <==> t.ventana.hasta.None?)
            && (a.evento.None? ==> t.evento == "")
            && (a.evento.Some? ==> t.evento == a.evento.value)
            && (a.desc.None? ==> t.descripcion == "")
            && (a.desc.Some? ==> t.descripcion == a.desc.value)
            && t.nivel == a.nivel
  {
  }

  /**
   * Exactly the relevant warnings become tasks, in input order: the tasks'
   * source ids are those of the relevant warnings, every relevant warning has
   * a task, every task is at MEDIA or CRÍTICA, all share `lastRunAt`, and
   * `total` counts them.
   */
  lemma PrealertsProperties(avisos: seq<AvisoAemet>, now: string)
    ensures var ui := Prealerts(avisos, now);
            && ui.total == |ui.items| == |Filter(avisos, IsRelevant)|
            && (forall i :: 0 <= i < |ui.items| ==> ui.items[i].id == TaskPrefix + Filter(avisos, IsRelevant)[i].id)
            && (forall t :: t in ui.items ==> t.nivel == Media || t.nivel == Critica)
            && (forall t :: t in ui.items ==> t.createdAt == ui.lastRunAt == now)
            && (forall a :: a in avisos && IsRelevant(a) ==> ToTask(a, now) in ui.items)
  {
    var rel := Filter(avisos, IsRelevant);
    var ui := Prealerts(avisos, now);
    forall a | a in avisos && IsRelevant(a) ensures ToTask(a, now) in ui.items {
      var i :| 0 <= i < |rel| && rel[i] == a;
      assert ui.items[i] == ToTask(a, now);
    }
    forall t | t in ui.items ensures t.nivel == Media || t.nivel == Critica {
      var i :| 0 <= i < |ui.items| && ui.items[i] == t;
      assert rel[i] in rel;
    }
  }

  /** Dropping warnings that are not relevant does not change the tasks. */
  lemma {:induction false} IrrelevantIgnored(avisos: seq<AvisoAemet>, a: AvisoAemet, now: string)
    requires !IsRelevant(a)
    ensures Prealerts(avisos + [a], now) == Prealerts(avisos, now)
  {
    FilterSnoc(avisos, a, IsRelevant);
  }

  /** A missing or corrupt input still writes a file, with no tasks. */
  lemma UnreadableInputNoTasks(now: string)
    ensures Run(Unreadable, now).Some?
    ensures Run(Unreadable, now).value.total == 0 && Run(Unreadable, now).value.items == []
  {
  }
}
