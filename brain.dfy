/**
 * The main agent of agents/brain.ts: it folds the current batch of warnings
 * into a living memory keyed by subzone (or zone), purges warnings that are no
 * longer in the batch, and builds the compact UI view with the worst severity
 * of every key.
 *
 * The memory is the object `memory`, updated in place; here it is the `states`
 * field of class `Memory`, and each step is a method whose postcondition ties
 * the new state to a function of the old one. The properties the agent relies
 * on are lemmas about those functions.
 */
module Brain {
  import opened Wrappers
  import opened Seqs
  import opened AemetAviso
  import PropertyOrder

  const UnknownKey := "desconocida"

  /** `rank`: 0 for CRÍTICA, 1 for MEDIA, 2 for NORMALIDAD; any other level has none (`undefined`). */
  function Rank(nivel: string): (r: Option<nat>)
    ensures r == Some(0) <==> nivel == Critica
    ensures r == Some(1) <==> nivel == Media
    ensures r == Some(2) <==> nivel == Normalidad
    ensures r.Some? <==> nivel == Critica || nivel == Media || nivel == Normalidad
    ensures r.Some? ==> r.value <= 2
  {
    if nivel == Critica then Some(0)
    else if nivel == Media then Some(1)
    else if nivel == Normalidad then Some(2)
    else None
  }

  /**
   * What `rank[nivel]` reads: the number of one of the three levels, the
   * value `rank` inherits under a name of `Object.prototype` (a different one
   * for each name), or `undefined` for any other level.
   */
  datatype RankValue = Number(n: nat) | InheritedValue(name: string) | Undefined

  function RankLookup(nivel: string): RankValue {
    var r := Rank(nivel);
    if r.Some? then Number(r.value)
    else if nivel in PropertyOrder.ObjectPrototypeNames then InheritedValue(nivel)
    else Undefined
  }

  /** `rank[a] < rank[b]`: false as soon as one side is not a number (undefined, or an inherited value, compares as NaN). */
  predicate MoreSevere(a: string, b: string) {
    Rank(a).Some? && Rank(b).Some? && Rank(a).value < Rank(b).value
  }

  /** `rank[a] === rank[b]`: the same value is read for both. */
  predicate SameRank(a: string, b: string) {
    RankLookup(a) == RankLookup(b)
  }

  /** Two levels have the same rank exactly when they are ranked alike, are the same inherited name, or are both unknown. */
  lemma SameRankCases(a: string, b: string)
    ensures SameRank(a, b) <==>
              || (Rank(a).Some? && Rank(a) == Rank(b))
              || (a in PropertyOrder.ObjectPrototypeNames && a == b)
              || (&& Rank(a).None? && a !in PropertyOrder.ObjectPrototypeNames
                  && Rank(b).None? && b !in PropertyOrder.ObjectPrototypeNames)
  {
  }

  /** The state stored for one key; `avisos` may be absent in a memory file. */
  datatype SubzonaState = SubzonaState(estado: string, lastUpdate: string, avisos: Option<seq<AvisoAemet>>)

  /** A non-empty string is truthy. */
  predicate Truthy(s: Option<string>) {
    s.Some? && s.value != ""
  }

  /** `aviso.subzona || aviso.zona || 'desconocida'` */
  function KeyOf(a: AvisoAemet): (key: string)
    ensures key != ""
    ensures Truthy(a.subzona) ==> key == a.subzona.value
    ensures !Truthy(a.subzona) && Truthy(a.zona) ==> key == a.zona.value
    ensures !Truthy(a.subzona) && !Truthy(a.zona) ==> key == UnknownKey
  {
    if Truthy(a.subzona) then a.subzona.value
    else if Truthy(a.zona) then a.zona.value
    else UnknownKey
  }

  // ------------------------------------------------------------ upsert by id

  /** `list.findIndex(a => a.id === id)`, with `None` for -1. */
  function FindId(list: seq<AvisoAemet>, id: string): (r: Option<nat>)
    ensures r.Some? ==> r.value < |list| && list[r.value].id == id
    ensures r.Some? ==> forall j :: 0 <= j < r.value ==> list[j].id != id
    ensures r.None? ==> forall j :: 0 <= j < |list| ==> list[j].id != id
  {
    if list == [] then None
    else if list[0].id == id then Some(0)
    else
      var rest := FindId(list[1..], id);
      if rest.Some? then Some(rest.value + 1) else None
  }

  /** The warning replaces the first one with its id, or is appended. */
  function Upsert(list: seq<AvisoAemet>, a: AvisoAemet): seq<AvisoAemet> {
    var idx := FindId(list, a.id);
    if idx.Some? then list[idx.value := a] else list + [a]
  }

  /** No two stored warnings share an id. */
  predicate UniqueIds(list: seq<AvisoAemet>) {
    forall i, j :: 0 <= i < j < |list| ==> list[i].id != list[j].id
  }

  /** The ids after an upsert are the ids before plus the new one, which is now stored; no id is duplicated. */
  lemma UpsertIds(list: seq<AvisoAemet>, a: AvisoAemet)
    ensures a in Upsert(list, a)
    ensures forall b :: b in Upsert(list, a) ==> b == a || b in list
    ensures forall b :: b in list && b.id != a.id ==> b in Upsert(list, a)
    ensures |Upsert(list, a)| == if exists b :: b in list && b.id == a.id then |list| else |list| + 1
    ensures UniqueIds(list) ==> UniqueIds(Upsert(list, a))
  {
    var idx := FindId(list, a.id);
    if idx.Some? {
      var r := list[idx.value := a];
      assert r[idx.value] == a;
      forall b | b in r ensures b == a || b in list {
        var k :| 0 <= k < |r| && r[k] == b;
        if k != idx.value {
          assert list[k] == b;
        }
      }
      forall b | b in list && b.id != a.id ensures b in r {
        var k :| 0 <= k < |list| && list[k] == b;
        assert r[k] == b;
      }
      assert list[idx.value] in list;
    } else {
      assert (list + [a])[|list|] == a;
      assert !exists b :: b in list && b.id == a.id;
    }
  }

  // ------------------------------------------------------------ merging one warning

  /**
   * The memory after integrating one warning (the body of the merge loop). A
   * key the memory does not hold but inherits reads as a truthy value without
   * `estado`: no warning is more severe than it, so no key is created. (A
   * warning whose level has no rank is then upserted into the inherited value
   * itself, which `JSON.stringify(memory)` does not write.)
   */
  function Merged(m: map<string, SubzonaState>, a: AvisoAemet, now: string): map<string, SubzonaState> {
    var key := KeyOf(a);
    if key !in m && key in PropertyOrder.ObjectPrototypeNames then
      m
    else if key !in m || MoreSevere(a.nivel, m[key].estado) then
      m[key := SubzonaState(a.nivel, now, Some([a]))]
    else if SameRank(a.nivel, m[key].estado) then
      m[key := m[key].(avisos := Some(Upsert(m[key].avisos.GetOr([]), a)), lastUpdate := now)]
    else
      m
  }

  /**
   * An unseen key, or a strictly more severe warning, starts the key over with
   * that one warning; an unseen key that the memory inherits is not created.
   */
  lemma MergedReplaces(m: map<string, SubzonaState>, a: AvisoAemet, now: string)
    requires KeyOf(a) !in m || MoreSevere(a.nivel, m[KeyOf(a)].estado)
    ensures KeyOf(a) !in m && KeyOf(a) in PropertyOrder.ObjectPrototypeNames ==> Merged(m, a, now) == m
    ensures KeyOf(a) in m || KeyOf(a) !in PropertyOrder.ObjectPrototypeNames ==>
              && Merged(m, a, now) == m[KeyOf(a) := SubzonaState(a.nivel, now, Some([a]))]
              && Merged(m, a, now)[KeyOf(a)].avisos.value == [a]
  {
  }

  /** A warning of the same rank is upserted by id into the key's list, and the level stays. */
  lemma MergedUpserts(m: map<string, SubzonaState>, a: AvisoAemet, now: string)
    requires KeyOf(a) in m && !MoreSevere(a.nivel, m[KeyOf(a)].estado) && SameRank(a.nivel, m[KeyOf(a)].estado)
    ensures var s := Merged(m, a, now)[KeyOf(a)];
            && s.estado == m[KeyOf(a)].estado
            && s.lastUpdate == now
            && s.avisos == Some(Upsert(m[KeyOf(a)].avisos.GetOr([]), a))
            && a in s.avisos.value
  {
    UpsertIds(m[KeyOf(a)].avisos.GetOr([]), a);
  }

  /** A less severe warning (or one whose rank differs without being lower) changes nothing. */
  lemma MergedIgnores(m: map<string, SubzonaState>, a: AvisoAemet, now: string)
    requires KeyOf(a) in m && !MoreSevere(a.nivel, m[KeyOf(a)].estado) && !SameRank(a.nivel, m[KeyOf(a)].estado)
    ensures Merged(m, a, now) == m
  {
  }

  /** `a` is `b`, or strictly more severe than it. */
  predicate AtLeastAsSevere(a: string, b: string) {
    a == b || MoreSevere(a, b)
  }

  /**
   * Only the warning's key changes, the key is then present unless it is an
   * inherited name, and no level becomes less severe.
   */
  lemma MergedMonotone(m: map<string, SubzonaState>, a: AvisoAemet, now: string)
    ensures KeyOf(a) !in PropertyOrder.ObjectPrototypeNames ==> Merged(m, a, now).Keys == m.Keys + {KeyOf(a)}
    ensures KeyOf(a) in PropertyOrder.ObjectPrototypeNames ==> Merged(m, a, now).Keys == m.Keys
    ensures forall k :: k in m && k != KeyOf(a) ==> Merged(m, a, now)[k] == m[k]
    ensures forall k :: k in m ==> AtLeastAsSevere(Merged(m, a, now)[k].estado, m[k].estado)
  {
  }

  /** The memory after the whole merge loop over `avisos`. */
  function MergeAll(m: map<string, SubzonaState>, avisos: seq<AvisoAemet>, now: string): map<string, SubzonaState> {
    if avisos == [] then m else Merged(MergeAll(m, avisos[..|avisos| - 1], now), avisos[|avisos| - 1], now)
  }

  /** After the merge, the keys are the old ones plus the key of every warning, except the inherited names. */
  lemma {:induction false} MergeAllKeys(m: map<string, SubzonaState>, avisos: seq<AvisoAemet>, now: string)
    ensures MergeAll(m, avisos, now).Keys ==
              m.Keys + set a | a in avisos && KeyOf(a) !in PropertyOrder.ObjectPrototypeNames :: KeyOf(a)
  {
    if avisos != [] {
      var init, last := avisos[..|avisos| - 1], avisos[|avisos| - 1];
      MergeAllKeys(m, init, now);
      MergedMonotone(MergeAll(m, init, now), last, now);
      assert avisos == init + [last];
    }
  }

  /** No stored level gets less severe during the merge loop. */
  lemma {:induction false} MergeAllNeverLessSevere(m: map<string, SubzonaState>, avisos: seq<AvisoAemet>, now: string, k: string)
    requires k in m
    ensures k in MergeAll(m, avisos, now)
    ensures AtLeastAsSevere(MergeAll(m, avisos, now)[k].estado, m[k].estado)
  {
    if avisos != [] {
      var init, last := avisos[..|avisos| - 1], avisos[|avisos| - 1];
      MergeAllNeverLessSevere(m, init, now, k);
      MergedMonotone(MergeAll(m, init, now), last, now);
    }
  }

  /** Every stored list with distinct ids keeps distinct ids through the merge. */
  ghost predicate AllUniqueIds(m: map<string, SubzonaState>) {
    forall k :: k in m && m[k].avisos.Some? ==> UniqueIds(m[k].avisos.value)
  }

  lemma {:induction false} MergeAllUniqueIds(m: map<string, SubzonaState>, avisos: seq<AvisoAemet>, now: string)
    requires AllUniqueIds(m)
    ensures AllUniqueIds(MergeAll(m, avisos, now))
  {
    if avisos != [] {
      var init, a := avisos[..|avisos| - 1], avisos[|avisos| - 1];
      MergeAllUniqueIds(m, init, now);
      var before := MergeAll(m, init, now);
      var key := KeyOf(a);
      if key in before && !MoreSevere(a.nivel, before[key].estado) && SameRank(a.nivel, before[key].estado) {
        UpsertIds(before[key].avisos.GetOr([]), a);
      }
    }
  }

  // ------------------------------------------------------------ purge

  /** One key's state after the purge: only warnings of the batch stay; an emptied list resets the key to NORMALIDAD. */
  function Purged(s: SubzonaState, ids: set<string>, now: string): SubzonaState {
    if s.avisos.None? then s
    else
      var kept := Filter(s.avisos.value, (a: AvisoAemet) => a.id in ids);
      if kept == [] then SubzonaState(Normalidad, now, Some(kept)) else s.(avisos := Some(kept))
  }

  function PurgeAll(m: map<string, SubzonaState>, ids: set<string>, now: string): map<string, SubzonaState> {
    map k | k in m :: Purged(m[k], ids, now)
  }

  /** After the purge every stored warning is in the batch, in its old order; emptied keys are NORMALIDAD; keys stay. */
  lemma PurgeProperties(m: map<string, SubzonaState>, ids: set<string>, now: string)
    ensures PurgeAll(m, ids, now).Keys == m.Keys
    ensures forall k, a :: k in m && PurgeAll(m, ids, now)[k].avisos.Some? && a in PurgeAll(m, ids, now)[k].avisos.value
              ==> a.id in ids && a in m[k].avisos.value
    ensures forall k :: k in m && PurgeAll(m, ids, now)[k].avisos == Some([]) ==> PurgeAll(m, ids, now)[k].estado == Normalidad
    ensures forall k :: k in m && PurgeAll(m, ids, now)[k].avisos.Some? && PurgeAll(m, ids, now)[k].avisos != Some([])
              ==> PurgeAll(m, ids, now)[k].estado == m[k].estado
    ensures forall k :: k in m && m[k].avisos.None? ==> PurgeAll(m, ids, now)[k] == m[k]
  {
  }

  /** Filtering keeps distinct ids distinct. */
  lemma PurgeKeepsUniqueIds(m: map<string, SubzonaState>, ids: set<string>, now: string)
    requires AllUniqueIds(m)
    ensures AllUniqueIds(PurgeAll(m, ids, now))
  {
    forall k | k in m && m[k].avisos.Some?
      ensures UniqueIds(PurgeAll(m, ids, now)[k].avisos.value)
    {
      FilterKeepsUniqueIds(m[k].avisos.value, (a: AvisoAemet) => a.id in ids);
    }
  }

  lemma {:induction false} FilterKeepsUniqueIds(list: seq<AvisoAemet>, p: AvisoAemet -> bool)
    requires UniqueIds(list)
    ensures UniqueIds(Filter(list, p))
  {
    if list != [] {
      var init, last := list[..|list| - 1], list[|list| - 1];
      assert list == init + [last];
      FilterSnoc(init, last, p);
      FilterKeepsUniqueIds(init, p);
      if p(last) {
        forall b | b in Filter(init, p) ensures b.id != last.id {
          var i :| 0 <= i < |init| && init[i] == b;
          assert list[i] == b;
        }
        UniqueIdsSnoc(Filter(init, p), last);
      }
    }
  }

  lemma UniqueIdsSnoc(list: seq<AvisoAemet>, a: AvisoAemet)
    requires UniqueIds(list) && forall b :: b in list ==> b.id != a.id
    ensures UniqueIds(list + [a])
  {
    forall i, j | 0 <= i < j < |list| + 1 ensures (list + [a])[i].id != (list + [a])[j].id {
      if j == |list| {
        assert list[i] in list;
      }
    }
  }

  // ------------------------------------------------------------ UI view

  /** The UI ordering of warnings: `rank[a.nivel]`, with a level outside the three placed last. */
  function SortKey(a: AvisoAemet): int {
    var r := Rank(a.nivel);
    if r.Some? then r.value else 3
  }

  /** The UI area of one key: its level and its warnings sorted by rank when worse than NORMALIDAD, else an empty NORMALIDAD area. */
  function UiArea(s: SubzonaState, now: string): SubzonaState {
    if MoreSevere(s.estado, Normalidad) then SubzonaState(s.estado, now, Some(SortBy(s.avisos.GetOr([]), SortKey)))
    else SubzonaState(Normalidad, now, Some([]))
  }

  /**
   * The areas of the view. For a key named like an inherited property,
   * `ui.areas[key]` is already truthy, and the inherited value has no `estado`
   * to compare with, so the key gets no area.
   */
  function UiAreas(m: map<string, SubzonaState>, now: string): map<string, SubzonaState> {
    map k | k in m && k !in PropertyOrder.ObjectPrototypeNames :: UiArea(m[k], now)
  }

  datatype Ui = Ui(lastRunAt: string, areas: map<string, SubzonaState>)

  /**
   * One area per memory key that is not an inherited name. A key at CRÍTICA or
   * MEDIA keeps its level and lists its warnings as a stable sort by rank; any
   * other key is an empty NORMALIDAD area.
   */
  lemma UiProperties(m: map<string, SubzonaState>, now: string, k: string, v: int)
    requires k in m
    ensures UiAreas(m, now).Keys == m.Keys - PropertyOrder.ObjectPrototypeNames
    ensures k !in PropertyOrder.ObjectPrototypeNames ==>
            var area := UiAreas(m, now)[k];
            && area.avisos.Some?
            && (m[k].estado == Critica || m[k].estado == Media ==>
                  && area.estado == m[k].estado
                  && multiset(area.avisos.value) == multiset(m[k].avisos.GetOr([]))
                  && SortedBy(area.avisos.value, SortKey)
                  && Filter(area.avisos.value, KeyIs(SortKey, v)) == Filter(m[k].avisos.GetOr([]), KeyIs(SortKey, v)))
            && (m[k].estado != Critica && m[k].estado != Media ==>
                  area.estado == Normalidad && area.avisos.value == [])
  {
    SortByStable(m[k].avisos.GetOr([]), SortKey, v);
  }

  // ------------------------------------------------------------ the agent

  /** The living memory of the agent (`memory/state.json` once loaded). */
  class Memory {
    var states: map<string, SubzonaState>

    constructor (loaded: map<string, SubzonaState>)
      ensures states == loaded
    {
      states := loaded;
    }

    /** One pass of the merge loop. */
    method Integrate(a: AvisoAemet, now: string)
      modifies this
      ensures states == Merged(old(states), a, now)
    {
      var key := KeyOf(a);
      if key !in states && key in PropertyOrder.ObjectPrototypeNames {
        return;
      }
      if key !in states || MoreSevere(a.nivel, states[key].estado) {
        states := states[key := SubzonaState(a.nivel, now, Some([a]))];
      } else if SameRank(a.nivel, states[key].estado) {
        var list := states[key].avisos.GetOr([]);
        var idx := FindId(list, a.id);
        if idx.Some? {
          list := list[idx.value := a];
        } else {
          list := list + [a];
        }
        states := states[key := states[key].(avisos := Some(list))];
        states := states[key := states[key].(lastUpdate := now)];
      }
    }

    /** The merge loop over the batch, in order. */
    method IntegrateAll(avisos: seq<AvisoAemet>, now: string)
      modifies this
      ensures states == MergeAll(old(states), avisos, now)
    {
      for i := 0 to |avisos|
        invariant states == MergeAll(old(states), avisos[..i], now)
      {
        assert avisos[..i + 1][..i] == avisos[..i];
        Integrate(avisos[i], now);
      }
      assert avisos[..|avisos|] == avisos;
    }

    /** The purge loop over every key; each key is visited once and the order does not matter. */
    method Purge(ids: set<string>, now: string)
      modifies this
      ensures states == PurgeAll(old(states), ids, now)
    {
      var todo := states.Keys;
      ghost var start := states;
      while todo != {}
        invariant todo <= start.Keys && states.Keys == start.Keys
        invariant forall k :: k in start && k !in todo ==> states[k] == Purged(start[k], ids, now)
        invariant forall k :: k in todo ==> states[k] == start[k]
        decreases todo
      {
        var k :| k in todo;
        var s := states[k];
        if s.avisos.Some? {
          var kept := Filter(s.avisos.value, (a: AvisoAemet) => a.id in ids);
          s := s.(avisos := Some(kept));
          if kept == [] {
            s := s.(estado := Normalidad, lastUpdate := now);
          }
        }
        states := states[k := s];
        todo := todo - {k};
      }
    }

    /** The loop over `Object.entries(memory)` that fills `ui.areas`. */
    method BuildUi(now: string) returns (ui: Ui)
      ensures ui == Ui(now, UiAreas(states, now))
    {
      var areas: map<string, SubzonaState> := map[];
      var todo := states.Keys;
      while todo != {}
        invariant todo <= states.Keys
        invariant areas.Keys == states.Keys - todo - PropertyOrder.ObjectPrototypeNames
        invariant forall k :: k in areas ==> areas[k] == UiArea(states[k], now)
        decreases todo
      {
        var key :| key in todo;
        var state := states[key];
        if key !in areas && key !in PropertyOrder.ObjectPrototypeNames {
          areas := areas[key := SubzonaState(Normalidad, now, Some([]))];
        }
        if key in areas {
          var current := areas[key];
          if MoreSevere(state.estado, current.estado) {
            areas := areas[key := SubzonaState(state.estado, now, Some(SortBy(state.avisos.GetOr([]), SortKey)))];
          }
        }
        todo := todo - {key};
      }
      ui := Ui(now, areas);
    }
  }

  /** What `run` leaves behind: nothing, when it throws, or the memory and the view it wrote. */
  datatype RunOutcome = Crashed | Written(stored: map<string, SubzonaState>, ui: Ui)

  /**
   * `run`: the batch and the memory file are read with `[]` and `{}` as the
   * fallback for a missing or corrupt file; the new memory and the UI view
   * are what the agent writes. A batch that parses to something other than a
   * list throws before anything is written: `for...of` fails on a value that
   * is not iterable, and `avisos.map` on a string.
   */
  method Run(avisosFile: AvisosFile, memoryFile: Option<map<string, SubzonaState>>, now: string)
    returns (outcome: RunOutcome)
    ensures avisosFile.NotAList? <==> outcome.Crashed?
    ensures !avisosFile.NotAList? ==>
              var avisos := Batch(avisosFile);
              var stored := PurgeAll(MergeAll(memoryFile.GetOr(map[]), avisos, now), Ids(avisos), now);
              outcome == Written(stored, Ui(now, UiAreas(stored, now)))
  {
    if avisosFile.NotAList? {
      return Crashed;
    }
    var avisos := Batch(avisosFile);
    var memory := new Memory(memoryFile.GetOr(map[]));
    memory.IntegrateAll(avisos, now);
    memory.Purge(Ids(avisos), now);
    var ui := memory.BuildUi(now);
    outcome := Written(memory.states, ui);
  }
}
