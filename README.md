# Verified model of the pre-alert pipeline for micro-zones (Almassora)

This project models, in Dafny, the deterministic core of an early-warning pipeline for the
municipality of Almassora (Castelló), which turns AEMET weather warnings into operational
information for one micro-zone:

- the two readers that flatten an already-parsed CAP bulletin (OASIS CAP 1.2, section 3.2) into
  warning records (`CapNetlify`, `CapBackend`, over the tree datatype of `CapTree`);
- the "brain" agent that folds a batch of warnings into a living memory per subzone, purges
  warnings that left the batch and builds the worst-severity view (`Brain`, with the memory as the
  field of a class updated in place);
- the pre-alert agent that keeps MEDIA and CRÍTICA warnings and turns them into tasks (`Prealert`);
- the risk evaluator that groups warnings by subzone, scores each group (dominant level,
  multiplicity bonus, time weight, clamping, tiers, reasons) and compares with the previous run
  (`RiskEvaluator`, `RiskEvaluatorMain`);
- the two summarisers of subzone 771204 (`Microzona`, `MicrozonaNetlify`, `MicrozonaAlmassora`);
- the regulation analysis that extracts safety distances ("N metros") and activation criteria
  from Valencian regulations and recommends a minimum distance (`Normativa`, `Decreto30`,
  `LegalAnalyzer`, `NormativaSimple`);
- the CSV reader and centre classifier of the geocoding script (`Geocode`), the bounding-box
  check of the centres (`ValidateCentros`) and the pure helpers of the risk panel (`RiskPanel`).

Shared modules model the JavaScript built-ins the code relies on: `Seqs` (`filter`,
`[...new Set(xs)]`, a stable sort), `JsText` (`trim`, `split`, `join`, `toLowerCase`, number
printing, the code-unit order of the default `sort()`, the UTF-16 `length`), `PropertyOrder`
(the key order of `for...in`, and the names a plain object inherits, which the grouping of the
risk evaluator and the memory and view of the brain agent read as present) and `Wrappers`
(`Option`, `Result`).

Time is a parameter (`now`, integer milliseconds or an ISO text as the source uses it; a
separate reading for each `new Date()` whose value ends up in an output, such as the per-subzone
`generatedAt` stamps `clock(i)` of the risk evaluator), dates are parsed by a parameter
`parseDate`, and the geocoding service is a parameter `geocode`. Every file read is an input
datatype with one case per outcome its reader tells apart: a missing or unreadable file, bad JSON
where the source handles it separately, and a top-level value of the wrong shape. Where the source
walks a JSON string by character (the risk evaluator and the centre check), a string is a case of
its own, apart from the values `for...of` cannot iterate. Where the code and its accompanying description disagree, the model follows the code:

- the multiplicity bonus counts yellow, orange and red warnings (not "each additional warning");
- the saved Almassora configuration of `legal_analyzer.ts` uses only the two built-in
  regulations, even when a municipal file was found;
- a CAP alert whose `info` occurs twice (for example Spanish and English blocks) is read by
  both readers as a list, which has no `area`, so it yields no area records.

## Model

| member | source | states |
|---|---|---|
| CapTree.Get | agents/netlify/functions/_lib/parseCapXml.ts:16 | a child is found exactly when the node is an element that has that tag |
| CapTree.AsList | agents/netlify/functions/_lib/parseCapXml.ts:19 | `Array.isArray(x) ? x : [x]`: a list gives its items, anything else a one-element list |
| CapTree.FirstNamed | agents/netlify/functions/_lib/parseCapXml.ts:35-36 | `find` by `valueName`: the first index whose valueName is the name, or the length when none is |
| CapNetlify.InfoRecords | agents/netlify/functions/_lib/parseCapXml.ts:27-46 | the inner loop pushes one record per area of the info block, in order |
| CapNetlify.ParseCapXml | agents/netlify/functions/_lib/parseCapXml.ts:12-49 | the nested loops return exactly the records of the alerts taken from `alerts.alert`, else `alert` |
| CapNetlify.AreaRecordsAt | agents/netlify/functions/_lib/parseCapXml.ts:29-46 | record j of an info block is the record of its area j |
| CapNetlify.OneRecordPerArea | agents/netlify/functions/_lib/parseCapXml.ts:22-47 | the number of records is the number of areas over the alerts that have an info block |
| CapNetlify.RecordsInDocumentOrder | agents/netlify/functions/_lib/parseCapXml.ts:22-47 | the records of two runs of alerts are those of the first followed by those of the second |
| CapNetlify.NoAlertNoRecord | agents/netlify/functions/_lib/parseCapXml.ts:16-17 | with neither `alerts.alert` nor `alert` the result is empty |
| CapNetlify.SingleAlertAsList | agents/netlify/functions/_lib/parseCapXml.ts:19 | a lone alert gives the same records as a one-element list holding it |
| CapNetlify.SubzonaFromZoneId | agents/netlify/functions/_lib/parseCapXml.ts:34-35 | the subzone is the value of the first geocode named `ID_ZONA` |
| CapNetlify.SubzonaFromSubzone | agents/netlify/functions/_lib/parseCapXml.ts:34-36 | without `ID_ZONA`, the value of the first geocode named `IBERMET-Subzona` |
| CapNetlify.SubzonaDefault | agents/netlify/functions/_lib/parseCapXml.ts:34-37 | without either name, `'000000'` |
| CapNetlify.AlertRecordFields | agents/netlify/functions/_lib/parseCapXml.ts:23-45 | every record comes from an alert with an info block; event defaults to 'Desconocido', areaDesc to 'Área sin nombre', onset and expires are copied as they are |
| CapBackend.OrEmpty | backend/parseCapXml.ts:32-38 | `x \|\| ''`: a truthy value is kept, a missing one becomes `''` |
| CapBackend.Level | backend/parseCapXml.ts:35 | the level text is never empty (`\|\| 'verde'`) |
| CapBackend.ParseCapXml | backend/parseCapXml.ts:15-61 | fails exactly when the document has no `alert` (the loop reads `info` of undefined); otherwise returns the kept records of the alerts as a list |
| CapBackend.AtMostOnePerAlert | backend/parseCapXml.ts:23-58 | never more records than alerts |
| CapBackend.KeptAreNotExpired | backend/parseCapXml.ts:40-41 | every kept record has a non-empty expiry that is not strictly before now, or one that cannot be parsed |
| CapBackend.NotDroppedIsKept | backend/parseCapXml.ts:40-58 | every alert the expiry filter does not drop gives its record |
| CapBackend.KeptComesFromAlert | backend/parseCapXml.ts:25-58 | every record is the record of an alert the filter does not drop |
| CapBackend.KeptIffNotDropped | backend/parseCapXml.ts:25-58 | a record is kept exactly when some alert extracts to it with an expiry that is present and not before now; an alert whose expiry cannot be parsed is kept |
| CapBackend.ExpiryBoundary | backend/parseCapXml.ts:40-41 | an expiry equal to now is kept; a missing expiry drops the alert |
| CapBackend.LevelFromParameter | backend/parseCapXml.ts:28-35 | the level is the lower-cased value of the first parameter named `nivel` when `parameter` is a list |
| CapBackend.LevelDefault | backend/parseCapXml.ts:28-35 | when `parameter` is missing or not a list, the level is `verde` |
| CapBackend.NivelNumMapping | backend/parseCapXml.ts:43-46 | rojo ↔ CRITICA, naranja or amarillo ↔ MEDIA, anything else ↔ NORMAL |
| CapBackend.SubzoneFromGeocode | backend/parseCapXml.ts:32 | the subzone is `area.geocode.value` when it is non-empty text or a non-zero number (a numeric code stays a number); `''` when it is missing or the number 0 |
| CapBackend.NumericLevelIsDefault | backend/parseCapXml.ts:28-35 | a numeric `nivel` value has no `toLowerCase`, so the level is `verde` |
| CapBackend.TimeClip | backend/parseCapXml.ts:40 | `new Date(n)` of a numeric expiry: n truncated toward zero, invalid beyond ±8.64e15 ms |
| CapBackend.IssueTimeFromSent | backend/parseCapXml.ts:36 | `f_efectiva` is `alert.sent`, or `''` without it |
| AemetAviso.Ids | agents/brain.ts:88 | the set of ids of a batch holds exactly the ids of its warnings |
| Brain.Rank | agents/brain.ts:44 | CRÍTICA has rank 0, MEDIA 1, NORMALIDAD 2, each exactly; any other level has none |
| Brain.SameRankCases | agents/brain.ts:44-77 | `rank[a] === rank[b]` holds exactly for two levels of the same rank, the same inherited property name, or two levels that both read as undefined |
| Brain.KeyOf | agents/brain.ts:71 | the memory key is the subzone if truthy, else the zone if truthy, else 'desconocida' |
| Brain.FindId | agents/brain.ts:79 | `findIndex` by id: the first index with that id, or none when no element has it |
| Brain.UpsertIds | agents/brain.ts:78-82 | the upsert contains the warning, keeps every other id, grows only when the id was new, and keeps ids unique |
| Brain.MergedReplaces | agents/brain.ts:75-76 | an unseen key or a strictly more severe warning resets the entry to a one-warning list with the new level, except that an unseen key named like an inherited property reads as present and the memory is left unchanged |
| Brain.MergedUpserts | agents/brain.ts:77-84 | an equally severe warning is upserted by id into the entry's list, and the entry is stamped |
| Brain.MergedIgnores | agents/brain.ts:75-85 | a less severe warning leaves the memory unchanged |
| Brain.MergedMonotone | agents/brain.ts:70-85 | one merge step adds at most its key, and none when that key is an inherited name; it changes no other key and never makes a key less severe |
| Brain.MergeAllKeys | agents/brain.ts:70-85 | after the merge loop the keys are the old keys plus the key of every warning that is not an inherited property name |
| Brain.MergeAllNeverLessSevere | agents/brain.ts:70-85 | no key becomes less severe during the merge loop |
| Brain.MergeAllUniqueIds | agents/brain.ts:77-84 | the merge loop introduces no duplicate id in any list |
| Brain.PurgeProperties | agents/brain.ts:88-97 | keys are kept; every remaining warning was stored and is in the batch; an emptied list resets the key to NORMALIDAD; a non-empty one keeps its level; an entry without list is untouched |
| Brain.PurgeKeepsUniqueIds | agents/brain.ts:89-97 | purging keeps ids unique |
| Brain.UiProperties | agents/brain.ts:103-119 | one UI area per memory key that is not an inherited property name, and none for such a key; a CRÍTICA or MEDIA key keeps its level and lists its warnings sorted by rank (same multiset, stable within a rank); any other key gives NORMALIDAD with no warnings |
| Brain.Memory.constructor | agents/brain.ts:65 | the memory starts as the loaded state |
| Brain.Memory.Integrate | agents/brain.ts:71-84 | one iteration of the merge loop updates the memory in place as `Merged`, leaving it unchanged for an unseen inherited key |
| Brain.Memory.IntegrateAll | agents/brain.ts:70-85 | the merge loop leaves the memory as `MergeAll` of the old memory |
| Brain.Memory.Purge | agents/brain.ts:88-97 | the purge loop leaves the memory as `PurgeAll` of the old memory |
| Brain.Memory.BuildUi | agents/brain.ts:103-119 | the UI loop builds exactly `UiAreas` of the memory, skipping keys that `ui.areas` inherits |
| Brain.Run | agents/brain.ts:60-123 | a batch that parses to something other than a list crashes before writing; otherwise a missing or corrupt input reads as `[]` and memory as `{}`, the stored memory is the purge of the merge (where inherited names create no key), and the UI is built from it |
| Prealert.Tasks | agents/prealert.ts:60-72 | one task per relevant warning, in order |
| Prealert.TaskIdRoundTrip | agents/prealert.ts:61 | a task id is `prealert-` followed by the warning id, which can be read back |
| Prealert.TaskDefaults | agents/prealert.ts:62-70 | missing subzona, zona, probabilidad, comentario, origenXml, desde, hasta become null; missing evento and desc become `''`; the level is copied |
| Prealert.PrealertsProperties | agents/prealert.ts:48-77 | `total` equals the number of items, which are the MEDIA and CRÍTICA warnings in order, each with the shared `createdAt` equal to `lastRunAt` |
| Prealert.IrrelevantIgnored | agents/prealert.ts:48-57 | adding a warning of another level changes nothing |
| Prealert.Run | agents/prealert.ts:53-87 | a batch that parses to something other than a list has no `filter`: the run fails and writes nothing; otherwise the pre-alerts of the batch, `[]` for a missing or corrupt file, are written |
| Prealert.UnreadableInputNoTasks | agents/prealert.ts:34-56 | a missing or corrupt input file still writes a file, with zero tasks |
| RiskEvaluator.Rank | agents/risk_evaluator.ts:81 | verde 1, amarillo 2, naranja 3, rojo 4, each exactly, so the rank orders the levels |
| RiskEvaluator.LoadConfig | agents/risk_evaluator.ts:46-61 | each setting present in the file overrides its default (6, 12, 0.25, 1); an absent or unreadable file gives the defaults |
| RiskEvaluator.ToLevel | agents/risk_evaluator.ts:63-69 | `toLevel` returns only 1 to 4 |
| RiskEvaluator.ToLevelOnClampedScore | agents/risk_evaluator.ts:63-69 | on a score clamped to [1, 4] (as line 133 does), `toLevel` is plain `Math.round` |
| RiskEvaluator.RoundTo2Bounds | agents/risk_evaluator.ts:158 | the two-decimal `score_ia` stays in [1, 4] and within half a hundredth of the score |
| RiskEvaluator.CountLevels | agents/risk_evaluator.ts:94-97 | the counting loop gives the number of warnings of each level |
| RiskEvaluator.CountsTotal | agents/risk_evaluator.ts:94-97 | the four counts add up to the size of the group |
| RiskEvaluator.CountPositive | agents/risk_evaluator.ts:94-97 | a level's count is positive exactly when some warning has that level |
| RiskEvaluator.Dominant | agents/risk_evaluator.ts:99-101 | the `reduce` picks the first warning of the highest level: none is higher, every earlier one is strictly lower |
| RiskEvaluator.MultiplicityBonusProperties | agents/risk_evaluator.ts:103-105 | green warnings never change the bonus; with at most one significant warning it is 0; with non-negative settings it lies in [0, multiplicityMaxBonus] |
| RiskEvaluator.MinOnset | agents/risk_evaluator.ts:116-122 | the soonest onset is missing exactly when no valid start exists, else it is a valid start no later than any other |
| RiskEvaluator.MaxExpiry | agents/risk_evaluator.ts:117-128 | the latest expiry is missing exactly when no valid end exists, else it is a valid end no earlier than any other |
| RiskEvaluator.TimeWindow | agents/risk_evaluator.ts:115-129 | the loop over the valid dates computes the time weight, the soonest onset and the latest expiry |
| RiskEvaluator.ReasonsOrdered | agents/risk_evaluator.ts:138-153 | reasons come in the fixed order red, orange, yellows, multiplicity, start, duration, each at most once |
| RiskEvaluator.ReasonsConditions | agents/risk_evaluator.ts:139-153 | each reason is listed exactly when its own condition holds |
| RiskEvaluator.ReasonsTimes | agents/risk_evaluator.ts:146-153 | a start already past gives an imminence of at most 0; a span of 12 h or more reaches the duration threshold, one under 11 h does not |
| RiskEvaluator.Motivos | agents/risk_evaluator.ts:138-153 | the pushes build exactly the reason list |
| RiskEvaluator.ScoreInRange | agents/risk_evaluator.ts:133-158 | the score and the reported `score_ia` always lie in [1, 4] |
| RiskEvaluator.SevereIsAlto | agents/risk_evaluator.ts:82-135 | with non-negative settings, a subzone with an orange or red warning is ALTO |
| RiskEvaluator.GreenOnlyIsBajo | agents/risk_evaluator.ts:82-135 | only green warnings and no time trigger give score 1 and BAJO |
| RiskEvaluator.TimeWeightOneStep | agents/risk_evaluator.ts:115-130 | a start already past counts as imminent, and the time weight is then one step, never two |
| RiskEvaluator.NoDatesNoWindow | agents/risk_evaluator.ts:108-168 | without any valid date there are no valid pairs, no time weight and an empty window |
| RiskEvaluator.GroupOf | agents/risk_evaluator.ts:71-78 | a subzone has a group exactly when some warning names it |
| RiskEvaluator.AgruparPorSubzona | agents/risk_evaluator.ts:71-78 | the grouping loop throws exactly when a subzone is a name the object inherits from `Object.prototype`; otherwise it creates one key per subzone in order of first appearance, each holding that subzone's warnings in input order |
| RiskEvaluator.VisitOrderCoversSubzones | agents/risk_evaluator.ts:90 | `for...in` visits every subzone exactly once |
| RiskEvaluator.EvaluationsPerSubzone | agents/risk_evaluator.ts:84-172 | for any per-subzone evaluation (the evaluator applies `Evaluate`): one result per distinct subzone, in the object's key order, the i-th computed from exactly that subzone's non-empty list of warnings and its position i |
| RiskEvaluator.EvaluationsStamped | agents/risk_evaluator.ts:90-169 | the i-th result is `Evaluate` of the i-th subzone visited on its own warnings, and its `generatedAt` is the i-th clock reading, taken as the loop reaches it |
| RiskEvaluator.EvaluarSubzona | agents/risk_evaluator.ts:91-169 | the body of the subzone loop computes that subzone's evaluation |
| RiskEvaluator.CalcularEvaluacion | agents/risk_evaluator.ts:80-173 | throws exactly when the grouping does; otherwise the loop returns exactly the evaluations of all subzones, the j-th stamped with the j-th clock reading |
| RiskEvaluatorMain.PrevMap | agents/risk_evaluator.ts:199 | the map's keys are exactly the subzones of the previous output |
| RiskEvaluatorMain.PrevMapKeepsLast | agents/risk_evaluator.ts:199 | for a repeated subzone the last entry wins |
| RiskEvaluatorMain.TrendOf | agents/risk_evaluator.ts:201-205 | NEW exactly without a previous entry; UP / DOWN by strict comparison with a numeric previous score, or with 0 for a `null` one; always SAME against a missing score |
| RiskEvaluatorMain.TrendNewIffAbsent | agents/risk_evaluator.ts:199-206 | the trend is NEW exactly when the previous output lacks the subzone, and nothing but the trend changes |
| RiskEvaluatorMain.AnnotateTrends | agents/risk_evaluator.ts:200-206 | the loop sets every trend in place |
| RiskEvaluatorMain.RunEvaluator | agents/risk_evaluator.ts:175-212 | no input file or bad JSON writes nothing; an input that cannot be iterated, a subzone named like an inherited property, or a previous output that is not a list crashes; an empty JSON string writes `[]` and any other string the single NaN entry of subzone "undefined" (ALTO, trend NEW or SAME); otherwise the evaluations with trends (a `null` previous score counting as 0) are written, each subzone with its own clock reading, an unreadable previous output counting as empty |
| RiskEvaluatorMain.Reread | agents/risk_evaluator.ts:210 | what the next run reads back is one entry per written evaluation with its subzone and numeric score, the NaN entry as "undefined" with `null`, and nothing new when nothing was written |
| RiskEvaluatorMain.RerunIsSame | agents/risk_evaluator.ts:199-210 | evaluations with distinct subzones, compared with their own written output, all get SAME |
| RiskEvaluatorMain.RisesAfterNullScore | agents/risk_evaluator.ts:199-210 | after a run wrote the NaN entry with `score_ia: null`, a scored subzone "undefined" gets UP |
| PropertyOrder.OwnKeysOrder | agents/risk_evaluator.ts:90 | object keys iterate array-index keys first in ascending order, then the others in insertion order, as a permutation of the keys |
| PropertyOrder.OwnKeysNoDuplicates | agents/risk_evaluator.ts:90 | distinct keys are iterated once each |
| Microzona.Least | agents/netlify/functions/_lib/microzonificador.ts:27 | the first string of the default sort: a member no greater than any other |
| Microzona.Greatest | agents/netlify/functions/_lib/microzonificador.ts:28 | the last string of the default sort: a member no smaller than any other |
| Microzona.SortedEnds | agents/netlify/functions/_lib/microzonificador.ts:27-28 | whatever algorithm sorts, the first and last elements of any sorted permutation are `Least` and `Greatest` |
| MicrozonaNetlify.Starts | agents/netlify/functions/_lib/microzonificador.ts:27 | the non-empty starts of the target's warnings |
| MicrozonaNetlify.Ends | agents/netlify/functions/_lib/microzonificador.ts:28 | the non-empty ends of the target's warnings |
| MicrozonaNetlify.ActiveIffTarget | agents/netlify/functions/_lib/microzonificador.ts:5-44 | active exactly when a warning is for subzone 771204; otherwise the empty report with one note; two notes when active; the three lists always empty |
| MicrozonaNetlify.WindowBounds | agents/netlify/functions/_lib/microzonificador.ts:27-28 | `inicio` is the smallest non-empty start or `''`, `fin` the largest non-empty end or `''` |
| MicrozonaNetlify.PhenomenaDistinct | agents/netlify/functions/_lib/microzonificador.ts:29 | the phenomena are those of the target's warnings, each once, in first-occurrence order |
| MicrozonaAlmassora.Phenomenon | agents/almassora/microzonificador.ts:46 | `fenomeno \|\| evento \|\| 'Desconocido'` is never empty |
| MicrozonaAlmassora.CountMissingPositive | agents/almassora/microzonificador.ts:44-45 | some value is missing exactly when the missing count is positive; present plus missing is all |
| MicrozonaAlmassora.DefaultSortFirst | agents/almassora/microzonificador.ts:44 | the first element of the default sort (missing values last) is `FirstSorted` |
| MicrozonaAlmassora.DefaultSortLast | agents/almassora/microzonificador.ts:45 | the last element of the default sort is `LastSorted` |
| MicrozonaAlmassora.ActiveIffTarget | agents/almassora/microzonificador.ts:21-62 | active exactly when a warning's subzona is '771204'; otherwise the empty report with one note |
| MicrozonaAlmassora.FirstSortedBounds | agents/almassora/microzonificador.ts:44 | missing only when every value is, else the least present value (which may be `''`) |
| MicrozonaAlmassora.LastSortedBounds | agents/almassora/microzonificador.ts:45 | missing as soon as one value is, else the greatest value |
| MicrozonaAlmassora.WindowBounds | agents/almassora/microzonificador.ts:44-45 | `inicio` is missing only when no target warning has a start; `fin` is missing as soon as one lacks an end |
| MicrozonaAlmassora.PhenomenaDistinct | agents/almassora/microzonificador.ts:46 | each phenomenon after the fallbacks is listed once, exactly those of the target's warnings, none empty |
| MicrozonaAlmassora.FailureWritesNothing | agents/almassora/microzonificador.ts:17-68 | a failed read, bad JSON or non-array input writes nothing |
| Normativa.DigitsEnd | agents/legal/legal_analyzer.ts:122 | `\d+` is greedy: the run ends at the first non-digit |
| Normativa.MatchAtIsPattern | agents/legal/legal_analyzer.ts:122-128 | a match at p exists exactly when digits, optional spaces and `m` or `M` follow; its value is the whole digit run |
| Normativa.FirstMatchFromLeftmost | agents/legal/legal_analyzer.ts:122 | the search returns the leftmost match position |
| Normativa.MetrosValueLeftmost | agents/legal/legal_analyzer.ts:122-128 | no value exactly when no position matches; otherwise the value of the leftmost match |
| Normativa.PushDistanceCriteria | agents/legal/legal_analyzer.ts:121-133 | the distance loop appends one `distancia_seguridad` criterion per matching text |
| Normativa.PushActivationCriteria | agents/legal/legal_analyzer.ts:136-144 | the activation loop appends one criterion per text |
| Normativa.ExtractCriteria | agents/legal/legal_analyzer.ts:116-148 | the nested loops return the criteria of every regulation in order |
| Normativa.DistanceCriteriaMatch | agents/legal/legal_analyzer.ts:121-133 | a distance criterion exists exactly for a text with a match, valued by it, in metres, with the regulation's title and date |
| Normativa.ActivationCriteriaAt | agents/legal/legal_analyzer.ts:136-144 | activation criterion i is text i, valued by the text itself, without unit |
| Normativa.OnlyTwoLists | agents/legal/legal_analyzer.ts:119-145 | evacuation protocols and responsibilities never affect the criteria |
| Normativa.CriteriaProvenance | agents/legal/legal_analyzer.ts:124-143 | every criterion is of one of the two kinds, takes title and date from a regulation, and is numeric exactly when it is a distance |
| Normativa.MinDistanceAppend | agents/legal/legal_analyzer.ts:164-166 | the minimum over a concatenation is the minimum of the two minima |
| Normativa.MinDistanceIsMinimum | agents/legal/legal_analyzer.ts:164-166 | `Math.min(...)` is Infinity exactly without distances, else the value of a distance criterion no greater than any other |
| Normativa.Resumenes | agents/legal/legal_analyzer.ts:156-161 | one summary (id, title, date, state) per regulation |
| Decreto30.DecretoFields | agents/legal/legal_analyzer.ts:44-70 | the decree's title, date, distance texts and activation texts are the built-in ones |
| Decreto30.Distancia500Value | agents/legal/legal_analyzer.ts:53 | the first distance text of the decree yields 500 (via the pattern of line 122) |
| Decreto30.Distancia300Value | agents/legal/legal_analyzer.ts:54 | the second distance text yields 300 (via the pattern of line 122) |
| Decreto30.DecretoCriteria | scripts/analizar-normativa-simple.ts:12-70 | the decree alone yields four criteria: 500 and 300 metres, then its two activation texts |
| Decreto30.DecretoMinimum | scripts/analizar-normativa-simple.ts:85-87 | the minimum distance of those criteria is 300 |
| LegalAnalyzer.Analyzer.constructor | agents/legal/legal_analyzer.ts:37-95 | a new analyzer holds the two built-in regulations and no criteria |
| LegalAnalyzer.Analyzer.AnalizarNormativaMunicipal | agents/legal/legal_analyzer.ts:97-114 | a readable municipal file gives the base followed by its entries; otherwise the base |
| LegalAnalyzer.Analyzer.ExtraerCriteriosOperativos | agents/legal/legal_analyzer.ts:116-148 | the criteria of the given regulations, in order |
| LegalAnalyzer.Analyzer.GenerarConfiguracionOperativa | agents/legal/legal_analyzer.ts:150-172 | the configuration of the analyzer's own regulations and their criteria |
| LegalAnalyzer.Analyzer.GuardarAnalisis | agents/legal/legal_analyzer.ts:174-185 | the configuration is written when the write succeeds; a failure is only logged |
| LegalAnalyzer.AnalizarNormativaAlmassora | agents/legal/legal_analyzer.ts:189-205 | the found regulations and extracted criteria include the municipal entries, but the saved and the returned configurations use the base only, each dated by its own `new Date()` |
| LegalAnalyzer.SavedMatchesReturned | agents/legal/legal_analyzer.ts:150-172 | the saved and the returned configurations differ at most in `fecha_analisis` |
| LegalAnalyzer.MunicipalKeepsBase | agents/legal/legal_analyzer.ts:105-108 | the base list is always a prefix of the result, followed by the municipal entries when read |
| LegalAnalyzer.CriteriosAppend | agents/legal/legal_analyzer.ts:119-145 | the criteria of a concatenation are those of each part in order |
| LegalAnalyzer.Distancia200Value | agents/legal/legal_analyzer.ts:80 | the law's distance text yields 200 (via the pattern of line 122) |
| LegalAnalyzer.LeyCriteria | agents/legal/legal_analyzer.ts:71-93 | the law yields its 200-metre distance and its activation text |
| LegalAnalyzer.BaseCriteria | agents/legal/legal_analyzer.ts:43-148 | the built-in regulations yield the decree's four criteria then the law's two |
| LegalAnalyzer.BaseMinimumIs200 | agents/legal/legal_analyzer.ts:164-166 | the recommended minimum distance over the built-in regulations is 200 |
| NormativaSimple.AnalizarNormativaAlmassora | scripts/analizar-normativa-simple.ts:8-107 | the configuration of the decree alone, or the write error rethrown |
| NormativaSimple.ExitStatus | scripts/analizar-normativa-simple.ts:109-138 | the exit status is 0 exactly on success, else 1 |
| NormativaSimple.SuccessfulRun | scripts/analizar-normativa-simple.ts:12-92 | four criteria, 500 then 300 then the two activation texts, minimum 300, one regulation `decreto_30_2015` |
| Geocode.PlainBacktrack | scripts/geocode_simple.ts:23 | `[^",]+` is greedy and backtracking never finds a shorter token: if a shorter run satisfies the lookahead, so does the full run |
| Geocode.ClosingQuote | scripts/geocode_simple.ts:23 | the lazy `".*?"` ends at the first quote followed by the lookahead, without crossing a line terminator |
| Geocode.QuotedFieldIsOneToken | scripts/geocode_simple.ts:23 | a quoted field without inner quotes before a comma or the end is one token |
| Geocode.QuoteFreeTokens | scripts/geocode_simple.ts:23 | on a line without quotes the tokens are the non-empty comma-separated fields |
| Geocode.TokenShapes | scripts/geocode_simple.ts:23 | every token is either quoted or a non-empty run without quotes and commas |
| Geocode.StripQuotes | scripts/geocode_simple.ts:26-28 | a surrounding pair of quotes is removed, a quote-free field is unchanged, a lone quote becomes empty |
| Geocode.ParseLineFields | scripts/geocode_simple.ts:23-40 | a record exactly when there are at least 6 tokens; fields are the cleaned tokens; `cp` is the trimmed text before the first '-', `municipio` the trimmed rest |
| Geocode.ParseCSVSpec | scripts/geocode_simple.ts:18-43 | the records are those of the lines after the first that parse; an empty text gives none |
| Geocode.Tipo | scripts/geocode_simple.ts:79-81 | educativo for a school word, else asistencial for a residence word, else otro |
| Geocode.AnyCaseMatches | scripts/geocode_simple.ts:79-80 | a word matches in any letter case |
| Geocode.SchoolWordMakesSchool | scripts/geocode_simple.ts:79 | a name containing a school word in any case is educativo |
| Geocode.Geocodificar | scripts/geocode_simple.ts:72-94 | the loop emits exactly the geocoded centres |
| Geocode.Run | scripts/geocode_simple.ts:67-103 | a missing input file ends the run with nothing written; otherwise the output is the geocoded centres of the parsed CSV |
| Geocode.GeocodedMembers | scripts/geocode_simple.ts:72-92 | a centre is emitted exactly for a record whose request got coordinates |
| Geocode.GeocodedPrefix | scripts/geocode_simple.ts:72-92 | the output keeps input order: the output for a prefix is a prefix of the output |
| Geocode.EmittedShape | scripts/geocode_simple.ts:76-89 | every emitted centre carries its name's type and the source `nominatim-autogeo` |
| ValidateCentros.Validate | scripts/validate_centros.ts:23-38 | `ok` counts the centres inside the box, `out` the others, which are the centres reported; together they are all the centres |
| ValidateCentros.Partition | scripts/validate_centros.ts:24-34 | each centre is counted on exactly one side |
| ValidateCentros.CharEntries | scripts/validate_centros.ts:24-32 | a JSON string is walked as one entry per character, each without coordinates |
| ValidateCentros.Run | scripts/validate_centros.ts:21-38 | a file that cannot be read, parsed or iterated throws and reports nothing; otherwise the counts of the entries iterated, with `data.length` as the total, counted in UTF-16 code units for a JSON string |
| ValidateCentros.TextAllOutside | scripts/validate_centros.ts:21-38 | for a JSON string every character is counted outside and reported, none inside; the total is the UTF-16 length, equal to the count outside exactly when no character lies outside the basic plane |
| ValidateCentros.ReportedIff | scripts/validate_centros.ts:9-27 | a centre is reported exactly when a coordinate is missing or outside the inclusive bounds |
| RiskPanel.LocaleCompare | src/components/RiskPanel.tsx:70 | 0 exactly for equal texts, negative exactly when the first comes first |
| RiskPanel.Ordenar | src/components/RiskPanel.tsx:70 | negative exactly when the first goes first: higher score, or equal score and smaller subzone; zero only for equal score and subzone |
| RiskPanel.OrdenarAntisymmetric | src/components/RiskPanel.tsx:70 | a goes before b exactly when b goes after a |
| RiskPanel.OrdenarTransitive | src/components/RiskPanel.tsx:70 | the order is transitive, so a consistent comparator for `sort` |
| RiskPanel.OrderedScores | src/components/RiskPanel.tsx:70 | in that order scores never increase, and equal scores are by subzone |
| RiskPanel.Filtrados | src/components/RiskPanel.tsx:71 | everything when `onlyImminent` is off; otherwise exactly the entries with an imminence of at most 3 h |
| RiskPanel.ContarSum | src/components/RiskPanel.tsx:62-72 | the ALTO, MODERADO and BAJO counts add up to the number of filtered entries |
| RiskPanel.Round | src/components/RiskPanel.tsx:73 | `Math.round` is within half a unit, halves upwards |
| RiskPanel.ToScale20Monotone | src/components/RiskPanel.tsx:73 | `toScale20` is non-decreasing |
| RiskPanel.ToScale20Range | src/components/RiskPanel.tsx:73 | 1 maps to 0, 4 to 20, and [1, 4] into [0, 20] |
| Seqs.Filter | agents/prealert.ts:57 | `filter` keeps exactly the elements that pass, and no more of them |
| Seqs.FilterMultiset | agents/brain.ts:91 | filtering keeps each passing element's multiplicity and drops the rest |
| Seqs.FilterMapMembers | scripts/geocode_simple.ts:21-42 | `map(...).filter(Boolean)` keeps exactly the non-null answers |
| Seqs.FilterMapAppend | scripts/geocode_simple.ts:21-42 | the records keep the order of the lines |
| Seqs.Distinct | agents/netlify/functions/_lib/microzonificador.ts:29 | `[...new Set(xs)]` has no duplicates and the same members |
| Seqs.DistinctKeepsFirstOccurrenceOrder | agents/netlify/functions/_lib/microzonificador.ts:29 | the distinct values are in order of first occurrence |
| Seqs.SortBy | agents/brain.ts:116 | the sort is a permutation ordered by key |
| Seqs.SortByStable | agents/brain.ts:116 | the sort is stable: elements with the same key keep their order |
| JsText.Trim | scripts/geocode_simple.ts:19-27 | `trim` removes exactly the leading and trailing white space |
| JsText.Utf16Length | scripts/validate_centros.ts:38 | `length` lies between the number of characters and twice it |
| JsText.Utf16LengthOfBasic | scripts/validate_centros.ts:38 | `length` equals the number of characters exactly when none lies outside the basic plane |
| JsText.Lower | scripts/geocode_simple.ts:79-80 | `toLowerCase` maps each character |
| JsText.Split | scripts/geocode_simple.ts:19-30 | `split` gives at least one part, none containing the separator |
| JsText.JoinSplit | scripts/geocode_simple.ts:30-31 | joining the parts with the separator gives the text back |
| JsText.SplitAtFirst | scripts/geocode_simple.ts:30-31 | the first part is the text before the first separator, the rest rejoined is the text after it |
| JsText.NatToStringRoundTrip | agents/risk_evaluator.ts:142 | a count prints as decimal digits that read back as the count |
| JsText.LexLessTransitive | agents/netlify/functions/_lib/microzonificador.ts:27-28 | the code-unit order of the default sort is transitive |
| JsText.LexLessTotal | agents/netlify/functions/_lib/microzonificador.ts:27-28 | and total |

## Left out

- XML parsing (`xml2js`, `fast-xml-parser`): the readers take the parsed tree; attributes and
  text-with-attributes nodes are not modelled. Which leaf texts `fast-xml-parser` turns into numbers
  (its `parseTagValue` rules for signs, leading zeros, hexadecimal and exponents) is the library's
  rule: the tree given to `CapBackend.ParseCapXml` already holds those numbers as `Num` leaves.
- Date parsing and ISO printing: `Date.parse` is a parameter, instants are integer milliseconds,
  `toISOString` timestamps are opaque parameters.
- File reads and writes, directory creation, `console` output and `process.exit` other than the
  exit status of the regulation script: inputs and outputs are values.
- Network access (Nominatim) and the 1.1 s pause between requests in the geocoding script: the
  geocoding answers are a parameter.
- Floating point: scores, bonuses and coordinates are exact reals. The evaluator writes scores
  rounded to hundredths (`toFixed(2)`), which a double holds only approximately. For such a score
  k/100, `toScale20` rounds (k - 100) / 15, which is never a half-integer (twice it would be an even
  over 15, never an odd integer) and lies at least 1/30 from one, far beyond any representation
  error, so its exact-real result is the one JavaScript computes.
- RiskEvaluator.RoundTo2Bounds: `toFixed(2)` is modelled as rounding to the nearest hundredth with
  ties upwards, without the binary representation that can make JavaScript round a tie down.
- `localeCompare` locale rules: the panel's tie-break and the default `sort()` use the order of
  UTF-16 code units, modelled on Dafny characters, so characters outside the basic plane are
  compared as code points.
- Unpaired surrogates: strings are sequences of Unicode scalar values, so a JSON string holding
  an unpaired surrogate escape such as `\ud800` is not representable. Lengths are counted in
  UTF-16 code units where the source prints one (`JsText.Utf16Length`).
- `toLowerCase` beyond Latin-1: `JsText.Lower` maps ASCII and Latin-1 letters only.
- JSON of unexpected shapes: records with fields of the wrong type (a previous `score_ia` that is
  a string or a boolean, which `>` would convert, among them), and list elements that are not
  records, are not represented. A municipal regulation file that parses to an object, `null`, a
  number or a boolean makes the spread throw, which is caught and gives the built-in regulations
  (`MunicipalFile.NotIterable`); one that parses to a string is spread into one-character entries,
  and a non-empty one then makes the criteria extraction throw before anything is saved. That
  string case is not modelled.
- Brain.Run: a memory file that parses to something other than an object of subzone states
  (`null`, a number, a string, a list) is not modelled; depending on the value and the batch the
  agent throws or writes the value back, and the model reads every readable memory file as a map.
- JSON output details: key order, `undefined` fields dropped and `Infinity` written as `null`
  (the minimum distance is `Distance.Infinity` in the model).
- `parseInt` of very long digit runs: the model's value is the exact integer, where JavaScript
  loses precision beyond 2^53.
- MicrozonaNetlify: the fields are the declared strings; the scheduled function's reader can hand
  it tree values of other shapes, which are not modelled.
- Brain.Merged: a warning keyed `__proto__` that the memory does not hold, with a level that has no
  rank, is upserted into `Object.prototype` itself (agents/brain.ts:78-83). Later reads that find
  its `avisos` or `lastUpdate` through the prototype (a state without a list of its own, a key or
  level named `avisos` or `lastUpdate`) are not modelled; the model leaves the memory unchanged,
  as it does for the other inherited names, whose inherited values `JSON.stringify` never writes.
- Brain.UiProperties: the UI sort is specified for warnings whose level is one of the three
  known ones; an unknown level makes the JavaScript comparator return NaN and its order is not
  modelled.
- The risk panel's React state, data loading and rendering: only its pure helpers are modelled.
- The unused `criterios` field of `LegalAnalyzer` stays empty, as in the source.
