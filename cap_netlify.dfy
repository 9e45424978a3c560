/**
 * The CAP reader of the scheduled function (agents/netlify/functions/_lib/parseCapXml.ts):
 * it walks the alert / info / area / geocode elements of a parsed bulletin
 * and emits one flat record per area. No record is filtered by level or time.
 */
module CapNetlify {
  import opened Wrappers
  import opened CapTree

  /** One record per area; every field is the tree value found there, copied as it is. */
  datatype Aviso = Aviso(subzona: Node, areaDesc: Node, fenomeno: Node, fInicio: Option<Node>, fFin: Option<Node>)

  const UnknownEvent := "Desconocido"
  const UnnamedArea := "Área sin nombre"
  const NoSubzone := "000000"
  const ZoneIdName := "ID_ZONA"
  const SubzoneName := "IBERMET-Subzona"

  /** `parsed?.alerts?.alert ?? parsed?.alert` */
  function AlertsRaw(parsed: Node): Option<Node> {
    var nested := GetIn(Get(parsed, "alerts"), "alert");
    if nested.Some? then nested else Get(parsed, "alert")
  }

  /** The alert elements in document order; none when the raw value is missing or empty. */
  function Alerts(parsed: Node): seq<Node> {
    var raw := AlertsRaw(parsed);
    if Present(raw) then AsList(raw.value) else []
  }

  /** `info.area`, as a list; none when it is missing or empty. */
  function Areas(info: Node): seq<Node> {
    var a := Get(info, "area");
    if Present(a) then AsList(a.value) else []
  }

  /** `area?.geocode`, as a list; none when it is missing or empty. */
  function Geocodes(area: Node): seq<Node> {
    var g := Get(area, "geocode");
    if Present(g) then AsList(g.value) else []
  }

  /** `geocodes.find(g => g?.valueName === name)?.value` */
  function ValueOfFirst(geocodes: seq<Node>, name: string): Option<Node> {
    GetIn(FindNamed(geocodes, name), "value")
  }

  /** The subzone code of an area: the ID_ZONA geocode's value, else the IBERMET-Subzona one's, else "000000". */
  function Subzona(geocodes: seq<Node>): Node {
    var byZone := ValueOfFirst(geocodes, ZoneIdName);
    if byZone.Some? then byZone.value
    else
      var bySubzone := ValueOfFirst(geocodes, SubzoneName);
      if bySubzone.Some? then bySubzone.value else Text(NoSubzone)
  }

  /** The record pushed for one area of an info block. */
  function AreaRecord(info: Node, area: Node): Aviso {
    Aviso(Subzona(Geocodes(area)),
          Get(area, "areaDesc").GetOr(Text(UnnamedArea)),
          Get(info, "event").GetOr(Text(UnknownEvent)),
          Get(info, "onset"),
          Get(info, "expires"))
  }

  /** Records of a run of areas, in order. */
  function AreaRecords(info: Node, areas: seq<Node>): seq<Aviso> {
    if areas == [] then [] else AreaRecords(info, areas[..|areas| - 1]) + [AreaRecord(info, areas[|areas| - 1])]
  }

  /** Records of one alert: none without an info block, else one per area. */
  function AlertRecords(alert: Node): seq<Aviso> {
    var info := Get(alert, "info");
    if Present(info) then AreaRecords(info.value, Areas(info.value)) else []
  }

  /** Records of a run of alerts, in document order. */
  function RecordsOf(alerts: seq<Node>): seq<Aviso> {
    if alerts == [] then [] else RecordsOf(alerts[..|alerts| - 1]) + AlertRecords(alerts[|alerts| - 1])
  }

  /** One more area appends its record. */
  lemma AreaRecordsStep(info: Node, areas: seq<Node>, j: nat)
    requires j < |areas|
    ensures AreaRecords(info, areas[..j + 1]) == AreaRecords(info, areas[..j]) + [AreaRecord(info, areas[j])]
  {
    assert areas[..j + 1][..j] == areas[..j];
  }

  /** One more alert appends its records. */
  lemma RecordsOfStep(alerts: seq<Node>, i: nat)
    requires i < |alerts|
    ensures RecordsOf(alerts[..i + 1]) == RecordsOf(alerts[..i]) + AlertRecords(alerts[i])
  {
    assert alerts[..i + 1][..i] == alerts[..i];
  }

  /** The inner loop of `parseCapXml`: one record per area of an info block, in order. */
  method InfoRecords(info: Node) returns (out: seq<Aviso>)
    ensures out == AreaRecords(info, Areas(info))
  {
    var areasRaw := Areas(info);
    out := [];
    var j := 0;
    while j < |areasRaw|
      invariant 0 <= j <= |areasRaw|
      invariant out == AreaRecords(info, areasRaw[..j])
    {
      var area := areasRaw[j];
      AreaRecordsStep(info, areasRaw, j);
      var geocodes := Geocodes(area);
      var record := Aviso(Subzona(geocodes),
                          Get(area, "areaDesc").GetOr(Text(UnnamedArea)),
                          Get(info, "event").GetOr(Text(UnknownEvent)),
                          Get(info, "onset"),
                          Get(info, "expires"));
      assert record == AreaRecord(info, area);
      out := out + [record];
      j := j + 1;
    }
    assert areasRaw[..j] == areasRaw;
  }

  /** `parseCapXml` after the XML has been parsed into `parsed`. */
  method ParseCapXml(parsed: Node) returns (out: seq<Aviso>)
    ensures out == RecordsOf(Alerts(parsed))
  {
    var raw := AlertsRaw(parsed);
    if !Present(raw) {
      return [];
    }
    var alerts := AsList(raw.value);
    out := [];
    var i := 0;
    while i < |alerts|
      invariant 0 <= i <= |alerts|
      invariant out == RecordsOf(alerts[..i])
    {
      var alert := alerts[i];
      RecordsOfStep(alerts, i);
      var info := Get(alert, "info");
      if !Present(info) {
        i := i + 1;
        continue;
      }
      var records := InfoRecords(info.value);
      out := out + records;
      i := i + 1;
    }
    assert alerts[..i] == alerts;
  }

  // ------------------------------------------------------------ properties

  /** Number of areas over the alerts that have an info block. */
  function AreaCount(alerts: seq<Node>): nat {
    if alerts == [] then 0
    else
      var info := Get(alerts[|alerts| - 1], "info");
      AreaCount(alerts[..|alerts| - 1]) + (if Present(info) then |Areas(info.value)| else 0)
  }

  lemma {:induction false} AreaRecordsAt(info: Node, areas: seq<Node>)
    ensures |AreaRecords(info, areas)| == |areas|
    ensures forall j :: 0 <= j < |areas| ==> AreaRecords(info, areas)[j] == AreaRecord(info, areas[j])
  {
    if areas != [] {
      var init := areas[..|areas| - 1];
      AreaRecordsAt(info, init);
      assert AreaRecords(info, areas) == AreaRecords(info, init) + [AreaRecord(info, areas[|areas| - 1])];
      forall j | 0 <= j < |areas| - 1
        ensures AreaRecords(info, areas)[j] == AreaRecord(info, areas[j])
      {
        assert areas[j] == init[j];
      }
    }
  }

  /** Exactly one record per area of every alert that has an info block; alerts without one add nothing. */
  lemma {:induction false} OneRecordPerArea(alerts: seq<Node>)
    ensures |RecordsOf(alerts)| == AreaCount(alerts)
  {
    if alerts != [] {
      OneRecordPerArea(alerts[..|alerts| - 1]);
      var info := Get(alerts[|alerts| - 1], "info");
      if Present(info) {
        AreaRecordsAt(info.value, Areas(info.value));
      }
    }
  }

  /** Document order: the records of earlier alerts come before those of later ones. */
  lemma {:induction false} RecordsInDocumentOrder(a: seq<Node>, b: seq<Node>)
    ensures RecordsOf(a + b) == RecordsOf(a) + RecordsOf(b)
    decreases |b|
  {
    if b == [] {
      assert a + b == a;
    } else {
      var b' := b[..|b| - 1];
      assert (a + b)[..|a + b| - 1] == a + b';
      RecordsInDocumentOrder(a, b');
    }
  }

  /** With neither `alerts.alert` nor `alert` in the document, no record is produced. */
  lemma NoAlertNoRecord(parsed: Node)
    requires GetIn(Get(parsed, "alerts"), "alert").None? && Get(parsed, "alert").None?
    ensures RecordsOf(Alerts(parsed)) == []
  {
  }

  /** A lone alert element is read like a list holding that one alert. */
  lemma {:induction false} SingleAlertAsList(alert: Node)
    requires !alert.List?
    ensures RecordsOf([alert]) == AlertRecords(alert)
    ensures RecordsOf(AsList(alert)) == RecordsOf(AsList(List([alert])))
  {
    assert [alert][..0] == [];
  }

  /** The first ID_ZONA geocode, when it carries a value, gives the subzone code. */
  lemma SubzonaFromZoneId(geocodes: seq<Node>, i: nat)
    requires i < |geocodes| && IsText(Get(geocodes[i], "valueName"), ZoneIdName)
    requires forall k :: 0 <= k < i ==> !IsText(Get(geocodes[k], "valueName"), ZoneIdName)
    requires Get(geocodes[i], "value").Some?
    ensures Subzona(geocodes) == Get(geocodes[i], "value").value
  {
  }

  /** Without a usable ID_ZONA value, the first IBERMET-Subzona geocode gives the code. */
  lemma SubzonaFromSubzone(geocodes: seq<Node>, i: nat)
    requires ValueOfFirst(geocodes, ZoneIdName).None?
    requires i < |geocodes| && IsText(Get(geocodes[i], "valueName"), SubzoneName)
    requires forall k :: 0 <= k < i ==> !IsText(Get(geocodes[k], "valueName"), SubzoneName)
    requires Get(geocodes[i], "value").Some?
    ensures Subzona(geocodes) == Get(geocodes[i], "value").value
  {
  }

  /** With neither kind of geocode the code is "000000". */
  lemma SubzonaDefault(geocodes: seq<Node>)
    requires forall k :: 0 <= k < |geocodes| ==>
      !IsText(Get(geocodes[k], "valueName"), ZoneIdName) && !IsText(Get(geocodes[k], "valueName"), SubzoneName)
    ensures Subzona(geocodes) == Text(NoSubzone)
  {
  }

  /**
   * Every record of an alert: the event or "Desconocido", the area name or
   * "Área sin nombre", and onset / expires copied from the info block.
   */
  lemma AlertRecordFields(alert: Node, j: nat)
    requires j < |AlertRecords(alert)|
    ensures Present(Get(alert, "info")) && j < |Areas(Get(alert, "info").value)|
    ensures var info := Get(alert, "info").value; var area := Areas(info)[j]; var r := AlertRecords(alert)[j];
            && r.subzona == Subzona(Geocodes(area))
            && r.fenomeno == (if Get(info, "event").Some? then Get(info, "event").value else Text(UnknownEvent))
            && r.areaDesc == (if Get(area, "areaDesc").Some? then Get(area, "areaDesc").value else Text(UnnamedArea))
            && r.fInicio == Get(info, "onset")
            && r.fFin == Get(info, "expires")
  {
    var info := Get(alert, "info");
    AreaRecordsAt(info.value, Areas(info.value));
  }
}
