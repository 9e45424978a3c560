/**
 * The CAP reader of the back end (backend/parseCapXml.ts): at most one record
 * per alert element, a warning level read from the `nivel` parameter, a
 * numeric class derived from that level, and an expiry filter against the
 * current time.
 */
module CapBackend {
  import opened Wrappers
  import opened CapTree
  import JsText

  /** `'NORMAL' | 'MEDIA' | 'CRITICA'` */
  datatype NivelNum = Normal | Media | Critica

  /** One kept alert. The level is a lower-cased string; the other fields are the tree values found, or the empty text. */
  datatype AvisoCap = AvisoCap(
    subzona: Node,
    areaDesc: Node,
    fenomeno: Node,
    nivel: string,
    nivelNum: NivelNum,
    fEfectiva: Node,
    fInicio: Node,
    fFin: Node)

  /** The document has no `alert` at its root: `[undefined]` is walked and `alert.info` throws a TypeError. */
  datatype ParseError = NoAlertElement

  const DefaultLevel := "verde"
  const LevelName := "nivel"

  /** `x || ''` on a value read from the tree. */
  function OrEmpty(o: Option<Node>): (n: Node)
    ensures Truthy(n) ==> o == Some(n)
    ensures !Present(o) ==> n == Text("")
  {
    if Present(o) then o.value else Text("")
  }

  /** The `nivel` parameter: looked up only when `info.parameter` is a list. */
  function LevelParameter(info: Option<Node>): Option<Node> {
    var params := GetIn(info, "parameter");
    if params.Some? && params.value.List? then FindNamed(params.value.items, LevelName) else None
  }

  /** `parametroNivel?.value?.toLowerCase?.() || 'verde'`: only a text value has `toLowerCase`. */
  function Level(parameter: Option<Node>): (nivel: string)
    ensures nivel != ""
  {
    var v := GetIn(parameter, "value");
    if v.Some? && v.value.Text? && JsText.Lower(v.value.text) != "" then JsText.Lower(v.value.text) else DefaultLevel
  }

  function ToNivelNum(nivel: string): NivelNum {
    if nivel == "rojo" then Critica
    else if nivel == "naranja" || nivel == "amarillo" then Media
    else Normal
  }

  /** The largest time value a `Date` holds, in milliseconds (8.64e15). */
  const MaxTime: real := 8640000000000000.0

  /**
   * `new Date(x)` for a number: the value truncated toward zero, or an
   * invalid date (None) beyond the range of a `Date`.
   */
  function TimeClip(v: real): (t: Option<int>)
    ensures t.None? <==> v < -MaxTime || v > MaxTime
    ensures t.Some? ==> t.value as real <= v < t.value as real + 1.0 || t.value as real - 1.0 < v <= t.value as real
    ensures t.Some? && v >= 0.0 ==> t.value >= 0
    ensures t.Some? && v <= 0.0 ==> t.value <= 0
  {
    if v < -MaxTime || v > MaxTime then None
    else if v >= 0.0 then Some(v.Floor)
    else Some(-((-v).Floor))
  }

  /**
   * `new Date(x)` for a tree value: a parsed instant in milliseconds, or
   * None for an invalid date (NaN); a number is taken as milliseconds.
   */
  function DateOf(n: Node, parseDate: string -> Option<int>): Option<int> {
    if n.Text? then parseDate(n.text)
    else if n.Num? then TimeClip(n.value)
    else None
  }

  /** `if (!fin || fin < ahora) continue;` */
  predicate Dropped(fFin: Node, now: int, parseDate: string -> Option<int>) {
    !Truthy(fFin) || (DateOf(fFin, parseDate).Some? && DateOf(fFin, parseDate).value < now)
  }

  /** The record built for one alert element, before the expiry filter. */
  function Extract(alert: Node): AvisoCap {
    var info := Get(alert, "info");
    var area := GetIn(info, "area");
    var nivel := Level(LevelParameter(info));
    AvisoCap(OrEmpty(GetIn(GetIn(area, "geocode"), "value")),
             OrEmpty(GetIn(area, "areaDesc")),
             OrEmpty(GetIn(info, "event")),
             nivel,
             ToNivelNum(nivel),
             OrEmpty(Get(alert, "sent")),
             OrEmpty(GetIn(info, "onset")),
             OrEmpty(GetIn(info, "expires")))
  }

  /** Records of a run of alert elements: each one's, unless its expiry drops it. */
  function RecordsOf(alerts: seq<Node>, now: int, parseDate: string -> Option<int>): seq<AvisoCap> {
    if alerts == [] then []
    else
      var rec := Extract(alerts[|alerts| - 1]);
      RecordsOf(alerts[..|alerts| - 1], now, parseDate) + (if Dropped(rec.fFin, now, parseDate) then [] else [rec])
  }

  /** `parseCapXml` after the file has been read and parsed into `json`; `now` is the current instant in milliseconds. */
  method ParseCapXml(json: Node, now: int, parseDate: string -> Option<int>) returns (r: Result<seq<AvisoCap>, ParseError>)
    ensures r.Err? <==> Get(json, "alert").None?
    ensures r.Ok? ==> r.value == RecordsOf(AsList(Get(json, "alert").value), now, parseDate)
  {
    var root := Get(json, "alert");
    if root.None? {
      return Err(NoAlertElement);
    }
    var alertas := AsList(root.value);
    var avisos: seq<AvisoCap> := [];
    var i := 0;
    while i < |alertas|
      invariant 0 <= i <= |alertas|
      invariant avisos == RecordsOf(alertas[..i], now, parseDate)
    {
      var alert := alertas[i];
      assert alertas[..i + 1][..i] == alertas[..i];
      var info := Get(alert, "info");
      var area := GetIn(info, "area");
      var parametroNivel := LevelParameter(info);
      var subzona := OrEmpty(GetIn(GetIn(area, "geocode"), "value"));
      var areaDesc := OrEmpty(GetIn(area, "areaDesc"));
      var fenomeno := OrEmpty(GetIn(info, "event"));
      var nivel := Level(parametroNivel);
      var fEfectiva := OrEmpty(Get(alert, "sent"));
      var fInicio := OrEmpty(GetIn(info, "onset"));
      var fFin := OrEmpty(GetIn(info, "expires"));
      if Dropped(fFin, now, parseDate) {
        i := i + 1;
        continue;
      }
      var nivelNum := ToNivelNum(nivel);
      avisos := avisos + [AvisoCap(subzona, areaDesc, fenomeno, nivel, nivelNum, fEfectiva, fInicio, fFin)];
      i := i + 1;
    }
    assert alertas[..i] == alertas;
    r := Ok(avisos);
  }

  // ------------------------------------------------------------ properties

  /** At most one record per alert element. */
  lemma {:induction false} AtMostOnePerAlert(alerts: seq<Node>, now: int, parseDate: string -> Option<int>)
    ensures |RecordsOf(alerts, now, parseDate)| <= |alerts|
  {
    if alerts != [] {
      AtMostOnePerAlert(alerts[..|alerts| - 1], now, parseDate);
    }
  }

  /** Every record that is kept has a non-empty expiry that is not before `now`. */
  lemma {:induction false} KeptAreNotExpired(alerts: seq<Node>, now: int, parseDate: string -> Option<int>)
    ensures forall r :: r in RecordsOf(alerts, now, parseDate) ==>
              Truthy(r.fFin) && (DateOf(r.fFin, parseDate).None? || DateOf(r.fFin, parseDate).value >= now)
  {
    if alerts != [] {
      KeptAreNotExpired(alerts[..|alerts| - 1], now, parseDate);
    }
  }

  /** Every alert the filter does not drop gives a record. */
  lemma {:induction false} NotDroppedIsKept(alerts: seq<Node>, now: int, parseDate: string -> Option<int>, i: nat)
    requires i < |alerts| && !Dropped(Extract(alerts[i]).fFin, now, parseDate)
    ensures Extract(alerts[i]) in RecordsOf(alerts, now, parseDate)
  {
    var init := alerts[..|alerts| - 1];
    if i < |alerts| - 1 {
      assert init[i] == alerts[i];
      NotDroppedIsKept(init, now, parseDate, i);
    }
  }

  /** Every record comes from an alert that the filter does not drop. */
  lemma {:induction false} KeptComesFromAlert(alerts: seq<Node>, now: int, parseDate: string -> Option<int>, r: AvisoCap)
    requires r in RecordsOf(alerts, now, parseDate)
    ensures exists i :: 0 <= i < |alerts| && Extract(alerts[i]) == r && !Dropped(r.fFin, now, parseDate)
  {
    var init := alerts[..|alerts| - 1];
    if r in RecordsOf(init, now, parseDate) {
      KeptComesFromAlert(init, now, parseDate, r);
      var i :| 0 <= i < |init| && Extract(init[i]) == r && !Dropped(r.fFin, now, parseDate);
      assert init[i] == alerts[i];
    } else {
      assert Extract(alerts[|alerts| - 1]) == r;
    }
  }

  /**
   * The filter keeps exactly the alerts it does not drop: a record is in the
   * result if and only if some alert extracts to it with an expiry that is
   * present and not before `now`; in particular an alert whose expiry cannot
   * be parsed is kept.
   */
  lemma KeptIffNotDropped(alerts: seq<Node>, now: int, parseDate: string -> Option<int>)
    ensures forall i :: 0 <= i < |alerts| && !Dropped(Extract(alerts[i]).fFin, now, parseDate) ==>
              Extract(alerts[i]) in RecordsOf(alerts, now, parseDate)
    ensures forall r :: r in RecordsOf(alerts, now, parseDate) ==>
              exists i :: 0 <= i < |alerts| && Extract(alerts[i]) == r && !Dropped(r.fFin, now, parseDate)
    ensures forall i :: 0 <= i < |alerts| && Truthy(Extract(alerts[i]).fFin) && DateOf(Extract(alerts[i]).fFin, parseDate).None? ==>
              Extract(alerts[i]) in RecordsOf(alerts, now, parseDate)
  {
    forall i | 0 <= i < |alerts| && !Dropped(Extract(alerts[i]).fFin, now, parseDate)
      ensures Extract(alerts[i]) in RecordsOf(alerts, now, parseDate)
    {
      NotDroppedIsKept(alerts, now, parseDate, i);
    }
    forall r | r in RecordsOf(alerts, now, parseDate)
      ensures exists i :: 0 <= i < |alerts| && Extract(alerts[i]) == r && !Dropped(r.fFin, now, parseDate)
    {
      KeptComesFromAlert(alerts, now, parseDate, r);
    }
  }

  /** An alert whose expiry parses to exactly `now` is kept; one without an expiry, or an empty one, is not. */
  lemma ExpiryBoundary(alert: Node, now: int, parseDate: string -> Option<int>)
    ensures var e := GetIn(Get(alert, "info"), "expires");
            && (e.Some? && Truthy(e.value) && DateOf(e.value, parseDate) == Some(now) ==> RecordsOf([alert], now, parseDate) == [Extract(alert)])
            && (!Present(e) ==> RecordsOf([alert], now, parseDate) == [])
  {
    assert [alert][..0] == [];
  }

  /** The level is the lower-cased text value of the first `nivel` parameter when `info.parameter` is a list. */
  lemma LevelFromParameter(alert: Node, i: nat, v: string)
    requires var params := GetIn(Get(alert, "info"), "parameter");
             && params.Some? && params.value.List? && i < |params.value.items|
             && IsText(Get(params.value.items[i], "valueName"), LevelName)
             && (forall k :: 0 <= k < i ==> !IsText(Get(params.value.items[k], "valueName"), LevelName))
             && Get(params.value.items[i], "value") == Some(Text(v))
    requires JsText.Lower(v) != ""
    ensures Extract(alert).nivel == JsText.Lower(v)
  {
  }

  /** A lone `parameter` element (not a list), or none, leaves the level at "verde". */
  lemma LevelDefault(alert: Node)
    requires var params := GetIn(Get(alert, "info"), "parameter"); params.None? || !params.value.List?
    ensures Extract(alert).nivel == DefaultLevel
  {
  }

  /** A level of "rojo" is CRITICA, "naranja" or "amarillo" is MEDIA, anything else NORMAL, and conversely. */
  lemma NivelNumMapping(nivel: string)
    ensures ToNivelNum(nivel) == Critica <==> nivel == "rojo"
    ensures ToNivelNum(nivel) == Media <==> nivel == "naranja" || nivel == "amarillo"
    ensures ToNivelNum(nivel) == Normal <==> nivel != "rojo" && nivel != "naranja" && nivel != "amarillo"
  {
  }

  /**
   * The subzone is `area.geocode.value` when that is a non-empty text or a
   * non-zero number (a numeric code stays a number), and the empty text
   * when the value is missing, empty or the number 0.
   */
  lemma SubzoneFromGeocode(alert: Node)
    ensures var v := GetIn(GetIn(GetIn(Get(alert, "info"), "area"), "geocode"), "value");
            && (v.Some? && v.value.Text? && v.value.text != "" ==> Extract(alert).subzona == v.value)
            && (v.Some? && v.value.Num? && v.value.value != 0.0 ==> Extract(alert).subzona == v.value)
            && (v.Some? && v.value.Num? && v.value.value == 0.0 ==> Extract(alert).subzona == Text(""))
            && (v.None? ==> Extract(alert).subzona == Text(""))
  {
  }

  /** A numeric `nivel` value has no `toLowerCase`, so the level falls back to "verde". */
  lemma NumericLevelIsDefault(alert: Node, i: nat, v: real)
    requires var params := GetIn(Get(alert, "info"), "parameter");
             && params.Some? && params.value.List? && i < |params.value.items|
             && IsText(Get(params.value.items[i], "valueName"), LevelName)
             && (forall k :: 0 <= k < i ==> !IsText(Get(params.value.items[k], "valueName"), LevelName))
             && Get(params.value.items[i], "value") == Some(Num(v))
    ensures Extract(alert).nivel == DefaultLevel
  {
  }

  /** The issue time comes from the alert's `sent`, and the empty text when it is missing. */
  lemma IssueTimeFromSent(alert: Node)
    ensures Present(Get(alert, "sent")) ==> Extract(alert).fEfectiva == Get(alert, "sent").value
    ensures !Present(Get(alert, "sent")) ==> Extract(alert).fEfectiva == Text("")
  {
  }
}
