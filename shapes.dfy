/** The storage keys of the three datasets and the shape validators that
    imports apply to untrusted parsed JSON (userData.tsx, constants and
    validators), with typed readings of a valid plot or pin export. */
module Shapes {
  import opened Json

  const PLOT_KEY := "planned_plots"
  const PINS_KEY := "user_pins"

  /** The seven found-collectable storage keys, in the order the code loops
      over them: gordos, locked doors, map nodes, research drones, treasure
      pods, stabilizing gates, shadow doors. Their text is defined in
      globals.ts, which is not part of this model: the strings below stand in
      for it, and every proof uses only that they are seven distinct names
      that differ from the other keys and names the code uses. */
  const FOUND_KEYS: seq<string> := [
    "gordo_ls_key",
    "locked_door_ls_key",
    "map_node_ls_key",
    "research_drone_ls_key",
    "treasure_pod_ls_key",
    "stabilizing_gate_ls_key",
    "shadow_door_ls_key"
  ]

  /** The found keys as a set, for membership tests. */
  const FOUND_KEY_SET: set<string> := set k | k in FOUND_KEYS

  /** `LOCAL_TO_USERDATA`: the `UserData` property mirroring each found key. */
  const LOCAL_TO_USERDATA: map<string, string> := map[
    "gordo_ls_key" := "found_gordos",
    "locked_door_ls_key" := "found_locked_doors",
    "map_node_ls_key" := "found_map_nodes",
    "research_drone_ls_key" := "found_research_drones",
    "treasure_pod_ls_key" := "found_treasure_pods",
    "stabilizing_gate_ls_key" := "found_stabilizing_gates",
    "shadow_door_ls_key" := "found_shadow_doors"
  ]

  /** `Object.values(LOCAL_TO_USERDATA)`, as a set. */
  const USERDATA_PROPS: set<string> := {
    "found_gordos",
    "found_locked_doors",
    "found_map_nodes",
    "found_research_drones",
    "found_treasure_pods",
    "found_stabilizing_gates",
    "found_shadow_doors"
  }

  /** The found keys differ from the `found_*` property names, from the
      other two storage keys and from the members of a composite backup. */
  lemma KeysDisjoint()
    ensures forall k :: k in FOUND_KEYS ==> k !in USERDATA_PROPS
    ensures forall k :: k in FOUND_KEYS ==> k != PLOT_KEY && k != PINS_KEY
    ensures forall k :: k in FOUND_KEYS ==> k != "plots" && k != "pins" && k != "found"
  {
  }

  /** The table is defined on exactly the found keys, and its values are
      exactly the `found_*` property names. */
  lemma TableValues()
    ensures forall k :: k in LOCAL_TO_USERDATA <==> k in FOUND_KEYS
    ensures USERDATA_PROPS == LOCAL_TO_USERDATA.Values
  {
    var table := LOCAL_TO_USERDATA;
    assert table["gordo_ls_key"] == "found_gordos";
    assert table["locked_door_ls_key"] == "found_locked_doors";
    assert table["map_node_ls_key"] == "found_map_nodes";
    assert table["research_drone_ls_key"] == "found_research_drones";
    assert table["treasure_pod_ls_key"] == "found_treasure_pods";
    assert table["stabilizing_gate_ls_key"] == "found_stabilizing_gates";
    assert table["shadow_door_ls_key"] == "found_shadow_doors";
  }

  /** No two keys of `table` map to the same name. */
  predicate Injective(table: map<string, string>) {
    forall k1, k2 :: k1 in table && k2 in table && table[k1] == table[k2] ==> k1 == k2
  }

  /** No two found keys share a property name. */
  lemma TableInjective()
    ensures Injective(LOCAL_TO_USERDATA)
  {
  }

  /** A plot record: a value with a string `site` and an array `plotPlans`
      (which `null` and primitives cannot have). */
  predicate IsPlotRecord(item: Json) {
    && Prop(item, "site").Some? && Prop(item, "site").value.JStr?
    && Prop(item, "plotPlans").Some? && Prop(item, "plotPlans").value.JArray?
  }

  /** A pin record: a string `icon` and a truthy `pos` whose `x` and `y` are
      numbers. */
  predicate IsPinRecord(p: Json) {
    && Prop(p, "icon").Some? && Prop(p, "icon").value.JStr?
    && Truthy(Prop(p, "pos"))
    && Prop(Prop(p, "pos").value, "x").Some? && Prop(Prop(p, "pos").value, "x").value.JNum?
    && Prop(Prop(p, "pos").value, "y").Some? && Prop(Prop(p, "pos").value, "y").value.JNum?
  }

  /** `isValidPlotExport`: an array whose every element is a plot record. */
  predicate IsValidPlotExport(v: Json) {
    v.JArray? && forall i :: 0 <= i < |v.items| ==> IsPlotRecord(v.items[i])
  }

  /** `isValidPinsExport`: an array whose every element is a pin record. */
  predicate IsValidPinsExport(v: Json) {
    v.JArray? && forall i :: 0 <= i < |v.items| ==> IsPinRecord(v.items[i])
  }

  /** `isValidFoundExport`: an object or array that has one of the found keys
      among its keys, or exactly as many keys as there are found keys. */
  predicate IsValidFoundExport(v: Json) {
    IsObjectLike(v) && (OwnNames(v) * FOUND_KEY_SET != {} || KeyCount(v) == |FOUND_KEYS|)
  }

  /** A plot plan record `{ site, plotPlans }`: the typed reading of a valid
      element of a plot export. */
  datatype PlotPlan = PlotPlan(site: string, plotPlans: seq<Json>)

  /** A user pin `{ icon, pos: { x, y }, dimension }`. The validator does not
      look at `dimension`, so a valid export may lack it. */
  datatype PinRecord = PinRecord(icon: string, x: real, y: real, dimension: Option<Json>)

  function AsPlotPlan(item: Json): PlotPlan
    requires IsPlotRecord(item)
  {
    PlotPlan(Prop(item, "site").value.s, Prop(item, "plotPlans").value.items)
  }

  function AsPin(p: Json): PinRecord
    requires IsPinRecord(p)
  {
    var pos := Prop(p, "pos").value;
    PinRecord(Prop(p, "icon").value.s, Prop(pos, "x").value.n, Prop(pos, "y").value.n, Prop(p, "dimension"))
  }

  /** Reads a sequence of parsed elements as plot plans, failing at the first
      element that is not a plot record. */
  function DecodePlotItems(items: seq<Json>): (r: Option<seq<PlotPlan>>)
    ensures r.Some? <==> forall i :: 0 <= i < |items| ==> IsPlotRecord(items[i])
    ensures r.Some? ==> |r.value| == |items|
    ensures r.Some? ==> forall i :: 0 <= i < |items| ==> IsPlotRecord(items[i]) && r.value[i] == AsPlotPlan(items[i])
  {
    if items == [] then Some([])
    else if !IsPlotRecord(items[0]) then None
    else match DecodePlotItems(items[1..])
      case None => None
      case Some(rest) => Some([AsPlotPlan(items[0])] + rest)
  }

  /** Reads a sequence of parsed elements as pins, failing at the first
      element that is not a pin record. */
  function DecodePinItems(items: seq<Json>): (r: Option<seq<PinRecord>>)
    ensures r.Some? <==> forall i :: 0 <= i < |items| ==> IsPinRecord(items[i])
    ensures r.Some? ==> |r.value| == |items|
    ensures r.Some? ==> forall i :: 0 <= i < |items| ==> IsPinRecord(items[i]) && r.value[i] == AsPin(items[i])
  {
    if items == [] then Some([])
    else if !IsPinRecord(items[0]) then None
    else match DecodePinItems(items[1..])
      case None => None
      case Some(rest) => Some([AsPin(items[0])] + rest)
  }

  /** The plot validator accepts exactly the arrays that read as a sequence
      of plot plans, the empty array among them, and nothing else. */
  lemma PlotExportIsDecodable(v: Json)
    ensures IsValidPlotExport(v) <==> v.JArray? && DecodePlotItems(v.items).Some?
    ensures IsValidPlotExport(JArray([]))
  {
  }

  /** The pin validator accepts exactly the arrays that read as a sequence of
      pins, the empty array among them; an array with an element that lacks a
      string `icon` or a numeric `pos.x` or `pos.y` is rejected. */
  lemma PinsExportIsDecodable(v: Json)
    ensures IsValidPinsExport(v) <==> v.JArray? && DecodePinItems(v.items).Some?
    ensures IsValidPinsExport(JArray([]))
    ensures v.JArray? && (exists i :: 0 <= i < |v.items| && !IsPinRecord(v.items[i])) ==> !IsValidPinsExport(v)
  {
  }

  /** The found validator rejects `null`, primitives and strings; it accepts
      any object naming at least one found key whatever else it holds, and
      any object or array with exactly seven keys even if none is a found
      key. */
  lemma FoundExportRule(v: Json)
    ensures !IsObjectLike(v) ==> !IsValidFoundExport(v)
    ensures v.JObject? && (exists k :: k in FOUND_KEYS && k in v.fields) ==> IsValidFoundExport(v)
    ensures IsObjectLike(v) && KeyCount(v) == 7 ==> IsValidFoundExport(v)
    ensures v.JArray? ==> (IsValidFoundExport(v) <==> |v.items| == 7)
    ensures v.JObject? && |v.fields| != 7 && (forall k :: k in FOUND_KEYS ==> k !in v.fields) ==> !IsValidFoundExport(v)
  {
    if v.JObject? && (exists k :: k in FOUND_KEYS && k in v.fields) {
      var k :| k in FOUND_KEYS && k in v.fields;
      assert k in OwnNames(v) * FOUND_KEY_SET;
    }
    if v.JObject? && (forall k :: k in FOUND_KEYS ==> k !in v.fields) {
      assert OwnNames(v) * FOUND_KEY_SET == {};
    }
  }
}
