/** The values the export buttons download (userData.tsx, export
    functions): each is what `downloadJSON` would serialize; the download
    itself is not modelled. */
module Backup {
  import opened Json
  import opened Env
  import opened Shapes

  /** The `dataset` a data button acts on. */
  datatype DataTarget = PlotsData | PinsData | FoundData | AllData

  /** A stored dataset read with `[]` as the fallback for a missing key and
      for text that does not parse. */
  function ReadOrEmpty(store: Store, key: string, parse: string -> Option<Json>): (r: Json)
    ensures key !in store ==> r == JArray([])
    ensures key in store && store[key].Stringified? ==> r == store[key].value
    ensures ReadJson(store, key, parse).None? ==> r == JArray([])
    ensures ReadJson(store, key, parse).Some? ==> r == ReadJson(store, key, parse).value
  {
    match ReadJson(store, key, parse)
    case Some(v) => v
    case None => JArray([])
  }

  /** `getStoredPlotPlans()`: the stored plot plans, `[]` when the key is
      missing or unreadable (its definition in util is not part of this
      model; this is the contract the plot export relies on). */
  function StoredPlotPlans(store: Store, parse: string -> Option<Json>): (r: Json)
    ensures PLOT_KEY !in store ==> r == JArray([])
    ensures PLOT_KEY in store && store[PLOT_KEY].Stringified? ==> r == store[PLOT_KEY].value
  {
    ReadOrEmpty(store, PLOT_KEY, parse)
  }

  /** `exportPins()`: the stored pins, `[]` if the text does not parse. */
  function ExportPins(store: Store, parse: string -> Option<Json>): (r: Json)
    ensures PINS_KEY !in store ==> r == JArray([])
    ensures ReadJson(store, PINS_KEY, parse).None? ==> r == JArray([])
    ensures ReadJson(store, PINS_KEY, parse).Some? ==> r == ReadJson(store, PINS_KEY, parse).value
  {
    ReadOrEmpty(store, PINS_KEY, parse)
  }

  /** Whether every found key reads without a parse error. */
  predicate FoundReadable(store: Store, parse: string -> Option<Json>) {
    forall k :: k in FOUND_KEYS ==> ReadJson(store, k, parse).Some?
  }

  /** `exportFoundData()`: one member per found key holding its parsed
      value, `[]` for a missing key; `None` when a stored value fails to
      parse (the code does not catch that error). */
  function ExportFoundData(store: Store, parse: string -> Option<Json>): (r: Option<Json>)
    ensures r.Some? <==> FoundReadable(store, parse)
    ensures r.Some? ==> r.value.JObject? && r.value.fields.Keys == FOUND_KEY_SET
    ensures r.Some? ==> forall k :: k in FOUND_KEYS && k !in store ==> r.value.fields[k] == JArray([])
    ensures r.Some? ==> forall k :: k in FOUND_KEYS ==> Some(r.value.fields[k]) == ReadJson(store, k, parse)
  {
    if FoundReadable(store, parse) then
      Some(JObject(map k | k in FOUND_KEY_SET :: ReadJson(store, k, parse).value))
    else None
  }

  /** `exportAll()`: the composite backup `{ plots, pins, found }`. Unlike
      `exportPins`, a pins value that does not parse makes it throw. */
  function ExportAll(store: Store, parse: string -> Option<Json>): (r: Option<Json>)
    ensures r.Some? <==> ReadJson(store, PINS_KEY, parse).Some? && FoundReadable(store, parse)
    ensures r.Some? ==> r.value.JObject? && r.value.fields.Keys == {"plots", "pins", "found"}
    ensures r.Some? ==> r.value.fields["found"].JObject? && r.value.fields["found"].fields.Keys == FOUND_KEY_SET
    ensures r.Some? ==> forall k :: k in FOUND_KEYS && k !in store ==> r.value.fields["found"].fields[k] == JArray([])
    ensures r.Some? && PINS_KEY !in store ==> r.value.fields["pins"] == JArray([])
    ensures r.Some? && PLOT_KEY !in store ==> r.value.fields["plots"] == JArray([])
    ensures r.Some? ==>
      && r.value.fields["plots"] == StoredPlotPlans(store, parse)
      && r.value.fields["pins"] == ReadJson(store, PINS_KEY, parse).value
      && r.value.fields["found"] == ExportFoundData(store, parse).value
  {
    var pins := ReadJson(store, PINS_KEY, parse);
    var found := ExportFoundData(store, parse);
    if pins.Some? && found.Some? then
      Some(JObject(map["plots" := StoredPlotPlans(store, parse), "pins" := pins.value, "found" := found.value]))
    else None
  }

  /** The export action of a data button: the file name and the value
      downloaded, or `None` when the export throws. */
  function ExportSelected(dataset: DataTarget, store: Store, parse: string -> Option<Json>): (r: Option<(string, Json)>)
    ensures r.None? <==>
      (dataset == FoundData && !FoundReadable(store, parse))
      || (dataset == AllData && !(ReadJson(store, PINS_KEY, parse).Some? && FoundReadable(store, parse)))
    ensures r.Some? && dataset == PlotsData ==> r.value == ("plot_plans.json", StoredPlotPlans(store, parse))
    ensures r.Some? && dataset == PinsData ==> r.value == ("user_pins.json", ExportPins(store, parse))
    ensures r.Some? && dataset == FoundData ==>
      r.value == ("found_data.json", ExportFoundData(store, parse).value) && IsValidFoundExport(r.value.1)
    ensures r.Some? && dataset == AllData ==>
      r.value == ("sr2_interactivemap_backup.json", ExportAll(store, parse).value) && !IsValidFoundExport(r.value.1)
  {
    match dataset
    case PlotsData => Some(("plot_plans.json", StoredPlotPlans(store, parse)))
    case PinsData => Some(("user_pins.json", ExportPins(store, parse)))
    case FoundData =>
      var v := ExportFoundData(store, parse);
      if v.Some? then FoundExportIsAccepted(store, parse); Some(("found_data.json", v.value))
      else None
    case AllData =>
      var v := ExportAll(store, parse);
      if v.Some? then BackupIsRejectedAsFoundData(store, parse); Some(("sr2_interactivemap_backup.json", v.value))
      else None
  }

  /** A found-data export passes the found validator: it names every found
      key. */
  lemma FoundExportIsAccepted(store: Store, parse: string -> Option<Json>)
    requires ExportFoundData(store, parse).Some?
    ensures IsValidFoundExport(ExportFoundData(store, parse).value)
  {
    var v := ExportFoundData(store, parse).value;
    assert FOUND_KEYS[0] in OwnNames(v) * FOUND_KEY_SET;
  }

  /** A composite backup fails the found validator: none of `plots`, `pins`
      and `found` is a found key, and three keys are not seven. So importing
      a full backup through the found import throws before any write. */
  lemma BackupIsRejectedAsFoundData(store: Store, parse: string -> Option<Json>)
    requires ExportAll(store, parse).Some?
    ensures !IsValidFoundExport(ExportAll(store, parse).value)
  {
    var v := ExportAll(store, parse).value;
    KeysDisjoint();
    assert OwnNames(v) * FOUND_KEY_SET == {};
    assert |v.fields| == |{"plots", "pins", "found"}| == 3;
  }
}
