/** Imports, clears and pin placement of the user-data manager
    (userData.tsx): each validates its input, writes localStorage key by key,
    then either hands the new value to a state setter or reloads the page. */
module UserData {
  import opened Json
  import opened Env
  import opened Shapes
  import opened Backup

  /** What an import throws: a `JSON.parse` failure, a failed shape check
      (with the message the code uses), or the `TypeError` of reading a
      member of `null`. */
  datatype ImportError = ParseFailure | InvalidFormat(message: string) | NullMemberRead

  datatype Outcome = Done | Failed(error: ImportError)

  const PLOTS_FORMAT_ERROR := "Invalid plot plans format."
  const PINS_FORMAT_ERROR := "Invalid user pins format."
  const FOUND_FORMAT_ERROR := "Invalid found data format."

  /** The three state setters a data button is given. */
  datatype Setters = Setters(plots: Setter, pins: Setter, found: Setter)

  // ---------------------------------------------------------------------
  // Store writes

  /** Which values a found-key copy loop writes: those `!== undefined` (the
      found import) or those that are truthy (the "all" import). */
  datatype WriteRule = IfDefined | IfTruthy

  predicate Passes(rule: WriteRule, v: Option<Json>) {
    match rule
    case IfDefined => v.Some?
    case IfTruthy => Truthy(v)
  }

  /** The entries written by `for (const k of keys) if (<rule> src[k])
      localStorage.setItem(k, JSON.stringify(src[k]))`. */
  function FoundWrites(src: Json, keys: seq<string>, rule: WriteRule): map<string, Entry> {
    map k | k in keys && Passes(rule, Prop(src, k)) :: Stringified(Prop(src, k).value)
  }

  /** Whether a parsed file reads as a composite backup: one of `plots`,
      `pins`, `found` is truthy. */
  predicate IsComposite(v: Json) {
    Truthy(Prop(v, "plots")) || Truthy(Prop(v, "pins")) || Truthy(Prop(v, "found"))
  }

  /** The store after writing a composite backup: `plots` and `pins` when
      truthy, then the found keys of a truthy `found` that pass `rule`. */
  function CompositeStore(store: Store, v: Json, rule: WriteRule): Store {
    var afterPlots := if Truthy(Prop(v, "plots")) then store[PLOT_KEY := Stringified(Prop(v, "plots").value)] else store;
    var afterPins := if Truthy(Prop(v, "pins")) then afterPlots[PINS_KEY := Stringified(Prop(v, "pins").value)] else afterPlots;
    if Truthy(Prop(v, "found")) then afterPins + FoundWrites(Prop(v, "found").value, FOUND_KEYS, rule) else afterPins
  }

  /** The object whose found keys the found import copies into storage: the
      `found` member of a composite backup (none if it is falsy), or the
      whole file when it is a flat map of found keys. */
  function FoundOrigin(v: Json): Option<Json> {
    if !IsComposite(v) then Some(v)
    else if Truthy(Prop(v, "found")) then Some(Prop(v, "found").value)
    else None
  }

  /** Whether the found import writes found key `k`. */
  predicate WritesFoundKey(v: Json, k: string) {
    FoundOrigin(v).Some? && Prop(FoundOrigin(v).value, k).Some?
  }

  /** The store after the writes of `importFoundFile`: a composite backup
      writes its truthy `plots` and `pins` and the found keys its `found`
      defines; a flat map writes the found keys it defines. */
  function FoundImportStore(store: Store, v: Json): Store {
    if IsComposite(v) then CompositeStore(store, v, IfDefined)
    else store + FoundWrites(v, FOUND_KEYS, IfDefined)
  }

  /** The store after the writes of the "all" import: like a composite found
      import, except that found values are written only when truthy. */
  function AllImportStore(store: Store, v: Json): Store {
    CompositeStore(store, v, IfTruthy)
  }

  /** What a composite write does at one key: a found key takes the value of
      `found` there when `found` is truthy and the value passes `rule`;
      `planned_plots` and `user_pins` take `plots` and `pins` when truthy;
      anything else keeps its value. */
  lemma CompositeWritesAt(store: Store, v: Json, rule: WriteRule, key: string)
    ensures var r := CompositeStore(store, v, rule);
      if key in FOUND_KEYS then
        if Truthy(Prop(v, "found")) && Passes(rule, Prop(Prop(v, "found").value, key))
        then key in r && r[key] == Stringified(Prop(Prop(v, "found").value, key).value)
        else SameAt(store, r, key)
      else if key == PLOT_KEY then
        if Truthy(Prop(v, "plots")) then key in r && r[key] == Stringified(Prop(v, "plots").value)
        else SameAt(store, r, key)
      else if key == PINS_KEY then
        if Truthy(Prop(v, "pins")) then key in r && r[key] == Stringified(Prop(v, "pins").value)
        else SameAt(store, r, key)
      else SameAt(store, r, key)
  {
    KeysDisjoint();
  }

  /** What the found import does at one key. A found key is written only
      when its source defines it, with that value; `planned_plots` and
      `user_pins` only when truthy in a composite backup; every other key
      keeps its value. */
  lemma FoundImportAt(store: Store, v: Json, key: string)
    ensures var r := FoundImportStore(store, v);
      if key in FOUND_KEYS then
        if WritesFoundKey(v, key) then key in r && r[key] == Stringified(Prop(FoundOrigin(v).value, key).value)
        else SameAt(store, r, key)
      else if key == PLOT_KEY then
        if IsComposite(v) && Truthy(Prop(v, "plots")) then key in r && r[key] == Stringified(Prop(v, "plots").value)
        else SameAt(store, r, key)
      else if key == PINS_KEY then
        if IsComposite(v) && Truthy(Prop(v, "pins")) then key in r && r[key] == Stringified(Prop(v, "pins").value)
        else SameAt(store, r, key)
      else SameAt(store, r, key)
  {
    KeysDisjoint();
    if IsComposite(v) {
      CompositeWritesAt(store, v, IfDefined, key);
    }
  }

  /** The entries written by setting each of `keys` to `[]`. */
  function EmptyEntries(keys: seq<string>): map<string, Entry> {
    map k | k in keys :: Stringified(JArray([]))
  }

  /** Whether `dataset`'s import accepts the parsed file: its validator, or
      for "all" anything but `null`. */
  predicate Accepts(dataset: DataTarget, v: Json) {
    match dataset
    case PlotsData => IsValidPlotExport(v)
    case PinsData => IsValidPinsExport(v)
    case FoundData => IsValidFoundExport(v)
    case AllData => v != JNull
  }

  /** The store after `dataset`'s import of an accepted file. */
  function ImportedStore(dataset: DataTarget, store: Store, v: Json): Store {
    match dataset
    case PlotsData => store[PLOT_KEY := Stringified(v)]
    case PinsData => store[PINS_KEY := Stringified(v)]
    case FoundData => FoundImportStore(store, v)
    case AllData => AllImportStore(store, v)
  }

  // ---------------------------------------------------------------------
  // Found state

  /** `parsed.found ?? parsed`: the object the found state is patched from.
      It is the object whose found keys were written to storage whenever
      `found` is truthy or the file is flat without a `found` member. The
      two differ when a composite file has no `found` or a `null` one (the
      state is patched from the whole file, storage from nothing), and when
      a flat file has a falsy `found` other than `null` (storage is written
      from the whole file, the state patched from that primitive). */
  function FoundSource(v: Json): (r: Json)
    ensures Prop(v, "found").None? ==> r == v
    ensures Prop(v, "found") == Some(JNull) ==> r == v
    ensures Prop(v, "found").Some? && Prop(v, "found").value != JNull ==> r == Prop(v, "found").value
    ensures Truthy(Prop(v, "found")) ==> r == FoundOrigin(v).value
    ensures !IsComposite(v) && Prop(v, "found").None? ==> r == FoundOrigin(v).value
  {
    if Prop(v, "found").Some? && Prop(v, "found").value != JNull then Prop(v, "found").value else v
  }

  /** The `partial` entries set by the first loop of the found import: for
      each of `keys` that `source` defines, the name `table` gives it. */
  function PatchByKey(source: Json, keys: seq<string>, table: map<string, string>): (patch: map<string, Json>)
    requires Injective(table)
    ensures forall k :: k in keys && k in table && Prop(source, k).Some? ==> table[k] in patch
    ensures forall k :: k in table && table[k] in patch ==>
      k in keys && Prop(source, k).Some? && patch[table[k]] == Prop(source, k).value
    ensures patch.Keys <= table.Values
    decreases |keys|
  {
    if keys == [] then map[]
    else
      var init := keys[..|keys| - 1];
      var k := keys[|keys| - 1];
      assert forall x :: x in keys <==> x in init || x == k by {
        assert keys == init + [k];
      }
      var before := PatchByKey(source, init, table);
      if Prop(source, k).Some? && k in table then before[table[k] := Prop(source, k).value] else before
  }

  /** The `partial` entries set by the second loop: each of `names` that
      `source` itself uses, with its value. */
  function PatchByName(source: Json, names: set<string>): (patch: map<string, Json>)
    ensures forall p :: p in patch <==> p in names && Prop(source, p).Some?
    ensures forall p :: p in patch ==> Some(patch[p]) == Prop(source, p)
  {
    map p | p in OwnNames(source) && p in names :: source.fields[p]
  }

  /** The `partial` object of the found import. */
  function FoundPatch(source: Json): map<string, Json> {
    TableInjective();
    PatchByKey(source, FOUND_KEYS, LOCAL_TO_USERDATA) + PatchByName(source, USERDATA_PROPS)
  }

  /** Builds `partial` as the code does: one loop over `keys`, renaming each
      defined one through `table`, then one over the source's own keys,
      keeping those among `names`. */
  method BuildPartial(source: Json, keys: seq<string>, table: map<string, string>, names: set<string>)
    returns (partial: map<string, Json>)
    requires Injective(table)
    ensures partial == PatchByKey(source, keys, table) + PatchByName(source, names)
  {
    var byKey := CopyByKey(source, keys, table);
    var byName := CopyByName(source, names);
    partial := byKey + byName;
  }

  /** The first loop of `partial`. */
  method CopyByKey(source: Json, keys: seq<string>, table: map<string, string>) returns (patch: map<string, Json>)
    requires Injective(table)
    ensures patch == PatchByKey(source, keys, table)
  {
    patch := map[];
    for i := 0 to |keys|
      invariant patch == PatchByKey(source, keys[..i], table)
    {
      var localKey := keys[i];
      var value := Prop(source, localKey);
      if value.Some? && localKey in table {
        patch := patch[table[localKey] := value.value];
      }
      assert keys[..i + 1][..i] == keys[..i];
    }
    assert keys[..|keys|] == keys;
  }

  /** The second loop of `partial`, over `Object.keys(source)` in any order. */
  method CopyByName(source: Json, names: set<string>) returns (patch: map<string, Json>)
    ensures patch == PatchByName(source, names)
  {
    patch := map[];
    var own := OwnNames(source);
    while own != {}
      invariant own <= OwnNames(source)
      invariant patch == PatchByName(source, names * (OwnNames(source) - own))
      decreases own
    {
      var k :| k in own;
      PatchByNameStep(source, names * (OwnNames(source) - own), k);
      if k in names {
        patch := patch[k := source.fields[k]];
        assert names * (OwnNames(source) - (own - {k})) == names * (OwnNames(source) - own) + {k};
      } else {
        assert names * (OwnNames(source) - (own - {k})) == names * (OwnNames(source) - own);
      }
      own := own - {k};
    }
    assert PatchByName(source, names * OwnNames(source)) == PatchByName(source, names);
  }

  lemma PatchByNameStep(source: Json, names: set<string>, k: string)
    requires k in OwnNames(source)
    ensures PatchByName(source, names + {k}) == PatchByName(source, names)[k := source.fields[k]]
  {
  }

  /** `{ ...prev, ...partial }`. */
  function MergeFound(prev: map<string, Json>, source: Json): map<string, Json> {
    prev + FoundPatch(source)
  }

  /** The found state update at the `found_*` property of storage key `k`:
      the source's value under the property name if it has one, else its
      value under the storage key, else the previous value. */
  lemma MergeFoundAt(prev: map<string, Json>, source: Json, k: string)
    requires k in LOCAL_TO_USERDATA
    ensures var p := LOCAL_TO_USERDATA[k]; var r := MergeFound(prev, source);
      if Prop(source, p).Some? then p in r && r[p] == Prop(source, p).value
      else if Prop(source, k).Some? then p in r && r[p] == Prop(source, k).value
      else SameAt(prev, r, p)
  {
    TableInjective();
    TableValues();
    MergeAt(prev, source, FOUND_KEYS, LOCAL_TO_USERDATA, USERDATA_PROPS, k);
  }

  /** `{ ...prev, ...partial }` at the name `table` gives key `k`, for any
      injective key table. */
  lemma MergeAt(prev: map<string, Json>, source: Json, keys: seq<string>, table: map<string, string>,
                names: set<string>, k: string)
    requires Injective(table) && k in keys && k in table && table[k] in names
    ensures var p := table[k]; var r := prev + (PatchByKey(source, keys, table) + PatchByName(source, names));
      if Prop(source, p).Some? then p in r && r[p] == Prop(source, p).value
      else if Prop(source, k).Some? then p in r && r[p] == Prop(source, k).value
      else SameAt(prev, r, p)
  {
  }

  /** The found state update keeps every field that is not a `found_*`
      property. */
  lemma MergeKeepsOtherFields(prev: map<string, Json>, source: Json, f: string)
    requires f !in USERDATA_PROPS
    ensures SameAt(prev, MergeFound(prev, source), f)
  {
    TableInjective();
    TableValues();
  }

  /** `{ ...(prev ?? {}), found_gordos: [], ... }`: every `found_*` property
      becomes `[]`, and every other field is kept. */
  function ClearedFound(prev: map<string, Json>): (r: map<string, Json>)
    ensures forall p :: p in USERDATA_PROPS ==> p in r && r[p] == JArray([])
    ensures forall f :: f !in USERDATA_PROPS ==> SameAt(prev, r, f)
  {
    prev + map p | p in USERDATA_PROPS :: JArray([])
  }

  /** `{ ...prev, ...value }` for the "all" import's `found` value: an
      object's members override, every other field is kept (spreading an
      array or a string is not modelled). */
  function SpreadFound(prev: map<string, Json>, value: Json): (r: map<string, Json>)
    ensures forall f :: f in OwnNames(value) ==> f in r && r[f] == value.fields[f]
    ensures forall f :: f !in OwnNames(value) ==> SameAt(prev, r, f)
  {
    if value.JObject? then prev + value.fields else prev
  }

  // ---------------------------------------------------------------------
  // Operations

  /** Writes each of `keys` that `src` provides under `rule`, in order. */
  method WriteKeys(page: Page, src: Json, keys: seq<string>, rule: WriteRule)
    modifies page`storage
    ensures page.storage == old(page.storage) + FoundWrites(src, keys, rule)
  {
    for i := 0 to |keys|
      invariant page.storage == old(page.storage) + FoundWrites(src, keys[..i], rule)
    {
      var k := keys[i];
      FoundWritesStep(src, keys, rule, i);
      if Passes(rule, Prop(src, k)) {
        var e := Stringified(Prop(src, k).value);
        page.SetItem(k, e);
        UpdateAfterUnion(old(page.storage), FoundWrites(src, keys[..i], rule), k, e);
      }
    }
    assert keys[..|keys|] == keys;
  }

  /** One more key of the copy loop. */
  lemma FoundWritesStep(src: Json, keys: seq<string>, rule: WriteRule, i: nat)
    requires i < |keys|
    ensures FoundWrites(src, keys[..i + 1], rule) ==
      if Passes(rule, Prop(src, keys[i]))
      then FoundWrites(src, keys[..i], rule)[keys[i] := Stringified(Prop(src, keys[i]).value)]
      else FoundWrites(src, keys[..i], rule)
  {
    assert keys[..i + 1] == keys[..i] + [keys[i]];
  }

  /** Writes a composite backup: `plots` and `pins` when truthy, then the
      found keys of a truthy `found` that pass `rule`. */
  method WriteComposite(page: Page, v: Json, rule: WriteRule)
    modifies page`storage
    ensures page.storage == CompositeStore(old(page.storage), v, rule)
  {
    if Truthy(Prop(v, "plots")) {
      page.SetItem(PLOT_KEY, Stringified(Prop(v, "plots").value));
    }
    if Truthy(Prop(v, "pins")) {
      page.SetItem(PINS_KEY, Stringified(Prop(v, "pins").value));
    }
    if Truthy(Prop(v, "found")) {
      WriteKeys(page, Prop(v, "found").value, FOUND_KEYS, rule);
    }
  }

  /** Writing after a batch of writes is writing the batch with that entry. */
  lemma UpdateAfterUnion(store: Store, writes: map<string, Entry>, k: string, e: Entry)
    ensures (store + writes)[k := e] == store + writes[k := e]
  {
  }

  /** Sets each of `keys` to `[]`. */
  method ClearKeys(page: Page, keys: seq<string>)
    modifies page`storage
    ensures page.storage == old(page.storage) + EmptyEntries(keys)
  {
    for i := 0 to |keys|
      invariant page.storage == old(page.storage) + EmptyEntries(keys[..i])
    {
      page.SetItem(keys[i], Stringified(JArray([])));
      assert keys[..i + 1] == keys[..i] + [keys[i]];
    }
    assert keys[..|keys|] == keys;
  }

  /** `importPlotsFile`: a valid plot export replaces `planned_plots`, then
      the setter receives it, or the page reloads (also when the setter
      throws). */
  method ImportPlotsFile(page: Page, text: string, parse: string -> Option<Json>, setPlotData: Setter)
    returns (r: Outcome)
    modifies page`storage, page`plotData, page`reloaded
    ensures parse(text).None? ==> r == Failed(ParseFailure)
    ensures parse(text).Some? && !IsValidPlotExport(parse(text).value) ==> r == Failed(InvalidFormat(PLOTS_FORMAT_ERROR))
    ensures r.Done? <==> parse(text).Some? && Accepts(PlotsData, parse(text).value)
    ensures r.Failed? ==> unchanged(page)
    ensures r.Done? ==> page.storage == ImportedStore(PlotsData, old(page.storage), parse(text).value)
    ensures r.Done? ==> page.plotData == if setPlotData == Live then parse(text).value else old(page.plotData)
    ensures r.Done? ==> page.reloaded == (old(page.reloaded) || setPlotData != Live)
  {
    var parsed := parse(text);
    if parsed.None? {
      return Failed(ParseFailure);
    }
    if !IsValidPlotExport(parsed.value) {
      return Failed(InvalidFormat(PLOTS_FORMAT_ERROR));
    }
    page.SetItem(PLOT_KEY, Stringified(parsed.value));
    if setPlotData == Live {
      page.plotData := parsed.value;
    } else {
      page.Reload();
    }
    r := Done;
  }

  /** `importPinsFile`: the same sequence for `user_pins`. */
  method ImportPinsFile(page: Page, text: string, parse: string -> Option<Json>, setUserPins: Setter)
    returns (r: Outcome)
    modifies page`storage, page`userPins, page`reloaded
    ensures parse(text).None? ==> r == Failed(ParseFailure)
    ensures parse(text).Some? && !IsValidPinsExport(parse(text).value) ==> r == Failed(InvalidFormat(PINS_FORMAT_ERROR))
    ensures r.Done? <==> parse(text).Some? && Accepts(PinsData, parse(text).value)
    ensures r.Failed? ==> unchanged(page)
    ensures r.Done? ==> page.storage == ImportedStore(PinsData, old(page.storage), parse(text).value)
    ensures r.Done? ==> page.userPins == if setUserPins == Live then parse(text).value else old(page.userPins)
    ensures r.Done? ==> page.reloaded == (old(page.reloaded) || setUserPins != Live)
  {
    var parsed := parse(text);
    if parsed.None? {
      return Failed(ParseFailure);
    }
    if !IsValidPinsExport(parsed.value) {
      return Failed(InvalidFormat(PINS_FORMAT_ERROR));
    }
    page.SetItem(PINS_KEY, Stringified(parsed.value));
    if setUserPins == Live {
      page.userPins := parsed.value;
    } else {
      page.Reload();
    }
    r := Done;
  }

  /** `importFoundFile`: after the found validator, a composite backup writes
      its truthy `plots`/`pins` and the found keys its `found` defines, a flat
      map writes the found keys it defines; then the found state is merged
      with the source's `found_*` values, or the page reloads. */
  method ImportFoundFile(page: Page, text: string, parse: string -> Option<Json>, setFound: Setter)
    returns (r: Outcome)
    modifies page`storage, page`found, page`reloaded
    ensures parse(text).None? ==> r == Failed(ParseFailure)
    ensures parse(text).Some? && !IsValidFoundExport(parse(text).value) ==> r == Failed(InvalidFormat(FOUND_FORMAT_ERROR))
    ensures r.Done? <==> parse(text).Some? && Accepts(FoundData, parse(text).value)
    ensures r.Failed? ==> unchanged(page)
    ensures r.Done? ==> page.storage == ImportedStore(FoundData, old(page.storage), parse(text).value)
    ensures r.Done? ==>
      page.found == (if setFound == Live then MergeFound(old(page.found), FoundSource(parse(text).value)) else old(page.found))
    ensures r.Done? ==> page.reloaded == (old(page.reloaded) || setFound != Live)
  {
    var parsed := parse(text);
    if parsed.None? {
      return Failed(ParseFailure);
    }
    var v := parsed.value;
    if !IsValidFoundExport(v) {
      return Failed(InvalidFormat(FOUND_FORMAT_ERROR));
    }
    WriteFoundImport(page, v);
    UpdateFoundState(page, FoundSource(v), setFound);
    r := Done;
  }

  /** The store writes of `importFoundFile`: the composite branch or the
      flat one. */
  method WriteFoundImport(page: Page, v: Json)
    modifies page`storage
    ensures page.storage == FoundImportStore(old(page.storage), v)
  {
    if IsComposite(v) {
      WriteComposite(page, v, IfDefined);
    } else {
      WriteKeys(page, v, FOUND_KEYS, IfDefined);
    }
  }

  /** The state step of `importFoundFile`: merge `partial` into the found
      state through the setter, or reload when there is none or it throws. */
  method UpdateFoundState(page: Page, source: Json, setFound: Setter)
    modifies page`found, page`reloaded
    ensures page.found == if setFound == Live then MergeFound(old(page.found), source) else old(page.found)
    ensures page.reloaded == (old(page.reloaded) || setFound != Live)
  {
    if setFound == Live {
      TableInjective();
      var partial := BuildPartial(source, FOUND_KEYS, LOCAL_TO_USERDATA, USERDATA_PROPS);
      page.found := page.found + partial;
    } else {
      page.Reload();
    }
  }

  /** The "all" branch of the import button: no validation; truthy `plots`
      and `pins` and the truthy found values of a truthy `found` are written,
      each given setter is tried, and the page always reloads. */
  method ImportAllFile(page: Page, text: string, parse: string -> Option<Json>, setters: Setters)
    returns (r: Outcome)
    modifies page`storage, page`plotData, page`userPins, page`found, page`reloaded
    ensures parse(text).None? ==> r == Failed(ParseFailure)
    ensures parse(text) == Some(JNull) ==> r == Failed(NullMemberRead)
    ensures r.Done? <==> parse(text).Some? && Accepts(AllData, parse(text).value)
    ensures r.Failed? ==> unchanged(page)
    ensures r.Done? ==> page.storage == ImportedStore(AllData, old(page.storage), parse(text).value)
    ensures r.Done? ==> page.reloaded
    ensures r.Done? ==>
      page.plotData == (var plots := Prop(parse(text).value, "plots");
      if setters.plots == Live && Truthy(plots) then plots.value else old(page.plotData))
    ensures r.Done? ==>
      page.userPins == (var pins := Prop(parse(text).value, "pins");
      if setters.pins == Live && Truthy(pins) then pins.value else old(page.userPins))
    ensures r.Done? ==>
      page.found == (var found := Prop(parse(text).value, "found");
      if setters.found == Live && Truthy(found) then SpreadFound(old(page.found), found.value) else old(page.found))
  {
    var parsed := parse(text);
    if parsed.None? {
      return Failed(ParseFailure);
    }
    var v := parsed.value;
    if v == JNull {
      return Failed(NullMemberRead);
    }
    WriteComposite(page, v, IfTruthy);
    if setters.plots == Live && Truthy(Prop(v, "plots")) {
      page.plotData := Prop(v, "plots").value;
    }
    if setters.pins == Live && Truthy(Prop(v, "pins")) {
      page.userPins := Prop(v, "pins").value;
    }
    if setters.found == Live && Truthy(Prop(v, "found")) {
      page.found := SpreadFound(page.found, Prop(v, "found").value);
    }
    page.Reload();
    r := Done;
  }

  /** The import button: with no file or a declined confirmation nothing
      happens; otherwise the dataset's import runs and any failure raises
      an alert and leaves storage and state as they were. */
  method ImportSelected(page: Page, dataset: DataTarget, file: Option<string>, confirmed: bool,
                        parse: string -> Option<Json>, setters: Setters)
    modifies page`storage, page`plotData, page`userPins, page`found, page`reloaded, page`alerted
    ensures file.None? || !confirmed ==> unchanged(page)
    ensures file.Some? && confirmed && !(parse(file.value).Some? && Accepts(dataset, parse(file.value).value)) ==>
      page.alerted && page.storage == old(page.storage) && page.reloaded == old(page.reloaded)
      && page.plotData == old(page.plotData) && page.userPins == old(page.userPins) && page.found == old(page.found)
    ensures file.Some? && confirmed && parse(file.value).Some? && Accepts(dataset, parse(file.value).value) ==>
      page.alerted == old(page.alerted) && page.storage == ImportedStore(dataset, old(page.storage), parse(file.value).value)
  {
    if file.None? || !confirmed {
      return;
    }
    var r: Outcome;
    match dataset {
      case PlotsData => r := ImportPlotsFile(page, file.value, parse, setters.plots);
      case PinsData => r := ImportPinsFile(page, file.value, parse, setters.pins);
      case FoundData => r := ImportFoundFile(page, file.value, parse, setters.found);
      case AllData => r := ImportAllFile(page, file.value, parse, setters);
    }
    if r.Failed? {
      page.Alert();
    }
  }

  /** `clearPlots`: `planned_plots` becomes `[]`, then the setter receives
      `[]` or the page reloads; a throwing setter propagates (`threw`). */
  method ClearPlots(page: Page, setPlotData: Setter) returns (threw: bool)
    modifies page`storage, page`plotData, page`reloaded
    ensures threw <==> setPlotData == Throwing
    ensures page.storage == old(page.storage)[PLOT_KEY := Stringified(JArray([]))]
    ensures page.plotData == if setPlotData == Live then JArray([]) else old(page.plotData)
    ensures page.reloaded == (old(page.reloaded) || setPlotData == Absent)
  {
    page.SetItem(PLOT_KEY, Stringified(JArray([])));
    threw := false;
    match setPlotData {
      case Live => page.plotData := JArray([]);
      case Absent => page.Reload();
      case Throwing => threw := true;
    }
  }

  /** `clearPins`: the same for `user_pins`. */
  method ClearPins(page: Page, setUserPins: Setter) returns (threw: bool)
    modifies page`storage, page`userPins, page`reloaded
    ensures threw <==> setUserPins == Throwing
    ensures page.storage == old(page.storage)[PINS_KEY := Stringified(JArray([]))]
    ensures page.userPins == if setUserPins == Live then JArray([]) else old(page.userPins)
    ensures page.reloaded == (old(page.reloaded) || setUserPins == Absent)
  {
    page.SetItem(PINS_KEY, Stringified(JArray([])));
    threw := false;
    match setUserPins {
      case Live => page.userPins := JArray([]);
      case Absent => page.Reload();
      case Throwing => threw := true;
    }
  }

  /** `clearFound`: all seven found keys become `[]`; then every `found_*`
      property of the found state becomes `[]`, keeping its other fields, or
      the page reloads. */
  method ClearFound(page: Page, setFound: Setter) returns (threw: bool)
    modifies page`storage, page`found, page`reloaded
    ensures threw <==> setFound == Throwing
    ensures page.storage == old(page.storage) + EmptyEntries(FOUND_KEYS)
    ensures page.found == if setFound == Live then ClearedFound(old(page.found)) else old(page.found)
    ensures page.reloaded == (old(page.reloaded) || setFound == Absent)
  {
    ClearKeys(page, FOUND_KEYS);
    threw := false;
    match setFound {
      case Live => page.found := ClearedFound(page.found);
      case Absent => page.Reload();
      case Throwing => threw := true;
    }
  }

  /** `clearAll`: plots, then pins, then found; a throwing setter stops the
      sequence where it is. */
  method ClearAll(page: Page, setters: Setters) returns (threw: bool)
    modifies page`storage, page`plotData, page`userPins, page`found, page`reloaded
    ensures threw <==> setters.plots == Throwing || setters.pins == Throwing || setters.found == Throwing
    ensures page.storage ==
      var plotsCleared := old(page.storage)[PLOT_KEY := Stringified(JArray([]))];
      var pinsCleared := plotsCleared[PINS_KEY := Stringified(JArray([]))];
      if setters.plots == Throwing then plotsCleared
      else if setters.pins == Throwing then pinsCleared
      else pinsCleared + EmptyEntries(FOUND_KEYS)
    ensures page.plotData == if setters.plots == Live then JArray([]) else old(page.plotData)
    ensures page.userPins ==
      if setters.plots != Throwing && setters.pins == Live then JArray([]) else old(page.userPins)
    ensures page.found ==
      if setters.plots != Throwing && setters.pins != Throwing && setters.found == Live
      then ClearedFound(old(page.found)) else old(page.found)
    ensures page.reloaded == (old(page.reloaded) || setters.plots == Absent
      || (setters.plots != Throwing && setters.pins == Absent)
      || (setters.plots != Throwing && setters.pins != Throwing && setters.found == Absent))
  {
    threw := ClearPlots(page, setters.plots);
    if threw {
      return;
    }
    threw := ClearPins(page, setters.pins);
    if threw {
      return;
    }
    threw := ClearFound(page, setters.found);
  }

  /** The clear button: after a confirmed prompt, the dataset's clear, which
      touches only that dataset's keys and state ("all" clears the three in
      turn). */
  method ClearSelected(page: Page, dataset: DataTarget, confirmed: bool, setters: Setters)
    modifies page`storage, page`plotData, page`userPins, page`found, page`reloaded
    ensures !confirmed ==> unchanged(page)
    ensures confirmed && dataset == PlotsData ==>
      && page.storage == old(page.storage)[PLOT_KEY := Stringified(JArray([]))]
      && page.plotData == (if setters.plots == Live then JArray([]) else old(page.plotData))
      && page.userPins == old(page.userPins) && page.found == old(page.found)
      && page.reloaded == (old(page.reloaded) || setters.plots == Absent)
    ensures confirmed && dataset == PinsData ==>
      && page.storage == old(page.storage)[PINS_KEY := Stringified(JArray([]))]
      && page.userPins == (if setters.pins == Live then JArray([]) else old(page.userPins))
      && page.plotData == old(page.plotData) && page.found == old(page.found)
      && page.reloaded == (old(page.reloaded) || setters.pins == Absent)
    ensures confirmed && dataset == FoundData ==>
      && page.storage == old(page.storage) + EmptyEntries(FOUND_KEYS)
      && page.found == (if setters.found == Live then ClearedFound(old(page.found)) else old(page.found))
      && page.plotData == old(page.plotData) && page.userPins == old(page.userPins)
      && page.reloaded == (old(page.reloaded) || setters.found == Absent)
    ensures confirmed && dataset == AllData ==>
      && page.storage == (
        var plotsCleared := old(page.storage)[PLOT_KEY := Stringified(JArray([]))];
        var pinsCleared := plotsCleared[PINS_KEY := Stringified(JArray([]))];
        if setters.plots == Throwing then plotsCleared
        else if setters.pins == Throwing then pinsCleared
        else pinsCleared + EmptyEntries(FOUND_KEYS))
      && page.plotData == (if setters.plots == Live then JArray([]) else old(page.plotData))
      && page.userPins ==
        (if setters.plots != Throwing && setters.pins == Live then JArray([]) else old(page.userPins))
      && page.found ==
        (if setters.plots != Throwing && setters.pins != Throwing && setters.found == Live
         then ClearedFound(old(page.found)) else old(page.found))
      && page.reloaded == (old(page.reloaded) || setters.plots == Absent
        || (setters.plots != Throwing && setters.pins == Absent)
        || (setters.plots != Throwing && setters.pins != Throwing && setters.found == Absent))
  {
    if !confirmed {
      return;
    }
    var threw;
    match dataset {
      case PlotsData => threw := ClearPlots(page, setters.plots);
      case PinsData => threw := ClearPins(page, setters.pins);
      case FoundData => threw := ClearFound(page, setters.found);
      case AllData => threw := ClearAll(page, setters);
    }
  }

  /** The pin a map click creates: the selected icon, the clicked latitude
      and longitude as `pos.x` and `pos.y`, and the current map. */
  function NewPin(icon: string, lat: real, lng: real, currentMap: Json): (pin: Json)
    ensures IsPinRecord(pin)
    ensures AsPin(pin) == PinRecord(icon, lat, lng, Some(currentMap))
  {
    JObject(map[
      "icon" := JStr(icon),
      "pos" := JObject(map["x" := JNum(lat), "y" := JNum(lng)]),
      "dimension" := currentMap
    ])
  }

  /** `[...v]`: an array's elements, a string's characters as
      one-character strings; any other value is not iterable and the spread
      throws (`None`). */
  function SpreadItems(v: Json): (r: Option<seq<Json>>)
    ensures r.Some? <==> v.JArray? || v.JStr?
    ensures v.JArray? ==> r == Some(v.items)
    ensures v.JStr? ==> |r.value| == |v.s| && forall i :: 0 <= i < |v.s| ==> r.value[i] == JStr([v.s[i]])
  {
    match v
    case JArray(items) => Some(items)
    case JStr(s) => Some(seq(|s|, i requires 0 <= i < |s| => JStr([s[i]])))
    case _ => None
  }

  /** The click handler of `MapUserPins`: the new list is the old one with
      one pin appended, and both the pin state and `user_pins` receive it.
      When the state cannot be spread the handler throws and nothing
      changes. */
  method PlacePin(page: Page, icon: string, lat: real, lng: real, currentMap: Json)
    modifies page`userPins, page`storage
    ensures SpreadItems(old(page.userPins)).Some? ==>
      && page.userPins == JArray(SpreadItems(old(page.userPins)).value + [NewPin(icon, lat, lng, currentMap)])
      && page.storage == old(page.storage)[PINS_KEY := Stringified(page.userPins)]
    ensures SpreadItems(old(page.userPins)).None? ==> unchanged(page)
  {
    var items := SpreadItems(page.userPins);
    if items.None? {
      return;
    }
    var newPins := JArray(items.value + [NewPin(icon, lat, lng, currentMap)]);
    page.userPins := newPins;
    page.SetItem(PINS_KEY, Stringified(newPins));
  }

  // ---------------------------------------------------------------------
  // Properties

  /** A placed pin lands at the end: the earlier pins are unchanged, the list
      grows by one, and a valid pin list stays valid, reading as the old pins
      followed by the new record. */
  lemma PlacedPinAppends(pins: seq<Json>, icon: string, lat: real, lng: real, currentMap: Json)
    ensures var after := pins + [NewPin(icon, lat, lng, currentMap)];
      |after| == |pins| + 1 && after[..|pins|] == pins
    ensures IsValidPinsExport(JArray(pins)) ==>
      var after := pins + [NewPin(icon, lat, lng, currentMap)];
      IsValidPinsExport(JArray(after))
      && DecodePinItems(after) == Some(DecodePinItems(pins).value + [PinRecord(icon, lat, lng, Some(currentMap))])
  {
    var pin := NewPin(icon, lat, lng, currentMap);
    var after := pins + [pin];
    assert after[..|pins|] == pins;
    if IsValidPinsExport(JArray(pins)) {
      assert forall i :: 0 <= i < |after| ==> IsPinRecord(after[i]) by {
        forall i | 0 <= i < |after| ensures IsPinRecord(after[i]) {
          if i < |pins| { assert after[i] == pins[i]; }
        }
      }
      var before := DecodePinItems(pins).value;
      var expected := before + [PinRecord(icon, lat, lng, Some(currentMap))];
      var got := DecodePinItems(after).value;
      assert |got| == |expected|;
      forall i | 0 <= i < |got| ensures got[i] == expected[i] {
        if i < |pins| { assert after[i] == pins[i]; } else { assert after[i] == pin; }
      }
      assert got == expected;
    }
  }

  /** A plot export re-imported through the plot import: it is accepted
      exactly when it reads as a sequence of plot plans, and then the store
      reads back as the same plans, the same plot plans, and the same export.
      An empty store exports `[]`, which is accepted. */
  lemma PlotsRoundTrip(store: Store, parse: string -> Option<Json>)
    ensures var v := StoredPlotPlans(store, parse);
      && (Accepts(PlotsData, v) <==> v.JArray? && DecodePlotItems(v.items).Some?)
      && (PLOT_KEY !in store ==> Accepts(PlotsData, v))
      && StoredPlotPlans(ImportedStore(PlotsData, store, v), parse) == v
      && ExportSelected(PlotsData, ImportedStore(PlotsData, store, v), parse) == ExportSelected(PlotsData, store, parse)
  {
    PlotExportIsDecodable(StoredPlotPlans(store, parse));
  }

  /** A pins export re-imported through the pin import: it is accepted
      exactly when it reads as a sequence of pins, and then the store reads
      back as the same list and the export of the result is the export
      itself. An empty or unreadable store exports `[]`, which is accepted. */
  lemma PinsRoundTrip(store: Store, parse: string -> Option<Json>)
    ensures var v := ExportPins(store, parse);
      && (Accepts(PinsData, v) <==> v.JArray? && DecodePinItems(v.items).Some?)
      && (ReadJson(store, PINS_KEY, parse).None? ==> Accepts(PinsData, v))
      && (PINS_KEY !in store ==> Accepts(PinsData, v))
      && ExportPins(ImportedStore(PinsData, store, v), parse) == v
      && ExportSelected(PinsData, ImportedStore(PinsData, store, v), parse) == ExportSelected(PinsData, store, parse)
  {
    PinsExportIsDecodable(ExportPins(store, parse));
  }

  /** A found-data export re-imported through the found import is a flat
      map, is accepted, and leaves every found key reading as it did: the
      export of the result is the export itself. */
  lemma FoundExportRoundTrip(store: Store, parse: string -> Option<Json>)
    requires ExportFoundData(store, parse).Some?
    ensures var v := ExportFoundData(store, parse).value;
      && Accepts(FoundData, v) && !IsComposite(v)
      && ExportFoundData(ImportedStore(FoundData, store, v), parse) == Some(v)
  {
    var v := ExportFoundData(store, parse).value;
    FoundExportIsAccepted(store, parse);
    KeysDisjoint();
    assert !IsComposite(v);
    var after := ImportedStore(FoundData, store, v);
    forall k | k in FOUND_KEYS
      ensures ReadJson(after, k, parse) == Some(v.fields[k])
    {
      FoundImportAt(store, v, k);
      assert WritesFoundKey(v, k);
    }
    assert FoundReadable(after, parse);
    assert ExportFoundData(after, parse).value.fields == v.fields;
  }

  /** A composite backup written back through the "all" import reads as the
      same backup: export, import, export gives the first export again. */
  lemma BackupRoundTrip(store: Store, parse: string -> Option<Json>)
    requires ExportAll(store, parse).Some?
    ensures var v := ExportAll(store, parse).value;
      Accepts(AllData, v) && ExportAll(ImportedStore(AllData, store, v), parse) == Some(v)
  {
    var v := ExportAll(store, parse).value;
    var after := ImportedStore(AllData, store, v);
    BackupReimportReadsSame(store, parse, PLOT_KEY);
    BackupReimportReadsSame(store, parse, PINS_KEY);
    forall k | k in FOUND_KEYS
      ensures ReadJson(after, k, parse) == ReadJson(store, k, parse)
    {
      BackupReimportReadsSame(store, parse, k);
    }
    assert FoundReadable(after, parse);
    assert ExportFoundData(after, parse).value.fields == ExportFoundData(store, parse).value.fields;
  }

  /** Re-importing a backup through the "all" import changes how no key
      reads: the same value with `[]` as the fallback, and the same value
      wherever the key read without error before. */
  lemma BackupReimportReadsSame(store: Store, parse: string -> Option<Json>, key: string)
    requires ExportAll(store, parse).Some?
    ensures var after := ImportedStore(AllData, store, ExportAll(store, parse).value);
      && ReadOrEmpty(after, key, parse) == ReadOrEmpty(store, key, parse)
      && (ReadJson(store, key, parse).Some? ==> ReadJson(after, key, parse) == ReadJson(store, key, parse))
  {
    var v := ExportAll(store, parse).value;
    CompositeWritesAt(store, v, IfTruthy, key);
    if key in FOUND_KEYS {
      assert Prop(v, "found") == Some(v.fields["found"]);
    }
  }

  /** A file holding only a truthy `pins`: the "all" import writes
      `user_pins` alone, leaving `planned_plots` and every found key as they
      were, and the found import rejects the file. */
  lemma PinsOnlyBackupTouchesOnlyPins(store: Store, pins: Json)
    requires Truthy(Some(pins))
    ensures var v := JObject(map["pins" := pins]);
      && ImportedStore(AllData, store, v) == store[PINS_KEY := Stringified(pins)]
      && !Accepts(FoundData, v)
  {
    var v := JObject(map["pins" := pins]);
    KeysDisjoint();
    assert FoundWrites(JNull, FOUND_KEYS, IfTruthy) == map[];
    assert OwnNames(v) * FOUND_KEY_SET == {};
  }

  /** A flat file keyed by the seven `found_*` property names is accepted
      (seven keys), writes no storage key, yet patches every one of those
      properties into the found state: state and storage then disagree until
      a reload. */
  lemma PropertyNamedFileSkipsStorage(store: Store, prev: map<string, Json>, fields: map<string, Json>)
    requires fields.Keys == USERDATA_PROPS
    ensures var v := JObject(fields);
      && Accepts(FoundData, v)
      && ImportedStore(FoundData, store, v) == store
      && forall p :: p in USERDATA_PROPS ==> p in MergeFound(prev, FoundSource(v)) && MergeFound(prev, FoundSource(v))[p] == fields[p]
  {
    PropertyNamedAccepted(fields);
    PropertyNamedStore(store, fields);
    PropertyNamedState(prev, fields);
  }

  /** Seven keys: the found validator accepts the file. */
  lemma PropertyNamedAccepted(fields: map<string, Json>)
    requires fields.Keys == USERDATA_PROPS
    ensures Accepts(FoundData, JObject(fields))
  {
    PropertyNamesCount();
    assert KeyCount(JObject(fields)) == |FOUND_KEYS|;
  }

  /** No member is a found key or `plots`/`pins`/`found`: nothing is written. */
  lemma PropertyNamedStore(store: Store, fields: map<string, Json>)
    requires fields.Keys == USERDATA_PROPS
    ensures ImportedStore(FoundData, store, JObject(fields)) == store
  {
    var v := JObject(fields);
    PropertyNamesAreNotMembers();
    assert !IsComposite(v);
    KeysDisjoint();
    NoWritesWithoutKeys(v, FOUND_KEYS, IfDefined);
  }

  /** Every property name is copied by the second `partial` loop. */
  lemma PropertyNamedState(prev: map<string, Json>, fields: map<string, Json>)
    requires fields.Keys == USERDATA_PROPS
    ensures var v := JObject(fields);
      forall p :: p in USERDATA_PROPS ==> p in MergeFound(prev, FoundSource(v)) && MergeFound(prev, FoundSource(v))[p] == fields[p]
  {
    var v := JObject(fields);
    PropertyNamesAreNotMembers();
    assert FoundSource(v) == v;
    TableInjective();
    forall p | p in USERDATA_PROPS
      ensures p in MergeFound(prev, v) && MergeFound(prev, v)[p] == fields[p]
    {
      MergeByName(prev, v, FOUND_KEYS, LOCAL_TO_USERDATA, USERDATA_PROPS, p);
    }
  }

  /** There are seven `found_*` property names. */
  lemma PropertyNamesCount()
    ensures |USERDATA_PROPS| == 7
  {
  }

  /** No `found_*` name is a member name of a composite backup. */
  lemma PropertyNamesAreNotMembers()
    ensures "plots" !in USERDATA_PROPS && "pins" !in USERDATA_PROPS && "found" !in USERDATA_PROPS
  {
  }

  /** A copy loop over keys the source does not define writes nothing. */
  lemma NoWritesWithoutKeys(src: Json, keys: seq<string>, rule: WriteRule)
    requires forall k :: k in keys ==> Prop(src, k).None?
    ensures FoundWrites(src, keys, rule) == map[]
  {
  }

  /** A name the source itself uses ends up in the merged state with the
      source's value, for any injective key table. */
  lemma MergeByName(prev: map<string, Json>, source: Json, keys: seq<string>, table: map<string, string>,
                    names: set<string>, p: string)
    requires Injective(table) && p in names && p in OwnNames(source)
    ensures var r := prev + (PatchByKey(source, keys, table) + PatchByName(source, names));
      p in r && r[p] == source.fields[p]
  {
  }

  /** A composite file with `found: null` and a found key at the top level:
      storage keeps that key (the found member is falsy), but the found state
      takes its value, because the state is patched from the whole file. */
  lemma NullFoundPatchesFromTopLevel(store: Store, prev: map<string, Json>, k: string, plots: Json, value: Json)
    requires k in FOUND_KEYS && Truthy(Some(plots))
    ensures var v := JObject(map["plots" := plots, "found" := JNull, k := value]);
      && Accepts(FoundData, v)
      && ImportedStore(FoundData, store, v) == store[PLOT_KEY := Stringified(plots)]
      && LOCAL_TO_USERDATA[k] in MergeFound(prev, FoundSource(v))
      && MergeFound(prev, FoundSource(v))[LOCAL_TO_USERDATA[k]] == value
  {
    var v := JObject(map["plots" := plots, "found" := JNull, k := value]);
    NullFoundStore(store, k, plots, value);
    NullFoundState(prev, k, plots, value);
  }

  /** The store half: only the truthy `plots` is written. */
  lemma NullFoundStore(store: Store, k: string, plots: Json, value: Json)
    requires k in FOUND_KEYS && Truthy(Some(plots))
    ensures var v := JObject(map["plots" := plots, "found" := JNull, k := value]);
      && Accepts(FoundData, v)
      && ImportedStore(FoundData, store, v) == store[PLOT_KEY := Stringified(plots)]
  {
    var v := JObject(map["plots" := plots, "found" := JNull, k := value]);
    assert k in OwnNames(v) * FOUND_KEY_SET;
    PropertyOf(k);
    assert Prop(v, "found") == Some(JNull);
    PlotsOnlyWrites(store, v, plots);
  }

  /** The state half: the top-level key is renamed into the state. */
  lemma NullFoundState(prev: map<string, Json>, k: string, plots: Json, value: Json)
    requires k in FOUND_KEYS
    ensures var v := JObject(map["plots" := plots, "found" := JNull, k := value]);
      && LOCAL_TO_USERDATA[k] in MergeFound(prev, FoundSource(v))
      && MergeFound(prev, FoundSource(v))[LOCAL_TO_USERDATA[k]] == value
  {
    var v := JObject(map["plots" := plots, "found" := JNull, k := value]);
    PropertyOf(k);
    var p := LOCAL_TO_USERDATA[k];
    assert Prop(v, "found") == Some(JNull);
    assert Prop(v, k) == Some(value);
    assert Prop(v, p).None?;
    TableInjective();
    MergeAt(prev, v, FOUND_KEYS, LOCAL_TO_USERDATA, USERDATA_PROPS, k);
  }

  /** A composite file without `found` and with a found key at the top
      level: storage keeps that key (there is no `found` to copy from), but
      the found state takes its value, because `parsed.found ?? parsed` falls
      back to the whole file. */
  lemma AbsentFoundPatchesFromTopLevel(store: Store, prev: map<string, Json>, k: string, plots: Json, value: Json)
    requires k in FOUND_KEYS && Truthy(Some(plots))
    ensures var v := JObject(map["plots" := plots, k := value]);
      && Accepts(FoundData, v)
      && ImportedStore(FoundData, store, v) == store[PLOT_KEY := Stringified(plots)]
      && LOCAL_TO_USERDATA[k] in MergeFound(prev, FoundSource(v))
      && MergeFound(prev, FoundSource(v))[LOCAL_TO_USERDATA[k]] == value
  {
    AbsentFoundStore(store, k, plots, value);
    AbsentFoundState(prev, k, plots, value);
  }

  /** The store half: the file names a found key, and only the truthy
      `plots` is written. */
  lemma AbsentFoundStore(store: Store, k: string, plots: Json, value: Json)
    requires k in FOUND_KEYS && Truthy(Some(plots))
    ensures var v := JObject(map["plots" := plots, k := value]);
      && Accepts(FoundData, v)
      && ImportedStore(FoundData, store, v) == store[PLOT_KEY := Stringified(plots)]
  {
    var v := JObject(map["plots" := plots, k := value]);
    assert k in OwnNames(v) * FOUND_KEY_SET;
    PropertyOf(k);
    PlotsOnlyWrites(store, v, plots);
  }

  /** A composite file with a truthy `plots`, no `pins` and a falsy or
      missing `found` writes `planned_plots` alone. */
  lemma PlotsOnlyWrites(store: Store, v: Json, plots: Json)
    requires Prop(v, "plots") == Some(plots) && Truthy(Some(plots))
    requires Prop(v, "pins").None? && !Truthy(Prop(v, "found"))
    ensures FoundImportStore(store, v) == store[PLOT_KEY := Stringified(plots)]
  {
  }

  /** The state half: the whole file is the source, and its top-level key is
      renamed into the state. */
  lemma AbsentFoundState(prev: map<string, Json>, k: string, plots: Json, value: Json)
    requires k in FOUND_KEYS
    ensures var v := JObject(map["plots" := plots, k := value]);
      && LOCAL_TO_USERDATA[k] in MergeFound(prev, FoundSource(v))
      && MergeFound(prev, FoundSource(v))[LOCAL_TO_USERDATA[k]] == value
  {
    var v := JObject(map["plots" := plots, k := value]);
    PropertyOf(k);
    var p := LOCAL_TO_USERDATA[k];
    assert "found"[0] != "plots"[0];
    assert Prop(v, "found").None?;
    assert Prop(v, k) == Some(value);
    assert Prop(v, p).None?;
    TableInjective();
    MergeAt(prev, v, FOUND_KEYS, LOCAL_TO_USERDATA, USERDATA_PROPS, k);
  }

  /** A flat file with a found key and a falsy `found` that is not `null`
      (`false`, `0`, `""`): storage takes the found key, but the state is
      patched from the primitive `found`, which has no members, so it is
      left as it was. */
  lemma FalsyFoundFlatFileSkipsState(store: Store, prev: map<string, Json>, k: string, value: Json, found: Json)
    requires k in FOUND_KEYS && !Truthy(Some(found)) && found != JNull
    ensures var v := JObject(map[k := value, "found" := found]);
      && Accepts(FoundData, v)
      && ImportedStore(FoundData, store, v) == store[k := Stringified(value)]
      && MergeFound(prev, FoundSource(v)) == prev
  {
    FalsyFoundStore(store, k, value, found);
    var v := JObject(map[k := value, "found" := found]);
    PropertyOf(k);
    assert Prop(v, "found") == Some(found);
    PrimitivePatchIsEmpty(found);
  }

  /** The store half: the file is flat, so its found key is copied. */
  lemma FalsyFoundStore(store: Store, k: string, value: Json, found: Json)
    requires k in FOUND_KEYS && !Truthy(Some(found))
    ensures var v := JObject(map[k := value, "found" := found]);
      && Accepts(FoundData, v)
      && ImportedStore(FoundData, store, v) == store[k := Stringified(value)]
  {
    var v := JObject(map[k := value, "found" := found]);
    assert k in OwnNames(v) * FOUND_KEY_SET;
    PropertyOf(k);
    assert "found"[0] != "plots"[0] && "found"[1] != "pins"[1];
    assert Prop(v, "plots").None? && Prop(v, "pins").None?;
    FlatFoundWrites(k, value, found);
    FlatImportStore(store, v);
  }

  /** A file with no `plots`, no `pins` and a falsy or missing `found` is
      flat: the found import writes exactly its copy loop's entries. */
  lemma FlatImportStore(store: Store, v: Json)
    requires Prop(v, "plots").None? && Prop(v, "pins").None? && !Truthy(Prop(v, "found"))
    ensures FoundImportStore(store, v) == store + FoundWrites(v, FOUND_KEYS, IfDefined)
  {
  }

  /** The copy loop over a flat `{ k: value, found: found }` writes `k`
      alone, `found` not being a found key. */
  lemma FlatFoundWrites(k: string, value: Json, found: Json)
    requires k in FOUND_KEYS
    ensures FoundWrites(JObject(map[k := value, "found" := found]), FOUND_KEYS, IfDefined) == map[k := Stringified(value)]
  {
    var v := JObject(map[k := value, "found" := found]);
    KeysDisjoint();
    SingleKeyWrite(v, k, value, FOUND_KEYS);
  }

  /** A flat object whose only found key is `k` makes the found copy loop
      write `k` alone. */
  lemma SingleKeyWrite(v: Json, k: string, value: Json, keys: seq<string>)
    requires k in keys && Prop(v, k) == Some(value)
    requires forall j :: j in keys && j != k ==> Prop(v, j).None?
    ensures FoundWrites(v, keys, IfDefined) == map[k := Stringified(value)]
  {
  }

  /** A source that is not an object (a number, a string, a boolean, an
      array) contributes nothing to the found state. */
  lemma PrimitivePatchIsEmpty(source: Json)
    requires !source.JObject?
    ensures FoundPatch(source) == map[]
  {
    TableInjective();
    var byKey := PatchByKey(source, FOUND_KEYS, LOCAL_TO_USERDATA);
    forall p | p in LOCAL_TO_USERDATA.Values
      ensures p !in byKey
    {
      var k :| k in LOCAL_TO_USERDATA && LOCAL_TO_USERDATA[k] == p;
    }
    assert byKey == map[];
  }

  /** A found key and its property name are distinct from each other and
      from the members of a composite backup, and the name is a `found_*`
      name. */
  lemma PropertyOf(k: string)
    requires k in FOUND_KEYS
    ensures k != "plots" && k != "pins" && k != "found"
    ensures k in LOCAL_TO_USERDATA && LOCAL_TO_USERDATA[k] in USERDATA_PROPS
    ensures LOCAL_TO_USERDATA[k] != k
    ensures LOCAL_TO_USERDATA[k] != "plots" && LOCAL_TO_USERDATA[k] != "pins" && LOCAL_TO_USERDATA[k] != "found"
  {
    TableValues();
    KeysDisjoint();
    KeyIsNotProperty(k, LOCAL_TO_USERDATA[k]);
    PropertyNamesAreNotMembers();
  }

  /** A found key is never a property name. */
  lemma KeyIsNotProperty(k: string, p: string)
    requires k in FOUND_KEYS && p in USERDATA_PROPS
    ensures k != p
  {
    KeysDisjoint();
  }


  /** A file `{ "found": { <found key>: value } }` (the gordo key with a
      list of ids, say) is rejected by the found import, whose validator
      sees only the key `found`. */
  lemma FoundOnlyBackupRejected(k: string, value: Json)
    requires k in FOUND_KEYS
    ensures !Accepts(FoundData, JObject(map["found" := JObject(map[k := value])]))
  {
    var v := JObject(map["found" := JObject(map[k := value])]);
    KeysDisjoint();
    assert "found" !in FOUND_KEY_SET;
    assert OwnNames(v) * FOUND_KEY_SET == {};
  }

  /** The same file through the "all" import writes exactly that found key
      (when its value is truthy) and nothing else. */
  lemma FoundOnlyBackupWritesKey(store: Store, k: string, value: Json)
    requires k in FOUND_KEYS && Truthy(Some(value))
    ensures ImportedStore(AllData, store, JObject(map["found" := JObject(map[k := value])])) == store[k := Stringified(value)]
  {
    var v := JObject(map["found" := JObject(map[k := value])]);
    assert "plots"[0] != "found"[0] && "pins"[0] != "found"[0];
    assert Prop(v, "plots").None? && Prop(v, "pins").None?;
    SingleFoundWrite(k, value, FOUND_KEYS, IfTruthy);
  }

  /** An object with one key among `keys` whose value passes `rule` makes
      the copy loop write that key alone. */
  lemma SingleFoundWrite(k: string, value: Json, keys: seq<string>, rule: WriteRule)
    requires k in keys && Passes(rule, Some(value))
    ensures FoundWrites(JObject(map[k := value]), keys, rule) == map[k := Stringified(value)]
  {
  }
}
