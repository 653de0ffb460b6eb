/** The older plot-planner buttons (PlotPlannerData.tsx): an import that
    checks the file text with a chain of guards and stores it verbatim, a
    clear, and the text the export button offers. */
module PlotPlanner {
  import opened Json
  import opened Env
  import opened Shapes
  import opened Backup

  /** The characters `String.prototype.trim` removes: white space and line
      terminators. */
  predicate IsJsWhitespace(c: char) {
    || c == '\t' || c == '\n' || c == '\U{000B}' || c == '\U{000C}' || c == '\r' || c == ' '
    || c == '\U{00A0}' || c == '\U{1680}' || ('\U{2000}' <= c <= '\U{200A}')
    || c == '\U{2028}' || c == '\U{2029}' || c == '\U{202F}' || c == '\U{205F}'
    || c == '\U{3000}' || c == '\U{FEFF}'
  }

  /** `!text || text.trim() === ""`: empty, or white space only. */
  predicate IsBlank(text: string) {
    forall i :: 0 <= i < |text| ==> IsJsWhitespace(text[i])
  }

  /** Why the import rejects a file: the three guards, in order. */
  datatype PlannerError = EmptyFile | Unparseable | NotAnArray

  /** What the guards make of the file text. */
  datatype FileCheck = Accepted(plans: seq<Json>) | Rejected(error: PlannerError)

  /** The guard chain of the import: blank text, then a parse failure, then a
      parsed value that is not an array. */
  function CheckPlotFile(text: string, parse: string -> Option<Json>): (r: FileCheck)
    ensures r == Rejected(EmptyFile) <==> IsBlank(text)
    ensures r == Rejected(Unparseable) <==> !IsBlank(text) && parse(text).None?
    ensures r == Rejected(NotAnArray) <==> !IsBlank(text) && parse(text).Some? && !parse(text).value.JArray?
    ensures r.Accepted? <==> !IsBlank(text) && parse(text).Some? && parse(text).value.JArray?
    ensures r.Accepted? ==> parse(text) == Some(JArray(r.plans))
  {
    if IsBlank(text) then Rejected(EmptyFile)
    else match parse(text)
      case None => Rejected(Unparseable)
      case Some(v) => if v.JArray? then Accepted(v.items) else Rejected(NotAnArray)
  }

  /** The guards look at nothing but array-ness: a non-blank text parsing to
      any array is accepted, even one the newer plot import rejects (here an
      array holding `null`). */
  lemma AnyArrayIsAccepted(text: string, parse: string -> Option<Json>, items: seq<Json>)
    requires !IsBlank(text) && parse(text) == Some(JArray(items))
    ensures CheckPlotFile(text, parse) == Accepted(items)
    ensures items == [JNull] ==> !IsValidPlotExport(JArray(items))
  {
    if items == [JNull] {
      assert !IsPlotRecord(JArray(items).items[0]);
    }
  }

  /** The file-input handler of `ImportPlotPlannerButton`, once the file is
      read. A declined confirmation changes nothing; a rejected file only
      raises an alert; an accepted one is stored as the raw text, then
      becomes the plot state and the page reloads. `setPlotData` is a
      required prop: a missing one throws a `TypeError` when called, as a
      throwing one does, and the `catch` then alerts after the write, with
      no reload. */
  method ImportPlotPlans(page: Page, text: string, confirmed: bool, parse: string -> Option<Json>, setPlotData: Setter)
    modifies page`storage, page`plotData, page`reloaded, page`alerted
    ensures !confirmed ==> unchanged(page)
    ensures confirmed && CheckPlotFile(text, parse).Rejected? ==>
      && page.alerted
      && page.storage == old(page.storage)
      && page.plotData == old(page.plotData)
      && page.reloaded == old(page.reloaded)
    ensures confirmed && CheckPlotFile(text, parse).Accepted? && setPlotData == Live ==>
      && page.storage == old(page.storage)[PLOT_KEY := Raw(text)]
      && page.plotData == JArray(CheckPlotFile(text, parse).plans)
      && page.reloaded
      && page.alerted == old(page.alerted)
    ensures confirmed && CheckPlotFile(text, parse).Accepted? && setPlotData != Live ==>
      && page.storage == old(page.storage)[PLOT_KEY := Raw(text)]
      && page.plotData == old(page.plotData)
      && page.reloaded == old(page.reloaded)
      && page.alerted
  {
    if !confirmed {
      return;
    }
    if IsBlank(text) {
      page.Alert();
      return;
    }
    var parsed := parse(text);
    if parsed.None? {
      page.Alert();
      return;
    }
    if !parsed.value.JArray? {
      page.Alert();
      return;
    }
    page.SetItem(PLOT_KEY, Raw(text));
    if setPlotData != Live {
      page.Alert();
      return;
    }
    page.plotData := parsed.value;
    page.Reload();
  }

  /** The click handler of `ClearPlotPlannerButton`. The setter runs before
      the write and outside any `try`: when it throws (or is missing) the
      exception escapes (`threw`) with storage untouched and no reload. */
  method ClearPlotPlans(page: Page, confirmed: bool, setPlotData: Setter) returns (threw: bool)
    modifies page`storage, page`plotData, page`reloaded
    ensures threw <==> confirmed && setPlotData != Live
    ensures !confirmed || threw ==> unchanged(page)
    ensures confirmed && !threw ==>
      && page.plotData == JArray([])
      && page.storage == old(page.storage)[PLOT_KEY := Stringified(JArray([]))]
      && page.reloaded
  {
    threw := false;
    if !confirmed {
      return;
    }
    if setPlotData != Live {
      threw := true;
      return;
    }
    page.plotData := JArray([]);
    page.SetItem(PLOT_KEY, Stringified(JArray([])));
    page.Reload();
  }

  /** The text `ExportPlotPlannerButton` offers: the file behind the link is
      made when the button renders, from the stored entry or `""` for a
      missing key. Its effect reads the key again with `"[]"` as the
      fallback, but only reassigns a local variable that the rendered link
      no longer reads, so that fallback never reaches the file. */
  function ExportedPlotText(store: Store): (e: Entry)
    ensures PLOT_KEY in store ==> e == store[PLOT_KEY]
    ensures PLOT_KEY !in store ==> e == Raw("")
  {
    match GetItem(store, PLOT_KEY)
    case Some(stored) => stored
    case None => Raw("")
  }

  /** With nothing stored the export offers an empty file, which this same
      component's import rejects as empty: the pair does not round-trip. */
  lemma EmptyExportIsRejected(store: Store, parse: string -> Option<Json>)
    requires PLOT_KEY !in store
    ensures ExportedPlotText(store) == Raw("")
    ensures CheckPlotFile(ExportedPlotText(store).text, parse) == Rejected(EmptyFile)
  {
  }

  /** After an accepted import the export offers the uploaded text itself,
      not a re-serialization, and the user-data layer reads the stored plans
      as the parsed array. */
  lemma ImportedTextIsExported(store: Store, text: string, parse: string -> Option<Json>)
    requires CheckPlotFile(text, parse).Accepted?
    ensures var after := store[PLOT_KEY := Raw(text)];
      && ExportedPlotText(after) == Raw(text)
      && StoredPlotPlans(after, parse) == JArray(CheckPlotFile(text, parse).plans)
  {
  }

  /** After a clear the export offers the stringified empty array, and the
      stored plans read as `[]`, whatever was stored before. */
  lemma ClearedPlansReadEmpty(store: Store, parse: string -> Option<Json>)
    ensures var after := store[PLOT_KEY := Stringified(JArray([]))];
      && ExportedPlotText(after) == Stringified(JArray([]))
      && StoredPlotPlans(after, parse) == JArray([])
  {
  }
}
