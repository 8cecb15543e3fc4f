/**
 * ProcessMaterials from the scan to the end of the summary: scan the scene,
 * show the summary when there are issues, and select the first error's
 * object when the user asks for it.
 */
module Processor {

  import opened Issues
  import opened Export
  import opened Scan
  import opened Summary

  /**
   * One run. `choosesSelect` is the user's answer to the summary dialog
   * ("Select Error" rather than the other button). The issues and copies are
   * those of the scan, the dialog appears exactly when there are issues, and
   * what gets selected is the object of the first error, if that error has one.
   */
  method ProcessMaterials(renderers: seq<Renderer>, db: AssetDatabase, choosesSelect: bool)
    returns (issues: seq<Issue>, copies: seq<CopyAttempt>, processedRenderers: nat, totalMaterials: nat,
             dialog: Option<Dialog>, selected: Option<ObjectRef>)
    ensures Trace(issues, copies) == SceneSpec(renderers, OutputDirectory, db)
    ensures processedRenderers == ProcessedCount(renderers) && totalMaterials == MaterialCount(renderers)
    ensures dialog.Some? <==> issues != []
    ensures dialog.Some? ==> dialog.value == Dialog(SummaryTitle, SummaryMessage(issues), "Select Error",
                                                   if ErrorsOf(issues) != [] then "Close" else "OK")
    ensures selected == SelectTarget(issues, dialog.Some? && choosesSelect)
  {
    issues, copies, processedRenderers, totalMaterials := ScanScene(renderers, db);
    dialog := ShowSummary(issues);
    selected := None;
    if dialog.Some? {
      var shouldSelect := choosesSelect;
      var errors := ErrorsOf(issues);
      if shouldSelect && errors != [] {
        var firstError := errors[0];
        if firstError.gameObject.Some? {
          selected := firstError.gameObject;
        }
      }
    }
  }
}
