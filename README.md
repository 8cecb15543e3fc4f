# Material texture exporter — a Dafny model

This project models the decision logic of `MaterialProcessor`, a Unity editor
command ("Tools/Process Materials"). The command walks every renderer of the
open scene. For each material it picks an export recipe from the material's
name, copies the referenced PNG textures into `Assets/textures/meta-horizon`
under names built from that recipe, and records warnings and errors. At the
end it shows a summary dialog and can highlight the object of the first error.

Unity's services are inputs to the model:

- The renderers are a sequence of `Scan.Renderer` values. Each has an enabled
  flag, an active-in-hierarchy flag, its object and its shared materials; a
  null slot is `None`.
- A material (`Export.Material`) is its name, its render queue and a map of
  texture properties. A key being present means `HasProperty` is true. Its
  value is the texture, or `None` for a null texture.
- `AssetDatabase.GetAssetPath` and `AssetDatabase.CopyAsset` are the two
  functions of an `Export.AssetDatabase` value. Each call either returns a
  value or throws an exception with a message. The copy attempts the run makes
  are its observable effect on the asset database.

The modules follow the parts of the source file:

- `Issues` models `ProcessingIssue`, its `ToString`, and the split into errors
  and warnings.
- `Naming` models the base-name extraction, the ordinal substring test, and the
  if/else naming chain, written as an ordered rule table with first match
  winning.
- `Export` models `CopyTexture` as a specification function (`CopyTextureSpec`).
  It also holds the class `ExportRun`, the run-scoped state that the source
  mutates in place: the issue list and the copies made. Its methods
  `CopyTexture` and `ProcessMaterialTextures` follow the source branch by
  branch and are proved against the specification functions.
- `Scan` models the two nested `foreach` loops of `ProcessMaterials`
  (`ScanScene`), specified by `SceneSpec`, with the lemmas about the scan.
- `Summary` models how the summary text is built, and the "Select Error"
  action.
- `Processor` models `ProcessMaterials` from the scan to the end of the
  summary.

Two behaviours of the code worth stating:

- The "Select Error" action looks only at the first error. If that error
  carries no object (for example a non-PNG error), nothing is selected, even
  when later errors do carry one.
- The null-slot warning's text is "Null material reference found".

## Model

| member | source | states |
|---|---|---|
| Issues.Describe | Editor/MaterialProcessor.cs:21-24 | The text starts with "Error - " for an error and "Warning - " for a warning, so the severity can be read back from the first character; it ends with "): " and the message |
| Issues.ErrorsOf | Editor/MaterialProcessor.cs:174 | Keeps only errors, keeps every error of the list, never grows the list |
| Issues.WarningsOf | Editor/MaterialProcessor.cs:175 | Keeps only warnings, keeps every warning of the list, never grows the list |
| Issues.ErrorsWithObject | Editor/MaterialProcessor.cs:26-29 | Keeps exactly the errors that carry an object reference; it is never longer than the list of all errors |
| Issues.ErrorsAppend | Editor/MaterialProcessor.cs:174 | Selecting the errors distributes over concatenation, so errors keep their original relative order |
| Issues.WarningsAppend | Editor/MaterialProcessor.cs:175 | Selecting the warnings distributes over concatenation, so warnings keep their original relative order |
| Issues.SplitIsPartition | Editor/MaterialProcessor.cs:174-175 | The errors and the warnings together are exactly the issues (as multisets, and by count): no issue is lost from the summary |
| Issues.ErrorsOfHead | Editor/MaterialProcessor.cs:203 | `errors.First()` is the first error in issue order; there are no errors exactly when no issue is an error |
| Naming.Contains | Editor/MaterialProcessor.cs:239 | The substring test is true exactly when the pattern occurs at some position of the name (ordinal, case-sensitive) |
| Naming.BaseName | Editor/MaterialProcessor.cs:232 | The base name is a prefix of the material name that holds no `_`, and is followed by `_` unless it is the whole name |
| Naming.BaseNameUnique | Editor/MaterialProcessor.cs:232 | Any string with those three properties is the base name, so they define it completely: the whole name when there is no `_`, and empty when the name starts with `_` |
| Naming.BaseNameExamples | Editor/MaterialProcessor.cs:232 | "Wall_Metal_01" gives "Wall", "Floor" gives "Floor", "_Glass" gives "" |
| Naming.FirstMatchIsLeast | Editor/MaterialProcessor.cs:239-264 | In an ordered rule list, the rule at index k decides when its pattern occurs and no earlier pattern does |
| Naming.FirstMatchNone | Editor/MaterialProcessor.cs:265-269 | The default recipe applies when no pattern of the list occurs in the name |
| Naming.Recipe | Editor/MaterialProcessor.cs:239-269 | Every recipe has one or two steps and exports `_BaseMap` first |
| Naming.Classification | Editor/MaterialProcessor.cs:239-269 | The full table, each line an if-and-only-if (the five recipes are distinct), first match wins, in the order Metal, Transparent, Unlit, then Blend/Masked/UIO, then the default: Metal gives `_BaseMap`→`_BR` and `_MetallicGlossMap`→`_MEO`; Transparent gives `_BaseMap`→`_BR` and `_EmissionMap`→`_MESA`; Unlit gives `_BaseMap`→`_B`; Blend, Masked and UIO give `_BaseMap`→`_BA`; anything else gives `_BaseMap`→`_BR` |
| Naming.MetalWinsOverTransparent | Editor/MaterialProcessor.cs:239-248 | A name containing both "Metal" and "Transparent" gets the Metal recipe |
| Naming.PlainNameGetsDefault | Editor/MaterialProcessor.cs:265-269 | "Floor" matches no pattern and gets the default recipe |
| Naming.FileName | Editor/MaterialProcessor.cs:241 | An exported file name starts with the base name and ends in ".png" |
| Export.ReplaceBackslashes | Editor/MaterialProcessor.cs:296 | The result has the same length and no backslash; every backslash becomes `/` and every other character is unchanged |
| Export.OutputPath | Editor/MaterialProcessor.cs:295-296 | The path is the directory, one "/", then the file name, character for character, except that every backslash becomes "/"; it holds no backslash |
| Export.CopyTextureSpec | Editor/MaterialProcessor.cs:272-320 | At most one issue and at most one copy per slot. An absent property does nothing. Every copy reads a ".png" source and writes `OutputPath(dir, fileName)`. Its issues carry no object reference and name the object and the material. An exception leaves no issue. An error means no copy |
| Export.CopyTextureCases | Editor/MaterialProcessor.cs:275-318 | The complete decision tree: an absent property does nothing; a null texture gives exactly the "No texture found for property" warning; an exception from GetAssetPath gives no issue, no copy and the exception; a non-".png" path gives exactly the "is not a PNG" error and no copy; a ".png" path gives exactly one copy attempt to the output path, followed by the "Failed to copy texture" warning when CopyAsset returns false, nothing when it returns true, and no issue and the exception when it throws |
| Export.StepsSpec | Editor/MaterialProcessor.cs:241-247 | Running a recipe's steps in order makes at most one copy and one issue per step. Every copy reads a ".png" source and lands on the output path of one of the steps' file names. All its issues carry no object reference |
| Export.ExportRun.CopyAsset | Editor/MaterialProcessor.cs:298 | Each CopyAsset call appends one copy attempt and returns the asset database's answer |
| Export.ExportRun.CopyTexture | Editor/MaterialProcessor.cs:272-320 | The method appends exactly the issues and copies of `CopyTextureSpec` and reports its exception, if any |
| Export.ExportRun.ProcessMaterialTextures | Editor/MaterialProcessor.cs:230-270 | The if/else chain makes exactly the copies and issues of the rule table's recipe, in step order; an exception stops the remaining steps and is passed on |
| Scan.ScanScene | Editor/MaterialProcessor.cs:91-165 | The nested loops append exactly the issues and copies of `SceneSpec`, in renderer and slot order. `processedRenderers` counts enabled renderers on active objects, and `totalMaterials` counts their non-null slots |
| Scan.ScanSlots | Editor/MaterialProcessor.cs:114-164 | The loop over one processed renderer's slots appends exactly the issues and copies of `SlotsSpec`, in slot order, and adds the number of non-null slots to `totalMaterials` |
| Scan.ScanSlot | Editor/MaterialProcessor.cs:116-163 | One slot appends exactly `SlotSpec`: a null slot gives the null-material warning; an opaque material without a base texture gives the "Missing base texture" error and is not exported; otherwise the export runs, and an exception it throws becomes an error carrying the object. The slot is counted exactly when it is not null |
| Scan.SceneAppend | Editor/MaterialProcessor.cs:97-165 | Scanning a concatenation of renderer lists produces the two scans one after the other, and adds their counters |
| Scan.SlotsAppend | Editor/MaterialProcessor.cs:114-164 | The same holds for the material slots of one renderer |
| Scan.OnlyAppended | Editor/MaterialProcessor.cs:97-165 | Issues and copies are only ever appended: the output after the first i renderers is a prefix of the final output |
| Scan.SkippedRendererIsInvisible | Editor/MaterialProcessor.cs:97-106 | A disabled renderer, or one on an inactive object, contributes no issue, no copy, and nothing to either counter |
| Scan.NullSlot | Editor/MaterialProcessor.cs:116-127 | A null slot appends exactly one warning named "null" that carries the renderer's object. It makes no copy and is not counted as a material |
| Scan.StepsThrowFree | Editor/MaterialProcessor.cs:149-163 | When the asset layer never throws, the exporter always finishes normally |
| Scan.BaseTextureGate | Editor/MaterialProcessor.cs:129-147 | Queue below 3000 without a base texture: exactly the one "Missing base texture on visible material" error, which carries the object, and no copy. Queue 3000 or above: never that error (when the asset layer does not throw), and the export still runs, so a null base map gives the exporter's warning |
| Scan.OutputPathShape | Editor/MaterialProcessor.cs:295-296 | For a ".png" file name, the path starts with "Assets/textures/meta-horizon/", ends in ".png", and holds no backslash |
| Scan.SceneCopiesLand | Editor/MaterialProcessor.cs:283-298 | Every copy of the whole scan reads a ".png" asset and writes a ".png" file under "Assets/textures/meta-horizon/", with no backslash in the path |
| Summary.NatToString | Editor/MaterialProcessor.cs:180-181 | A count is written as a non-empty string of decimal digits without a leading zero |
| Summary.DecimalRoundTrip | Editor/MaterialProcessor.cs:180-181 | Reading that text back gives the count |
| Summary.Numbered | Editor/MaterialProcessor.cs:181 | A listed entry starts with a digit, so it can never be the truncation marker |
| Summary.Listed | Editor/MaterialProcessor.cs:181-189 | A section lists min(count, 10) entries. Entry k is numbered k+1 and rendered by `ToString`. The last line is "...and more" exactly when there are more than 10 |
| Summary.JoinEnds | Editor/MaterialProcessor.cs:181-188 | `string.Join`: an empty list joins to ""; otherwise the text starts with the first line and ends with the last |
| Summary.JoinAppend | Editor/MaterialProcessor.cs:181-188 | Joining two non-empty lists is joining each and putting one separator between them |
| Summary.ListedJoin | Editor/MaterialProcessor.cs:181-182 | Joining the ten entries and then appending "\n...and more", as the source does, is the same as joining the listed lines |
| Summary.ShowSummary | Editor/MaterialProcessor.cs:172-199 | The dialog appears exactly when there are issues. The message is the errors' section (if any), then the warnings' section (if any), then the footer. The second button reads "Close" when there are errors and "OK" otherwise |
| Summary.SelectTarget | Editor/MaterialProcessor.cs:201-212 | Something is selected only when the user chose to select; it is the object of the first error in issue order. Something is selected whenever that first error carries an object. A first error without one selects nothing |
| Processor.ProcessMaterials | Editor/MaterialProcessor.cs:91-213 | A whole run: the scan's issues, copies and counters; the dialog exactly when there are issues, with its title, the summary text, "Select Error", and "Close" when there are errors or "OK" otherwise; the selection of the first error's object when the user asks for it |

## Left out

- Output-directory preparation (lines 45-84) is not modelled: the existence check, the confirmation dialog, deleting the existing files and creating the directory. These are file-system and dialog I/O. The model starts at the scan.
- Progress bars, `Debug.Log`, the progress fraction (line 107) and the enabled-renderer count that only feeds it (line 95) are not modelled.
- `AssetDatabase.Refresh` is not modelled, nor the effect of selecting, framing and pinging an object. The model only says which object would be selected.
- The top-level exception handler (lines 218-227) is not modelled. Only exceptions thrown by `GetAssetPath` and `CopyAsset` are modelled, through the per-material guard (lines 149-163). Exceptions from other Unity calls (`HasProperty`, `GetTexture`, `name`) are not.
- Export.AssetDatabase: a copy's result depends only on its source and destination. Earlier copies in the same run, and whether a copy overwrites an existing file, are not modelled, because the asset database's behaviour is not visible.
- Idempotence across two runs is not modelled, because it depends on the directory clearing that is left out.
- Export.OutputPath: `Path.Combine` is modelled as the directory, "/" and the file name, and it never throws. Two platform behaviours are not modelled. First, a rooted second argument replaces the directory; every built file name starts with the base name of a material name, and an absolute one is not expected. Second, on the Windows editor runtime `Path.Combine` throws `ArgumentException` when the file name holds an invalid path character (`"`, `<`, `>`, `|` or a control character). The source's per-material guard (lines 153-162) would then record an error carrying the object and make no copy. The model instead records a copy attempt for such a material name.
- Issues.EndsWith: the ".png" test is ordinal. The source calls `string.EndsWith(string)`, which is culture-sensitive; the two agree on the ASCII suffix ".png" except for culture-ignorable characters, which are not modelled.
- The `materialName` parameter of `ProcessMaterialTextures` is always `material.name` at its only call (line 151). The model reads the material's name directly.
- An issue's object reference is a plain handle. The model does not capture that it can be stale by the time the summary is shown.
