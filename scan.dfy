/**
 * The scene scan of ProcessMaterials: every enabled renderer on an active
 * object, every material slot in slot order, the null-slot warning, the
 * render-queue gate on the base texture, the per-material exception guard,
 * and the two counters.
 */
module Scan {

  import opened Issues
  import opened Naming
  import opened Export

  /**
   * A renderer as the scan sees it: its enabled flag, whether its object is
   * active in the hierarchy, that object (handle and name), and its shared
   * materials, where None is a null slot.
   */
  datatype Renderer = Renderer(
    enabled: bool,
    activeInHierarchy: bool,
    owner: ObjectRef,
    ownerName: string,
    sharedMaterials: seq<Option<Material>>)

  /** The scan processes a renderer only when it is enabled and its object is active. */
  predicate IsProcessed(r: Renderer) {
    r.enabled && r.activeInHierarchy
  }

  /** Materials in a queue below this are treated as opaque and must have a base texture. */
  const TransparentQueue: int := 3000

  const MissingBaseMessage: string := "Missing base texture on visible material"

  function NullMaterialIssue(r: Renderer): Issue {
    Issue(r.ownerName, "null", "Null material reference found", false, Some(r.owner))
  }

  function MissingBaseIssue(r: Renderer, m: Material): Issue {
    Issue(r.ownerName, m.name, MissingBaseMessage, true, Some(r.owner))
  }

  /** The error the per-material guard records for an exception with message `msg`. */
  function ExceptionIssue(r: Renderer, m: Material, msg: string): Issue {
    Issue(r.ownerName, m.name, msg, true, Some(r.owner))
  }

  /** An opaque material without a base texture: it is reported and not exported. */
  predicate FailsBaseTextureGate(m: Material) {
    m.renderQueue < TransparentQueue && !HasTexture(m, "_BaseMap")
  }

  /** The asset layer never throws. */
  ghost predicate ThrowFree(db: AssetDatabase) {
    && (forall t :: db.assetPath(t).Returned?)
    && (forall src, dst :: db.copyAsset(src, dst).Returned?)
  }

  /** One non-null material slot of a processed renderer. */
  function MaterialSpec(r: Renderer, m: Material, dir: string, db: AssetDatabase): Trace {
    if FailsBaseTextureGate(m) then Trace([MissingBaseIssue(r, m)], [])
    else
      var o := TexturesSpec(m, dir, r.ownerName, db);
      match o.thrown
      case None => o.trace
      case Some(msg) => o.trace.Then(Trace([ExceptionIssue(r, m, msg)], []))
  }

  /** One material slot of a processed renderer. */
  function SlotSpec(r: Renderer, slot: Option<Material>, dir: string, db: AssetDatabase): Trace {
    match slot
    case None => Trace([NullMaterialIssue(r)], [])
    case Some(m) => MaterialSpec(r, m, dir, db)
  }

  /** The slots of a processed renderer, in slot order. */
  function SlotsSpec(r: Renderer, slots: seq<Option<Material>>, dir: string, db: AssetDatabase): Trace
    decreases |slots|
  {
    if slots == [] then Nothing
    else SlotsSpec(r, slots[..|slots| - 1], dir, db).Then(SlotSpec(r, slots[|slots| - 1], dir, db))
  }

  function RendererSpec(r: Renderer, dir: string, db: AssetDatabase): Trace {
    if IsProcessed(r) then SlotsSpec(r, r.sharedMaterials, dir, db) else Nothing
  }

  /** The whole scan: renderers in array order. */
  function SceneSpec(rs: seq<Renderer>, dir: string, db: AssetDatabase): Trace
    decreases |rs|
  {
    if rs == [] then Nothing
    else SceneSpec(rs[..|rs| - 1], dir, db).Then(RendererSpec(rs[|rs| - 1], dir, db))
  }

  /** The non-null slots. */
  function NonNullCount(slots: seq<Option<Material>>): nat
    decreases |slots|
  {
    if slots == [] then 0
    else NonNullCount(slots[..|slots| - 1]) + (if slots[|slots| - 1].Some? then 1 else 0)
  }

  /** `processedRenderers` at the end of the scan. */
  function ProcessedCount(rs: seq<Renderer>): nat
    decreases |rs|
  {
    if rs == [] then 0
    else ProcessedCount(rs[..|rs| - 1]) + (if IsProcessed(rs[|rs| - 1]) then 1 else 0)
  }

  /** `totalMaterials` at the end of the scan. */
  function MaterialCount(rs: seq<Renderer>): nat
    decreases |rs|
  {
    if rs == [] then 0
    else
      var r := rs[|rs| - 1];
      MaterialCount(rs[..|rs| - 1]) + (if IsProcessed(r) then NonNullCount(r.sharedMaterials) else 0)
  }

  lemma ThenNothing(t: Trace)
    ensures t.Then(Nothing) == t && Nothing.Then(t) == t
  {
    assert t.issues + [] == t.issues && t.copies + [] == t.copies;
  }

  /**
   * The scan loops of ProcessMaterials: the issues it appends and the copies it issues are
   * those of SceneSpec, and its counters count the processed renderers and
   * their non-null material slots.
   */
  method ScanScene(renderers: seq<Renderer>, db: AssetDatabase)
    returns (issues: seq<Issue>, copies: seq<CopyAttempt>, processedRenderers: nat, totalMaterials: nat)
    ensures Trace(issues, copies) == SceneSpec(renderers, OutputDirectory, db)
    ensures processedRenderers == ProcessedCount(renderers)
    ensures totalMaterials == MaterialCount(renderers)
  {
    var outputDirectory := OutputDirectory;
    var run := new ExportRun(outputDirectory, db);
    processedRenderers, totalMaterials := 0, 0;

    for i := 0 to |renderers|
      invariant run.outputDirectory == outputDirectory && run.db == db
      invariant run.Log() == SceneSpec(renderers[..i], outputDirectory, db)
      invariant processedRenderers == ProcessedCount(renderers[..i])
      invariant totalMaterials == MaterialCount(renderers[..i])
    {
      var renderer := renderers[i];
      assert renderers[..i + 1][..i] == renderers[..i];
      ghost var done := SceneSpec(renderers[..i], outputDirectory, db);
      if !renderer.enabled || !renderer.activeInHierarchy {
        ThenNothing(done);
        continue;
      }
      processedRenderers := processedRenderers + 1;
      var found := ScanSlots(run, renderer);
      totalMaterials := totalMaterials + found;
    }
    assert renderers[..|renderers|] == renderers;
    issues, copies := run.issues, run.copies;
  }

  /**
   * The inner loop of ProcessMaterials over one processed renderer's slots:
   * it appends the slots' issues and copies in slot order, and `found`
   * is what the loop adds to `totalMaterials`.
   */
  method ScanSlots(run: ExportRun, renderer: Renderer) returns (found: nat)
    modifies run
    ensures run.Log() == old(run.Log()).Then(SlotsSpec(renderer, renderer.sharedMaterials, run.outputDirectory, run.db))
    ensures found == NonNullCount(renderer.sharedMaterials)
  {
    var slots := renderer.sharedMaterials;
    ghost var done := run.Log();
    ThenNothing(done);
    found := 0;
    for j := 0 to |slots|
      invariant run.Log() == done.Then(SlotsSpec(renderer, slots[..j], run.outputDirectory, run.db))
      invariant found == NonNullCount(slots[..j])
    {
      assert slots[..j + 1][..j] == slots[..j];
      ThenAssoc(done, SlotsSpec(renderer, slots[..j], run.outputDirectory, run.db),
                SlotSpec(renderer, slots[j], run.outputDirectory, run.db));
      var counted := ScanSlot(run, renderer, slots[j]);
      if counted {
        found := found + 1;
      }
    }
    assert slots[..|slots|] == slots;
  }

  /**
   * The body of the inner loop of ProcessMaterials for one slot: the null-slot
   * warning, the base-texture gate, and the export under the per-material
   * exception guard. `counted` tells whether the slot adds to `totalMaterials`.
   */
  method ScanSlot(run: ExportRun, renderer: Renderer, slot: Option<Material>) returns (counted: bool)
    modifies run
    ensures run.Log() == old(run.Log()).Then(SlotSpec(renderer, slot, run.outputDirectory, run.db))
    ensures counted == slot.Some?
  {
    match slot
    case None =>
      run.AddIssue(NullMaterialIssue(renderer));
      counted := false;
    case Some(material) =>
      counted := true;
      if material.renderQueue < TransparentQueue {
        if !HasProperty(material, "_BaseMap") || material.props["_BaseMap"].None? {
          run.AddIssue(MissingBaseIssue(renderer, material));
          return;
        }
      }
      ghost var before := run.Log();
      var thrown := run.ProcessMaterialTextures(material, renderer.ownerName);
      if thrown.Some? {
        ThenAssoc(before, TexturesSpec(material, run.outputDirectory, renderer.ownerName, run.db).trace,
                  Trace([ExceptionIssue(renderer, material, thrown.value)], []));
        run.AddIssue(ExceptionIssue(renderer, material, thrown.value));
      }
  }

  /** The scan of two renderer lists one after the other is the scan of their concatenation. */
  lemma {:induction false} SceneAppend(a: seq<Renderer>, b: seq<Renderer>, dir: string, db: AssetDatabase)
    ensures SceneSpec(a + b, dir, db) == SceneSpec(a, dir, db).Then(SceneSpec(b, dir, db))
    ensures ProcessedCount(a + b) == ProcessedCount(a) + ProcessedCount(b)
    ensures MaterialCount(a + b) == MaterialCount(a) + MaterialCount(b)
    decreases |b|
  {
    if b == [] {
      assert a + b == a;
      ThenNothing(SceneSpec(a, dir, db));
    } else {
      var init := b[..|b| - 1];
      assert (a + b)[..|a + b| - 1] == a + init;
      assert (a + b)[|a + b| - 1] == b[|b| - 1];
      SceneAppend(a, init, dir, db);
      ThenAssoc(SceneSpec(a, dir, db), SceneSpec(init, dir, db), RendererSpec(b[|b| - 1], dir, db));
    }
  }

  /** The slots of a renderer split the same way. */
  lemma {:induction false} SlotsAppend(r: Renderer, a: seq<Option<Material>>, b: seq<Option<Material>>,
                                       dir: string, db: AssetDatabase)
    ensures SlotsSpec(r, a + b, dir, db) == SlotsSpec(r, a, dir, db).Then(SlotsSpec(r, b, dir, db))
    ensures NonNullCount(a + b) == NonNullCount(a) + NonNullCount(b)
    decreases |b|
  {
    if b == [] {
      assert a + b == a;
      ThenNothing(SlotsSpec(r, a, dir, db));
    } else {
      var init := b[..|b| - 1];
      assert (a + b)[..|a + b| - 1] == a + init;
      assert (a + b)[|a + b| - 1] == b[|b| - 1];
      SlotsAppend(r, a, init, dir, db);
      ThenAssoc(SlotsSpec(r, a, dir, db), SlotsSpec(r, init, dir, db), SlotSpec(r, b[|b| - 1], dir, db));
    }
  }

  /**
   * Issues and copies are only ever appended: what the scan has produced
   * after the first `i` renderers is a prefix of what it produces in the end.
   */
  lemma OnlyAppended(rs: seq<Renderer>, i: int, dir: string, db: AssetDatabase)
    requires 0 <= i <= |rs|
    ensures SceneSpec(rs[..i], dir, db).issues <= SceneSpec(rs, dir, db).issues
    ensures SceneSpec(rs[..i], dir, db).copies <= SceneSpec(rs, dir, db).copies
  {
    assert rs == rs[..i] + rs[i..];
    SceneAppend(rs[..i], rs[i..], dir, db);
  }

  /**
   * A disabled renderer, or one on an inactive object, changes nothing:
   * removing it from the scene leaves the issues, the copies and both
   * counters as they were.
   */
  lemma SkippedRendererIsInvisible(a: seq<Renderer>, r: Renderer, b: seq<Renderer>, dir: string, db: AssetDatabase)
    requires !IsProcessed(r)
    ensures SceneSpec(a + [r] + b, dir, db) == SceneSpec(a + b, dir, db)
    ensures ProcessedCount(a + [r] + b) == ProcessedCount(a + b)
    ensures MaterialCount(a + [r] + b) == MaterialCount(a + b)
  {
    SceneAppend(a + [r], b, dir, db);
    SceneAppend(a, [r], dir, db);
    SceneAppend(a, b, dir, db);
    assert [r][..0] == [];
    ThenNothing(Nothing);
    ThenNothing(SceneSpec(a, dir, db));
  }

  /**
   * A null slot appends exactly one warning, named "null" and carrying the
   * renderer's object, issues no copy and is not counted as a material.
   */
  lemma NullSlot(r: Renderer, a: seq<Option<Material>>, b: seq<Option<Material>>, dir: string, db: AssetDatabase)
    ensures var w := NullMaterialIssue(r);
      && !w.isError && w.materialName == "null" && w.gameObject == Some(r.owner)
      && SlotsSpec(r, a + [None] + b, dir, db)
           == SlotsSpec(r, a, dir, db).Then(Trace([w], [])).Then(SlotsSpec(r, b, dir, db))
      && NonNullCount(a + [None] + b) == NonNullCount(a) + NonNullCount(b)
  {
    SlotsAppend(r, a + [None], b, dir, db);
    SlotsAppend(r, a, [None], dir, db);
    var nullSlot: seq<Option<Material>> := [None];
    assert nullSlot[..0] == [];
    ThenNothing(Trace([NullMaterialIssue(r)], []));
  }

  /** Without exceptions from the asset layer, the exporter ends normally. */
  lemma {:induction false} StepsThrowFree(m: Material, steps: seq<Step>, dir: string, objectName: string, db: AssetDatabase)
    requires ThrowFree(db)
    ensures StepsSpec(m, steps, dir, objectName, db).thrown.None?
    decreases |steps|
  {
    if steps != [] {
      var p := PropertyName(steps[0].slot);
      if HasTexture(m, p) {
        assert db.assetPath(m.props[p].value).Returned?;
        var path := db.assetPath(m.props[p].value).value;
        assert db.copyAsset(path, OutputPath(dir, FileName(m.name, steps[0]))).Returned?;
      }
      StepsThrowFree(m, steps[1..], dir, objectName, db);
    }
  }

  /**
   * The base-texture gate. An opaque material (queue below 3000) without a
   * base texture gets exactly the one "Missing base texture" error and no
   * copy. A material at queue 3000 or above never gets that error, and its
   * export still runs: a null base texture gives the exporter's warning.
   */
  lemma BaseTextureGate(r: Renderer, m: Material, dir: string, db: AssetDatabase)
    ensures m.renderQueue < TransparentQueue && !HasTexture(m, "_BaseMap") ==>
      MaterialSpec(r, m, dir, db) == Trace([MissingBaseIssue(r, m)], [])
    ensures m.renderQueue >= TransparentQueue && ThrowFree(db) ==>
      MissingBaseIssue(r, m) !in MaterialSpec(r, m, dir, db).issues
    ensures m.renderQueue >= TransparentQueue && HasProperty(m, "_BaseMap") && !HasTexture(m, "_BaseMap") ==>
      var t := MaterialSpec(r, m, dir, db);
      |t.issues| > 0 && t.issues[0] == NoTextureIssue(r.ownerName, m, "_BaseMap")
  {
    if m.renderQueue >= TransparentQueue {
      var o := TexturesSpec(m, dir, r.ownerName, db);
      if ThrowFree(db) {
        StepsThrowFree(m, Recipe(m.name), dir, r.ownerName, db);
        assert MaterialSpec(r, m, dir, db) == o.trace;
        assert MissingBaseIssue(r, m).gameObject.Some?;
      }
      if HasProperty(m, "_BaseMap") && !HasTexture(m, "_BaseMap") {
        var steps := Recipe(m.name);
        var first := CopyTextureSpec(m, PropertyName(steps[0].slot), FileName(m.name, steps[0]), dir, r.ownerName, db);
        assert first.trace.issues == [NoTextureIssue(r.ownerName, m, "_BaseMap")];
        assert o.trace.issues[0] == first.trace.issues[0];
      }
    }
  }

  /** A copy the scan issues: a ".png" source into the output directory, under a ".png" name. */
  predicate LandsInOutputDirectory(c: CopyAttempt) {
    && EndsWith(c.src, ".png")
    && StartsWith(c.dst, OutputDirectory + "/")
    && EndsWith(c.dst, ".png")
    && '\\' !in c.dst
  }

  lemma OutputPathShape(fileName: string)
    requires EndsWith(fileName, ".png")
    ensures var p := OutputPath(OutputDirectory, fileName);
      StartsWith(p, OutputDirectory + "/") && EndsWith(p, ".png") && '\\' !in p
  {
    var d := OutputDirectory;
    var p := OutputPath(d, fileName);
    assert forall i :: 0 <= i < |d| ==> d[i] != '\\';
    assert p[..|d| + 1] == d + "/";
    var n := |fileName|;
    assert fileName[n - 4..] == ".png";
    assert forall i :: n - 4 <= i < n ==> fileName[i] != '\\';
    assert p[|p| - 4..] == fileName[n - 4..];
  }

  lemma MaterialCopiesLand(r: Renderer, m: Material, db: AssetDatabase)
    ensures forall c :: c in MaterialSpec(r, m, OutputDirectory, db).copies ==> LandsInOutputDirectory(c)
  {
    var o := TexturesSpec(m, OutputDirectory, r.ownerName, db);
    forall c | c in o.trace.copies ensures LandsInOutputDirectory(c) {
      var s :| s in Recipe(m.name) && c.dst == OutputPath(OutputDirectory, FileName(m.name, s));
      OutputPathShape(FileName(m.name, s));
    }
  }

  lemma {:induction false} SlotsCopiesLand(r: Renderer, slots: seq<Option<Material>>, db: AssetDatabase)
    ensures forall c :: c in SlotsSpec(r, slots, OutputDirectory, db).copies ==> LandsInOutputDirectory(c)
    decreases |slots|
  {
    if slots != [] {
      SlotsCopiesLand(r, slots[..|slots| - 1], db);
      if slots[|slots| - 1].Some? {
        MaterialCopiesLand(r, slots[|slots| - 1].value, db);
      }
    }
  }

  /**
   * Every copy the scan issues reads a ".png" asset and writes a ".png" file
   * inside "Assets/textures/meta-horizon/", with forward slashes only.
   */
  lemma {:induction false} SceneCopiesLand(rs: seq<Renderer>, db: AssetDatabase)
    ensures forall c :: c in SceneSpec(rs, OutputDirectory, db).copies ==> LandsInOutputDirectory(c)
    decreases |rs|
  {
    if rs != [] {
      SceneCopiesLand(rs[..|rs| - 1], db);
      var r := rs[|rs| - 1];
      if IsProcessed(r) {
        SlotsCopiesLand(r, r.sharedMaterials, db);
      }
    }
  }
}
