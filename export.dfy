/**
 * The texture exporter: CopyTexture's decision tree for one texture slot and
 * ProcessMaterialTextures' if/else chain over the naming rules. The asset
 * database (GetAssetPath, CopyAsset) is an input; what the exporter does to it
 * is recorded as the sequence of copy attempts it issues.
 */
module Export {

  import opened Issues
  import opened Naming

  /** An opaque handle on a texture asset. */
  type TexId = nat

  /**
   * A scene material: its name, its render queue and its texture properties.
   * A key present in `props` is a property the material has (HasProperty);
   * its value is the texture it holds, None for a null texture.
   */
  datatype Material = Material(name: string, renderQueue: int, props: map<string, Option<TexId>>)

  predicate HasProperty(m: Material, propertyName: string) {
    propertyName in m.props
  }

  /** The property exists and holds a non-null texture. */
  predicate HasTexture(m: Material, propertyName: string) {
    propertyName in m.props && m.props[propertyName].Some?
  }

  /** The result of a call into the asset layer: a value, or an exception with its message. */
  datatype Call<+T> = Returned(value: T) | Threw(message: string)

  /** The asset layer as two oracles: AssetDatabase.GetAssetPath and AssetDatabase.CopyAsset. */
  datatype AssetDatabase = AssetDatabase(
    assetPath: TexId -> Call<string>,
    copyAsset: (string, string) -> Call<bool>)

  /** One call of CopyAsset, from a source asset path to a destination path. */
  datatype CopyAttempt = CopyAttempt(src: string, dst: string)

  /** What a piece of processing appends: issues, and copy attempts on the asset database. */
  datatype Trace = Trace(issues: seq<Issue>, copies: seq<CopyAttempt>) {
    function Then(next: Trace): (r: Trace)
      ensures |r.issues| == |issues| + |next.issues| && |r.copies| == |copies| + |next.copies|
    {
      Trace(issues + next.issues, copies + next.copies)
    }
  }

  lemma ThenAssoc(a: Trace, b: Trace, c: Trace)
    ensures a.Then(b).Then(c) == a.Then(b.Then(c))
  {
    assert a.issues + b.issues + c.issues == a.issues + (b.issues + c.issues);
    assert a.copies + b.copies + c.copies == a.copies + (b.copies + c.copies);
  }

  const Nothing := Trace([], [])

  /** A trace, and the message of the exception that ended it, if one did. */
  datatype Outcome = Outcome(trace: Trace, thrown: Option<string>)

  const OutputDirectory: string := "Assets/textures/meta-horizon"

  /** `s.Replace('\\', '/')`. */
  function ReplaceBackslashes(s: string): (r: string)
    ensures |r| == |s| && '\\' !in r
    ensures forall i :: 0 <= i < |s| && s[i] != '\\' ==> r[i] == s[i]
    ensures forall i :: 0 <= i < |s| && s[i] == '\\' ==> r[i] == '/'
  {
    seq(|s|, i requires 0 <= i < |s| => if s[i] == '\\' then '/' else s[i])
  }

  /**
   * `Path.Combine(dir, fileName).Replace('\\', '/')` for a relative file name:
   * the directory, a '/', then the file name, with every backslash turned
   * into '/' and every other character kept.
   */
  function OutputPath(dir: string, fileName: string): (p: string)
    ensures |p| == |dir| + 1 + |fileName| && p[|dir|] == '/' && '\\' !in p
    ensures forall i :: 0 <= i < |dir| ==> p[i] == if dir[i] == '\\' then '/' else dir[i]
    ensures forall i :: 0 <= i < |fileName| ==>
      p[|dir| + 1 + i] == if fileName[i] == '\\' then '/' else fileName[i]
  {
    var x := dir + "/" + fileName;
    assert forall i :: 0 <= i < |dir| ==> x[i] == dir[i];
    assert forall i :: 0 <= i < |fileName| ==> x[|dir| + 1 + i] == fileName[i];
    ReplaceBackslashes(x)
  }

  function NoTextureIssue(objectName: string, m: Material, propertyName: string): Issue {
    Issue(objectName, m.name, "No texture found for property: " + propertyName, false, None)
  }

  function NotPngIssue(objectName: string, m: Material, path: string): Issue {
    Issue(objectName, m.name, "Texture " + path + " is not a PNG. Only PNG textures are supported.", true, None)
  }

  function CopyFailedIssue(objectName: string, m: Material, path: string, outputPath: string): Issue {
    Issue(objectName, m.name, "Failed to copy texture from " + path + " to " + outputPath, false, None)
  }

  /**
   * CopyTexture for one property. It records at most one issue and issues at
   * most one copy, always of a ".png" source to `OutputPath(dir, fileName)`;
   * its issues carry no object reference; an exception leaves no issue.
   */
  function CopyTextureSpec(m: Material, propertyName: string, fileName: string, dir: string,
                           objectName: string, db: AssetDatabase): (o: Outcome)
    ensures |o.trace.issues| <= 1 && |o.trace.copies| <= 1
    ensures !HasProperty(m, propertyName) ==> o == Outcome(Nothing, None)
    ensures forall c :: c in o.trace.copies ==> EndsWith(c.src, ".png") && c.dst == OutputPath(dir, fileName)
    ensures forall i :: i in o.trace.issues ==>
      i.gameObject.None? && i.objectName == objectName && i.materialName == m.name
    ensures o.thrown.Some? ==> o.trace.issues == []
    ensures (exists i :: i in o.trace.issues && i.isError) ==> o.trace.copies == []
  {
    if propertyName !in m.props then Outcome(Nothing, None)
    else match m.props[propertyName]
      case None => Outcome(Trace([NoTextureIssue(objectName, m, propertyName)], []), None)
      case Some(tex) =>
        match db.assetPath(tex)
        case Threw(msg) => Outcome(Nothing, Some(msg))
        case Returned(path) =>
          if !EndsWith(path, ".png") then
            Outcome(Trace([NotPngIssue(objectName, m, path)], []), None)
          else
            var dst := OutputPath(dir, fileName);
            match db.copyAsset(path, dst)
            case Threw(msg) => Outcome(Trace([], [CopyAttempt(path, dst)]), Some(msg))
            case Returned(ok) =>
              Outcome(Trace(if ok then [] else [CopyFailedIssue(objectName, m, path, dst)],
                            [CopyAttempt(path, dst)]), None)
  }

  /**
   * The decision tree of CopyTexture, case by case: an absent property does
   * nothing; a null texture gives the "No texture found" warning; an exception
   * from GetAssetPath ends the call with no issue and no copy; a path that
   * does not end in ".png" gives the "not a PNG" error and no copy; a ".png"
   * path gives exactly one copy attempt, then the "Failed to copy" warning
   * when CopyAsset returns false, nothing when it returns true, and the
   * exception when it throws.
   */
  lemma CopyTextureCases(m: Material, propertyName: string, fileName: string, dir: string,
                         objectName: string, db: AssetDatabase)
    ensures var o := CopyTextureSpec(m, propertyName, fileName, dir, objectName, db);
      && (!HasProperty(m, propertyName) ==> o == Outcome(Nothing, None))
      && (HasProperty(m, propertyName) && !HasTexture(m, propertyName) ==>
            o == Outcome(Trace([NoTextureIssue(objectName, m, propertyName)], []), None))
      && (HasTexture(m, propertyName) ==>
            match db.assetPath(m.props[propertyName].value)
            case Threw(msg) => o == Outcome(Nothing, Some(msg))
            case Returned(path) =>
              && (!EndsWith(path, ".png") ==>
                    o == Outcome(Trace([NotPngIssue(objectName, m, path)], []), None))
              && (EndsWith(path, ".png") ==>
                    var dst := OutputPath(dir, fileName);
                    && o.trace.copies == [CopyAttempt(path, dst)]
                    && match db.copyAsset(path, dst)
                       case Threw(msg) => o.trace.issues == [] && o.thrown == Some(msg)
                       case Returned(ok) =>
                         o.thrown.None? &&
                         o.trace.issues == if ok then [] else [CopyFailedIssue(objectName, m, path, dst)]))
  {
  }

  /**
   * The copies of a recipe, one CopyTexture per step in order; an exception
   * abandons the remaining steps. Every copy goes to the output path of one
   * of the steps' file names, from a ".png" source.
   */
  function StepsSpec(m: Material, steps: seq<Step>, dir: string, objectName: string,
                     db: AssetDatabase): (o: Outcome)
    ensures |o.trace.copies| <= |steps| && |o.trace.issues| <= |steps|
    ensures forall c :: c in o.trace.copies ==>
      EndsWith(c.src, ".png") && exists s :: s in steps && c.dst == OutputPath(dir, FileName(m.name, s))
    ensures forall i :: i in o.trace.issues ==>
      i.gameObject.None? && i.objectName == objectName && i.materialName == m.name
    decreases |steps|
  {
    if steps == [] then Outcome(Nothing, None)
    else
      var first := CopyTextureSpec(m, PropertyName(steps[0].slot), FileName(m.name, steps[0]), dir, objectName, db);
      if first.thrown.Some? then first
      else
        var rest := StepsSpec(m, steps[1..], dir, objectName, db);
        assert forall s :: s in steps[1..] ==> s in steps;
        Outcome(first.trace.Then(rest.trace), rest.thrown)
  }

  /** A one-step recipe behaves as its single CopyTexture call. */
  lemma OneStep(m: Material, s: Step, dir: string, objectName: string, db: AssetDatabase)
    ensures StepsSpec(m, [s], dir, objectName, db)
         == CopyTextureSpec(m, PropertyName(s.slot), FileName(m.name, s), dir, objectName, db)
  {
    assert [s][1..] == [];
  }

  /** A two-step recipe runs the second call only when the first returns normally. */
  lemma TwoSteps(m: Material, s: Step, t: Step, dir: string, objectName: string, db: AssetDatabase)
    ensures var first := CopyTextureSpec(m, PropertyName(s.slot), FileName(m.name, s), dir, objectName, db);
      var second := CopyTextureSpec(m, PropertyName(t.slot), FileName(m.name, t), dir, objectName, db);
      StepsSpec(m, [s, t], dir, objectName, db)
        == if first.thrown.Some? then first else Outcome(first.trace.Then(second.trace), second.thrown)
  {
    assert [s, t][1..] == [t];
    OneStep(m, t, dir, objectName, db);
  }

  /** ProcessMaterialTextures: the steps of the material's recipe. */
  function TexturesSpec(m: Material, dir: string, objectName: string, db: AssetDatabase): Outcome {
    StepsSpec(m, Recipe(m.name), dir, objectName, db)
  }

  /**
   * The run-scoped state the exporter updates in place: the issue list it
   * appends to and the copy attempts it issues, with the output directory and
   * the asset database it works against.
   */
  class ExportRun {
    const outputDirectory: string
    const db: AssetDatabase
    var issues: seq<Issue>
    var copies: seq<CopyAttempt>

    function Log(): Trace
      reads this
    {
      Trace(issues, copies)
    }

    constructor (outputDirectory: string, db: AssetDatabase)
      ensures this.outputDirectory == outputDirectory && this.db == db
      ensures Log() == Nothing
    {
      this.outputDirectory := outputDirectory;
      this.db := db;
      issues := [];
      copies := [];
    }

    /** `issues.Add(issue)`. */
    method AddIssue(issue: Issue)
      modifies this
      ensures Log() == old(Log()).Then(Trace([issue], []))
    {
      issues := issues + [issue];
    }

    /** AssetDatabase.CopyAsset: the attempt is recorded, and the oracle gives its result. */
    method CopyAsset(src: string, dst: string) returns (result: Call<bool>)
      modifies this
      ensures Log() == old(Log()).Then(Trace([], [CopyAttempt(src, dst)]))
      ensures result == db.copyAsset(src, dst)
    {
      copies := copies + [CopyAttempt(src, dst)];
      result := db.copyAsset(src, dst);
    }

    /** CopyTexture: appends what CopyTextureSpec describes and reports an exception as `thrown`. */
    method CopyTexture(material: Material, propertyName: string, outputFileName: string,
                       propertyExists: bool, objectName: string) returns (thrown: Option<string>)
      requires propertyExists == HasProperty(material, propertyName)
      modifies this
      ensures var o := CopyTextureSpec(material, propertyName, outputFileName, outputDirectory, objectName, db);
        Log() == old(Log()).Then(o.trace) && thrown == o.thrown
    {
      thrown := None;
      if propertyExists {
        var texture := material.props[propertyName];
        if texture.Some? {
          var pathCall := db.assetPath(texture.value);
          if pathCall.Threw? {
            thrown := Some(pathCall.message);
            assert Log() == old(Log()).Then(Nothing);
            return;
          }
          var texturePath := pathCall.value;
          if !EndsWith(texturePath, ".png") {
            AddIssue(NotPngIssue(objectName, material, texturePath));
            return;
          }
          var outputPath := OutputPath(outputDirectory, outputFileName);
          var copied := CopyAsset(texturePath, outputPath);
          match copied
          case Threw(msg) =>
            thrown := Some(msg);
          case Returned(ok) =>
            if !ok {
              AddIssue(CopyFailedIssue(objectName, material, texturePath, outputPath));
            }
        } else {
          AddIssue(NoTextureIssue(objectName, material, propertyName));
        }
      } else {
        assert Log() == old(Log()).Then(Nothing);
      }
    }

    /**
     * ProcessMaterialTextures: the if/else chain over the naming rules, one
     * CopyTexture call per step. An exception from a call ends the chain and
     * is passed on to the caller as `thrown`.
     */
    method ProcessMaterialTextures(material: Material, objectName: string) returns (thrown: Option<string>)
      modifies this
      ensures var o := TexturesSpec(material, outputDirectory, objectName, db);
        Log() == old(Log()).Then(o.trace) && thrown == o.thrown
    {
      var materialName := material.name;
      var baseName := BaseName(materialName);
      var extension := ".png";
      var hasBaseMap := HasProperty(material, "_BaseMap");
      var hasMetallicGlossMap := HasProperty(material, "_MetallicGlossMap");
      var hasEmissionMap := HasProperty(material, "_EmissionMap");
      Classification(materialName);
      ghost var dir, m := outputDirectory, material;

      if Contains(materialName, "Metal") {
        TwoSteps(m, MetalRecipe[0], MetalRecipe[1], dir, objectName, db);
        ghost var before := Log();
        thrown := CopyTexture(material, "_BaseMap", baseName + "_BR" + extension, hasBaseMap, objectName);
        if thrown.None? {
          ghost var first := CopyTextureSpec(m, "_BaseMap", baseName + "_BR" + extension, dir, objectName, db);
          ghost var second := CopyTextureSpec(m, "_MetallicGlossMap", baseName + "_MEO" + extension, dir, objectName, db);
          thrown := CopyTexture(material, "_MetallicGlossMap", baseName + "_MEO" + extension, hasMetallicGlossMap, objectName);
          ThenAssoc(before, first.trace, second.trace);
        }
      } else if Contains(materialName, "Transparent") {
        TwoSteps(m, TransparentRecipe[0], TransparentRecipe[1], dir, objectName, db);
        ghost var before := Log();
        thrown := CopyTexture(material, "_BaseMap", baseName + "_BR" + extension, hasBaseMap, objectName);
        if thrown.None? {
          ghost var first := CopyTextureSpec(m, "_BaseMap", baseName + "_BR" + extension, dir, objectName, db);
          ghost var second := CopyTextureSpec(m, "_EmissionMap", baseName + "_MESA" + extension, dir, objectName, db);
          thrown := CopyTexture(material, "_EmissionMap", baseName + "_MESA" + extension, hasEmissionMap, objectName);
          ThenAssoc(before, first.trace, second.trace);
        }
      } else if Contains(materialName, "Unlit") {
        OneStep(m, UnlitRecipe[0], dir, objectName, db);
        thrown := CopyTexture(material, "_BaseMap", baseName + "_B" + extension, hasBaseMap, objectName);
      } else if Contains(materialName, "Blend") {
        OneStep(m, AlphaRecipe[0], dir, objectName, db);
        thrown := CopyTexture(material, "_BaseMap", baseName + "_BA" + extension, hasBaseMap, objectName);
      } else if Contains(materialName, "Masked") {
        OneStep(m, AlphaRecipe[0], dir, objectName, db);
        thrown := CopyTexture(material, "_BaseMap", baseName + "_BA" + extension, hasBaseMap, objectName);
      } else if Contains(materialName, "UIO") {
        OneStep(m, AlphaRecipe[0], dir, objectName, db);
        thrown := CopyTexture(material, "_BaseMap", baseName + "_BA" + extension, hasBaseMap, objectName);
      } else {
        // no pattern occurs: the default recipe
        OneStep(m, DefaultRecipe[0], dir, objectName, db);
        thrown := CopyTexture(material, "_BaseMap", baseName + "_BR" + extension, hasBaseMap, objectName);
      }
    }
  }
}
