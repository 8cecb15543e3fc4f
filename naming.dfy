/**
 * The naming convention of ProcessMaterialTextures: the base file name taken
 * from a material's name, and the ordered rule table that picks the export
 * recipe (which texture slots to export, under which suffix).
 */
module Naming {

  import opened Issues

  /** The pattern `p` occurs in `s` starting at index `i`. */
  predicate OccursAt(s: string, p: string, i: int) {
    0 <= i && i + |p| <= |s| && s[i..i + |p|] == p
  }

  /** Ordinal, case-sensitive `string.Contains`. */
  function Contains(s: string, p: string): (b: bool)
    ensures b <==> exists i :: OccursAt(s, p, i)
    decreases |s|
  {
    if |p| > |s| then false
    else if s[..|p|] == p then (assert OccursAt(s, p, 0); true)
    else
      var b := Contains(s[1..], p);
      assert forall i :: OccursAt(s[1..], p, i) ==> OccursAt(s, p, i + 1) by {
        forall i | OccursAt(s[1..], p, i) ensures OccursAt(s, p, i + 1) {
          assert s[1..][i..i + |p|] == s[i + 1..i + 1 + |p|];
        }
      }
      assert forall i :: OccursAt(s, p, i) ==> OccursAt(s[1..], p, i - 1) by {
        forall i | OccursAt(s, p, i) ensures OccursAt(s[1..], p, i - 1) {
          assert i != 0;
          assert s[1..][i - 1..i - 1 + |p|] == s[i..i + |p|];
        }
      }
      b
  }

  /**
   * `name.Split('_')[0]`: the text before the first underscore. It is a prefix
   * of the name, holds no underscore, and is followed by an underscore unless
   * it is the whole name.
   */
  function BaseName(name: string): (b: string)
    ensures b <= name
    ensures '_' !in b
    ensures |b| < |name| ==> name[|b|] == '_'
  {
    if name == [] || name[0] == '_' then []
    else [name[0]] + BaseName(name[1..])
  }

  /** Those three properties determine the base name: nothing else has them. */
  lemma {:induction false} BaseNameUnique(name: string, b: string)
    requires b <= name && '_' !in b
    requires |b| < |name| ==> name[|b|] == '_'
    ensures b == BaseName(name)
  {
    if b != [] {
      assert name[0] == b[0] && name[0] != '_';
      assert b[1..] <= name[1..];
      BaseNameUnique(name[1..], b[1..]);
      assert b == [b[0]] + b[1..];
    } else if name != [] {
      assert name[0] == '_';
    }
  }

  lemma BaseNameExamples()
    ensures BaseName("Wall_Metal_01") == "Wall"
    ensures BaseName("Floor") == "Floor"
    ensures BaseName("_Glass") == ""
  {
    BaseNameUnique("Wall_Metal_01", "Wall");
    BaseNameUnique("Floor", "Floor");
  }

  /** The texture slots the exporter reads. */
  datatype Slot = BaseMap | MetallicGlossMap | EmissionMap

  /** The material property that holds a slot's texture. */
  function PropertyName(slot: Slot): (p: string)
    ensures |p| > 1 && p[0] == '_'
  {
    match slot
    case BaseMap => "_BaseMap"
    case MetallicGlossMap => "_MetallicGlossMap"
    case EmissionMap => "_EmissionMap"
  }

  /** One export: the slot to read and the suffix of the destination file. */
  datatype Step = Step(slot: Slot, suffix: string)

  const MetalRecipe: seq<Step> := [Step(BaseMap, "_BR"), Step(MetallicGlossMap, "_MEO")]
  const TransparentRecipe: seq<Step> := [Step(BaseMap, "_BR"), Step(EmissionMap, "_MESA")]
  const UnlitRecipe: seq<Step> := [Step(BaseMap, "_B")]
  const AlphaRecipe: seq<Step> := [Step(BaseMap, "_BA")]
  const DefaultRecipe: seq<Step> := [Step(BaseMap, "_BR")]

  /** A naming rule: a material whose name contains `pattern` uses `recipe`. */
  datatype Rule = Rule(pattern: string, recipe: seq<Step>)

  /** The rules of the if/else chain in ProcessMaterialTextures, in priority order. */
  const Rules: seq<Rule> := [
    Rule("Metal", MetalRecipe),
    Rule("Transparent", TransparentRecipe),
    Rule("Unlit", UnlitRecipe),
    Rule("Blend", AlphaRecipe),
    Rule("Masked", AlphaRecipe),
    Rule("UIO", AlphaRecipe)
  ]

  /** The recipe of the first rule whose pattern the name contains, or `default`. */
  function FirstMatch(rules: seq<Rule>, name: string, default: seq<Step>): seq<Step> {
    if rules == [] then default
    else if Contains(name, rules[0].pattern) then rules[0].recipe
    else FirstMatch(rules[1..], name, default)
  }

  /** First match wins: the rule at `k` applies when its pattern occurs and no earlier pattern does. */
  lemma {:induction false} FirstMatchIsLeast(rules: seq<Rule>, name: string, default: seq<Step>, k: int)
    requires 0 <= k < |rules| && Contains(name, rules[k].pattern)
    requires forall j :: 0 <= j < k ==> !Contains(name, rules[j].pattern)
    ensures FirstMatch(rules, name, default) == rules[k].recipe
  {
    if k > 0 {
      assert !Contains(name, rules[0].pattern);
      FirstMatchIsLeast(rules[1..], name, default, k - 1);
    }
  }

  /** The default applies when no rule matches. */
  lemma {:induction false} FirstMatchNone(rules: seq<Rule>, name: string, default: seq<Step>)
    requires forall j :: 0 <= j < |rules| ==> !Contains(name, rules[j].pattern)
    ensures FirstMatch(rules, name, default) == default
  {
    if rules != [] {
      assert !Contains(name, rules[0].pattern);
      FirstMatchNone(rules[1..], name, default);
    }
  }

  /**
   * The export recipe of a material name. Every recipe exports the base map
   * first and has one or two steps.
   */
  function Recipe(name: string): (r: seq<Step>)
    ensures 1 <= |r| <= 2 && r[0].slot == BaseMap
  {
    var r := FirstMatch(Rules, name, DefaultRecipe);
    assert r in {MetalRecipe, TransparentRecipe, UnlitRecipe, AlphaRecipe, DefaultRecipe} by {
      RecipeIsOneOfTable(Rules, name);
    }
    r
  }

  lemma {:induction false} RecipeIsOneOfTable(rules: seq<Rule>, name: string)
    requires forall j :: 0 <= j < |rules| ==> rules[j].recipe in {MetalRecipe, TransparentRecipe, UnlitRecipe, AlphaRecipe}
    ensures FirstMatch(rules, name, DefaultRecipe) in {MetalRecipe, TransparentRecipe, UnlitRecipe, AlphaRecipe, DefaultRecipe}
  {
    if rules != [] && !Contains(name, rules[0].pattern) {
      RecipeIsOneOfTable(rules[1..], name);
    }
  }

  /**
   * The classification table, rule by rule: each recipe is chosen exactly
   * when its pattern occurs in the name and no earlier pattern does (the
   * recipes differ from one another, so both directions hold).
   */
  lemma Classification(name: string)
    ensures Contains(name, "Metal") <==> Recipe(name) == MetalRecipe
    ensures !Contains(name, "Metal") && Contains(name, "Transparent")
      <==> Recipe(name) == TransparentRecipe
    ensures !Contains(name, "Metal") && !Contains(name, "Transparent") && Contains(name, "Unlit")
      <==> Recipe(name) == UnlitRecipe
    ensures !Contains(name, "Metal") && !Contains(name, "Transparent") && !Contains(name, "Unlit")
      && (Contains(name, "Blend") || Contains(name, "Masked") || Contains(name, "UIO"))
      <==> Recipe(name) == AlphaRecipe
    ensures !Contains(name, "Metal") && !Contains(name, "Transparent") && !Contains(name, "Unlit")
      && !Contains(name, "Blend") && !Contains(name, "Masked") && !Contains(name, "UIO")
      <==> Recipe(name) == DefaultRecipe
  {
    if Contains(name, "Metal") {
      FirstMatchIsLeast(Rules, name, DefaultRecipe, 0);
    } else if Contains(name, "Transparent") {
      FirstMatchIsLeast(Rules, name, DefaultRecipe, 1);
    } else if Contains(name, "Unlit") {
      FirstMatchIsLeast(Rules, name, DefaultRecipe, 2);
    } else if Contains(name, "Blend") {
      FirstMatchIsLeast(Rules, name, DefaultRecipe, 3);
    } else if Contains(name, "Masked") {
      FirstMatchIsLeast(Rules, name, DefaultRecipe, 4);
    } else if Contains(name, "UIO") {
      FirstMatchIsLeast(Rules, name, DefaultRecipe, 5);
    } else {
      FirstMatchNone(Rules, name, DefaultRecipe);
    }
  }

  /** A name holding both "Metal" and "Transparent" gets the Metal recipe. */
  lemma MetalWinsOverTransparent()
    ensures Recipe("Wall_Metal_Transparent") == MetalRecipe
  {
    assert OccursAt("Wall_Metal_Transparent", "Metal", 5);
    Classification("Wall_Metal_Transparent");
  }

  /** A pattern occurs only where its first character does. */
  lemma FirstCharOccurs(s: string, p: string)
    ensures p != [] && Contains(s, p) ==> p[0] in s
  {
    forall i | p != [] && OccursAt(s, p, i) ensures p[0] in s {
      assert s[i..i + |p|][0] == s[i];
    }
  }

  /** A name matching no pattern gets the default recipe. */
  lemma PlainNameGetsDefault()
    ensures Recipe("Floor") == DefaultRecipe
  {
    var patterns := ["Metal", "Transparent", "Unlit", "Blend", "Masked", "UIO"];
    forall p | p in patterns ensures !Contains("Floor", p) {
      FirstCharOccurs("Floor", p);
    }
    Classification("Floor");
  }

  /** The destination file of one step: base name, suffix, ".png". */
  function FileName(name: string, step: Step): (f: string)
    ensures BaseName(name) <= f
    ensures EndsWith(f, ".png")
  {
    BaseName(name) + step.suffix + ".png"
  }
}
