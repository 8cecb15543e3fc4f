/**
 * The issues a processing run records (the ProcessingIssue class of
 * MaterialProcessor.cs), how one is rendered as text, and the filters the
 * summary uses to split them by severity.
 */
module Issues {

  datatype Option<+T> = None | Some(value: T)

  /** An opaque handle on a scene object (a Unity GameObject). */
  type ObjectRef = nat

  /**
   * One recorded problem. `gameObject` is the optional reference to the
   * offending object that the "Select Error" action highlights.
   */
  datatype Issue = Issue(
    objectName: string,
    materialName: string,
    message: string,
    isError: bool,
    gameObject: Option<ObjectRef>)

  predicate StartsWith(s: string, prefix: string) {
    |prefix| <= |s| && s[..|prefix|] == prefix
  }

  predicate EndsWith(s: string, suffix: string) {
    |suffix| <= |s| && s[|s| - |suffix|..] == suffix
  }

  /**
   * ProcessingIssue.ToString: "<Error|Warning> - <object> (<material>): <message>".
   * The severity can be read back from the first character, and the text
   * ends with the message.
   */
  function Describe(i: Issue): (r: string)
    ensures i.isError ==> StartsWith(r, "Error - ")
    ensures !i.isError ==> StartsWith(r, "Warning - ")
    ensures r[0] == 'E' <==> i.isError
    ensures EndsWith(r, "): " + i.message)
  {
    (if i.isError then "Error" else "Warning")
      + " - " + i.objectName + " (" + i.materialName + "): " + i.message
  }

  /** `issues.Where(i => i.IsError)`: the errors, in their original order. */
  function ErrorsOf(s: seq<Issue>): (r: seq<Issue>)
    ensures |r| <= |s|
    ensures forall k :: 0 <= k < |r| ==> r[k].isError && r[k] in s
    ensures forall k :: 0 <= k < |s| && s[k].isError ==> s[k] in r
  {
    if s == [] then []
    else (if s[0].isError then [s[0]] else []) + ErrorsOf(s[1..])
  }

  /** `issues.Where(i => !i.IsError)`: the warnings, in their original order. */
  function WarningsOf(s: seq<Issue>): (r: seq<Issue>)
    ensures |r| <= |s|
    ensures forall k :: 0 <= k < |r| ==> !r[k].isError && r[k] in s
    ensures forall k :: 0 <= k < |s| && !s[k].isError ==> s[k] in r
  {
    if s == [] then []
    else (if s[0].isError then [] else [s[0]]) + WarningsOf(s[1..])
  }

  /**
   * ProcessingIssue.Errors: the errors that carry an object reference, in
   * their original order. Nothing in the run calls it.
   */
  function ErrorsWithObject(s: seq<Issue>): (r: seq<Issue>)
    ensures |r| <= |ErrorsOf(s)|
    ensures forall k :: 0 <= k < |r| ==> r[k].isError && r[k].gameObject.Some? && r[k] in s
    ensures forall k :: 0 <= k < |s| && s[k].isError && s[k].gameObject.Some? ==> s[k] in r
  {
    if s == [] then []
    else (if s[0].isError && s[0].gameObject.Some? then [s[0]] else []) + ErrorsWithObject(s[1..])
  }

  /** Keeping the errors commutes with appending: their relative order is kept. */
  lemma {:induction false} ErrorsAppend(a: seq<Issue>, b: seq<Issue>)
    ensures ErrorsOf(a + b) == ErrorsOf(a) + ErrorsOf(b)
  {
    if a == [] {
      assert a + b == b;
    } else {
      assert (a + b)[1..] == a[1..] + b;
      ErrorsAppend(a[1..], b);
      var h := if a[0].isError then [a[0]] else [];
      calc {
        ErrorsOf(a + b);
        h + ErrorsOf(a[1..] + b);
        h + (ErrorsOf(a[1..]) + ErrorsOf(b));
      }
    }
  }

  /** Keeping the warnings commutes with appending: their relative order is kept. */
  lemma {:induction false} WarningsAppend(a: seq<Issue>, b: seq<Issue>)
    ensures WarningsOf(a + b) == WarningsOf(a) + WarningsOf(b)
  {
    if a == [] {
      assert a + b == b;
    } else {
      assert (a + b)[1..] == a[1..] + b;
      WarningsAppend(a[1..], b);
      var h := if a[0].isError then [] else [a[0]];
      calc {
        WarningsOf(a + b);
        h + WarningsOf(a[1..] + b);
        h + (WarningsOf(a[1..]) + WarningsOf(b));
      }
    }
  }

  /** Errors and warnings together are exactly the issues: nothing is lost or duplicated. */
  lemma {:induction false} SplitIsPartition(s: seq<Issue>)
    ensures multiset(ErrorsOf(s)) + multiset(WarningsOf(s)) == multiset(s)
    ensures |ErrorsOf(s)| + |WarningsOf(s)| == |s|
  {
    if s != [] {
      SplitIsPartition(s[1..]);
      assert s == [s[0]] + s[1..];
    }
  }

  /** Index `i` holds the first error of `s`. */
  predicate IsFirstError(s: seq<Issue>, i: int) {
    0 <= i < |s| && s[i].isError && forall j :: 0 <= j < i ==> !s[j].isError
  }

  /** The head of ErrorsOf is the first error of the list; an empty ErrorsOf means no error at all. */
  lemma {:induction false} ErrorsOfHead(s: seq<Issue>)
    ensures ErrorsOf(s) == [] <==> forall j :: 0 <= j < |s| ==> !s[j].isError
    ensures ErrorsOf(s) != [] ==> exists i :: IsFirstError(s, i) && s[i] == ErrorsOf(s)[0]
  {
    if s != [] {
      ErrorsOfHead(s[1..]);
      if !s[0].isError && ErrorsOf(s[1..]) != [] {
        var i :| IsFirstError(s[1..], i) && s[1..][i] == ErrorsOf(s[1..])[0];
        assert IsFirstError(s, i + 1);
      } else if s[0].isError {
        assert IsFirstError(s, 0);
      }
    }
  }
}
