/**
 * The end-of-run summary of ProcessMaterials: the dialog text that lists the
 * errors and then the warnings, at most ten of each, and the "Select Error"
 * action that highlights the object of the first error.
 */
module Summary {

  import opened Issues

  function DigitChar(d: nat): (c: char)
    requires d < 10
    ensures '0' <= c <= '9' && (c as int) - ('0' as int) == d
  {
    "0123456789"[d]
  }

  predicate AllDigits(s: string) {
    forall i :: 0 <= i < |s| ==> '0' <= s[i] <= '9'
  }

  /** The decimal text of a count, as string interpolation writes it: digits, no leading zero. */
  function NatToString(n: nat): (s: string)
    ensures |s| >= 1 && AllDigits(s)
    ensures |s| > 1 ==> s[0] != '0'
    decreases n
  {
    if n < 10 then [DigitChar(n)]
    else NatToString(n / 10) + [DigitChar(n % 10)]
  }

  /** The number a string of decimal digits denotes. */
  function DecimalValue(s: string): nat
    requires AllDigits(s)
    decreases |s|
  {
    if s == [] then 0
    else DecimalValue(s[..|s| - 1]) * 10 + ((s[|s| - 1] as int) - ('0' as int))
  }

  /** The text of a count reads back as that count. */
  lemma {:induction false} DecimalRoundTrip(n: nat)
    ensures DecimalValue(NatToString(n)) == n
    decreases n
  {
    var s := NatToString(n);
    if n >= 10 {
      DecimalRoundTrip(n / 10);
      assert s[..|s| - 1] == NatToString(n / 10);
    }
  }

  /** At most this many issues of each severity are listed. */
  const MaxListed: nat := 10

  const TruncationMarker: string := "...and more"

  /** `$"{i + 1}. {e}"`: an issue listed under its number. */
  function Numbered(k: nat, issue: Issue): (line: string)
    ensures |line| > 0 && '0' <= line[0] <= '9'
  {
    NatToString(k) + ". " + Describe(issue)
  }

  /** `items.Select((e, i) => $"{i + 1}. {e}")`. */
  function Entries(items: seq<Issue>): seq<string> {
    seq(|items|, k requires 0 <= k < |items| => Numbered(k + 1, items[k]))
  }

  /** `items.Take(MaxListed)`. */
  function Take(items: seq<Issue>): seq<Issue> {
    if |items| > MaxListed then items[..MaxListed] else items
  }

  /**
   * The lines listed for one severity: the first ten issues (fewer if there
   * are fewer), numbered from 1 and rendered by Describe, then the
   * truncation marker exactly when there are more than ten.
   */
  function Listed(items: seq<Issue>): (lines: seq<string>)
    ensures |lines| == if |items| > MaxListed then MaxListed + 1 else |items|
    ensures forall k :: 0 <= k < |items| && k < MaxListed ==> lines[k] == Numbered(k + 1, items[k])
    ensures |items| > MaxListed <==> (lines != [] && lines[|lines| - 1] == TruncationMarker)
  {
    var entries := Entries(Take(items));
    assert entries != [] ==> entries[|entries| - 1][0] != TruncationMarker[0];
    entries + if |items| > MaxListed then [TruncationMarker] else []
  }

  /** `string.Join(sep, lines)`. */
  function Join(sep: string, lines: seq<string>): string
    decreases |lines|
  {
    if lines == [] then ""
    else if |lines| == 1 then lines[0]
    else Join(sep, lines[..|lines| - 1]) + sep + lines[|lines| - 1]
  }

  /** An empty list joins to ""; otherwise the join starts with the first line and ends with the last. */
  lemma {:induction false} JoinEnds(sep: string, lines: seq<string>)
    ensures lines == [] ==> Join(sep, lines) == ""
    ensures lines != [] ==> lines[0] <= Join(sep, lines) && EndsWith(Join(sep, lines), lines[|lines| - 1])
    decreases |lines|
  {
    if |lines| > 1 {
      var init := lines[..|lines| - 1];
      JoinEnds(sep, init);
      assert init[0] == lines[0];
      var s := Join(sep, lines);
      var last := lines[|lines| - 1];
      assert s == Join(sep, init) + sep + last;
      assert s[|s| - |last|..] == last;
    }
  }

  /** Joining two non-empty lists puts one separator between the two joins. */
  lemma {:induction false} JoinAppend(sep: string, a: seq<string>, b: seq<string>)
    requires a != [] && b != []
    ensures Join(sep, a + b) == Join(sep, a) + sep + Join(sep, b)
    decreases |b|
  {
    var ab := a + b;
    assert ab[..|ab| - 1] == a + b[..|b| - 1];
    assert ab[|ab| - 1] == b[|b| - 1];
    if |b| > 1 {
      JoinAppend(sep, a, b[..|b| - 1]);
    } else {
      assert ab[..|ab| - 1] == a;
    }
  }

  /** Appending the marker after joining the entries, as the source does, joins the listed lines. */
  lemma ListedJoin(items: seq<Issue>)
    ensures Join("\n", Listed(items))
         == Join("\n", Entries(Take(items))) + if |items| > MaxListed then "\n...and more" else ""
  {
    var lines := Listed(items);
    if |items| > MaxListed {
      assert lines[..|lines| - 1] == Entries(Take(items));
    } else {
      assert lines == Entries(Take(items));
    }
  }

  lemma AppendAssoc(a: string, b: string, c: string)
    ensures a + b + c == a + (b + c)
  {
  }

  /** One section of the summary: a heading with the count, then the listed lines. */
  function Section(heading: string, items: seq<Issue>): string {
    Heading(heading, items) + Join("\n", Listed(items))
  }

  /** `$"{heading} ({items.Count}):\n"`. */
  function Heading(heading: string, items: seq<Issue>): string {
    heading + " (" + NatToString(|items|) + "):\n"
  }

  const Footer: string := "\n\nClick 'Select Error' to highlight the first error in hierarchy."

  /** The summary text: the errors' section (if any), then the warnings' section (if any), then the footer. */
  function SummaryMessage(issues: seq<Issue>): string {
    var errors := ErrorsOf(issues);
    var warnings := WarningsOf(issues);
    (if errors != [] then Section("Errors", errors) + "\n\n" else "")
      + (if warnings != [] then Section("Warnings", warnings) else "")
      + Footer
  }

  datatype Dialog = Dialog(title: string, message: string, ok: string, cancel: string)

  const SummaryTitle: string := "Material Processing Completed with Issues"

  /**
   * The summary dialog, built as ProcessMaterials builds it with `+=`. It is
   * shown exactly when there are issues; its text is SummaryMessage; its
   * second button reads "Close" when there are errors and "OK" otherwise.
   */
  method ShowSummary(issues: seq<Issue>) returns (dialog: Option<Dialog>)
    ensures dialog.Some? <==> issues != []
    ensures dialog.Some? ==> dialog.value == Dialog(SummaryTitle, SummaryMessage(issues), "Select Error",
                                                   if ErrorsOf(issues) != [] then "Close" else "OK")
  {
    if issues == [] {
      return None;
    }
    var errors := ErrorsOf(issues);
    var warnings := WarningsOf(issues);

    var message := "";
    if errors != [] {
      ghost var h, j := Heading("Errors", errors), Join("\n", Entries(Take(errors)));
      ghost var t := if |errors| > MaxListed then "\n...and more" else "";
      message := message + Heading("Errors", errors);
      assert message == h;
      message := message + Join("\n", Entries(Take(errors)));
      if |errors| > MaxListed {
        message := message + "\n...and more";
      }
      assert message == h + j + t;
      ListedJoin(errors);
      AppendAssoc(h, j, t);
      message := message + "\n\n";
    }
    ghost var errorPart := message;
    assert errorPart == if errors != [] then Section("Errors", errors) + "\n\n" else "";
    if warnings != [] {
      ghost var h, j := Heading("Warnings", warnings), Join("\n", Entries(Take(warnings)));
      ghost var t := if |warnings| > MaxListed then "\n...and more" else "";
      message := message + Heading("Warnings", warnings);
      message := message + Join("\n", Entries(Take(warnings)));
      if |warnings| > MaxListed {
        message := message + "\n...and more";
      }
      assert message == errorPart + h + j + t;
      ListedJoin(warnings);
      AppendAssoc(errorPart + h, j, t);
      AppendAssoc(errorPart, h, j + t);
    }
    assert message == errorPart + (if warnings != [] then Section("Warnings", warnings) else "");
    message := message + Footer;

    dialog := Some(Dialog(SummaryTitle, message, "Select Error", if errors != [] then "Close" else "OK"));
  }

  /**
   * The "Select Error" action: the object of the FIRST error, when the user
   * chose to select and that error carries an object. A first error without
   * an object selects nothing, whatever later errors carry.
   */
  function SelectTarget(issues: seq<Issue>, shouldSelect: bool): (target: Option<ObjectRef>)
    ensures target.Some? ==> shouldSelect && exists i :: IsFirstError(issues, i) && issues[i].gameObject == target
    ensures shouldSelect && (exists i :: IsFirstError(issues, i) && issues[i].gameObject.Some?) ==> target.Some?
  {
    var errors := ErrorsOf(issues);
    if shouldSelect && errors != [] then
      ErrorsOfHead(issues);
      errors[0].gameObject
    else
      ErrorsOfHead(issues);
      None
  }
}
