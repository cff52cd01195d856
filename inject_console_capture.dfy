/**
 * The post-build step that adds the console-capture script to every generated HTML page, right
 * before the first `</head>`, unless the page already mentions the script.
 */
module InjectConsoleCapture {
  import opened Outcomes
  import opened Js

  const Marker := "dashboard-console-capture.js"
  const HeadClose := "</head>"
  /** `  <script src="/dashboard-console-capture.js"></script>` and a newline. */
  const ScriptLine := ScriptOpen + Marker + ScriptClose
  const ScriptOpen := "  <script src=\"/"
  const ScriptClose := "\"></script>\n"

  /**
   * One page: `None` when the page already mentions the script and is not written back,
   * otherwise the content written back (the first `</head>` replaced).
   */
  function Inject(content: string): Option<string> {
    if Includes(content, Marker) then None
    else Some(ReplaceFirst(content, HeadClose, ScriptLine + HeadClose))
  }

  /** The content of a page after the step. */
  function Apply(content: string): string {
    match Inject(content)
    case None => content
    case Some(written) => written
  }

  lemma MarkerInScriptLine()
    ensures ScriptLine[|ScriptOpen|..|ScriptOpen| + |Marker|] == Marker
  {
  }

  /**
   * A page that does not mention the script and has a `</head>` (first at `i`) gets the script
   * line inserted at `i`: everything before is kept, everything from the first `</head>` on
   * (later `</head>`s included) follows unchanged, the page grows by the script line's length,
   * and afterwards mentions the script.
   */
  lemma InjectInserts(content: string, i: nat)
    requires !Includes(content, Marker)
    requires IndexOf(content, HeadClose) == Some(i)
    ensures Inject(content).Some?
    ensures var r := Inject(content).value;
      && |r| == |content| + |ScriptLine|
      && r[..i] == content[..i]
      && r[i..i + |ScriptLine|] == ScriptLine
      && r[i + |ScriptLine|..] == content[i..]
      && Includes(r, Marker)
  {
    var r := Inject(content).value;
    InsertBefore(content, HeadClose, ScriptLine, i);
    MarkerInScriptLine();
    MarkerAfterInsert(content[..i], content[i..], i);
  }

  /** Replacing the first `pat` (at `i`) by `pre + pat` inserts `pre` at `i`. */
  lemma InsertBefore(s: string, pat: string, pre: string, i: nat)
    requires IndexOf(s, pat) == Some(i)
    ensures ReplaceFirst(s, pat, pre + pat) == s[..i] + pre + s[i..]
  {
    assert OccursAt(s, pat, i);
    assert ReplaceFirst(s, pat, pre + pat) == s[..i] + (pre + pat) + s[i + |pat|..];
    SplitAfter(s, i, |pat|, pre);
  }

  /** Cutting `s` at `i` and `i + n` and putting `pre` in front of the middle piece. */
  lemma SplitAfter(s: string, i: nat, n: nat, pre: string)
    requires i + n <= |s|
    ensures s[..i] + (pre + s[i..i + n]) + s[i + n..] == s[..i] + pre + s[i..]
  {
    assert s[i..] == s[i..i + n] + s[i + n..];
  }

  /** The marker inside an inserted script line is found by `includes`. */
  lemma MarkerAfterInsert(a: string, b: string, i: nat)
    requires |a| == i
    requires ScriptLine[|ScriptOpen|..|ScriptOpen| + |Marker|] == Marker
    ensures Includes(a + ScriptLine + b, Marker)
  {
    var r := a + ScriptLine + b;
    assert r[i + |ScriptOpen|..i + |ScriptOpen| + |Marker|] == ScriptLine[|ScriptOpen|..|ScriptOpen| + |Marker|];
    assert OccursAt(r, Marker, i + |ScriptOpen|);
  }

  /** A page that mentions the script already is left alone and not written. */
  lemma MarkedUntouched(content: string)
    requires Includes(content, Marker)
    ensures Inject(content) == None && Apply(content) == content
  {
  }

  /** A page without `</head>` is written back unchanged. */
  lemma NoHeadRewrittenUnchanged(content: string)
    requires !Includes(content, Marker) && !Includes(content, HeadClose)
    ensures Inject(content) == Some(content)
  {
  }

  /** After the step a page mentions the script exactly when it has a `</head>` or did already. */
  lemma AppliedMarker(content: string)
    ensures Includes(Apply(content), Marker) <==> Includes(content, Marker) || Includes(content, HeadClose)
  {
    if !Includes(content, Marker) && Includes(content, HeadClose) {
      InjectInserts(content, IndexOf(content, HeadClose).value);
    }
  }

  /** Running the step twice gives the same page as running it once. */
  lemma ApplyIdempotent(content: string)
    ensures Apply(Apply(content)) == Apply(content)
  {
    AppliedMarker(content);
    if !Includes(content, Marker) && !Includes(content, HeadClose) {
      NoHeadRewrittenUnchanged(content);
    }
  }

  /**
   * `injectConsoleCapture`: with the build directory absent nothing happens; otherwise each
   * listed page is read, transformed and, unless it already mentions the script, written back.
   * `disk` maps the build directory's paths to their contents; `injected` lists the pages
   * reported as injected.
   */
  method InjectConsoleCapture(buildDirExists: bool, pages: seq<string>, disk: map<string, string>)
    returns (after: map<string, string>, injected: seq<string>)
    requires forall f :: f in pages ==> f in disk
    ensures after.Keys == disk.Keys
    ensures !buildDirExists ==> after == disk && injected == []
    ensures forall f :: f in disk && f !in pages ==> after[f] == disk[f]
    ensures buildDirExists ==> forall f :: f in pages ==> after[f] == Apply(disk[f])
    ensures forall f :: f in injected <==> buildDirExists && f in pages && !Includes(disk[f], Marker)
  {
    after, injected := disk, [];
    if !buildDirExists {
      return;
    }
    for k := 0 to |pages|
      invariant after.Keys == disk.Keys
      invariant forall f :: f in disk && f !in pages[..k] ==> after[f] == disk[f]
      invariant forall f :: f in pages[..k] ==> after[f] == Apply(disk[f])
      invariant forall f :: f in injected <==> f in pages[..k] && !Includes(disk[f], Marker)
    {
      var file := pages[k];
      var content := after[file];
      if file in pages[..k] {
        ApplyIdempotent(disk[file]);
      }
      match Inject(content) {
        case None =>
        case Some(written) =>
          after := after[file := written];
          injected := injected + [file];
      }
      assert pages[..k + 1] == pages[..k] + [file];
    }
    assert pages[..|pages|] == pages;
  }
}
