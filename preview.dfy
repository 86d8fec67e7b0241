/** The live preview beside the tutorial editor (`OutputPane`): markup is shown
    verbatim in a script-only sandbox, anything else gets a canned transcript
    chosen by the language tag alone. */
module Preview {

  /** What the pane renders: an iframe whose document is `html` and whose
      `sandbox` attribute is `sandboxAttr`, or a `<pre>` block holding `text`. */
  datatype PreviewOutput =
    | Sandboxed(html: string, sandboxAttr: string)
    | Transcript(text: string)

  const SandboxPolicy := "allow-scripts"

  const HelloWorld := "> Hello, World!"
  const RowsAffected := "> (1 row(s) affected)"
  const NotSupported := "> Live execution for this language is not supported in this demo."

  /** The first transcript line; it names the simulated language. */
  function Header(language: string): string {
    "> Simulating execution for " + language + "...\n"
  }

  /** The line after the header; each of the three is a single line. */
  function ResultLine(language: string): string {
    if language == "python" then HelloWorld
    else if language == "java" then HelloWorld
    else if language == "sql" then RowsAffected
    else NotSupported
  }

  lemma LinesDiffer()
    ensures HelloWorld != RowsAffected && HelloWorld != NotSupported && RowsAffected != NotSupported
  {
    assert |HelloWorld| == 15 && |RowsAffected| == 21 && |NotSupported| == 65;
  }

  function Render(language: string, code: string): (r: PreviewOutput)
    ensures r.Sandboxed? <==> language == "html"
    ensures r.Sandboxed? ==> r.html == code && r.sandboxAttr == SandboxPolicy
    ensures r.Transcript? ==> Header(language) <= r.text
    ensures r.Transcript? ==> var line := r.text[|Header(language)|..];
      && (line == HelloWorld <==> language == "python" || language == "java")
      && (line == RowsAffected <==> language == "sql")
      && (line == NotSupported <==> language !in {"python", "java", "sql"})
  {
    if language == "html" then
      Sandboxed(code, SandboxPolicy)
    else
      var line := ResultLine(language);
      LinesDiffer();
      assert (Header(language) + line)[|Header(language)|..] == line;
      Transcript(Header(language) + line)
  }

  /** The transcript is a function of the language tag only: the learner's code
      is never looked at unless it is markup. */
  lemma TranscriptIgnoresCode(language: string, code1: string, code2: string)
    requires language != "html"
    ensures Render(language, code1) == Render(language, code2)
    ensures Render(language, code1).Transcript?
  {
  }

  /** Markup passes through unchanged, whatever it contains. */
  lemma MarkupPassesThrough(code: string)
    ensures Render("html", code) == Sandboxed(code, "allow-scripts")
  {
  }

  lemma PythonTranscript(code: string)
    ensures Render("python", code) == Transcript(Header("python") + HelloWorld)
  {
    assert |"python"| != |"html"|;
  }

  /** The tag is compared exactly: a capitalised tag is not markup. */
  lemma TagIsCaseSensitive(code: string)
    ensures Render("HTML", code) == Transcript(Header("HTML") + NotSupported)
  {
    assert "HTML"[0] != "html"[0] && "HTML"[0] != "java"[0];
    assert |"HTML"| != |"python"| && |"HTML"| != |"sql"|;
  }
}
