/**
 * The shared code editor of client/components/CodeEditor.tsx: the document
 * text, the language tag, the `isTyping` echo-suppression flag with its
 * reset timers, and the mapping from a code-runner response to the lines of
 * the output pane. Time is reduced to events: an edit, a reset timer firing,
 * a remote update. Reset timers all wait the same 1000 ms, so they fire in
 * the order they were scheduled.
 */
module CodeEditor {
  import opened Wrappers
  import opened Strings

  /** `LANGUAGE_VERSIONS`: the runtime version requested for each selectable language. */
  const LanguageVersions: map<string, string> := map[
    "javascript" := "18.15.0",
    "python" := "3.10.0",
    "typescript" := "5.0.3",
    "java" := "15.0.2",
    "csharp" := "6.12.0",
    "php" := "8.2.3",
    "html" := "5"
  ]

  const DefaultLanguage := "python"
  const DefaultCode := "// Select a language..."

  /** What goes out as `code-change`. */
  datatype CodePayload = CodePayload(code: string, language: string)

  /** The events that touch the typing flag or the text. */
  datatype EditorEvent = Edit | ResetFired | RemoteUpdate

  /** The typing flag as the handlers leave it after `events`, starting clear: only an edit sets it. */
  function TypingAfter(events: seq<EditorEvent>): (typing: bool)
    ensures typing ==> Edit in events
    ensures events != [] && events[|events| - 1] == Edit ==> typing
  {
    if events == [] then false
    else match events[|events| - 1]
      case Edit => true
      case ResetFired => false
      case RemoteUpdate => TypingAfter(events[..|events| - 1])
  }

  /** Reset timers scheduled and not yet fired after `events`: each edit schedules one, each firing consumes one. */
  function Pending(events: seq<EditorEvent>): (n: int)
    ensures n <= |events|
  {
    if events == [] then 0
    else Pending(events[..|events| - 1]) + match events[|events| - 1]
      case Edit => 1
      case ResetFired => -1
      case RemoteUpdate => 0
  }

  /** Some edit happened after the most recent reset firing. */
  ghost predicate EditSinceLastReset(events: seq<EditorEvent>)
  {
    exists i :: 0 <= i < |events| && events[i] == Edit &&
      forall j :: i < j < |events| ==> events[j] != ResetFired
  }

  /**
   * The flag is set exactly when an edit came after the latest reset: the
   * first reset to fire clears it even when a later edit's timer is still
   * pending.
   */
  lemma {:induction false} TypingIffEditSinceLastReset(events: seq<EditorEvent>)
    ensures TypingAfter(events) <==> EditSinceLastReset(events)
    decreases |events|
  {
    if events != [] {
      var n := |events| - 1;
      var init := events[..n];
      TypingIffEditSinceLastReset(init);
      match events[n]
      case Edit =>
        assert events[n] == Edit;
      case ResetFired =>
        if EditSinceLastReset(events) {
          var i :| 0 <= i < |events| && events[i] == Edit &&
            forall j :: i < j < |events| ==> events[j] != ResetFired;
          assert false;
        }
      case RemoteUpdate =>
        if EditSinceLastReset(init) {
          var i :| 0 <= i < |init| && init[i] == Edit &&
            forall j :: i < j < |init| ==> init[j] != ResetFired;
          assert events[i] == Edit;
        }
        if EditSinceLastReset(events) {
          var i :| 0 <= i < |events| && events[i] == Edit &&
            forall j :: i < j < |events| ==> events[j] != ResetFired;
          assert i < n;
          assert init[i] == Edit;
        }
    }
  }

  /** The result of `runCode`'s request: a thrown error, or the decoded JSON body. */
  datatype RunResponse =
    | Threw
    | Body(run: Option<RunResult>)

  /** The `run` member of the body; absent texts are `None`. */
  datatype RunResult = RunResult(stdout: Option<string>, stderr: Option<string>)

  /** The lines `runCode` shows for a response. */
  function RunOutput(resp: RunResponse): (out: seq<string>)
    ensures |out| >= 1
    ensures resp.Threw? ==> out == ["Error: Compiler API unavailable."]
    ensures resp.Body? && resp.run.None? ==> out == ["Error: Execution failed."]
    ensures resp.Body? && resp.run.Some? ==>
      var r := resp.run.value;
      Join(out, "\n") == (if Truthy(r.stdout) then r.stdout.value
                          else if Truthy(r.stderr) then r.stderr.value
                          else "No Output") &&
      forall i :: 0 <= i < |out| ==> '\n' !in out[i]
  {
    match resp
    case Threw => ["Error: Compiler API unavailable."]
    case Body(None) => ["Error: Execution failed."]
    case Body(Some(r)) =>
      var text := if Truthy(r.stdout) then r.stdout.value
                  else if Truthy(r.stderr) then r.stderr.value
                  else "No Output";
      JoinSplit(text, '\n');
      Split(text, '\n')
  }

  class Editor {
    var code: string
    var language: string
    var output: seq<string>
    var isRunning: bool
    /** The `isTyping` ref. */
    var isTyping: bool
    /** Reset timers scheduled by edits and not yet fired. */
    var pendingResets: nat
    /** The events so far, for stating what the flag means. */
    ghost var history: seq<EditorEvent>

    ghost predicate Valid()
      reads this
    {
      language in LanguageVersions && isTyping == TypingAfter(history) &&
      pendingResets as int == Pending(history) &&
      (isTyping ==> pendingResets > 0)
    }

    constructor ()
      ensures Valid()
      ensures code == DefaultCode && language == DefaultLanguage
      ensures output == ["// Output will appear here..."] && !isRunning
      ensures !isTyping && pendingResets == 0 && history == []
    {
      code, language := DefaultCode, DefaultLanguage;
      output, isRunning := ["// Output will appear here..."], false;
      isTyping, pendingResets, history := false, 0, [];
    }

    /**
     * The `initialCode` effect: a non-empty initial text replaces the
     * document and is sent with the current language; an absent or empty
     * one changes nothing.
     */
    method LoadInitialCode(initial: Option<string>) returns (sent: Option<CodePayload>)
      requires Valid()
      modifies this`code
      ensures Valid()
      ensures Truthy(initial) ==> code == initial.value && sent == Some(CodePayload(initial.value, language))
      ensures !Truthy(initial) ==> code == old(code) && sent == None
    {
      if Truthy(initial) {
        code := initial.value;
        sent := Some(CodePayload(code, language));
      } else {
        sent := None;
      }
    }

    /** `handleEditorChange`: set the flag, take the text, send it, and schedule a reset. */
    method OnLocalEdit(value: Option<string>) returns (sent: CodePayload)
      requires Valid()
      modifies this`code, this`isTyping, this`pendingResets, this`history
      ensures Valid()
      ensures isTyping && history == old(history) + [Edit]
      ensures code == value.GetOr("") && sent == CodePayload(code, language)
      ensures pendingResets == old(pendingResets) + 1
    {
      isTyping := true;
      code := value.GetOr("");
      sent := CodePayload(code, language);
      pendingResets := pendingResets + 1;
      history := history + [Edit];
    }

    /** The oldest pending reset timer fires and clears the flag, whatever edits followed it. */
    method OnResetTimer()
      requires Valid() && pendingResets > 0
      modifies this`isTyping, this`pendingResets, this`history
      ensures Valid()
      ensures !isTyping && pendingResets == old(pendingResets) - 1
      ensures history == old(history) + [ResetFired]
    {
      isTyping := false;
      pendingResets := pendingResets - 1;
      history := history + [ResetFired];
    }

    /** `code-update`: ignored while typing, otherwise the whole text is replaced; the language is kept. */
    method OnCodeUpdate(data: CodePayload)
      requires Valid()
      modifies this`code, this`history
      ensures Valid()
      ensures history == old(history) + [RemoteUpdate]
      ensures isTyping ==> code == old(code)
      ensures !isTyping ==> code == data.code
    {
      if !isTyping {
        code := data.code;
      }
      history := history + [RemoteUpdate];
    }

    /** A language picked from the list; the text stays and nothing is sent. */
    method OnLanguageChange(newLanguage: string)
      requires Valid() && newLanguage in LanguageVersions
      modifies this`language
      ensures Valid() && language == newLanguage
    {
      language := newLanguage;
    }

    /** The request `runCode` sends: the language, its listed version and the text. */
    method RunRequest() returns (lang: string, version: string, content: string)
      requires Valid()
      ensures lang == language && content == code
      ensures lang in LanguageVersions && version == LanguageVersions[lang]
    {
      lang, version, content := language, LanguageVersions[language], code;
    }

    /** `runCode` before its request: the button is disabled and the pane says it is running. */
    method OnRunStarted()
      requires Valid()
      modifies this`output, this`isRunning
      ensures Valid()
      ensures output == ["Running..."] && isRunning
    {
      output := ["Running..."];
      isRunning := true;
    }

    /** `runCode` once the response (or the error) is in. */
    method OnRunFinished(resp: RunResponse)
      requires Valid()
      modifies this`output, this`isRunning
      ensures Valid()
      ensures output == RunOutput(resp) && !isRunning
    {
      output := RunOutput(resp);
      isRunning := false;
    }
  }

  /** Two edits before either reset timer fires: the flag is set and two resets are pending. */
  method TwoQuickEdits(e: Editor, typed: string)
    requires e.Valid()
    modifies e`code, e`isTyping, e`pendingResets, e`history
    ensures e.Valid() && e.isTyping && e.pendingResets == old(e.pendingResets) + 2
    ensures e.code == typed + "!"
  {
    var _ := e.OnLocalEdit(Some(typed));
    var _ := e.OnLocalEdit(Some(typed + "!"));
  }

  /**
   * Two quick edits, then the first edit's timer fires while the second's
   * is still pending: the flag is already clear, so an incoming update
   * overwrites what was just typed.
   */
  method FirstResetReopens(typed: string, incoming: string) returns (finalCode: string, stillPending: nat)
    ensures finalCode == incoming && stillPending == 1
  {
    var e := new Editor();
    TwoQuickEdits(e, typed);
    e.OnResetTimer();
    e.OnCodeUpdate(CodePayload(incoming, "python"));
    finalCode, stillPending := e.code, e.pendingResets;
  }

  /** The default language, "python", has a version to send: "3.10.0". */
  lemma DefaultLanguageListed()
    ensures DefaultLanguage in LanguageVersions && LanguageVersions[DefaultLanguage] == "3.10.0"
  {
  }
}
