/** The request lifecycle of the application component (App.tsx): a pre-flight
    credential gate, dispatch to an opaque script generator, classification of its
    outcome, and in-place replacement of the generated scene list. */
module Lifecycle {
  import opened Types
  import opened Text

  /** The three user-facing error messages, as tags: "enter an API key" (pre-flight
      gate), "install an API key" (the generator reported missing keys) and the
      generic "could not reach the AI" message. */
  datatype ErrorMessage = EnterApiKey | InstallApiKey | ConnectionError

  /** The value a rejected generator call throws: an object whose `message` is a
      string or missing, or null/undefined itself. */
  datatype Rejection = Thrown(message: Option<string>) | Nullish

  /** How the awaited generator call ends. */
  datatype Outcome = Resolved(content: GeneratedContent) | Rejected(reason: Rejection)

  /** The five pieces of component state. */
  datatype State = State(
    content: Option<GeneratedContent>,
    currentStyle: FilmStyle,
    isLoading: bool,
    error: Option<ErrorMessage>,
    isSettingsOpen: bool)

  /** The state on first render. */
  const Initial: State := State(None, Cinematic, false, None, false)

  /** The marker the generator puts in its message when it has no usable key. */
  const MissingKeysMarker: string := "MISSING_KEYS"

  /** The pre-flight gate lets a request through when either stored key is truthy. */
  predicate HasAnyKey(geminiKey: Option<string>, openaiKey: Option<string>)
  {
    Truthy(geminiKey) || Truthy(openaiKey)
  }

  /** `err.message && err.message.includes("MISSING_KEYS")`. */
  predicate IsMissingKeys(message: Option<string>)
  {
    Truthy(message) && Includes(message.value, MissingKeysMarker)
  }

  /** A message is classified as "missing keys" exactly when the marker occurs in it. */
  lemma MissingKeysIffMarkerOccurs(message: string)
    ensures IsMissingKeys(Some(message)) <==> exists i: nat :: OccursAt(message, MissingKeysMarker, i)
  {
    IncludesIffOccurs(message, MissingKeysMarker);
  }

  /** A rejection without a message is never classified as "missing keys". */
  lemma NoMessageIsNotMissingKeys()
    ensures !IsMissingKeys(None) && !IsMissingKeys(Some(""))
  {
  }

  /** What every reachable state satisfies: while a request is in flight there is
      neither content nor an error. */
  predicate Consistent(s: State)
  {
    s.isLoading ==> s.content.None? && s.error.None?
  }

  /** The state a gated-through submission leaves while the generator runs. */
  predicate InFlight(s: State)
  {
    s.isLoading && s.content.None? && s.error.None?
  }

  // ---------------------------------------------------------------------------
  // Specification functions: one per step of the lifecycle.

  /** The synchronous part of the submit handler, up to the awaited call: the
      credential gate with its early return, or the reset before dispatch. */
  function Submitted(s: State, request: ScriptRequest, geminiKey: Option<string>, openaiKey: Option<string>): State
  {
    if !HasAnyKey(geminiKey, openaiKey) then
      s.(isSettingsOpen := true, error := Some(EnterApiKey))
    else
      s.(isLoading := true, error := None, content := None, currentStyle := request.style)
  }

  /** The catch block, corrected so that a null/undefined rejection is reported
      with the generic message instead of throwing. */
  function Caught(s: State, reason: Rejection): (r: State)
    ensures r.content == s.content && r.isLoading == s.isLoading && r.currentStyle == s.currentStyle
    ensures r.error.Some?
  {
    match reason
    case Thrown(message) =>
      if IsMissingKeys(message) then s.(error := Some(InstallApiKey), isSettingsOpen := true)
      else s.(error := Some(ConnectionError))
    case Nullish => s.(error := Some(ConnectionError))
  }

  /** The catch block as written: reading `err.message` of a null/undefined
      rejection throws before any state is set. */
  function CaughtAsWritten(s: State, reason: Rejection): (r: State)
    ensures r.content == s.content && r.isLoading == s.isLoading && r.currentStyle == s.currentStyle
    ensures reason.Thrown? ==> r.error.Some?
    ensures reason.Nullish? ==> r == s
  {
    match reason
    case Thrown(message) =>
      if IsMissingKeys(message) then s.(error := Some(InstallApiKey), isSettingsOpen := true)
      else s.(error := Some(ConnectionError))
    case Nullish => s
  }

  /** The awaited call settles: try/catch (corrected), then the finally block.
      Whatever the generator does, the request ends not loading with exactly one of
      content and error present. */
  function Completed(s: State, outcome: Outcome): (r: State)
    requires InFlight(s)
    ensures !r.isLoading
    ensures r.content.Some? <==> r.error.None?
    ensures r.currentStyle == s.currentStyle
  {
    var settled :=
      match outcome
      case Resolved(c) => s.(content := Some(c))
      case Rejected(reason) => Caught(s, reason);
    settled.(isLoading := false)
  }

  /** The awaited call settles: try/catch as written, then the finally block. The
      request always ends not loading; it ends with exactly one of content and error
      unless the generator rejected with null/undefined, which leaves neither. */
  function CompletedAsWritten(s: State, outcome: Outcome): (r: State)
    requires InFlight(s)
    ensures !r.isLoading
    ensures r.currentStyle == s.currentStyle
    ensures outcome != Rejected(Nullish) ==> (r.content.Some? <==> r.error.None?)
    ensures outcome == Rejected(Nullish) ==> r.content.None? && r.error.None?
  {
    var settled :=
      match outcome
      case Resolved(c) => s.(content := Some(c))
      case Rejected(reason) => CaughtAsWritten(s, reason);
    settled.(isLoading := false)
  }

  /** The whole submit handler run to the end, with the generator's outcome given
      (it is ignored when the gate stops the request). */
  function Generated(s: State, request: ScriptRequest, geminiKey: Option<string>, openaiKey: Option<string>, outcome: Outcome): State
  {
    var t := Submitted(s, request, geminiKey, openaiKey);
    if HasAnyKey(geminiKey, openaiKey) then CompletedAsWritten(t, outcome) else t
  }

  /** `{...content, script: newScript}`: a copy with only the scene list replaced. */
  function ReplaceScript(c: GeneratedContent, newScript: seq<PromptItem>): (r: GeneratedContent)
    ensures r.script == newScript
    ensures r.title == c.title && r.context == c.context && r.characters == c.characters
    ensures r.generatedCostumePrompt == c.generatedCostumePrompt
  {
    c.(script := newScript)
  }

  /** The script-update handler: replaces the scene list of the current content,
      and does nothing when there is none. */
  function ScriptUpdated(s: State, newScript: seq<PromptItem>): (r: State)
    ensures r.content.Some? <==> s.content.Some?
    ensures r.(content := s.content) == s
  {
    match s.content
    case None => s
    case Some(c) => s.(content := Some(ReplaceScript(c, newScript)))
  }

  // ---------------------------------------------------------------------------
  // What the screen shows.

  /** The error banner. */
  predicate ShowsError(s: State) { s.error.Some? }

  /** The welcome message: nothing generated, nothing loading, no error. */
  predicate ShowsWelcome(s: State) { s.content.None? && !s.isLoading && s.error.None? }

  /** The loading overlay. */
  predicate ShowsLoading(s: State) { s.isLoading }

  /** The generated script. */
  predicate ShowsOutput(s: State) { s.content.Some? }

  // ---------------------------------------------------------------------------
  // Properties of the lifecycle.

  /** Without a truthy key the gate opens the settings, shows the "enter a key"
      error and leaves content, loading and style as they were. */
  lemma GateBlocksWithoutKeys(s: State, request: ScriptRequest, geminiKey: Option<string>, openaiKey: Option<string>)
    requires !HasAnyKey(geminiKey, openaiKey)
    ensures var r := Submitted(s, request, geminiKey, openaiKey);
      && r.isSettingsOpen && r.error == Some(EnterApiKey)
      && r.content == s.content && r.isLoading == s.isLoading && r.currentStyle == s.currentStyle
  {
  }

  /** When the gate stops a request, the generator is never consulted: the end
      state does not depend on what it would have returned. */
  lemma GateIgnoresGenerator(s: State, request: ScriptRequest, geminiKey: Option<string>, openaiKey: Option<string>, o1: Outcome, o2: Outcome)
    requires !HasAnyKey(geminiKey, openaiKey)
    ensures Generated(s, request, geminiKey, openaiKey, o1) == Generated(s, request, geminiKey, openaiKey, o2)
  {
  }

  /** With a truthy key the request is dispatched from a clean in-flight state that
      remembers the request's style; the settings dialog is not touched. */
  lemma DispatchResetsState(s: State, request: ScriptRequest, geminiKey: Option<string>, openaiKey: Option<string>)
    requires HasAnyKey(geminiKey, openaiKey)
    ensures var r := Submitted(s, request, geminiKey, openaiKey);
      && InFlight(r) && r.currentStyle == request.style && r.isSettingsOpen == s.isSettingsOpen
  {
  }

  /** A resolved call stores exactly the generated content (scene list included)
      and no error; the written and corrected settle steps agree on it. */
  lemma ResolvedStoresContent(s: State, c: GeneratedContent)
    requires InFlight(s)
    ensures var r := CompletedAsWritten(s, Resolved(c));
      && r.content == Some(c)
      && r.error.None? && r.isSettingsOpen == s.isSettingsOpen
    ensures Completed(s, Resolved(c)) == CompletedAsWritten(s, Resolved(c))
  {
  }

  /** A rejection reporting missing keys asks for a key and opens the settings; any
      other thrown error shows the generic message and leaves the settings alone; a
      null/undefined rejection sets no error at all. There is never content. */
  lemma RejectedClassified(s: State, reason: Rejection)
    requires InFlight(s)
    ensures var r := CompletedAsWritten(s, Rejected(reason));
      && r.content.None?
      && (reason.Thrown? && IsMissingKeys(reason.message) ==>
            r.error == Some(InstallApiKey) && r.isSettingsOpen)
      && (reason.Thrown? && !IsMissingKeys(reason.message) ==>
            r.error == Some(ConnectionError) && r.isSettingsOpen == s.isSettingsOpen)
      && (reason.Nullish? ==> r.error.None? && r.isSettingsOpen == s.isSettingsOpen)
  {
  }

  /** With the corrected catch block every rejection shows an error: the "install
      a key" message for missing keys, the generic message otherwise. */
  lemma CorrectedRejectionAlwaysShowsError(s: State, reason: Rejection)
    requires InFlight(s)
    ensures var r := Completed(s, Rejected(reason));
      && r.content.None?
      && r.error == Some(if reason.Thrown? && IsMissingKeys(reason.message) then InstallApiKey else ConnectionError)
  {
  }

  /** A submission that passes the gate ends not loading and with the request's
      style. Unless the generator rejected with null/undefined it shows exactly one of
      output and error and not the welcome message; after such a rejection it shows
      only the welcome message. */
  lemma GeneratedSettles(s: State, request: ScriptRequest, geminiKey: Option<string>, openaiKey: Option<string>, outcome: Outcome)
    requires HasAnyKey(geminiKey, openaiKey)
    ensures var r := Generated(s, request, geminiKey, openaiKey, outcome);
      && !r.isLoading && !ShowsLoading(r) && r.currentStyle == request.style
      && (outcome != Rejected(Nullish) ==> (ShowsOutput(r) <==> !ShowsError(r)) && !ShowsWelcome(r))
      && (outcome == Rejected(Nullish) ==> ShowsWelcome(r) && !ShowsOutput(r) && !ShowsError(r))
  {
  }

  /** Updating the script when there is no content changes nothing. */
  lemma UpdateWithoutContentIsNoOp(s: State, newScript: seq<PromptItem>)
    requires s.content.None?
    ensures ScriptUpdated(s, newScript) == s
  {
  }

  /** Updating the script replaces exactly the scene list of the content. */
  lemma UpdateReplacesOnlyScript(s: State, newScript: seq<PromptItem>)
    requires s.content.Some?
    ensures var r := ScriptUpdated(s, newScript);
      && r.content.Some? && r.content.value.script == newScript
      && r.content == Some(s.content.value.(script := newScript))
      && r.(content := s.content) == s
  {
  }

  /** Applying the same script update twice is the same as applying it once. */
  lemma UpdateIdempotent(s: State, newScript: seq<PromptItem>)
    ensures ScriptUpdated(ScriptUpdated(s, newScript), newScript) == ScriptUpdated(s, newScript)
  {
  }

  /** The initial state is consistent and shows the welcome message only. */
  lemma InitialShowsWelcome()
    ensures Consistent(Initial) && ShowsWelcome(Initial)
    ensures !ShowsError(Initial) && !ShowsLoading(Initial) && !ShowsOutput(Initial)
  {
  }

  /** Every step keeps the state consistent (for submission: when none is in flight). */
  lemma StepsPreserveConsistency(s: State, request: ScriptRequest, geminiKey: Option<string>, openaiKey: Option<string>, outcome: Outcome, newScript: seq<PromptItem>)
    requires Consistent(s)
    ensures !s.isLoading ==> Consistent(Submitted(s, request, geminiKey, openaiKey))
    ensures InFlight(s) ==> Consistent(CompletedAsWritten(s, outcome)) && Consistent(Completed(s, outcome))
    ensures Consistent(ScriptUpdated(s, newScript))
  {
  }

  /** In a consistent state the loading overlay never shows together with the
      output, and the welcome message never shows together with anything else. */
  lemma ViewsExclusive(s: State)
    requires Consistent(s)
    ensures !(ShowsLoading(s) && ShowsOutput(s))
    ensures ShowsWelcome(s) ==> !ShowsLoading(s) && !ShowsOutput(s) && !ShowsError(s)
    ensures !ShowsLoading(s) && !ShowsOutput(s) && !ShowsError(s) ==> ShowsWelcome(s)
  {
  }

  /** As written, a generator that rejects with null/undefined leaves neither content
      nor an error: the request silently falls back to the welcome message. */
  lemma NullishRejectionIsSilent(s: State)
    requires InFlight(s)
    ensures var r := CompletedAsWritten(s, Rejected(Nullish));
      && r.content.None? && r.error.None? && ShowsWelcome(r)
  {
  }

  /** The written and corrected catch blocks agree on every rejection that carries
      an object. */
  lemma CorrectionOnlyAffectsNullish(s: State, outcome: Outcome)
    requires InFlight(s)
    requires outcome != Rejected(Nullish)
    ensures CompletedAsWritten(s, outcome) == Completed(s, outcome)
  {
  }

  // ---------------------------------------------------------------------------
  // The component itself: its state hooks as fields, its handlers as methods.

  class App {
    var content: Option<GeneratedContent>
    var currentStyle: FilmStyle
    var isLoading: bool
    var error: Option<ErrorMessage>
    var isSettingsOpen: bool

    /** The current values of the five state hooks. */
    function Snapshot(): State
      reads this
    {
      State(content, currentStyle, isLoading, error, isSettingsOpen)
    }

    ghost predicate Valid()
      reads this
    {
      Consistent(Snapshot())
    }

    constructor ()
      ensures Valid() && Snapshot() == Initial
    {
      content := None;
      currentStyle := Cinematic;
      isLoading := false;
      error := None;
      isSettingsOpen := false;
    }

    /** The submit handler up to the awaited call; `dispatched` says whether the
        generator is called. The two stored keys are given as parameters. */
    method Submit(request: ScriptRequest, geminiKey: Option<string>, openaiKey: Option<string>) returns (dispatched: bool)
      requires Valid() && !isLoading
      modifies this
      ensures Valid()
      ensures dispatched == HasAnyKey(geminiKey, openaiKey)
      ensures Snapshot() == Submitted(old(Snapshot()), request, geminiKey, openaiKey)
      ensures dispatched ==> InFlight(Snapshot())
    {
      if !Truthy(geminiKey) && !Truthy(openaiKey) {
        isSettingsOpen := true;
        error := Some(EnterApiKey);
        return false;
      }
      isLoading := true;
      error := None;
      content := None;
      currentStyle := request.style;
      dispatched := true;
    }

    /** The rest of the submit handler once the generator call settles. A
        null/undefined rejection makes the catch block throw at `err.message`, so
        only the finally block runs. */
    method Complete(outcome: Outcome)
      requires Valid() && isLoading
      modifies this
      ensures Valid()
      ensures Snapshot() == CompletedAsWritten(old(Snapshot()), outcome)
      ensures !isLoading
      ensures outcome != Rejected(Nullish) ==> (content.Some? <==> error.None?)
    {
      match outcome {
        case Resolved(c) =>
          content := Some(c);
        case Rejected(Thrown(message)) =>
          if IsMissingKeys(message) {
            error := Some(InstallApiKey);
            isSettingsOpen := true;
          } else {
            error := Some(ConnectionError);
          }
        case Rejected(Nullish) =>
          // reading `err.message` throws: no setter in the catch block runs
      }
      isLoading := false;
    }

    /** The submit handler run to the end, the generator's outcome given. */
    method HandleGenerateScript(request: ScriptRequest, geminiKey: Option<string>, openaiKey: Option<string>, outcome: Outcome)
      requires Valid() && !isLoading
      modifies this
      ensures Valid()
      ensures Snapshot() == Generated(old(Snapshot()), request, geminiKey, openaiKey, outcome)
    {
      var dispatched := Submit(request, geminiKey, openaiKey);
      if dispatched {
        Complete(outcome);
      }
    }

    /** The script-update handler. */
    method HandleUpdateScript(newScript: seq<PromptItem>)
      requires Valid()
      modifies this
      ensures Valid()
      ensures Snapshot() == ScriptUpdated(old(Snapshot()), newScript)
    {
      if content.Some? {
        content := Some(ReplaceScript(content.value, newScript));
      }
    }

    /** The header's and the error banner's "settings" buttons. */
    method OpenSettings()
      requires Valid()
      modifies this
      ensures Valid()
      ensures Snapshot() == old(Snapshot()).(isSettingsOpen := true)
    {
      isSettingsOpen := true;
    }

    /** The settings dialog's close button. */
    method CloseSettings()
      requires Valid()
      modifies this
      ensures Valid()
      ensures Snapshot() == old(Snapshot()).(isSettingsOpen := false)
    {
      isSettingsOpen := false;
    }
  }
}
