/** pages/VideoCreatorPage.tsx: the prompt is built from the first activity of
    each plan section when all three exist; generating starts an operation that
    is polled until done, the loading message advancing round the list of eight
    at every poll that finds it still running; the error handlers tell an
    invalid key from other failures by the text of the error. The video calls,
    the object-URL fetch and the key-selection dialog are external: their
    outcomes arrive as method calls. */
module VideoCreator {
  import opened Wrappers
  import Strings
  import WellnessTypes

  const LoadingMessages: seq<string> := [
    "Warming up the digital canvas...",
    "Mixing vibrant digital paints...",
    "Teaching the AI about wellness...",
    "Rendering the first few frames...",
    "Applying a futuristic glow...",
    "This is taking a moment, your vision is complex and beautiful...",
    "Polishing the final cut...",
    "Almost there, preparing for playback..."
  ]

  /** `xs.indexOf(x)`: the first position of `x`, or -1. */
  function IndexOf(xs: seq<string>, x: string): (i: int)
    ensures -1 <= i < |xs|
    ensures i >= 0 ==> xs[i] == x && forall j :: 0 <= j < i ==> xs[j] != x
    ensures i == -1 <==> x !in xs
    decreases |xs|
  {
    if xs == [] then -1
    else if xs[0] == x then 0
    else
      var k := IndexOf(xs[1..], x);
      if k == -1 then -1 else k + 1
  }

  predicate Distinct(xs: seq<string>)
  {
    forall i, j :: 0 <= i < j < |xs| ==> xs[i] != xs[j]
  }

  /** The eight messages are all different. */
  lemma LoadingMessagesDistinct()
    ensures |LoadingMessages| == 8 && Distinct(LoadingMessages)
  {
    var lengths := seq(8, i requires 0 <= i < 8 => |LoadingMessages[i]|);
    assert lengths == [32, 32, 33, 33, 29, 64, 26, 39];
    // the two pairs of equal length differ five characters from the end
    assert LoadingMessages[0][27] == 'a' && LoadingMessages[1][27] == 't';
    assert LoadingMessages[2][28] == 's' && LoadingMessages[3][28] == 'e';
  }

  /** `xs[(xs.indexOf(prev) + 1) % xs.length]` */
  function NextIn(xs: seq<string>, prev: string): (m: string)
    requires |xs| > 0
    ensures m in xs
    ensures prev !in xs ==> m == xs[0]
  {
    xs[(IndexOf(xs, prev) + 1) % |xs|]
  }

  /** In a list without repeats each entry is followed by the next one, and
      the last by the first. */
  lemma NextInOf(xs: seq<string>, i: nat)
    requires Distinct(xs) && i < |xs|
    ensures NextIn(xs, xs[i]) == xs[if i + 1 < |xs| then i + 1 else 0]
  {
    IndexOfDistinct(xs, i);
    WrapAround(i, |xs|);
  }

  /** In a list without repeats an entry is found at its own position. */
  lemma {:induction false} IndexOfDistinct(xs: seq<string>, i: nat)
    requires Distinct(xs) && i < |xs|
    ensures IndexOf(xs, xs[i]) == i
    decreases i
  {
    if i > 0 {
      assert xs[0] != xs[i];
      assert xs[1..][i - 1] == xs[i];
      assert Distinct(xs[1..]) by {
        forall a, b | 0 <= a < b < |xs[1..]|
          ensures xs[1..][a] != xs[1..][b]
        {
          assert xs[1..][a] == xs[a + 1] && xs[1..][b] == xs[b + 1];
        }
      }
      IndexOfDistinct(xs[1..], i - 1);
    }
  }

  /** `(i + 1) % len` is the next position, or 0 after the last. */
  lemma WrapAround(i: nat, len: nat)
    requires i < len
    ensures (i + 1) % len == if i + 1 < len then i + 1 else 0
  {
  }

  /** `n` steps of `NextIn`. */
  function CycleIn(xs: seq<string>, m: string, n: nat): string
    requires |xs| > 0
    decreases n
  {
    if n == 0 then m else CycleIn(xs, NextIn(xs, m), n - 1)
  }

  /** The position after `NextIn`: one on, or back to the start after the last. */
  function Step(i: nat, len: nat): nat
  {
    if i + 1 < len then i + 1 else 0
  }

  /** The position after `n` steps. */
  function Steps(i: nat, n: nat, len: nat): nat
    decreases n
  {
    if n == 0 then i else Steps(Step(i, len), n - 1, len)
  }

  /** In a list without repeats `n` steps of `NextIn` follow the positions. */
  lemma {:induction false} CycleSteps(xs: seq<string>, i: nat, n: nat)
    requires Distinct(xs) && i < |xs|
    ensures Steps(i, n, |xs|) < |xs| && CycleIn(xs, xs[i], n) == xs[Steps(i, n, |xs|)]
    decreases n
  {
    if n > 0 {
      NextInOf(xs, i);
      CycleSteps(xs, Step(i, |xs|), n - 1);
    }
  }

  /** `a + b` steps are `a` steps followed by `b` steps. */
  lemma {:induction false} StepsAdd(i: nat, a: nat, b: nat, len: nat)
    ensures Steps(i, a + b, len) == Steps(Steps(i, a, len), b, len)
    decreases a
  {
    if a > 0 {
      StepsAdd(Step(i, len), a - 1, b, len);
    }
  }

  /** Short of the end, `n` steps move `n` places on. */
  lemma {:induction false} StepsForward(i: nat, n: nat, len: nat)
    requires i + n < len
    ensures Steps(i, n, len) == i + n
    decreases n
  {
    if n > 0 {
      StepsForward(i + 1, n - 1, len);
    }
  }

  /** As many steps as there are positions come back to the start: up to the
      last position, one step round to the first, and on to the start again. */
  lemma StepsRound(i: nat, len: nat)
    requires i < len
    ensures Steps(i, len, len) == i
  {
    StepsForward(i, len - 1 - i, len);
    assert Steps(len - 1, 1, len) == 0;
    StepsAdd(i, len - 1 - i, 1, len);
    StepsForward(0, i, len);
    StepsAdd(i, len - i, i, len);
  }

  /** The `setLoadingMessage` updater of a poll that finds the operation
      running. */
  function NextMessage(prev: string): (m: string)
    ensures m in LoadingMessages
    ensures prev !in LoadingMessages ==> m == LoadingMessages[0]
  {
    NextIn(LoadingMessages, prev)
  }

  /** Each message is followed by the next one in the list, the last by the first. */
  lemma NextMessageOf(i: nat)
    requires i < |LoadingMessages|
    ensures NextMessage(LoadingMessages[i]) == LoadingMessages[(i + 1) % 8]
  {
    LoadingMessagesDistinct();
    NextInOf(LoadingMessages, i);
  }

  /** Eight running polls in a row bring any message of the list back. */
  lemma EightCyclesReturn(m: string)
    requires m in LoadingMessages
    ensures CycleIn(LoadingMessages, m, 8) == m
  {
    LoadingMessagesDistinct();
    var i :| 0 <= i < |LoadingMessages| && LoadingMessages[i] == m;
    CycleSteps(LoadingMessages, i, 8);
    StepsRound(i, 8);
  }

  const DefaultPrompt: string :=
    "A futuristic video showing a person finding balance between mind, body, and technology, with glowing neon accents."

  /** The prompt naming one activity of each section. */
  function PlanPrompt(mental: string, physical: string, digital: string): string
  {
    "An inspiring, futuristic video about a wellness journey. Visualize these concepts: for mental wellness, \""
    + mental + "\"; for physical wellness, \"" + physical + "\"; and for digital wellness, \"" + digital
    + "\". The mood is uplifting and motivational, with neon accents and smooth transitions."
  }

  /** There is a plan and each of its three sections has a first activity. */
  predicate HasFirstActivities(plan: Option<WellnessTypes.WellnessPlan>)
  {
    && plan.Some?
    && |plan.value.mentalWellness.activities| > 0
    && |plan.value.physicalWellness.activities| > 0
    && |plan.value.digitalWellness.activities| > 0
  }

  /** The prompt the plan effect sets. */
  function PromptFor(plan: Option<WellnessTypes.WellnessPlan>): string
  {
    if HasFirstActivities(plan) then
      PlanPrompt(plan.value.mentalWellness.activities[0].name,
                 plan.value.physicalWellness.activities[0].name,
                 plan.value.digitalWellness.activities[0].name)
    else DefaultPrompt
  }

  /** The fixed prompt is used exactly when some section has no first activity;
      otherwise the prompt quotes the first activity of each section. */
  lemma PromptChoice(plan: Option<WellnessTypes.WellnessPlan>)
    ensures PromptFor(plan) == DefaultPrompt <==> !HasFirstActivities(plan)
    ensures HasFirstActivities(plan) ==>
              && Strings.Contains(PromptFor(plan), plan.value.mentalWellness.activities[0].name)
              && Strings.Contains(PromptFor(plan), plan.value.physicalWellness.activities[0].name)
              && Strings.Contains(PromptFor(plan), plan.value.digitalWellness.activities[0].name)
  {
    if HasFirstActivities(plan) {
      var mental := plan.value.mentalWellness.activities[0].name;
      var physical := plan.value.physicalWellness.activities[0].name;
      var digital := plan.value.digitalWellness.activities[0].name;
      var p := PromptFor(plan);
      var a := "An inspiring, futuristic video about a wellness journey. Visualize these concepts: for mental wellness, \"";
      var b := "\"; for physical wellness, \"";
      var c := "\"; and for digital wellness, \"";
      var d := "\". The mood is uplifting and motivational, with neon accents and smooth transitions.";
      assert p == a + mental + b + physical + c + digital + d;
      assert |p| > |a| + |d| > |DefaultPrompt|;
      assert Strings.OccursAt(p, mental, |a|);
      assert Strings.OccursAt(p, physical, |a + mental + b|);
      assert Strings.OccursAt(p, digital, |a + mental + b + physical + c|);
    }
  }

  const InvalidKeyWhilePolling: string := "Your API key is invalid or expired. Please select a new one."
  const InvalidKeyAtStart: string := "Your API key is invalid or expired. Please select a new one to continue."
  const NoVideoReturned: string := "Video generation completed, but no video was returned."

  /** What an error handler sets: the error text and whether the key stays selected. */
  datatype ErrorOutcome = ErrorOutcome(text: string, keepKey: bool)

  /** The `catch` of `pollOperation`: a "Requested entity was not found" error
      means the key is invalid and must be selected again; any other error is
      shown after a fixed lead-in. */
  function PollError(message: string): (r: ErrorOutcome)
    ensures !r.keepKey <==> Strings.Contains(message, "Requested entity was not found")
    ensures !r.keepKey ==> r.text == InvalidKeyWhilePolling
    ensures r.keepKey ==> r.text == "An error occurred while checking video status: " + message
  {
    if Strings.Contains(message, "Requested entity was not found") then ErrorOutcome(InvalidKeyWhilePolling, false)
    else
      ErrorOutcome("An error occurred while checking video status: " + message, true)
  }

  /** The `catch` of `handleGenerateVideo`: an "API key not valid" error means
      the key must be selected again; any other error is shown after a fixed
      lead-in. */
  function StartError(message: string): (r: ErrorOutcome)
    ensures !r.keepKey <==> Strings.Contains(message, "API key not valid")
    ensures !r.keepKey ==> r.text == InvalidKeyAtStart
    ensures r.keepKey ==> r.text == "Failed to start video generation: " + message
  {
    if Strings.Contains(message, "API key not valid") then ErrorOutcome(InvalidKeyAtStart, false)
    else
      ErrorOutcome("Failed to start video generation: " + message, true)
  }

  datatype AspectRatio = Landscape | Portrait

  /** The operation the page is waiting on. */
  datatype Stage = Idle | Starting | Polling

  /** A `generateWellnessVideo` call. */
  datatype Request = Request(prompt: string, aspectRatio: AspectRatio)

  class VideoCreatorPage {
    var apiKeySelected: bool
    var prompt: string
    var aspectRatio: AspectRatio
    var isLoading: bool
    var loadingMessage: string
    var generatedVideoUrl: Option<string>
    var error: Option<string>
    var stage: Stage
    var requests: seq<Request>

    ghost predicate Valid()
      reads this
    {
      && (isLoading <==> !stage.Idle?)
      && loadingMessage in LoadingMessages
    }

    /** The first render, with the plan effect applied. */
    constructor (plan: Option<WellnessTypes.WellnessPlan>)
      ensures Valid()
      ensures !apiKeySelected && prompt == PromptFor(plan) && aspectRatio == Landscape && !isLoading
      ensures loadingMessage == LoadingMessages[0] && generatedVideoUrl == None && error == None && requests == []
    {
      apiKeySelected := false;
      prompt := PromptFor(plan);
      aspectRatio := Landscape;
      isLoading := false;
      loadingMessage := LoadingMessages[0];
      generatedVideoUrl := None;
      error := None;
      stage := Idle;
      requests := [];
    }

    /** The plan effect when the plan changes: the edited prompt is replaced. */
    method PlanChanged(plan: Option<WellnessTypes.WellnessPlan>)
      requires Valid()
      modifies this
      ensures Valid()
      ensures prompt == PromptFor(plan)
      ensures isLoading == old(isLoading) && stage == old(stage) && error == old(error) && requests == old(requests)
      ensures generatedVideoUrl == old(generatedVideoUrl) && apiKeySelected == old(apiKeySelected)
      ensures aspectRatio == old(aspectRatio) && loadingMessage == old(loadingMessage)
    {
      prompt := PromptFor(plan);
    }

    /** `checkApiKey` resolved. */
    method KeyChecked(hasKey: bool)
      requires Valid()
      modifies this
      ensures Valid()
      ensures apiKeySelected == hasKey
      ensures isLoading == old(isLoading) && stage == old(stage) && error == old(error) && prompt == old(prompt)
      ensures aspectRatio == old(aspectRatio) && loadingMessage == old(loadingMessage)
      ensures generatedVideoUrl == old(generatedVideoUrl) && requests == old(requests)
    {
      apiKeySelected := hasKey;
    }

    /** `handleSelectKey`: the dialog closed; the key counts as selected. */
    method KeySelected()
      requires Valid()
      modifies this
      ensures Valid()
      ensures apiKeySelected
      ensures isLoading == old(isLoading) && stage == old(stage) && error == old(error) && prompt == old(prompt)
      ensures aspectRatio == old(aspectRatio) && loadingMessage == old(loadingMessage)
      ensures generatedVideoUrl == old(generatedVideoUrl) && requests == old(requests)
    {
      apiKeySelected := true;
    }

    /** The prompt textarea's `onChange`. */
    method EditPrompt(text: string)
      requires Valid()
      modifies this
      ensures Valid()
      ensures prompt == text
      ensures isLoading == old(isLoading) && stage == old(stage) && error == old(error) && requests == old(requests)
      ensures apiKeySelected == old(apiKeySelected) && aspectRatio == old(aspectRatio)
      ensures loadingMessage == old(loadingMessage) && generatedVideoUrl == old(generatedVideoUrl)
    {
      prompt := text;
    }

    /** The aspect-ratio selector's `onChange`. */
    method SetAspectRatio(r: AspectRatio)
      requires Valid()
      modifies this
      ensures Valid()
      ensures aspectRatio == r
      ensures isLoading == old(isLoading) && stage == old(stage) && error == old(error) && prompt == old(prompt)
      ensures apiKeySelected == old(apiKeySelected) && loadingMessage == old(loadingMessage)
      ensures generatedVideoUrl == old(generatedVideoUrl) && requests == old(requests)
    {
      aspectRatio := r;
    }

    /** `handleGenerateVideo` (its button is disabled while loading): error and
        video cleared, the first message shown, loading set, and the
        generation requested with the current prompt and aspect ratio. */
    method Generate()
      requires Valid() && !isLoading
      modifies this
      ensures Valid()
      ensures error == None && isLoading && generatedVideoUrl == None && loadingMessage == LoadingMessages[0]
      ensures stage == Starting && requests == old(requests) + [Request(old(prompt), old(aspectRatio))]
      ensures apiKeySelected == old(apiKeySelected) && prompt == old(prompt) && aspectRatio == old(aspectRatio)
    {
      error := None;
      isLoading := true;
      generatedVideoUrl := None;
      loadingMessage := LoadingMessages[0];
      stage := Starting;
      requests := requests + [Request(prompt, aspectRatio)];
    }

    /** The generation request was accepted; polling begins. */
    method Started()
      requires Valid() && stage == Starting
      modifies this
      ensures Valid()
      ensures stage == Polling && isLoading
      ensures error == old(error) && loadingMessage == old(loadingMessage) && apiKeySelected == old(apiKeySelected)
      ensures prompt == old(prompt) && aspectRatio == old(aspectRatio)
      ensures generatedVideoUrl == old(generatedVideoUrl) && requests == old(requests)
    {
      stage := Polling;
    }

    /** The generation request failed: the error is classified and loading cleared. */
    method StartFailed(message: string)
      requires Valid() && stage == Starting
      modifies this
      ensures Valid()
      ensures error == Some(StartError(message).text)
      ensures apiKeySelected == (old(apiKeySelected) && StartError(message).keepKey)
      ensures !isLoading && stage == Idle && generatedVideoUrl == old(generatedVideoUrl) && requests == old(requests)
      ensures prompt == old(prompt) && aspectRatio == old(aspectRatio) && loadingMessage == old(loadingMessage)
    {
      var outcome := StartError(message);
      error := Some(outcome.text);
      if !outcome.keepKey {
        apiKeySelected := false;
      }
      isLoading := false;
      stage := Idle;
    }

    /** A poll found the operation still running: the next message is shown and
        another poll is scheduled. */
    method PollRunning()
      requires Valid() && stage == Polling
      modifies this
      ensures Valid()
      ensures loadingMessage == NextMessage(old(loadingMessage)) && stage == Polling && isLoading
      ensures error == old(error) && generatedVideoUrl == old(generatedVideoUrl) && apiKeySelected == old(apiKeySelected)
      ensures prompt == old(prompt) && aspectRatio == old(aspectRatio) && requests == old(requests)
    {
      loadingMessage := NextMessage(loadingMessage);
    }

    /** A poll found the operation done: loading is cleared; with no (or an
        empty) video URI the "no video" error is set; otherwise the video is
        fetched, and `fetched` is either the object URL made from it or the
        message the fetch failed with, which the poll's `catch` classifies. */
    method PollDone(uri: Option<string>, fetched: Result<string, string>)
      requires Valid() && stage == Polling
      modifies this
      ensures Valid()
      ensures !isLoading && stage == Idle && requests == old(requests)
      ensures prompt == old(prompt) && aspectRatio == old(aspectRatio) && loadingMessage == old(loadingMessage)
      ensures uri.None? || uri.value == "" ==>
                error == Some(NoVideoReturned) && generatedVideoUrl == old(generatedVideoUrl)
                && apiKeySelected == old(apiKeySelected)
      ensures uri.Some? && uri.value != "" && fetched.Success? ==>
                generatedVideoUrl == Some(fetched.value) && error == old(error) && apiKeySelected == old(apiKeySelected)
      ensures uri.Some? && uri.value != "" && fetched.Failure? ==>
                error == Some(PollError(fetched.error).text) && generatedVideoUrl == old(generatedVideoUrl)
                && apiKeySelected == (old(apiKeySelected) && PollError(fetched.error).keepKey)
    {
      isLoading := false;
      stage := Idle;
      if uri.None? || uri.value == "" {
        error := Some(NoVideoReturned);
      } else if fetched.Success? {
        generatedVideoUrl := Some(fetched.value);
      } else {
        var outcome := PollError(fetched.error);
        error := Some(outcome.text);
        if !outcome.keepKey {
          apiKeySelected := false;
        }
      }
    }

    /** The poll itself failed: the error is classified and loading cleared. */
    method PollFailed(message: string)
      requires Valid() && stage == Polling
      modifies this
      ensures Valid()
      ensures error == Some(PollError(message).text)
      ensures apiKeySelected == (old(apiKeySelected) && PollError(message).keepKey)
      ensures !isLoading && stage == Idle && generatedVideoUrl == old(generatedVideoUrl) && requests == old(requests)
      ensures prompt == old(prompt) && aspectRatio == old(aspectRatio) && loadingMessage == old(loadingMessage)
    {
      var outcome := PollError(message);
      error := Some(outcome.text);
      if !outcome.keepKey {
        apiKeySelected := false;
      }
      isLoading := false;
      stage := Idle;
    }

    /** "Create Another Video". */
    method CreateAnother()
      requires Valid()
      modifies this
      ensures Valid()
      ensures generatedVideoUrl == None
      ensures isLoading == old(isLoading) && stage == old(stage) && error == old(error) && prompt == old(prompt)
      ensures apiKeySelected == old(apiKeySelected) && aspectRatio == old(aspectRatio)
      ensures loadingMessage == old(loadingMessage) && requests == old(requests)
    {
      generatedVideoUrl := None;
    }
  }
}
