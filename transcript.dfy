/** The transcript updates of `onmessage` in pages/VoiceAssistantPage.tsx: the
    fragments of one server message are appended to the current turn, user side
    and model side separately, and `turnComplete` moves the current turn to the
    end of the list and starts a fresh one. */
module Transcript {
  import opened Wrappers

  /** `{ user, model }` */
  datatype Turn = Turn(user: string, model: string)

  const EmptyTurn: Turn := Turn("", "")

  /** An `inputTranscription`/`outputTranscription` object; its `text` may be absent. */
  datatype Transcription = Transcription(text: Option<string>)

  /** The part of a `LiveServerMessage.serverContent` the page reads. `audioData` is
      `modelTurn?.parts[0]?.inlineData?.data`. */
  datatype ServerContent = ServerContent(
    inputTranscription: Option<Transcription>,
    outputTranscription: Option<Transcription>,
    turnComplete: bool,
    interrupted: bool,
    audioData: Option<string>)

  /** What `prev + t.text` appends: an absent text concatenates as "undefined". */
  function TextOf(t: Transcription): string
  {
    if t.text.Some? then t.text.value else "undefined"
  }

  /** What a message adds to one side of the current turn. */
  function Fragment(t: Option<Transcription>): string
  {
    if t.Some? then TextOf(t.value) else ""
  }

  /** `transcription` and `currentTranscription`. */
  datatype Log = Log(turns: seq<Turn>, current: Turn)

  /** The three `setState` updates of one message, in the order the code issues them. */
  function Apply(log: Log, c: ServerContent): (r: Log)
  {
    var l1 := if c.inputTranscription.Some?
              then log.(current := log.current.(user := log.current.user + TextOf(c.inputTranscription.value)))
              else log;
    var l2 := if c.outputTranscription.Some?
              then l1.(current := l1.current.(model := l1.current.model + TextOf(c.outputTranscription.value)))
              else l1;
    if c.turnComplete then l2.(turns := l2.turns + [l2.current], current := EmptyTurn) else l2
  }

  /** Within one message the fragments land before the flush: a completing
      message appends the current turn *with* its own fragments and resets it;
      any other message only extends each side with its own fragment. */
  lemma ApplyEffect(log: Log, c: ServerContent)
    ensures var r := Apply(log, c);
            var turn := Turn(log.current.user + Fragment(c.inputTranscription),
                             log.current.model + Fragment(c.outputTranscription));
            && (c.turnComplete ==> r.turns == log.turns + [turn] && r.current == EmptyTurn)
            && (!c.turnComplete ==> r.turns == log.turns && r.current == turn)
  {
    var l1 := if c.inputTranscription.Some?
              then log.(current := log.current.(user := log.current.user + TextOf(c.inputTranscription.value)))
              else log;
    assert l1.turns == log.turns && l1.current.model == log.current.model;
    assert l1.current.user == log.current.user + Fragment(c.inputTranscription);
    var l2 := if c.outputTranscription.Some?
              then l1.(current := l1.current.(model := l1.current.model + TextOf(c.outputTranscription.value)))
              else l1;
    assert l2.turns == log.turns;
    assert l2.current == Turn(log.current.user + Fragment(c.inputTranscription),
                              log.current.model + Fragment(c.outputTranscription));
    assert Apply(log, c) == if c.turnComplete then l2.(turns := l2.turns + [l2.current], current := EmptyTurn) else l2;
  }

  /** The messages processed one after another. */
  function Feed(log: Log, cs: seq<ServerContent>): Log
    decreases |cs|
  {
    if cs == [] then log else Feed(Apply(log, cs[0]), cs[1..])
  }

  /** All user text of a list of turns, in order. */
  function UserText(turns: seq<Turn>): string
  {
    if turns == [] then "" else UserText(turns[..|turns| - 1]) + turns[|turns| - 1].user
  }

  function ModelText(turns: seq<Turn>): string
  {
    if turns == [] then "" else ModelText(turns[..|turns| - 1]) + turns[|turns| - 1].model
  }

  /** Every input fragment of the messages, in order. */
  function UserFragments(cs: seq<ServerContent>): string
    decreases |cs|
  {
    if cs == [] then "" else Fragment(cs[0].inputTranscription) + UserFragments(cs[1..])
  }

  function ModelFragments(cs: seq<ServerContent>): string
    decreases |cs|
  {
    if cs == [] then "" else Fragment(cs[0].outputTranscription) + ModelFragments(cs[1..])
  }

  /** Number of messages with `turnComplete`. */
  function Completions(cs: seq<ServerContent>): nat
    decreases |cs|
  {
    if cs == [] then 0 else (if cs[0].turnComplete then 1 else 0) + Completions(cs[1..])
  }

  /** One message neither loses nor reorders text: the finished turns followed by
      the current turn spell the old text followed by the message's fragment. */
  lemma ApplyConserves(log: Log, c: ServerContent)
    ensures UserText(Apply(log, c).turns) + Apply(log, c).current.user
            == UserText(log.turns) + log.current.user + Fragment(c.inputTranscription)
    ensures ModelText(Apply(log, c).turns) + Apply(log, c).current.model
            == ModelText(log.turns) + log.current.model + Fragment(c.outputTranscription)
  {
    ApplyEffect(log, c);
    var r := Apply(log, c);
    if c.turnComplete {
      assert r.turns[..|r.turns| - 1] == log.turns;
    }
  }

  /** Over any run of messages the transcript only grows at its end, by one
      turn per completing message. */
  lemma {:induction false} FeedTurns(log: Log, cs: seq<ServerContent>)
    ensures |Feed(log, cs).turns| == |log.turns| + Completions(cs)
    ensures Feed(log, cs).turns[..|log.turns|] == log.turns
    decreases |cs|
  {
    if cs != [] {
      var l1 := Apply(log, cs[0]);
      ApplyEffect(log, cs[0]);
      FeedTurns(l1, cs[1..]);
      var r := Feed(l1, cs[1..]);
      assert r.turns[..|log.turns|] == r.turns[..|l1.turns|][..|log.turns|];
    }
  }

  /** Over any run of messages the finished turns plus the current turn spell,
      on the user side, the old text followed by all input fragments in order. */
  lemma {:induction false} FeedUserText(log: Log, cs: seq<ServerContent>)
    ensures UserText(Feed(log, cs).turns) + Feed(log, cs).current.user
            == UserText(log.turns) + log.current.user + UserFragments(cs)
    decreases |cs|
  {
    if cs != [] {
      var l1 := Apply(log, cs[0]);
      var rest := cs[1..];
      ApplyConserves(log, cs[0]);
      FeedUserText(l1, rest);
      var r := Feed(l1, rest);
      assert Feed(log, cs) == r;
      var before := UserText(log.turns) + log.current.user;
      var f := Fragment(cs[0].inputTranscription);
      var later := UserFragments(rest);
      assert UserFragments(cs) == f + later;
      assert UserText(r.turns) + r.current.user == (before + f) + later;
      assert (before + f) + later == before + (f + later);
    }
  }

  /** The same on the model side, with the output fragments. */
  lemma {:induction false} FeedModelText(log: Log, cs: seq<ServerContent>)
    ensures ModelText(Feed(log, cs).turns) + Feed(log, cs).current.model
            == ModelText(log.turns) + log.current.model + ModelFragments(cs)
    decreases |cs|
  {
    if cs != [] {
      var l1 := Apply(log, cs[0]);
      var rest := cs[1..];
      ApplyConserves(log, cs[0]);
      FeedModelText(l1, rest);
      var r := Feed(l1, rest);
      assert Feed(log, cs) == r;
      var before := ModelText(log.turns) + log.current.model;
      var f := Fragment(cs[0].outputTranscription);
      var later := ModelFragments(rest);
      assert ModelFragments(cs) == f + later;
      assert ModelText(r.turns) + r.current.model == (before + f) + later;
      assert (before + f) + later == before + (f + later);
    }
  }
}
