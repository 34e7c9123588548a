/** The two pieces of services/geminiService.ts that are not calls into the AI
    SDK: the quiz text put into the wellness-plan prompt, and the search for the
    first image part of an image-editing response. */
module GeminiService {
  import opened Wrappers
  import opened QuizData
  import Strings

  /** The question `q` at position `index` has an answer naming one of its
      (non-empty) options; otherwise `q.options[answerIndex]` is falsy. */
  predicate IsAnswered(q: Question, answers: Answers, index: int)
  {
    index in answers && 0 <= answers[index] < |q.options| && q.options[answers[index]] != ""
  }

  /** The text of one prompt block. */
  function Entry(q: Question, answerText: string): string
  {
    "Question: " + q.text + "\nAnswer: " + answerText
  }

  /** The `map` callback: the block for `q`, or '' when it has no usable answer. */
  function Block(q: Question, answers: Answers, index: int): string
  {
    if IsAnswered(q, answers, index) then Entry(q, q.options[answers[index]]) else ""
  }

  /** `qs.map((q, i) => Block(q, answers, base + i))` */
  function MapBlocks(qs: seq<Question>, answers: Answers, base: int): (r: seq<string>)
    ensures |r| == |qs|
    decreases |qs|
  {
    if qs == [] then [] else [Block(qs[0], answers, base)] + MapBlocks(qs[1..], answers, base + 1)
  }

  /** `filter(Boolean)` on strings: drops the empty ones. */
  function FilterNonEmpty(xs: seq<string>): seq<string>
  {
    if xs == [] then []
    else if xs[0] != "" then [xs[0]] + FilterNonEmpty(xs[1..])
    else FilterNonEmpty(xs[1..])
  }

  /** The positions `base + i` of the answered questions, in question order. */
  function AnsweredFrom(qs: seq<Question>, answers: Answers, base: int): seq<int>
    decreases |qs|
  {
    if qs == [] then []
    else if IsAnswered(qs[0], answers, base) then [base] + AnsweredFrom(qs[1..], answers, base + 1)
    else AnsweredFrom(qs[1..], answers, base + 1)
  }

  /** The blocks of `formatQuizForPrompt` over a question table. */
  function PromptBlocksOf(qs: seq<Question>, answers: Answers): seq<string>
  {
    FilterNonEmpty(MapBlocks(qs, answers, 0))
  }

  /** `formatQuizForPrompt`, which reads the table `QUIZ_QUESTIONS`. */
  function FormatQuizForPrompt(answers: Answers): string
  {
    Strings.Join(PromptBlocksOf(QuizQuestions, answers), "\n\n")
  }

  /** Every entry of `idx` is a position of `qs` (offset by `base`) holding an answer. */
  predicate AllAnswered(qs: seq<Question>, answers: Answers, base: int, idx: seq<int>)
  {
    forall j :: 0 <= j < |idx| ==>
      base <= idx[j] < base + |qs| && IsAnswered(qs[idx[j] - base], answers, idx[j])
  }

  predicate Increasing(idx: seq<int>)
  {
    forall j :: 0 <= j < |idx| - 1 ==> idx[j] < idx[j + 1]
  }

  /** Positions answered in the tail of the table are answered in the whole table. */
  lemma AllAnsweredShift(qs: seq<Question>, answers: Answers, base: int, idx: seq<int>)
    requires qs != [] && AllAnswered(qs[1..], answers, base + 1, idx)
    ensures AllAnswered(qs, answers, base, idx)
  {
    forall j | 0 <= j < |idx|
      ensures base <= idx[j] < base + |qs| && IsAnswered(qs[idx[j] - base], answers, idx[j])
    {
      assert qs[1..][idx[j] - (base + 1)] == qs[idx[j] - base];
    }
  }

  /** An answered first position can be put in front. */
  lemma AllAnsweredCons(qs: seq<Question>, answers: Answers, base: int, idx: seq<int>)
    requires qs != [] && IsAnswered(qs[0], answers, base) && AllAnswered(qs, answers, base, idx)
    ensures AllAnswered(qs, answers, base, [base] + idx)
  {
    var idx' := [base] + idx;
    forall j | 0 <= j < |idx'|
      ensures base <= idx'[j] < base + |qs| && IsAnswered(qs[idx'[j] - base], answers, idx'[j])
    {
      if j > 0 {
        assert idx'[j] == idx[j - 1];
      }
    }
  }

  /** A position below all the others keeps a list increasing. */
  lemma IncreasingCons(x: int, idx: seq<int>)
    requires Increasing(idx) && forall j :: 0 <= j < |idx| ==> x < idx[j]
    ensures Increasing([x] + idx)
  {
    var idx' := [x] + idx;
    forall j | 0 <= j < |idx'| - 1
      ensures idx'[j] < idx'[j + 1]
    {
      if j > 0 {
        assert idx'[j] == idx[j - 1] && idx'[j + 1] == idx[j];
      }
    }
  }

  /** The answered positions lie in range, are answered, and increase. */
  lemma {:induction false} AnsweredFromIndices(qs: seq<Question>, answers: Answers, base: int)
    ensures AllAnswered(qs, answers, base, AnsweredFrom(qs, answers, base))
    ensures Increasing(AnsweredFrom(qs, answers, base))
    ensures forall j :: 0 <= j < |AnsweredFrom(qs, answers, base)| ==> base <= AnsweredFrom(qs, answers, base)[j]
    decreases |qs|
  {
    if qs != [] {
      var rest := AnsweredFrom(qs[1..], answers, base + 1);
      AnsweredFromIndices(qs[1..], answers, base + 1);
      AllAnsweredShift(qs, answers, base, rest);
      if IsAnswered(qs[0], answers, base) {
        AllAnsweredCons(qs, answers, base, rest);
        IncreasingCons(base, rest);
        var idx := [base] + rest;
        assert AnsweredFrom(qs, answers, base) == idx;
        forall j | 0 <= j < |idx|
          ensures base <= idx[j]
        {
          if j > 0 {
            assert idx[j] == rest[j - 1];
          }
        }
      } else {
        assert AnsweredFrom(qs, answers, base) == rest;
      }
    }
  }

  /** Every answered position is listed. */
  lemma {:induction false} AnsweredFromComplete(qs: seq<Question>, answers: Answers, base: int, i: int)
    requires base <= i < base + |qs| && IsAnswered(qs[i - base], answers, i)
    ensures i in AnsweredFrom(qs, answers, base)
    decreases |qs|
  {
    if i > base {
      assert qs[i - base] == qs[1..][i - (base + 1)];
      AnsweredFromComplete(qs[1..], answers, base + 1, i);
    }
  }

  /** `filter(Boolean)` on a list with a known first element. */
  lemma FilterCons(x: string, xs: seq<string>)
    ensures x != "" ==> FilterNonEmpty([x] + xs) == [x] + FilterNonEmpty(xs)
    ensures x == "" ==> FilterNonEmpty([x] + xs) == FilterNonEmpty(xs)
  {
    assert ([x] + xs)[1..] == xs;
  }

  /** A question's block is non-empty exactly when it is answered. */
  lemma BlockNonEmpty(q: Question, answers: Answers, index: int)
    ensures Block(q, answers, index) != "" <==> IsAnswered(q, answers, index)
  {
    if IsAnswered(q, answers, index) {
      assert |Block(q, answers, index)| >= |"Question: "|;
    }
  }

  /** `kept` holds, one each and in order, the entries of `bs` at the positions
      `idx` (offset by `base`). */
  predicate Picks(bs: seq<string>, base: int, idx: seq<int>, kept: seq<string>)
  {
    && |kept| == |idx|
    && forall j :: 0 <= j < |idx| ==> base <= idx[j] < base + |bs| && kept[j] == bs[idx[j] - base]
  }

  /** Picks from the tail of a list are picks from the whole list. */
  lemma PicksShift(b: string, bs: seq<string>, base: int, idx: seq<int>, kept: seq<string>)
    requires Picks(bs, base + 1, idx, kept)
    ensures Picks([b] + bs, base, idx, kept)
  {
    forall j | 0 <= j < |idx|
      ensures base <= idx[j] < base + |[b] + bs| && kept[j] == ([b] + bs)[idx[j] - base]
    {
      assert ([b] + bs)[idx[j] - base] == bs[idx[j] - (base + 1)];
    }
  }

  /** The first entry can be put in front of picks from the tail. */
  lemma PicksCons(b: string, bs: seq<string>, base: int, idx: seq<int>, kept: seq<string>)
    requires Picks(bs, base + 1, idx, kept)
    ensures Picks([b] + bs, base, [base] + idx, [b] + kept)
  {
    PicksShift(b, bs, base, idx, kept);
    var idx' := [base] + idx;
    var kept' := [b] + kept;
    forall j | 0 <= j < |idx'|
      ensures base <= idx'[j] < base + |[b] + bs| && kept'[j] == ([b] + bs)[idx'[j] - base]
    {
      if j > 0 {
        assert idx'[j] == idx[j - 1] && kept'[j] == kept[j - 1];
      }
    }
  }

  /** The block list has one block per question, in order. */
  lemma {:induction false} MapBlocksAt(qs: seq<Question>, answers: Answers, base: int, i: int)
    requires 0 <= i < |qs|
    ensures MapBlocks(qs, answers, base)[i] == Block(qs[i], answers, base + i)
    decreases i
  {
    var rest := MapBlocks(qs[1..], answers, base + 1);
    assert MapBlocks(qs, answers, base) == [Block(qs[0], answers, base)] + rest;
    if i > 0 {
      MapBlocksAt(qs[1..], answers, base + 1, i - 1);
      assert qs[1..][i - 1] == qs[i];
    }
  }

  /** The kept blocks are the blocks of the answered positions, one each, in order. */
  lemma {:induction false} BlocksFollowAnswered(qs: seq<Question>, answers: Answers, base: int)
    ensures Picks(MapBlocks(qs, answers, base), base, AnsweredFrom(qs, answers, base), FilterNonEmpty(MapBlocks(qs, answers, base)))
    decreases |qs|
  {
    if qs != [] {
      var tail := qs[1..];
      var restMap := MapBlocks(tail, answers, base + 1);
      BlocksFollowAnswered(tail, answers, base + 1);
      var rest := AnsweredFrom(tail, answers, base + 1);
      var restBlocks := FilterNonEmpty(restMap);
      var b0 := Block(qs[0], answers, base);
      assert MapBlocks(qs, answers, base) == [b0] + restMap;
      FilterCons(b0, restMap);
      BlockNonEmpty(qs[0], answers, base);
      if IsAnswered(qs[0], answers, base) {
        PicksCons(b0, restMap, base, rest, restBlocks);
        assert AnsweredFrom(qs, answers, base) == [base] + rest;
      } else {
        PicksShift(b0, restMap, base, rest, restBlocks);
        assert AnsweredFrom(qs, answers, base) == rest;
      }
    }
  }

  /** One block `Question: q\nAnswer: a` per answered question, in question order:
      a question without an answer, or whose answer names no (non-empty) option,
      contributes nothing, and every answered question contributes its block. */
  lemma PromptIsAnsweredQuestions(qs: seq<Question>, answers: Answers)
    ensures var idx := AnsweredFrom(qs, answers, 0);
            var bs := PromptBlocksOf(qs, answers);
            && |bs| == |idx|
            && AllAnswered(qs, answers, 0, idx)
            && Increasing(idx)
            && (forall j :: 0 <= j < |idx| ==>
                  0 <= idx[j] < |qs| && bs[j] == Entry(qs[idx[j]], qs[idx[j]].options[answers[idx[j]]]))
            && (forall i :: 0 <= i < |qs| && IsAnswered(qs[i], answers, i) ==> i in idx)
  {
    BlocksFollowAnswered(qs, answers, 0);
    AnsweredFromIndices(qs, answers, 0);
    var idx := AnsweredFrom(qs, answers, 0);
    var all := MapBlocks(qs, answers, 0);
    var bs := PromptBlocksOf(qs, answers);
    forall j | 0 <= j < |idx|
      ensures 0 <= idx[j] < |qs| && bs[j] == Entry(qs[idx[j]], qs[idx[j]].options[answers[idx[j]]])
    {
      var i := idx[j];
      assert i - 0 == i;
      assert IsAnswered(qs[i], answers, i);
      MapBlocksAt(qs, answers, 0, i);
      assert bs[j] == all[i] == Block(qs[i], answers, 0 + i);
    }
    forall i | 0 <= i < |qs| && IsAnswered(qs[i], answers, i)
      ensures i in idx
    {
      AnsweredFromComplete(qs, answers, 0, i);
    }
  }

  /** The answer map only matters at the question positions. */
  lemma {:induction false} MapBlocksOutside(qs: seq<Question>, answers: Answers, base: int, k: int, v: int)
    requires k < base || k >= base + |qs|
    ensures MapBlocks(qs, answers[k := v], base) == MapBlocks(qs, answers, base)
    decreases |qs|
  {
    if qs != [] {
      MapBlocksOutside(qs[1..], answers, base + 1, k, v);
    }
  }

  /** Answer keys beyond the question table are ignored. */
  lemma ExtraKeysIgnored(answers: Answers, k: int, v: int)
    requires k < 0 || k >= |QuizQuestions|
    ensures FormatQuizForPrompt(answers[k := v]) == FormatQuizForPrompt(answers)
  {
    MapBlocksOutside(QuizQuestions, answers, 0, k, v);
  }

  /** With no answers every block is '' and is dropped. */
  lemma {:induction false} NoAnswersNoBlocks(qs: seq<Question>, base: int)
    ensures FilterNonEmpty(MapBlocks(qs, map[], base)) == []
    decreases |qs|
  {
    if qs != [] {
      NoAnswersNoBlocks(qs[1..], base + 1);
    }
  }

  /** No answers, no prompt text. */
  lemma NoAnswersEmptyPrompt(qs: seq<Question>)
    ensures Strings.Join(PromptBlocksOf(qs, map[]), "\n\n") == ""
  {
    NoAnswersNoBlocks(qs, 0);
  }

  datatype InlineData = InlineData(data: string, mimeType: string)

  /** A response part: text, an inline payload, or both. */
  datatype Part = Part(text: Option<string>, inlineData: Option<InlineData>)

  datatype Candidate = Candidate(parts: seq<Part>)

  datatype EditError =
    | NoCandidate   // `response.candidates[0]` is undefined: a TypeError
    | NoImage
  {
    function Message(): string
    {
      match this
      case NoCandidate => "Cannot read properties of undefined (reading 'content')"
      case NoImage => "AI did not return an image."
    }
  }

  /** The `for ... of` loop of `editImageWithText`: the data of the first part of the
      first candidate that carries inline data, or the error it throws. */
  method FirstInlineImage(candidates: seq<Candidate>) returns (r: Result<string, EditError>)
    ensures candidates == [] ==> r == Failure(NoCandidate)
    ensures candidates != [] ==>
              var parts := candidates[0].parts;
              && (r.Failure? <==> forall i :: 0 <= i < |parts| ==> parts[i].inlineData.None?)
              && (r.Failure? ==> r.error == NoImage)
              && (r.Success? ==> exists i :: 0 <= i < |parts| && parts[i].inlineData.Some?
                                  && r.value == parts[i].inlineData.value.data
                                  && forall j :: 0 <= j < i ==> parts[j].inlineData.None?)
  {
    if candidates == [] {
      return Failure(NoCandidate);
    }
    var parts := candidates[0].parts;
    var i := 0;
    while i < |parts|
      invariant 0 <= i <= |parts|
      invariant forall j :: 0 <= j < i ==> parts[j].inlineData.None?
    {
      if parts[i].inlineData.Some? {
        return Success(parts[i].inlineData.value.data);
      }
      i := i + 1;
    }
    return Failure(NoImage);
  }
}
