/** pages/ScannerPage.tsx: the uploaded image is a `data:` URL (RFC 2397,
    `data:<mime type>;base64,<payload>`); `handleAnalyze` splits it at the commas,
    takes the mime type with the regular expression `/:(.*?);/` from the part
    before the first comma, and the payload from the part after it, and sends both
    to the food-analysis call. */
module Scanner {
  import opened Wrappers
  import Strings

  /** `s.split(sep)`: the pieces between the separators, at least one. */
  function Split(s: string, sep: char): (parts: seq<string>)
    ensures |parts| >= 1
    ensures forall i :: 0 <= i < |parts| ==> sep !in parts[i]
    decreases |s|
  {
    if sep !in s then [s]
    else
      var i := FirstIndex(s, sep);
      [s[..i]] + Split(s[i + 1..], sep)
  }

  /** Position of the first `c` in `s`. */
  function FirstIndex(s: string, c: char): (i: nat)
    requires c in s
    ensures i < |s| && s[i] == c && c !in s[..i]
  {
    if s[0] == c then 0
    else
      assert c in s[1..] by { var k :| 0 <= k < |s| && s[k] == c; assert s[1..][k - 1] == c; }
      var j := FirstIndex(s[1..], c);
      assert s[..j + 1] == [s[0]] + s[1..][..j];
      1 + j
  }

  /** Joining the pieces with the separator gives the text back. */
  lemma {:induction false} SplitJoin(s: string, sep: char)
    ensures Strings.Join(Split(s, sep), [sep]) == s
    decreases |s|
  {
    if sep in s {
      var i := FirstIndex(s, sep);
      SplitJoin(s[i + 1..], sep);
      var rest := Split(s[i + 1..], sep);
      var parts := Split(s, sep);
      assert parts == [s[..i]] + rest;
      assert parts[1..] == rest;
      assert s == s[..i] + [sep] + s[i + 1..];
    }
  }

  /** The characters the `.` of a regular expression does not match. */
  predicate IsLineTerminator(c: char)
  {
    c == '\n' || c == '\r' || c as int == 0x2028 || c as int == 0x2029
  }

  /** The lazy group `(.*?);` from position `i`: the position of the nearest ';',
      provided no line terminator comes first. */
  function LazyEnd(s: string, i: nat): (r: Option<nat>)
    ensures r.Some? ==> i <= r.value < |s| && s[r.value] == ';'
    decreases |s| - i
  {
    if i >= |s| then None
    else if s[i] == ';' then Some(i)
    else if IsLineTerminator(s[i]) then None
    else LazyEnd(s, i + 1)
  }

  /** The pattern tried at each start position from `p` on, leftmost first:
      capture group 1 of the first match. */
  function MatchFrom(s: string, p: nat): Option<string>
    decreases |s| - p
  {
    if p >= |s| then None
    else if s[p] == ':' && LazyEnd(s, p + 1).Some? then Some(s[p + 1..LazyEnd(s, p + 1).value])
    else MatchFrom(s, p + 1)
  }

  /** `s.match(/:(.*?);/)?.[1]` */
  function MimeMatch(s: string): Option<string>
  {
    MatchFrom(s, 0)
  }

  /** The text from `i` up to the nearest ';' is free of ';' and line terminators. */
  lemma {:induction false} LazyEndClean(s: string, i: nat)
    requires LazyEnd(s, i).Some?
    ensures forall k :: i <= k < LazyEnd(s, i).value ==> s[k] != ';' && !IsLineTerminator(s[k])
    decreases |s| - i
  {
    if s[i] != ';' {
      LazyEndClean(s, i + 1);
    }
  }

  /** Without line terminators the lazy group reaches the nearest ';' whenever
      there is one. */
  lemma {:induction false} LazyEndFinds(s: string, i: nat, j: nat)
    requires i <= j < |s| && s[j] == ';'
    requires forall k :: 0 <= k < |s| ==> !IsLineTerminator(s[k])
    ensures LazyEnd(s, i).Some? && LazyEnd(s, i).value <= j
    decreases j - i
  {
    if s[i] != ';' {
      LazyEndFinds(s, i + 1, j);
    }
  }

  /** No ':' in `[p, q)` of `s` is followed by a lazy group that ends. */
  predicate NoMatchBefore(s: string, p: nat, q: nat)
  {
    forall r :: p <= r < q && r < |s| && s[r] == ':' ==> LazyEnd(s, r + 1).None?
  }

  /** `v` is the group of a match that starts at the ':' at `q`, the first
      match from `p` on. */
  predicate MatchAt(s: string, p: nat, q: nat, v: string)
  {
    && p <= q < |s| && s[q] == ':' && LazyEnd(s, q + 1).Some?
    && v == s[q + 1..LazyEnd(s, q + 1).value]
    && NoMatchBefore(s, p, q)
  }

  /** Whatever the match yields is the text between a ':' and the nearest ';'
      after it, with no line terminator between them, and no earlier ':' starts
      such a match. */
  lemma {:induction false} MatchFromShape(s: string, p: nat)
    requires MatchFrom(s, p).Some?
    ensures exists q :: MatchAt(s, p, q, MatchFrom(s, p).value)
    decreases |s| - p
  {
    if s[p] == ':' && LazyEnd(s, p + 1).Some? {
      assert MatchAt(s, p, p, MatchFrom(s, p).value);
    } else {
      MatchFromShape(s, p + 1);
      var v := MatchFrom(s, p + 1).value;
      assert MatchFrom(s, p).value == v;
      var q: nat :| MatchAt(s, p + 1, q, v);
      assert NoMatchBefore(s, p, q) by {
        assert NoMatchBefore(s, p + 1, q);
      }
      assert MatchAt(s, p, q, v);
    }
  }

  /** On text without line terminators the match is the plain rule: the text
      after the first ':' up to the nearest ';' after it, if there is such a ';';
      otherwise there is no match. */
  lemma {:induction false} MatchFromFirstColon(s: string, p: nat)
    requires forall k :: 0 <= k < |s| ==> !IsLineTerminator(s[k])
    ensures MatchFrom(s, p).Some? <==>
              exists c, e :: p <= c < e < |s| && s[c] == ':' && s[e] == ';'
    ensures forall c :: (p <= c < |s| && s[c] == ':' && (forall k :: p <= k < c ==> s[k] != ':')
                         && LazyEnd(s, c + 1).Some?) ==>
              MatchFrom(s, p) == Some(s[c + 1..LazyEnd(s, c + 1).value])
    decreases |s| - p
  {
    if p < |s| {
      MatchFromFirstColon(s, p + 1);
      if s[p] == ':' && LazyEnd(s, p + 1).None? {
        // no ';' after this ':' at all, so none after any later ':'
        forall c, e | p <= c < e < |s| && s[c] == ':' && s[e] == ';'
          ensures false
        {
          LazyEndFinds(s, p + 1, e);
        }
      } else if s[p] == ':' {
        var e := LazyEnd(s, p + 1).value;
        assert p < e < |s| && s[e] == ';';
      }
    }
  }

  /** What `handleAnalyze` sends to `analyzeFoodImage`. */
  datatype ImagePayload = ImagePayload(data: string, mimeType: string)

  const InvalidImageFormat: string := "Invalid image format."

  /** The split, the match and the validation of `handleAnalyze`. */
  function ParseDataUrl(src: string): (r: Result<ImagePayload, string>)
    ensures r.Failure? ==> r.error == InvalidImageFormat
    ensures r.Success? <==>
              && MimeMatch(Split(src, ',')[0]).Some? && MimeMatch(Split(src, ',')[0]).value != ""
              && |Split(src, ',')| >= 2 && Split(src, ',')[1] != ""
    ensures r.Success? ==>
              r.value.mimeType == MimeMatch(Split(src, ',')[0]).value && r.value.data == Split(src, ',')[1]
    ensures r.Success? ==> ',' !in r.value.mimeType && ',' !in r.value.data
  {
    var parts := Split(src, ',');
    var mimeType := MimeMatch(parts[0]);
    var data := if |parts| >= 2 then Some(parts[1]) else None;
    if mimeType.None? || mimeType.value == "" || data.None? || data.value == "" then Failure(InvalidImageFormat)
    else
      MimeInsidePart(parts[0]);
      Success(ImagePayload(data.value, mimeType.value))
  }

  /** The match is a piece of the text it was taken from. */
  lemma MimeInsidePart(part: string)
    requires MimeMatch(part).Some?
    ensures forall c :: c in MimeMatch(part).value ==> c in part
  {
    MatchFromShape(part, 0);
    var q: nat :| MatchAt(part, 0, q, MimeMatch(part).value);
    var e := LazyEnd(part, q + 1).value;
    var v := MimeMatch(part).value;
    assert q + 1 <= e < |part| && v == part[q + 1..e];
    forall c | c in v
      ensures c in part
    {
      var k :| 0 <= k < |v| && v[k] == c;
      assert part[q + 1 + k] == c;
    }
  }

  /** The page's state, the analysis call in flight, and the calls made. */
  class ScannerPage {
    var imageSrc: Option<string>
    var analysis: Option<string>
    var isLoading: bool
    var error: Option<string>
    var pending: Option<ImagePayload>
    var aiCalls: seq<ImagePayload>

    ghost predicate Valid()
      reads this
    {
      isLoading <==> pending.Some?
    }

    constructor ()
      ensures Valid()
      ensures imageSrc == None && analysis == None && !isLoading && error == None && aiCalls == []
    {
      imageSrc := None;
      analysis := None;
      isLoading := false;
      error := None;
      pending := None;
      aiCalls := [];
    }

    /** The `FileReader` has read the chosen file as a data URL. */
    method ImageLoaded(src: string)
      requires Valid()
      modifies this
      ensures Valid()
      ensures imageSrc == Some(src) && analysis == None && error == None
      ensures isLoading == old(isLoading) && pending == old(pending) && aiCalls == old(aiCalls)
    {
      imageSrc := Some(src);
      analysis := None;
      error := None;
    }

    /** `handleAnalyze` up to the AI call (its button is disabled while loading):
        nothing without an image; otherwise a malformed URL ends in the error
        "Invalid image format." with no call made, and a well-formed one starts
        the call with the payload and mime type. */
    method Analyze()
      requires Valid() && !isLoading
      modifies this
      ensures Valid()
      ensures imageSrc == old(imageSrc)
      ensures old(imageSrc).None? || old(imageSrc).value == "" ==>
                analysis == old(analysis) && error == old(error) && !isLoading && aiCalls == old(aiCalls)
      ensures old(imageSrc).Some? && old(imageSrc).value != "" ==>
                var r := ParseDataUrl(old(imageSrc).value);
                && analysis == None
                && (r.Failure? ==> error == Some(InvalidImageFormat) && !isLoading && aiCalls == old(aiCalls))
                && (r.Success? ==> error == None && isLoading && pending == Some(r.value)
                                   && aiCalls == old(aiCalls) + [r.value])
    {
      if imageSrc.None? || imageSrc.value == "" {
        return;
      }
      isLoading := true;
      error := None;
      analysis := None;
      var r := ParseDataUrl(imageSrc.value);
      if r.Failure? {
        error := Some(r.error);
        isLoading := false;
      } else {
        pending := Some(r.value);
        aiCalls := aiCalls + [r.value];
      }
    }

    /** The call resolved: show the analysis; `finally` clears the loading flag. */
    method AnalysisReturned(result: string)
      requires Valid() && pending.Some?
      modifies this
      ensures Valid()
      ensures analysis == Some(result) && !isLoading && error == old(error)
      ensures imageSrc == old(imageSrc) && aiCalls == old(aiCalls)
    {
      analysis := Some(result);
      pending := None;
      isLoading := false;
    }

    /** The call rejected: its message becomes the error; loading is cleared. */
    method AnalysisFailed(message: string)
      requires Valid() && pending.Some?
      modifies this
      ensures Valid()
      ensures error == Some(message) && !isLoading && analysis == old(analysis)
      ensures imageSrc == old(imageSrc) && aiCalls == old(aiCalls)
    {
      error := Some(message);
      pending := None;
      isLoading := false;
    }
  }
}
