/**
 * Python's `str.split(sep)` for a non-empty separator, the matching `sep.join`,
 * and the extraction of the assistant's answer from generated text.
 */
module Text {
  import opened Outcomes

  /** `sep` occurs in `s` at index `j`. */
  predicate OccursAt(s: string, sep: string, j: int)
  {
    0 <= j && j + |sep| <= |s| && s[j..j + |sep|] == sep
  }

  /** `sep in s`, Python's substring test. */
  ghost predicate Contains(s: string, sep: string)
  {
    exists j :: OccursAt(s, sep, j)
  }

  /** `s.find(sep)` as an option: the index of the leftmost occurrence. */
  function IndexOf(s: string, sep: string): (r: Option<nat>)
    requires |sep| > 0
    ensures r.Some? ==> OccursAt(s, sep, r.value)
    decreases |s|
  {
    if |s| < |sep| then None
    else if s[..|sep|] == sep then Some(0)
    else
      match IndexOf(s[1..], sep)
      case None => None
      case Some(i) =>
        assert s[1..][i..i + |sep|] == s[i + 1..i + 1 + |sep|];
        Some(i + 1)
  }

  /** `s.split(sep)`: the pieces between successive non-overlapping occurrences, scanned left to right. */
  function Split(s: string, sep: string): (parts: seq<string>)
    requires |sep| > 0
    ensures |parts| >= 1
    decreases |s|
  {
    match IndexOf(s, sep)
    case None => [s]
    case Some(i) => [s[..i]] + Split(s[i + |sep|..], sep)
  }

  /** `sep.join(parts)`. */
  function Join(parts: seq<string>, sep: string): string
  {
    if |parts| == 0 then []
    else if |parts| == 1 then parts[0]
    else parts[0] + sep + Join(parts[1..], sep)
  }

  /** Shifting by one character moves every occurrence by one index. */
  lemma OccursShift(s: string, sep: string, j: int)
    requires |s| > 0 && j >= 0
    ensures OccursAt(s, sep, j + 1) <==> OccursAt(s[1..], sep, j)
  {
    if 0 <= j && j + 1 + |sep| <= |s| {
      assert s[1..][j..j + |sep|] == s[j + 1..j + 1 + |sep|];
    }
  }

  /** `IndexOf` finds the leftmost occurrence, and finds nothing only when there is none. */
  lemma {:induction false} IndexOfIsLeftmost(s: string, sep: string)
    requires |sep| > 0
    ensures IndexOf(s, sep).Some? ==>
              forall j :: 0 <= j < IndexOf(s, sep).value ==> !OccursAt(s, sep, j)
    ensures IndexOf(s, sep).None? <==> !Contains(s, sep)
    decreases |s|
  {
    if |s| < |sep| {
    } else if s[..|sep|] == sep {
      assert OccursAt(s, sep, 0);
    } else {
      IndexOfIsLeftmost(s[1..], sep);
      assert !OccursAt(s, sep, 0);
      forall j | OccursAt(s, sep, j) ensures j >= 1 && OccursAt(s[1..], sep, j - 1) {
        OccursShift(s, sep, j - 1);
      }
      match IndexOf(s[1..], sep)
      case None =>
      case Some(i) =>
        forall j | 1 <= j < i + 1 ensures !OccursAt(s, sep, j) {
          OccursShift(s, sep, j - 1);
        }
    }
  }

  /** Joining the pieces of a split gives back the original text. */
  lemma {:induction false} JoinSplit(s: string, sep: string)
    requires |sep| > 0
    ensures Join(Split(s, sep), sep) == s
    decreases |s|
  {
    match IndexOf(s, sep)
    case None =>
    case Some(i) =>
      var rest := s[i + |sep|..];
      var tail := Split(rest, sep);
      JoinSplit(rest, sep);
      var parts := Split(s, sep);
      assert parts == [s[..i]] + tail;
      assert parts[1..] == tail;
      calc {
        Join(parts, sep);
        s[..i] + sep + Join(tail, sep);
        s[..i] + sep + rest;
        { assert s[i..i + |sep|] == sep; }
        s;
      }
  }

  /** No piece of a split contains the separator. */
  lemma {:induction false} SplitPiecesAreSeparatorFree(s: string, sep: string)
    requires |sep| > 0
    ensures forall k :: 0 <= k < |Split(s, sep)| ==> !Contains(Split(s, sep)[k], sep)
    decreases |s|
  {
    IndexOfIsLeftmost(s, sep);
    match IndexOf(s, sep)
    case None =>
    case Some(i) =>
      var rest := s[i + |sep|..];
      SplitPiecesAreSeparatorFree(rest, sep);
      forall j | OccursAt(s[..i], sep, j) ensures false {
        assert s[..i][j..j + |sep|] == s[j..j + |sep|];
        assert OccursAt(s, sep, j);
      }
      var parts := Split(s, sep);
      assert parts[1..] == Split(rest, sep);
      forall k | 1 <= k < |parts| ensures !Contains(parts[k], sep) {
        assert parts[k] == Split(rest, sep)[k - 1];
      }
  }

  /** The split has more than one piece exactly when the separator occurs. */
  lemma SplitHasSeveralPiecesIffContains(s: string, sep: string)
    requires |sep| > 0
    ensures |Split(s, sep)| > 1 <==> Contains(s, sep)
  {
    IndexOfIsLeftmost(s, sep);
  }

  /** The marker a chat template puts in front of the assistant's turn. */
  const AssistantMarker: string := "<|assistant|>\n"

  /**
   * The answer part of generated text: the second piece of the text split on the
   * assistant marker when the marker occurs, otherwise the whole text.
   */
  function ExtractAnswer(generated: string): (answer: string)
    ensures !Contains(answer, AssistantMarker)
    ensures !Contains(generated, AssistantMarker) ==> answer == generated
  {
    SplitPiecesAreSeparatorFree(generated, AssistantMarker);
    SplitHasSeveralPiecesIffContains(generated, AssistantMarker);
    var parts := Split(generated, AssistantMarker);
    if |parts| > 1 then parts[1] else generated
  }

  /** No proper suffix of `sep` is also a prefix of it, so occurrences of `sep` never overlap. */
  ghost predicate Unbordered(sep: string)
  {
    forall d :: 0 < d < |sep| ==> sep[d..] != sep[..|sep| - d]
  }

  lemma AssistantMarkerIsUnbordered()
    ensures Unbordered(AssistantMarker)
  {
    var m := AssistantMarker;
    assert '<' !in m[1..];
    forall d | 0 < d < |m| ensures m[d..] != m[..|m| - d] {
      assert m[d] in m[1..];
      assert m[..|m| - d][0] == '<';
    }
  }

  /** An occurrence that starts inside `pre` cannot run into an unbordered separator that starts `tail`. */
  lemma NoStraddlingOccurrence(pre: string, sep: string, tail: string, j: int)
    requires Unbordered(sep) && OccursAt(tail, sep, 0)
    requires 0 <= j < |pre| < j + |sep|
    ensures !OccursAt(pre + tail, sep, j)
  {
    var g := pre + tail;
    var d := |pre| - j;
    var w := g[j..j + |sep|];
    assert w[d..] == tail[..|sep| - d];
    assert tail[..|sep| - d] == sep[..|sep| - d];
    if w == sep {
      assert false;
    }
  }

  /** An occurrence that ends inside `pre` is an occurrence in `pre`. */
  lemma OccurrenceInPrefix(pre: string, sep: string, tail: string, j: int)
    requires 0 <= j && j + |sep| <= |pre|
    ensures OccursAt(pre + tail, sep, j) ==> OccursAt(pre, sep, j)
  {
    assert (pre + tail)[j..j + |sep|] == pre[j..j + |sep|];
  }

  /**
   * After a separator-free prefix, the leftmost occurrence of an unbordered
   * separator is the one the tail starts with.
   */
  lemma LeftmostAfterSeparatorFree(pre: string, sep: string, tail: string)
    requires |sep| > 0 && Unbordered(sep)
    requires !Contains(pre, sep) && OccursAt(tail, sep, 0)
    ensures IndexOf(pre + tail, sep) == Some(|pre|)
  {
    var g := pre + tail;
    assert g[|pre|..|pre| + |sep|] == tail[..|sep|];
    assert OccursAt(g, sep, |pre|);
    forall j | 0 <= j < |pre| ensures !OccursAt(g, sep, j) {
      if j + |sep| <= |pre| {
        OccurrenceInPrefix(pre, sep, tail, j);
      } else {
        NoStraddlingOccurrence(pre, sep, tail, j);
      }
    }
    IndexOfIsLeftmost(g, sep);
    var k := IndexOf(g, sep).value;
    assert !(k < |pre|);
    assert !(|pre| < k);
  }

  /** The first piece of a split is everything before the first occurrence of an unbordered separator. */
  lemma FirstPiece(piece: string, sep: string, rest: string)
    requires |sep| > 0 && Unbordered(sep) && !Contains(piece, sep)
    requires rest == [] || OccursAt(rest, sep, 0)
    ensures Split(piece + rest, sep)[0] == piece
  {
    if rest == [] {
      assert piece + rest == piece;
      IndexOfIsLeftmost(piece, sep);
    } else {
      LeftmostAfterSeparatorFree(piece, sep, rest);
      assert (piece + rest)[..|piece|] == piece;
    }
  }

  /** When the leftmost occurrence follows `pre`, the split is `pre` followed by the split of what comes after it. */
  lemma SplitAtLeftmost(pre: string, sep: string, tail: string)
    requires |sep| > 0 && IndexOf(pre + tail, sep) == Some(|pre|)
    ensures |sep| <= |tail|
    ensures Split(pre + tail, sep) == [pre] + Split(tail[|sep|..], sep)
  {
    var g := pre + tail;
    assert g[..|pre|] == pre;
    assert g[|pre| + |sep|..] == tail[|sep|..];
  }

  /**
   * Whenever generated text is made of a marker-free prefix, the marker, a
   * marker-free answer and a rest that is empty or starts with the marker again,
   * the extracted answer is exactly that answer.
   */
  lemma ExtractAnswerFindsAnswer(pre: string, answer: string, rest: string)
    requires !Contains(pre, AssistantMarker) && !Contains(answer, AssistantMarker)
    requires rest == [] || OccursAt(rest, AssistantMarker, 0)
    ensures ExtractAnswer(pre + AssistantMarker + answer + rest) == answer
  {
    var m := AssistantMarker;
    AssistantMarkerIsUnbordered();
    var tail := m + (answer + rest);
    assert pre + m + answer + rest == pre + tail;
    assert tail[..|m|] == m;
    assert tail[|m|..] == answer + rest;
    LeftmostAfterSeparatorFree(pre, m, tail);
    SplitAtLeftmost(pre, m, tail);
    FirstPiece(answer, m, rest);
  }

  /** Without the marker, the whole generated text is the answer. */
  lemma ExtractAnswerWithoutMarker(generated: string)
    requires !Contains(generated, AssistantMarker)
    ensures ExtractAnswer(generated) == generated
  {
    IndexOfIsLeftmost(generated, AssistantMarker);
  }

  /** Unfolds a join of at least two pieces into its first two pieces and the rest. */
  lemma JoinFirstTwo(parts: seq<string>, sep: string)
    requires |parts| >= 2
    ensures Join(parts, sep) ==
              parts[0] + sep + parts[1] + (if |parts| == 2 then [] else sep + Join(parts[2..], sep))
  {
    var tail := parts[1..];
    assert tail[0] == parts[1];
    if |parts| > 2 {
      assert tail[1..] == parts[2..];
    }
  }

  /**
   * Conversely, text that contains the marker always has the shape the first
   * lemma describes, with the extracted answer in the answer position.
   */
  lemma MarkedTextDecomposes(generated: string) returns (pre: string, rest: string)
    requires Contains(generated, AssistantMarker)
    ensures generated == pre + AssistantMarker + ExtractAnswer(generated) + rest
    ensures !Contains(pre, AssistantMarker) && !Contains(ExtractAnswer(generated), AssistantMarker)
    ensures rest == [] || OccursAt(rest, AssistantMarker, 0)
  {
    var m := AssistantMarker;
    var parts := Split(generated, m);
    SplitHasSeveralPiecesIffContains(generated, m);
    SplitPiecesAreSeparatorFree(generated, m);
    JoinSplit(generated, m);
    JoinFirstTwo(parts, m);
    pre := parts[0];
    assert ExtractAnswer(generated) == parts[1];
    if |parts| == 2 {
      rest := [];
    } else {
      rest := m + Join(parts[2..], m);
      assert rest[..|m|] == m;
    }
  }
}
