/** Transcript assembly on the Home page: the speech-to-text engine's segment
    texts joined with single spaces, then stripped. */
module Transcription {
  import opened Text

  /** One time-segment from the engine; only its text is used. */
  datatype Segment = Segment(text: string)

  /** What the call into the engine produces: its segments in time order, or an
      exception (corrupt audio, unsupported codec, ...). */
  datatype EngineResult = Segments(segments: seq<Segment>) | EngineError

  /** `[seg.text for seg in segments]` */
  function Texts(segments: seq<Segment>): seq<string>
  {
    seq(|segments|, i requires 0 <= i < |segments| => segments[i].text)
  }

  /** `" ".join([seg.text for seg in segments]).strip()` */
  function Assemble(segments: seq<Segment>): string
  {
    Strip(Join(Texts(segments), " "))
  }

  /** With a whitespace separator, a join is all whitespace exactly when every
      part is. */
  lemma {:induction false} JoinAllSpace(parts: seq<string>, sep: string)
    requires AllSpace(sep)
    ensures AllSpace(Join(parts, sep)) <==> forall i :: 0 <= i < |parts| ==> AllSpace(parts[i])
    decreases |parts|
  {
    if |parts| > 1 {
      JoinAllSpace(parts[1..], sep);
      AllSpaceConcat(parts[0], sep);
      AllSpaceConcat(parts[0] + sep, Join(parts[1..], sep));
      if forall i :: 0 <= i < |parts| ==> AllSpace(parts[i]) {
        assert forall i :: 0 <= i < |parts[1..]| ==> AllSpace(parts[1..][i]) by {
          forall i | 0 <= i < |parts[1..]| ensures AllSpace(parts[1..][i]) {
            assert parts[1..][i] == parts[i + 1];
          }
        }
      }
      if AllSpace(Join(parts, sep)) {
        forall i | 0 <= i < |parts| ensures AllSpace(parts[i]) {
          if i > 0 { assert parts[i] == parts[1..][i - 1]; }
        }
      }
    }
  }

  /** The stored transcript is empty (the "unclear audio" branch) exactly when
      every segment text is whitespace, in particular when there are no
      segments at all. */
  lemma AssembleEmptyIff(segments: seq<Segment>)
    ensures Assemble(segments) == "" <==> forall i :: 0 <= i < |segments| ==> AllSpace(segments[i].text)
  {
    SpaceJoinEmptyIff(Texts(segments));
    TextsAllSpace(segments);
  }

  lemma TextsAllSpace(segments: seq<Segment>)
    ensures (forall i :: 0 <= i < |Texts(segments)| ==> AllSpace(Texts(segments)[i]))
            <==> forall i :: 0 <= i < |segments| ==> AllSpace(segments[i].text)
  {
    var texts := Texts(segments);
    assert |texts| == |segments|;
    forall i | 0 <= i < |segments| ensures texts[i] == segments[i].text {
    }
  }

  lemma SpaceJoinEmptyIff(texts: seq<string>)
    ensures Strip(Join(texts, " ")) == "" <==> forall i :: 0 <= i < |texts| ==> AllSpace(texts[i])
  {
    StripEmptyIff(Join(texts, " "));
    assert AllSpace(" ") by { assert " "[0] == ' '; }
    JoinAllSpace(texts, " ");
  }

  /** Assembly only trims the ends: the transcript is one contiguous piece of
      the space-joined texts, whatever lies outside it is whitespace, and it
      neither starts nor ends with whitespace. */
  lemma AssembleTrims(segments: seq<Segment>) returns (lo: nat, hi: nat)
    ensures lo <= hi <= |Join(Texts(segments), " ")|
    ensures Assemble(segments) == Join(Texts(segments), " ")[lo..hi]
    ensures AllSpace(Join(Texts(segments), " ")[..lo]) && AllSpace(Join(Texts(segments), " ")[hi..])
    ensures Assemble(segments) != "" ==>
              !IsSpace(Assemble(segments)[0]) && !IsSpace(Assemble(segments)[|Assemble(segments)| - 1])
  {
    lo, hi := StripSpec(Join(Texts(segments), " "));
  }

  /** A later segment extends the transcript: two segments whose texts carry no
      whitespace at their outer ends assemble to the two texts with one space
      between them. */
  lemma AssembleTwo(a: string, b: string)
    requires a != "" && !IsSpace(a[0])
    requires b != "" && !IsSpace(b[|b| - 1])
    ensures Assemble([Segment(a), Segment(b)]) == a + " " + b
  {
    var texts := Texts([Segment(a), Segment(b)]);
    assert texts == [a, b];
    assert texts[1..] == [b];
    var j := a + " " + b;
    assert Join(texts, " ") == j;
    assert j[0] == a[0] && j[|j| - 1] == b[|b| - 1];
    StripClean(j);
  }
}
