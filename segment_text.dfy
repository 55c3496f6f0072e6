/** Segment assembly of `transcribe_audio`:
    `" ".join(segment.text.strip() for segment in segments)`. */
module SegmentText {
  import opened PyText

  /** A segment returned by the pywhispercpp model: its start and end times
      and its text. Only the text is used. */
  datatype Segment = Segment(t0: int, t1: int, text: string)

  function TotalLength(parts: seq<string>): nat {
    if parts == [] then 0 else |parts[0]| + TotalLength(parts[1..])
  }

  /** `" ".join(parts)`. */
  function JoinWithSpace(parts: seq<string>): (r: string)
    ensures |parts| == 0 ==> r == ""
    ensures |parts| > 0 ==> |r| == TotalLength(parts) + |parts| - 1
  {
    if parts == [] then ""
    else if |parts| == 1 then parts[0]
    else parts[0] + " " + JoinWithSpace(parts[1..])
  }

  /** Where the `i`-th piece starts in the joined string: after the pieces
      before it and one separator per piece before it. */
  function Offset(parts: seq<string>, i: nat): nat
    requires i <= |parts|
  {
    TotalLength(parts[..i]) + i
  }

  /** Past the first piece and its separator, offsets are those of the rest. */
  lemma OffsetStep(parts: seq<string>, i: nat)
    requires 0 < i <= |parts|
    ensures Offset(parts, i) == |parts[0]| + 1 + Offset(parts[1..], i - 1)
  {
    assert parts[..i][1..] == parts[1..][..i - 1];
    assert parts[..i][0] == parts[0];
  }

  /** The joined string holds every piece, in order, at its offset, and
      exactly one " " between consecutive pieces. Together with the length
      in JoinWithSpace's contract this accounts for every character. */
  lemma {:induction false} JoinPieces(parts: seq<string>, i: nat)
    requires i < |parts|
    ensures Offset(parts, i) + |parts[i]| <= |JoinWithSpace(parts)|
    ensures JoinWithSpace(parts)[Offset(parts, i)..Offset(parts, i) + |parts[i]|] == parts[i]
    ensures i + 1 < |parts| ==> Offset(parts, i) + |parts[i]| < |JoinWithSpace(parts)|
    ensures i + 1 < |parts| ==> JoinWithSpace(parts)[Offset(parts, i) + |parts[i]|] == ' '
  {
    var r := JoinWithSpace(parts);
    if i == 0 {
      assert parts[..0] == [];
      if |parts| > 1 {
        assert r == parts[0] + " " + JoinWithSpace(parts[1..]);
        assert r[..|parts[0]|] == parts[0];
      }
    } else {
      var tail := parts[1..];
      JoinPieces(tail, i - 1);
      OffsetStep(parts, i);
      var off := Offset(tail, i - 1);
      var rest := JoinWithSpace(tail);
      var d := |parts[0]| + 1;
      assert r == parts[0] + " " + rest;
      assert r[d..] == rest;
      assert Offset(parts, i) == d + off;
    }
  }

  /** The stripped text of each segment, in segment order. */
  function Pieces(segments: seq<Segment>): (ps: seq<string>)
    ensures |ps| == |segments|
  {
    seq(|segments|, i requires 0 <= i < |segments| => Strip(segments[i].text))
  }

  /** `full_text`: the stripped segment texts joined with single spaces. */
  function FullText(segments: seq<Segment>): (r: string)
    ensures segments == [] ==> r == ""
    ensures segments != [] ==> |r| == TotalLength(Pieces(segments)) + |segments| - 1
  {
    JoinWithSpace(Pieces(segments))
  }

  /** Segment `i`'s stripped text sits at its offset in `full_text`, followed
      by exactly one space unless it is the last segment. */
  lemma FullTextLayout(segments: seq<Segment>, i: nat)
    requires i < |segments|
    ensures var off := Offset(Pieces(segments), i);
            var piece := Strip(segments[i].text);
            && off + |piece| <= |FullText(segments)|
            && FullText(segments)[off..off + |piece|] == piece
            && (i + 1 < |segments| ==> off + |piece| < |FullText(segments)|)
            && (i + 1 < |segments| ==> FullText(segments)[off + |piece|] == ' ')
  {
    JoinPieces(Pieces(segments), i);
  }

  /** An all-whitespace segment contributes an empty piece, so the two
      separators around it end up next to each other. */
  lemma BlankSegmentGivesDoubleSpace(a: Segment, blank: Segment, b: Segment)
    requires Strip(a.text) == "a" && Strip(b.text) == "b"
    requires forall k :: 0 <= k < |blank.text| ==> IsSpace(blank.text[k])
    ensures FullText([a, blank, b]) == "a  b"
  {
    StripEmptyIff(blank.text);
    var ps := Pieces([a, blank, b]);
    assert ps == ["a", "", "b"];
    assert ps[1..][1..] == ["b"];
    assert JoinWithSpace(ps[1..]) == "" + " " + "b";
  }
}
