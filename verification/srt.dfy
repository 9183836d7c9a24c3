/**
 * SubRip (SRT) rendering of the translation segments: one cue per
 * segment, numbered from 1, with `HH:MM:SS,mmm --> HH:MM:SS,mmm`, the
 * stripped text and a blank line.
 */
module Srt {
  import opened Text
  import opened Timing

  /** A segment reported by the speech model; times in microseconds from the start of the audio. */
  datatype Segment = Segment(startUs: int, endUs: int, text: string)

  /** The pieces of the cue written for the segment numbered `index`, in file order. */
  function CuePieces(index: nat, seg: Segment): seq<string> {
    [NatToString(index), "\n", Timestamp(seg.startUs), " --> ", Timestamp(seg.endUs), "\n", Strip(seg.text), "\n\n"]
  }

  /** The cue written for the segment numbered `index`. */
  function Cue(index: nat, seg: Segment): string {
    Concat(CuePieces(index, seg))
  }

  /** The cues for `segs`, numbered from 1 in input order. */
  function CueList(segs: seq<Segment>): (cues: seq<string>)
    ensures |cues| == |segs|
    ensures forall i :: 0 <= i < |segs| ==> cues[i] == Cue(i + 1, segs[i])
  {
    seq(|segs|, i requires 0 <= i < |segs| => Cue(i + 1, segs[i]))
  }

  /** The whole subtitle file for `segs`. */
  function Render(segs: seq<Segment>): string {
    Concat(CueList(segs))
  }

  /** The cues of a prefix of the segments are a prefix of the cues. */
  lemma CueListPrefix(segs: seq<Segment>, k: nat)
    requires k <= |segs|
    ensures CueList(segs[..k]) == CueList(segs)[..k]
  {
  }

  /** Writing two lists of pieces one after the other writes their concatenation. */
  lemma {:induction false} ConcatAppend(a: seq<string>, b: seq<string>)
    ensures Concat(a + b) == Concat(a) + Concat(b)
    decreases |a|
  {
    if a == [] {
      assert a + b == b;
    } else {
      assert (a + b)[0] == a[0] && (a + b)[1..] == a[1..] + b;
      ConcatAppend(a[1..], b);
      Assoc(a[0], Concat(a[1..]), Concat(b));
    }
  }

  /** Writing the pieces up to `k + 1` is writing those up to `k` and then piece `k`. */
  lemma ConcatNext(ps: seq<string>, k: nat)
    requires k < |ps|
    ensures Concat(ps[..k + 1]) == Concat(ps[..k]) + ps[k]
  {
    assert ps[..k + 1] == ps[..k] + [ps[k]];
    ConcatAppend(ps[..k], [ps[k]]);
    assert Concat([ps[k]]) == ps[k] + Concat([]);
  }

  /** The pieces written so far are a prefix of all of them written. */
  lemma ConcatPrefix(ps: seq<string>, k: nat)
    requires k <= |ps|
    ensures Concat(ps[..k]) <= Concat(ps)
  {
    assert ps == ps[..k] + ps[k..];
    ConcatAppend(ps[..k], ps[k..]);
  }

  /** One more segment adds exactly one cue, numbered after the others, at the end. */
  lemma RenderSnoc(segs: seq<Segment>, seg: Segment)
    ensures Render(segs + [seg]) == Render(segs) + Cue(|segs| + 1, seg)
  {
    var all := segs + [seg];
    CueListPrefix(all, |segs|);
    assert all[..|segs|] == segs;
    assert CueList(all)[..|segs| + 1] == CueList(all);
    ConcatNext(CueList(all), |segs|);
  }

  /** The file for a prefix of the segments is a prefix of the file for all of them. */
  lemma RenderPrefix(segs: seq<Segment>, k: nat)
    requires k <= |segs|
    ensures Render(segs[..k]) <= Render(segs)
  {
    CueListPrefix(segs, k);
    ConcatPrefix(CueList(segs), k);
  }

  /**
   * `c` read back field by field is cue number `index` from `startMs` to
   * `endMs` (milliseconds within the day) with `text`: the number, a
   * newline, the start timestamp, " --> ", the end timestamp, a newline, the
   * text and a blank line.
   */
  predicate IsCue(c: string, index: nat, startMs: int, endMs: int, text: string) {
    var n := |NatToString(index)|;
    && |c| == n + 33 + |text|
    && AllDigits(c[..n]) && DigitsValue(c[..n]) == index && c[n] == '\n'
    && IsClockShape(c[n + 1..n + 13]) && ReadTimestamp(c[n + 1..n + 13]) == startMs
    && c[n + 13..n + 18] == " --> "
    && IsClockShape(c[n + 18..n + 30]) && ReadTimestamp(c[n + 18..n + 30]) == endMs
    && c[n + 30] == '\n' && c[n + 31..|c| - 2] == text && c[|c| - 2..] == "\n\n"
  }

  /**
   * The cue of a segment reads back as its number, its start and end
   * truncated to milliseconds within the day, and its stripped text. This
   * holds for empty text too, so no segment is skipped.
   */
  lemma CueFields(index: nat, seg: Segment)
    ensures IsCue(Cue(index, seg), index, MillisOfDay(seg.startUs), MillisOfDay(seg.endUs), Strip(seg.text))
  {
    NatToStringRoundTrip(index);
    TimestampRoundTrip(seg.startUs);
    TimestampRoundTrip(seg.endUs);
    PiecesReadBack(CuePieces(index, seg), index, MillisOfDay(seg.startUs), MillisOfDay(seg.endUs), Strip(seg.text));
  }

  /** Eight pieces shaped like the fields of a cue read back as that cue. */
  lemma PiecesReadBack(ps: seq<string>, index: nat, startMs: int, endMs: int, text: string)
    requires |ps| == 8 && ps[0] == NatToString(index) && AllDigits(ps[0]) && DigitsValue(ps[0]) == index
    requires ps[1] == "\n" && ps[3] == " --> " && ps[5] == "\n" && ps[6] == text && ps[7] == "\n\n"
    requires IsClockShape(ps[2]) && ReadTimestamp(ps[2]) == startMs
    requires IsClockShape(ps[4]) && ReadTimestamp(ps[4]) == endMs
    ensures IsCue(Concat(ps), index, startMs, endMs, text)
  {
    CueLayout(ps);
  }

  /** Where each of the eight pieces of a cue lies, knowing only their lengths. */
  lemma CueLayout(ps: seq<string>)
    requires |ps| == 8 && |ps[1]| == 1 && |ps[2]| == 12 && |ps[3]| == 5 && |ps[4]| == 12 && |ps[5]| == 1 && |ps[7]| == 2
    ensures var c := Concat(ps);
            var n := |ps[0]|;
            var m := |ps[6]|;
            && |c| == n + 33 + m
            && c[..n] == ps[0] && c[n] == ps[1][0]
            && c[n + 1..n + 13] == ps[2] && c[n + 13..n + 18] == ps[3]
            && c[n + 18..n + 30] == ps[4]
            && c[n + 30] == ps[5][0] && c[n + 31..n + 31 + m] == ps[6] && c[n + 31 + m..] == ps[7]
  {
    var c := Concat(ps);
    var n := |ps[0]|;
    var m := |ps[6]|;
    assert Offset(ps, 1) == n;
    assert Offset(ps, 2) == n + 1;
    assert Offset(ps, 3) == n + 13;
    assert Offset(ps, 4) == n + 18;
    assert Offset(ps, 5) == n + 30;
    assert Offset(ps, 6) == n + 31;
    assert Offset(ps, 7) == n + 31 + m;
    assert Offset(ps, 8) == n + 33 + m;
    ConcatLength(ps);
    PieceAt(ps, 0);
    PieceAt(ps, 1);
    PieceAt(ps, 2);
    PieceAt(ps, 3);
    PieceAt(ps, 4);
    PieceAt(ps, 5);
    PieceAt(ps, 6);
    PieceAt(ps, 7);
    assert c[n] == c[n..n + 1][0];
    assert c[n + 30] == c[n + 30..n + 31][0];
  }

  /** The strings `ps` written one after another. */
  function Concat(ps: seq<string>): (r: string)
    decreases |ps|
  {
    if ps == [] then "" else ps[0] + Concat(ps[1..])
  }

  /** Where the `k`-th piece starts in `Concat(ps)`. */
  function Offset(ps: seq<string>, k: nat): nat
    requires k <= |ps|
  {
    if k == 0 then 0 else Offset(ps, k - 1) + |ps[k - 1]|
  }

  lemma {:induction false} OffsetTail(ps: seq<string>, k: nat)
    requires 1 <= k <= |ps|
    ensures Offset(ps, k) == |ps[0]| + Offset(ps[1..], k - 1)
  {
    if k > 1 {
      OffsetTail(ps, k - 1);
    }
  }

  lemma {:induction false} ConcatLength(ps: seq<string>)
    ensures |Concat(ps)| == Offset(ps, |ps|)
    decreases |ps|
  {
    if ps != [] {
      ConcatLength(ps[1..]);
      OffsetTail(ps, |ps|);
    }
  }

  /** Each piece can be read back from its offset. */
  lemma {:induction false} PieceAt(ps: seq<string>, k: nat)
    requires k < |ps|
    ensures Offset(ps, k + 1) <= |Concat(ps)|
    ensures Concat(ps)[Offset(ps, k)..Offset(ps, k + 1)] == ps[k]
    decreases k
  {
    ConcatLength(ps);
    ConcatLength(ps[1..]);
    if k == 0 {
      assert Concat(ps)[..|ps[0]|] == ps[0];
    } else {
      PieceAt(ps[1..], k - 1);
      OffsetTail(ps, k);
      OffsetTail(ps, k + 1);
      SliceRight(ps[0], Concat(ps[1..]), Offset(ps, k), Offset(ps, k + 1));
    }
  }

  lemma SliceRight(a: string, b: string, i: nat, j: nat)
    requires |a| <= i <= j <= |a| + |b|
    ensures (a + b)[i..j] == b[i - |a|..j - |a|]
  {
  }

  lemma Assoc(a: string, b: string, c: string)
    ensures a + (b + c) == (a + b) + c
  {
  }
}
