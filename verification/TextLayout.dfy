/** Where the parts of a joined text stand. */
module TextLayout {
  import Text

  predicate At(text: string, start: int, part: string) {
    0 <= start <= |text| && part <= text[start..]
  }

  function After(starts: seq<int>, parts: seq<string>, i: nat): int
    requires |starts| == |parts| && i < |parts|
  {
    starts[i] + |parts[i]|
  }

  /** Part i stands at its start: the first at the front of the text, the others with a separator right before. */
  predicate PartAt(text: string, parts: seq<string>, sep: string, starts: seq<int>, i: nat)
    requires |starts| == |parts| && i < |parts|
  {
    && At(text, starts[i], parts[i])
    && if i == 0 then starts[i] == 0
       else starts[i] == After(starts, parts, i - 1) + |sep| && At(text, After(starts, parts, i - 1), sep)
  }

  /** The text is the parts in this order and a separator between any two, nothing before and nothing behind. */
  predicate LaidOut(text: string, parts: seq<string>, sep: string, starts: seq<int>) {
    && |starts| == |parts|
    && (forall i | 0 <= i < |parts| :: PartAt(text, parts, sep, starts, i))
    && |text| == if parts == [] then 0 else After(starts, parts, |parts| - 1)
  }

  lemma AtShifts(text: string, front: string, tail: string, start: int, part: string)
    requires text == front + tail && At(tail, start, part)
    ensures At(text, |front| + start, part)
  {
    assert text[|front| + start..] == tail[start..];
  }

  lemma AtStarts(part: string, sep: string, tail: string)
    ensures At(part + sep + tail, 0, part) && At(part + sep + tail, |part|, sep)
  {
    var text := part + sep + tail;
    assert text[0..] == text && text[|part|..] == sep + tail;
  }

  lemma PartShifts(parts: seq<string>, sep: string, tail: string, rest: seq<int>, starts: seq<int>, i: nat)
    requires |starts| == |parts| == |rest| + 1 && i < |rest|
    requires starts[0] == 0 && forall j | 0 <= j < |rest| :: starts[j + 1] == |parts[0]| + |sep| + rest[j]
    requires PartAt(tail, parts[1..], sep, rest, i)
    ensures PartAt(parts[0] + sep + tail, parts, sep, starts, i + 1)
  {
    hide At;
    var front := parts[0] + sep;
    AtShifts(front + tail, front, tail, rest[i], parts[1..][i]);
    if i > 0 {
      AtShifts(front + tail, front, tail, After(rest, parts[1..], i - 1), sep);
    } else {
      AtStarts(parts[0], sep, tail);
    }
  }

  lemma FirstPart(parts: seq<string>, sep: string, starts: seq<int>)
    requires |starts| == |parts| > 1 && starts[0] == 0
    ensures PartAt(Text.Join(parts, sep), parts, sep, starts, 0)
  {
    AtStarts(parts[0], sep, Text.Join(parts[1..], sep));
  }

  lemma JoinStep(parts: seq<string>, sep: string, rest: seq<int>) returns (starts: seq<int>)
    requires |parts| > 1 && LaidOut(Text.Join(parts[1..], sep), parts[1..], sep, rest)
    ensures LaidOut(Text.Join(parts, sep), parts, sep, starts)
  {
    hide PartAt;
    var tail, shift := Text.Join(parts[1..], sep), |parts[0]| + |sep|;
    starts := [0] + seq(|rest|, i requires 0 <= i < |rest| => shift + rest[i]);
    forall i | 0 <= i < |parts|
      ensures PartAt(Text.Join(parts, sep), parts, sep, starts, i)
    {
      if i > 0 {
        PartShifts(parts, sep, tail, rest, starts, i - 1);
      } else {
        FirstPart(parts, sep, starts);
      }
    }
  }

  lemma {:induction false} JoinIsLaidOut(parts: seq<string>, sep: string) returns (starts: seq<int>)
    ensures LaidOut(Text.Join(parts, sep), parts, sep, starts)
  {
    if |parts| <= 1 {
      starts := seq(|parts|, _ => 0);
    } else {
      var rest := JoinIsLaidOut(parts[1..], sep);
      starts := JoinStep(parts, sep, rest);
    }
  }
}
