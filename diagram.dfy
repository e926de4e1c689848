/**
 * The diagram-link convention of bot answers: an answer may carry the marker
 * `[Open Interactive Diagram]` followed by `(<target>)`. The text before the
 * first marker is what is shown and spoken; the target becomes the link.
 */
module Diagram {
  import opened Wrappers
  import opened JsString

  const Marker: string := "[Open Interactive Diagram]"

  /** What the link regex must see before the capture: the marker and an opening parenthesis. */
  const LinkOpen: string := Marker + "("

  /** `text.split(Marker)[0]`: the text before the first marker, or all of it when there is none. */
  function BeforeMarker(text: string): (r: string)
    ensures r <= text
    ensures !Contains(r, Marker)
    ensures Contains(text, Marker) ==> OccursAt(text, Marker, |r|)
    ensures !Contains(text, Marker) ==> r == text
  {
    match IndexOf(text, Marker)
    case Some(i) =>
      var r := text[..i];
      forall j | 0 <= j <= |r| ensures !OccursAt(r, Marker, j) {
        if OccursAt(text[0..i], Marker, j) {
          OccursInSlice(text, 0, i, Marker, j);
        }
      }
      r
    case None => text
  }

  /** A slice of a text without the marker has no marker either. */
  lemma SliceKeepsNoMarker(s: string, lo: nat, hi: nat)
    requires lo <= hi <= |s| && !Contains(s, Marker)
    ensures !Contains(s[lo..hi], Marker)
  {
    forall j | 0 <= j <= hi - lo ensures !OccursAt(s[lo..hi], Marker, j) {
      if OccursAt(s[lo..hi], Marker, j) {
        OccursInSlice(s, lo, hi, Marker, j);
      }
    }
  }

  /**
   * The text handed to speech synthesis for a bot message (line 346): the part
   * before the first marker, trimmed.
   */
  function SpokenText(text: string): (r: string)
    ensures !Contains(r, Marker)
    ensures r == [] || (!IsWhiteSpace(r[0]) && !IsWhiteSpace(r[|r| - 1]))
    ensures !Contains(text, Marker) ==> r == Trim(text)
    ensures Contains(text, Marker) ==> r == Trim(BeforeMarker(text))
  {
    var before := BeforeMarker(text);
    var r := Trim(before);
    var k := CountLeading(before);
    assert r == before[k..k + |r|];
    SliceKeepsNoMarker(before, k, k + |r|);
    r
  }

  /**
   * The `textContent` computed while a reply is received (lines 270-275):
   * trimmed only when the marker is present. It is not stored; the message
   * keeps the whole reply.
   */
  function ReplyTextContent(reply: string): (r: string)
    ensures Contains(reply, Marker) ==> r == SpokenText(reply)
    ensures !Contains(reply, Marker) ==> r == reply && SpokenText(reply) == Trim(r)
  {
    if Contains(reply, Marker) then Trim(BeforeMarker(reply)) else reply
  }

  /** Length of the run of characters other than `)` that starts at `from`. */
  function RunWithoutClose(s: string, from: nat): (n: nat)
    requires from <= |s|
    ensures from + n <= |s|
    ensures forall k :: from <= k < from + n ==> s[k] != ')'
    ensures from + n < |s| ==> s[from + n] == ')'
    decreases |s| - from
  {
    if from == |s| || s[from] == ')' then 0 else 1 + RunWithoutClose(s, from + 1)
  }

  /** A possible capture of `([^)]+)`: non-empty and free of `)`. */
  predicate IsTarget(t: string) {
    t != [] && ')' !in t
  }

  /** `\[Open Interactive Diagram\]\(([^)]+)\)` matches at index `i` with capture `t`. */
  predicate LinkAt(s: string, i: nat, t: string) {
    IsTarget(t) && OccursAt(s, LinkOpen + t + ")", i)
  }

  /** The capture of the link regex for a match attempt that starts at `i`, if it matches there. */
  function MatchAt(s: string, i: nat): (r: Option<string>)
    requires i <= |s|
    ensures r.Some? ==> LinkAt(s, i, r.value)
    ensures forall t :: LinkAt(s, i, t) ==> r == Some(t)
  {
    if !OccursAt(s, LinkOpen, i) then
      assert forall t :: !LinkAt(s, i, t) by {
        forall t ensures !LinkAt(s, i, t) {
          OccursPrefix(s, LinkOpen, t + ")", i);
          assert LinkOpen + t + ")" == LinkOpen + (t + ")");
        }
      }
      None
    else
      var start := i + |LinkOpen|;
      var n := RunWithoutClose(s, start);
      if n > 0 && start + n < |s| then
        var t := s[start..start + n];
        assert OccursAt(s, LinkOpen + t + ")", i) by {
          assert OccursAt(s, t, start);
          assert s[start + n..start + n + 1] == [s[start + n]] == ")";
          OccursConcat(s, LinkOpen, t, i);
          OccursConcat(s, LinkOpen + t, ")", i);
        }
        forall t' | LinkAt(s, i, t') ensures t' == t {
          TargetIsRun(s, i, t', n);
        }
        Some(t)
      else
        forall t' | LinkAt(s, i, t') ensures false {
          TargetIsRun(s, i, t', n);
        }
        None
  }

  /** The capture of a match at `i` is exactly the run of non-`)` characters after the opening. */
  lemma TargetIsRun(s: string, i: nat, t: string, n: nat)
    requires i + |LinkOpen| <= |s|
    requires n == RunWithoutClose(s, i + |LinkOpen|)
    requires LinkAt(s, i, t)
    ensures |t| == n && i + |LinkOpen| + n < |s|
    ensures t == s[i + |LinkOpen|..i + |LinkOpen| + n]
  {
    var start := i + |LinkOpen|;
    OccursSplit(s, LinkOpen + t, ")", i);
    OccursSplit(s, LinkOpen, t, i);
    assert t == s[start..start + |t|];
    assert s[start + |t|] == ')' by {
      assert s[start + |t|..start + |t| + 1] == ")";
    }
    forall k | start <= k < start + |t| ensures s[k] != ')' {
      assert s[k] == t[k - start];
    }
  }

  /** Index of the leftmost match of the link regex at or after `from`. */
  function LinkIndexFrom(s: string, from: nat): (r: Option<nat>)
    requires from <= |s|
    ensures r.Some? ==> from <= r.value <= |s| && MatchAt(s, r.value).Some?
    ensures r.Some? ==> forall j :: from <= j < r.value ==> MatchAt(s, j).None?
    ensures r.None? ==> forall j :: from <= j <= |s| ==> MatchAt(s, j).None?
    decreases |s| - from
  {
    if MatchAt(s, from).Some? then Some(from)
    else if from == |s| then None
    else LinkIndexFrom(s, from + 1)
  }

  /**
   * `text.match(/\[Open Interactive Diagram\]\(([^)]+)\)/)?.[1]` (line 429):
   * the capture of the leftmost match, absent when nothing matches.
   */
  function LinkTarget(text: string): (r: Option<string>)
    ensures r.Some? <==> LinkIndexFrom(text, 0).Some?
    ensures r.Some? ==> LinkAt(text, LinkIndexFrom(text, 0).value, r.value)
    ensures r.Some? ==> Contains(text, Marker)
  {
    match LinkIndexFrom(text, 0)
    case None => None
    case Some(i) =>
      var t := MatchAt(text, i).value;
      assert OccursAt(text, Marker, i) by {
        assert text[i..i + |Marker|] == (LinkOpen + t + ")")[..|Marker|];
      }
      Some(t)
  }

  /** How a bot message is shown (lines 424-441). */
  datatype BotView =
    | Plain(text: string)
    | WithLink(before: string, href: Option<string>)

  function RenderBot(text: string): (v: BotView)
    ensures v.Plain? <==> !Contains(text, Marker)
    ensures v.Plain? ==> v.text == text
    ensures v.WithLink? ==> v.before == BeforeMarker(text)
    ensures v.WithLink? ==> v.before <= text && OccursAt(text, Marker, |v.before|)
    ensures v.WithLink? ==> v.href == LinkTarget(text)
  {
    if Contains(text, Marker) then WithLink(BeforeMarker(text), LinkTarget(text)) else Plain(text)
  }

  /** `[` opens the marker and appears nowhere else in it, so no two occurrences can overlap. */
  lemma MarkerOpensOnce()
    ensures Marker[0] == '['
    ensures forall k :: 0 < k < |Marker| ==> Marker[k] != '['
  {
  }

  /** In `p + Marker + x`, with no marker in `p`, the first marker starts right after `p`. */
  lemma {:induction false} FirstMarkerAfter(p: string, x: string)
    requires !Contains(p, Marker)
    ensures IndexOf(p + Marker + x, Marker) == Some(|p|)
  {
    var s := p + Marker + x;
    assert s[|p|..|p| + |Marker|] == Marker;
    assert OccursAt(s, Marker, |p|);
    MarkerOpensOnce();
    forall j | 0 <= j < |p| ensures !OccursAt(s, Marker, j) {
      if j + |Marker| <= |p| {
        assert s[j..j + |Marker|] == p[j..j + |Marker|];
        assert !OccursAt(p, Marker, j);
      } else if j + |Marker| <= |s| {
        var k := |p| - j;
        assert s[j..j + |Marker|][k] == s[|p|] == '[';
        assert Marker[k] != '[';
      }
    }
    var r := IndexOf(s, Marker);
    assert r.Some?;
    assert r.value == |p|;
  }

  /** When the first marker is followed by a well-formed `(target)`, that target is the link. */
  lemma LinkAfterFirstMarker(s: string, i: nat, t: string)
    requires IndexOf(s, Marker) == Some(i) && LinkAt(s, i, t)
    ensures LinkTarget(s) == Some(t)
  {
    assert i <= |s|;
    assert MatchAt(s, i) == Some(t);
    forall j | 0 <= j < i ensures MatchAt(s, j).None? {
      assert !OccursAt(s, Marker, j);
      OccursPrefix(s, Marker, "(", j);
    }
    assert LinkIndexFrom(s, 0) == Some(i);
  }

  /**
   * An answer `p + "[Open Interactive Diagram](" + t + ")" + rest`, with no
   * marker in `p` and a well-formed target `t`: the link goes to exactly `t`,
   * the text shown before it is `p`, and the text spoken is `p` trimmed.
   */
  lemma {:induction false} DiagramAnswer(p: string, t: string, rest: string)
    requires !Contains(p, Marker) && IsTarget(t)
    ensures LinkTarget(p + LinkOpen + t + ")" + rest) == Some(t)
    ensures BeforeMarker(p + LinkOpen + t + ")" + rest) == p
    ensures SpokenText(p + LinkOpen + t + ")" + rest) == Trim(p)
    ensures RenderBot(p + LinkOpen + t + ")" + rest) == WithLink(p, Some(t))
  {
    var w := LinkOpen + t + ")";
    var s := p + w + rest;
    assert s == p + LinkOpen + t + ")" + rest;
    assert s == p + Marker + ("(" + t + ")" + rest);
    FirstMarkerAfter(p, "(" + t + ")" + rest);
    assert s[..|p|] == p;
    assert s[|p|..|p| + |w|] == w;
    LinkAfterFirstMarker(s, |p|, t);
  }

  /**
   * Any answer with the marker, written as `p + Marker + x` with no marker in
   * `p`: it is shown as `p` followed by the link, and `p` trimmed is spoken,
   * whatever follows the marker.
   */
  lemma {:induction false} FirstMarkerSplits(p: string, x: string)
    requires !Contains(p, Marker)
    ensures BeforeMarker(p + Marker + x) == p
    ensures SpokenText(p + Marker + x) == Trim(p)
    ensures RenderBot(p + Marker + x) == WithLink(p, LinkTarget(p + Marker + x))
  {
    var s := p + Marker + x;
    FirstMarkerAfter(p, x);
    assert s[..|p|] == p;
  }

  /** Every answer with the marker has that form, with `p` the text before its first marker. */
  lemma MarkedAnswerSplits(text: string)
    requires Contains(text, Marker)
    ensures text == BeforeMarker(text) + Marker + text[|BeforeMarker(text)| + |Marker|..]
    ensures !Contains(BeforeMarker(text), Marker)
  {
    var p := BeforeMarker(text);
    assert text[|p|..|p| + |Marker|] == Marker;
    assert text == text[..|p|] + text[|p|..|p| + |Marker|] + text[|p| + |Marker|..];
  }
}
