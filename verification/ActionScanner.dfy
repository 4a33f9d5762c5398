/** Finding the action blocks in a text: a non-greedy, case-insensitive scan. */
module ActionScanner {
  import opened Options
  import opened Text

  const OPEN := "<ccb_action>"
  const CLOSE := "</ccb_action>"

  /** Case folding as the pattern's flag does it: only ASCII letters have two cases. */
  function Lower(c: char): char {
    if 'A' <= c <= 'Z' then (c as int + 32) as char else c
  }

  predicate AtStart(s: string, tag: string) {
    |tag| <= |s| && forall k | 0 <= k < |tag| :: Lower(s[k]) == tag[k]
  }

  /** Where the tag first occurs, in any case. */
  function Find(s: string, tag: string): (r: Option<nat>)
    ensures r.Some? ==> r.value + |tag| <= |s| && AtStart(s[r.value..], tag)
    ensures r.Some? ==> forall k | 0 <= k < r.value :: !AtStart(s[k..], tag)
    ensures r.None? ==> forall k | 0 <= k <= |s| :: !AtStart(s[k..], tag)
  {
    if AtStart(s, tag) then Some(0)
    else if s == [] then None
    else
      var rest := Find(s[1..], tag);
      assert forall k | 1 <= k <= |s| :: s[k..] == s[1..][k - 1..];
      if rest.None? then None else Some(rest.value + 1)
  }

  /** The first block of a text: its body, and the text after its closing tag. */
  function FirstBlock(s: string): (r: Option<(string, string)>)
    ensures r.Some? ==> |r.value.1| < |s| && r.value.1 == s[|s| - |r.value.1|..]
  {
    var o := Find(s, OPEN);
    if o.None? then None
    else
      var inner := s[o.value + |OPEN|..];
      var c := Find(inner, CLOSE);
      if c.None? then None
      else Some((inner[..c.value], inner[c.value + |CLOSE|..]))
  }

  /** All block bodies in order, trimmed. */
  function Blocks(s: string): seq<string>
    decreases |s|
  {
    var first := FirstBlock(s);
    if first.None? then [] else [Trim(first.value.0)] + Blocks(first.value.1)
  }

  predicate Contains(s: string, part: string) {
    exists k | 0 <= k <= |s| :: StartsWith(s[k..], part)
  }

  // ---------------------------------------------------------------------- embedding

  predicate IsTag(tag: string) {
    && tag != [] && tag[0] == '<'
    && (forall k | 1 <= k < |tag| :: tag[k] != '<')
    && (forall k | 0 <= k < |tag| :: Lower(tag[k]) == tag[k])
  }

  predicate Lacks(s: string, tag: string) {
    Find(s, tag).None?
  }

  /** The tag in some mixture of cases. */
  predicate Spells(written: string, tag: string) {
    |written| == |tag| && AtStart(written, tag)
  }

  /** A text that lacks the tag cannot begin one that its continuation completes. */
  lemma NoTagBefore(gap: string, tag: string, written: string, rest: string, k: nat)
    requires k < |gap| && IsTag(tag) && Spells(written, tag) && !AtStart(gap[k..], tag)
    ensures !AtStart((gap + written + rest)[k..], tag)
  {
    var s := (gap + written + rest)[k..];
    if |gap| - k >= |tag| {
      assert forall j | 0 <= j < |tag| :: s[j] == gap[k..][j];
    } else {
      assert s[|gap| - k] == written[0];
      assert Lower(s[|gap| - k]) == '<';
    }
  }

  lemma TagAfter(gap: string, tag: string, written: string, rest: string)
    requires Spells(written, tag)
    ensures AtStart((gap + written + rest)[|gap|..], tag)
  {
    assert (gap + written + rest)[|gap|..] == written + rest;
  }

  lemma FindAfter(gap: string, tag: string, written: string, rest: string)
    requires IsTag(tag) && Spells(written, tag) && Lacks(gap, tag)
    ensures Find(gap + written + rest, tag) == Some(|gap|)
  {
    hide IsTag, AtStart, Find;
    var s := gap + written + rest;
    TagAfter(gap, tag, written, rest);
    forall k | 0 <= k < |gap|
      ensures !AtStart(s[k..], tag)
    {
      NoTagBefore(gap, tag, written, rest, k);
    }
  }

  /** Blocks written into a text: each body between its tags, after a gap. */
  function Embed(gaps: seq<string>, bodies: seq<string>, tail: string): string
    requires |gaps| == |bodies|
  {
    if gaps == [] then tail
    else gaps[0] + OPEN + (bodies[0] + CLOSE + Embed(gaps[1..], bodies[1..], tail))
  }

  function Trims(bodies: seq<string>): seq<string> {
    if bodies == [] then [] else [Trim(bodies[0])] + Trims(bodies[1..])
  }

  lemma FirstEmbedded(gap: string, open: string, body: string, close: string, rest: string)
    requires Lacks(gap, OPEN) && Lacks(body, CLOSE) && Spells(open, OPEN) && Spells(close, CLOSE)
    ensures FirstBlock(gap + open + (body + close + rest)) == Some((body, rest))
  {
    hide Find, AtStart;
    var inner := body + close + rest;
    assert IsTag(OPEN) && IsTag(CLOSE);
    FindAfter(gap, OPEN, open, inner);
    FindAfter(body, CLOSE, close, rest);
    assert (gap + open + inner)[|gap| + |OPEN|..] == inner;
    assert inner[..|body|] == body && inner[|body| + |CLOSE|..] == rest;
  }

  /**
   * Scanning finds exactly what was embedded: bodies without a closing tag, between gaps without an
   * opening tag, come back trimmed and in order.
   */
  lemma {:induction false} ScanFindsWhatWasEmbedded(gaps: seq<string>, bodies: seq<string>, tail: string)
    requires |gaps| == |bodies| && Lacks(tail, OPEN)
    requires forall i | 0 <= i < |gaps| :: Lacks(gaps[i], OPEN) && Lacks(bodies[i], CLOSE)
    ensures Blocks(Embed(gaps, bodies, tail)) == Trims(bodies)
    decreases gaps
  {
    hide Find, FirstBlock, Trim, Lower;
    if gaps == [] {
      NoBlock(tail);
    } else {
      ScanFindsWhatWasEmbedded(gaps[1..], bodies[1..], tail);
      TagsSpellThemselves();
      FirstEmbedded(gaps[0], OPEN, bodies[0], CLOSE, Embed(gaps[1..], bodies[1..], tail));
    }
  }

  lemma TagsSpellThemselves()
    ensures Spells(OPEN, OPEN) && Spells(CLOSE, CLOSE)
  {
  }

  lemma NoTagAtAll(s: string, tag: string)
    requires tag != [] && tag[0] == '<' && '<' !in s
    ensures Lacks(s, tag)
  {
    forall k | 0 <= k <= |s|
      ensures !AtStart(s[k..], tag)
    {
      if k < |s| {
        assert s[k] in s && Lower(s[k..][0]) != '<';
      }
    }
  }

  lemma NoBlock(s: string)
    requires Lacks(s, OPEN)
    ensures Blocks(s) == []
  {
  }
}
