/** From a text to parse results: every block is fingerprinted, and valid ones become actions. */
module ActionParser {
  import opened Options
  import opened Sequences
  import opened Text
  import opened ActionScanner
  import opened ActionSchema
  import Fingerprint

  const MAX_BLOCK := 512 * 1024

  datatype ParseResult =
    | Success(action: Action, raw: string, fingerprint: string)
    | Failure(error: string, raw: string, fingerprint: string)

  /** The UTF-16 form of a text, which is what the hash reads. */
  function Units(s: string): (r: seq<Fingerprint.CodeUnit>)
    ensures |r| == Length(s)
  {
    if s == [] then []
    else
      var c := s[0] as int;
      (if c < 0x1_0000 then [c] else [0xD800 + (c - 0x1_0000) / 0x400, 0xDC00 + (c - 0x1_0000) % 0x400]) + Units(s[1..])
  }

  function IdOf(raw: string): string {
    Fingerprint.Printed(Fingerprint.Hash(Units(raw)))
  }

  /** The host's JSON parser and lower-casing. */
  datatype Host = Host(parse: string -> Option<Json>, lower: string -> string)

  function Judge(host: Host, raw: string): ParseResult {
    if raw == [] then Failure("empty action block", raw, IdOf(raw))
    else if Length(raw) > MAX_BLOCK then Failure("action block too large", raw, IdOf(raw))
    else
      match host.parse(raw)
      case None => Failure("action block is not valid JSON", raw, IdOf(raw))
      case Some(value) =>
        match ValidateAction(host.lower, value)
        case Ok(action) => Success(action, raw, IdOf(raw))
        case Err(error) => Failure(error, raw, IdOf(raw))
  }

  function Judged(host: Host, raws: seq<string>): (r: seq<ParseResult>)
    ensures |r| == |raws| && forall i | 0 <= i < |r| :: r[i] == Judge(host, raws[i])
  {
    if raws == [] then [] else [Judge(host, raws[0])] + Judged(host, raws[1..])
  }

  /** What a text yields: nothing without a lower-case opening tag, else one result per block. */
  function Parsed(host: Host, text: string): seq<ParseResult> {
    if Contains(text, OPEN) then Judged(host, Blocks(text)) else []
  }

  /** Why a block body is refused, told on the body itself; None if it holds an acceptable action. */
  function Refusal(host: Host, raw: string): Option<string> {
    if raw == "" then Some("empty action block")
    else if Length(raw) > 512 * 1024 then Some("action block too large")
    else if host.parse(raw).None? then Some("action block is not valid JSON")
    else
      var validated := ValidateAction(host.lower, host.parse(raw).value);
      if validated.Err? then Some(validated.error) else None
  }

  /**
   * The result carries the body and its fingerprint; it is a failure exactly if the body is refused, with the
   * reason, and otherwise holds the well-formed action that the body's value says.
   */
  ghost predicate RightResult(host: Host, r: ParseResult) {
    && r.fingerprint == IdOf(r.raw)
    && (r.Failure? <==> Refusal(host, r.raw).Some?)
    && (r.Failure? ==> Refusal(host, r.raw) == Some(r.error))
    && (r.Success? ==> host.parse(r.raw).Some? && WellFormed(r.action)
                       && (host.lower("") == "" ==> Means(host.lower, host.parse(r.raw).value, r.action)))
  }

  lemma JudgeIsRight(host: Host, raw: string)
    ensures RightResult(host, Judge(host, raw)) && Judge(host, raw).raw == raw
  {
    hide ValidateAction, WellFormed, Means, IdOf, Length;
    if Judge(host, raw).Success? {
      var value := host.parse(raw).value;
      AcceptedIsWellFormed(host.lower, value);
      if host.lower("") == "" {
        AcceptedExactlyWhen(host.lower, value, Judge(host, raw).action);
      }
    }
  }

  /** One result for each block of the text, in order, each of them right; none without a lower-case opening tag. */
  ghost predicate RightResults(host: Host, text: string, results: seq<ParseResult>) {
    var raws := if Contains(text, OPEN) then Blocks(text) else [];
    && |results| == |raws|
    && forall i | 0 <= i < |raws| :: results[i].raw == raws[i] && RightResult(host, results[i])
  }

  lemma ParsedIsRight(host: Host, text: string)
    ensures RightResults(host, text, Parsed(host, text))
  {
    hide Judge, RightResult, Blocks, Contains;
    forall raw: string
      ensures RightResult(host, Judge(host, raw)) && Judge(host, raw).raw == raw
    {
      JudgeIsRight(host, raw);
    }
  }

  lemma ParsedStep(host: Host, s: string)
    ensures Judged(host, Blocks(s)) ==
      match FirstBlock(s)
      case None => []
      case Some(found) => [Judge(host, Trim(found.0))] + Judged(host, Blocks(found.1))
  {
    if FirstBlock(s).Some? {
      var found := FirstBlock(s).value;
      assert ([Trim(found.0)] + Blocks(found.1))[1..] == Blocks(found.1);
    }
  }

  lemma ParsedUnfolds(host: Host, text: string)
    ensures Parsed(host, text) == if Contains(text, OPEN) then Judged(host, Blocks(text)) else []
  {
  }

  /** The pattern loop; `cursor` is the pattern's `lastIndex`. */
  method ParseActions(host: Host, text: string) returns (results: seq<ParseResult>)
    ensures results == Parsed(host, text)
    ensures RightResults(host, text, results)
  {
    hide *;
    ParsedIsRight(host, text);
    ParsedUnfolds(host, text);
    if text == [] || !Contains(text, OPEN) {
      EmptyHasNoTag();
      return [];
    }
    results := [];
    var cursor := 0;
    assert text[0..] == text;
    var found := FirstBlock(text);
    while found.Some?
      invariant cursor <= |text| && found == FirstBlock(text[cursor..])
      invariant results + Judged(host, Blocks(text[cursor..])) == Judged(host, Blocks(text))
      decreases |text| - cursor
    {
      ParsedStep(host, text[cursor..]);
      var raw := Trim(found.value.0);
      var id := Fingerprint.Fingerprint(Units(raw));
      var result := Report(host, raw, id);
      Assoc(results, [result], Judged(host, Blocks(found.value.1)));
      results := results + [result];
      var next := |text| - |found.value.1|;
      assert text[next..] == found.value.1;
      cursor := next;
      found := FirstBlock(text[cursor..]);
    }
    ParsedStep(host, text[cursor..]);
  }

  method Report(host: Host, raw: string, id: string) returns (result: ParseResult)
    requires id == Fingerprint.Printed(Fingerprint.Hash(Units(raw)))
    ensures result == Judge(host, raw)
  {
    if raw == [] {
      return Failure("empty action block", raw, id);
    } else if Length(raw) > MAX_BLOCK {
      return Failure("action block too large", raw, id);
    }
    var parsed := host.parse(raw);
    if parsed.None? {
      return Failure("action block is not valid JSON", raw, id);
    }
    var validated := ValidateAction(host.lower, parsed.value);
    if validated.Ok? {
      result := Success(validated.value, raw, id);
    } else {
      result := Failure(validated.error, raw, id);
    }
  }

  lemma EmptyHasNoTag()
    ensures !Contains([], OPEN)
  {
  }

  // ------------------------------------------------------------------- the results

  lemma ContainsEmbedded(gap: string, rest: string)
    ensures Contains(gap + OPEN + rest, OPEN)
  {
    var s := gap + OPEN + rest;
    assert s[|gap|..] == OPEN + rest;
    assert StartsWith(s[|gap|..], OPEN);
  }

  /** Parsing a text with embedded blocks judges exactly those blocks, in order. */
  lemma ParsingFindsWhatWasEmbedded(host: Host, gaps: seq<string>, bodies: seq<string>, tail: string)
    requires |gaps| == |bodies| && Lacks(tail, OPEN)
    requires forall i | 0 <= i < |gaps| :: Lacks(gaps[i], OPEN) && Lacks(bodies[i], CLOSE)
    ensures Parsed(host, Embed(gaps, bodies, tail)) == Judged(host, Trims(bodies))
  {
    hide Find, Contains, Judge;
    ScanFindsWhatWasEmbedded(gaps, bodies, tail);
    if gaps != [] {
      ContainsEmbedded(gaps[0], bodies[0] + CLOSE + Embed(gaps[1..], bodies[1..], tail));
    } else {
      assert Judged(host, []) == [];
    }
  }

  /**
   * A well-formed action, written as JSON into any one of the blocks of a text, comes back as it is at that
   * block's place, with the block's own text and fingerprint.
   */
  lemma EmbeddedActionIsReturned(host: Host, gaps: seq<string>, bodies: seq<string>, tail: string, i: nat, a: Action)
    requires |gaps| == |bodies| && Lacks(tail, OPEN) && i < |bodies|
    requires forall j | 0 <= j < |gaps| :: Lacks(gaps[j], OPEN) && Lacks(bodies[j], CLOSE)
    requires WellFormed(a) && FixesDocuments(host.lower)
    requires Trim(bodies[i]) != "" && Length(Trim(bodies[i])) <= 512 * 1024
    requires host.parse(Trim(bodies[i])) == Some(ToJson(a))
    ensures |Parsed(host, Embed(gaps, bodies, tail))| == |bodies|
    ensures Parsed(host, Embed(gaps, bodies, tail))[i] == Success(a, Trim(bodies[i]), IdOf(Trim(bodies[i])))
  {
    hide *;
    ParsingFindsWhatWasEmbedded(host, gaps, bodies, tail);
    TrimsAt(bodies, i);
    WellFormedIsFixed(host.lower, a);
    assert Judge(host, Trim(bodies[i])) == Success(a, Trim(bodies[i]), IdOf(Trim(bodies[i]))) by {
      AcceptedIsJudged(host, Trim(bodies[i]), a);
    }
  }

  lemma AcceptedIsJudged(host: Host, raw: string, a: Action)
    requires raw != "" && Length(raw) <= 512 * 1024 && host.parse(raw).Some?
    requires ValidateAction(host.lower, host.parse(raw).value) == Ok(a)
    ensures Judge(host, raw) == Success(a, raw, IdOf(raw))
  {
    hide ValidateAction, IdOf, Length;
  }

  lemma {:induction false} TrimsAt(bodies: seq<string>, i: nat)
    requires i < |bodies|
    ensures |Trims(bodies)| == |bodies| && Trims(bodies)[i] == Trim(bodies[i])
  {
    hide Trim;
    if i > 0 {
      TrimsAt(bodies[1..], i - 1);
    } else if |bodies| > 1 {
      TrimsAt(bodies[1..], 0);
    }
  }

  /** The first look for a lower-case tag loses blocks exactly when all opening tags have another case. */
  lemma OtherCaseAloneIsIgnored(host: Host, text: string)
    ensures Parsed(host, text) == Judged(host, Blocks(text)) <==> Contains(text, OPEN) || Blocks(text) == []
  {
    hide Contains, Blocks, Judge;
  }

  lemma NoLowerCaseTag(s: string)
    requires 'c' !in s
    ensures !Contains(s, OPEN)
  {
    forall k | 0 <= k <= |s|
      ensures !StartsWith(s[k..], OPEN)
    {
      if k + |OPEN| <= |s| {
        assert s[k..][..|OPEN|][1] == s[k + 1] && s[k + 1] in s;
      }
    }
  }

  /** Tags written in capitals, around any body without a closing tag, are found but never parsed. */
  lemma CapitalTagsAreLost(host: Host, body: string)
    requires Lacks(body, CLOSE) && 'c' !in body
    ensures Blocks("<CCB_ACTION>" + body + "</CCB_ACTION>") == [Trim(body)]
    ensures Parsed(host, "<CCB_ACTION>" + body + "</CCB_ACTION>") == []
  {
    hide Find, FirstBlock, Trim, Judge, Contains, Lower;
    var s := "<CCB_ACTION>" + body + "</CCB_ACTION>";
    NoTagAtAll([], OPEN);
    CapitalsSpell();
    FirstEmbedded([], "<CCB_ACTION>", body, "</CCB_ACTION>", []);
    assert [] + "<CCB_ACTION>" + (body + "</CCB_ACTION>" + []) == s;
    NoBlock([]);
    NoLowerCaseTag(s);
  }

  lemma CapitalsSpell()
    ensures Spells("<CCB_ACTION>", OPEN) && Spells("</CCB_ACTION>", CLOSE)
  {
  }

  /** No result carries an action that could run without approval. */
  lemma EveryActionNeedsApproval(host: Host, text: string, i: nat)
    requires i < |Parsed(host, text)| && Parsed(host, text)[i].Success?
    ensures WellFormed(Parsed(host, text)[i].action) && Parsed(host, text)[i].action.requiresApproval
  {
    hide WellFormed, ValidateAction, IdOf, Blocks, Contains;
    var raw := Blocks(text)[i];
    AcceptedIsWellFormed(host.lower, host.parse(raw).value);
    WellFormedNeedsApproval(ValidateAction(host.lower, host.parse(raw).value).value);
  }

  lemma WellFormedNeedsApproval(a: Action)
    requires WellFormed(a)
    ensures a.requiresApproval
  {
  }
}
