/**
 * The AI analyst: how a model reply becomes an analysis, and how an
 * analysis is merged into the static diagnostics. The model call itself is
 * a parameter: its outcome is given, not computed.
 */
module AiAnalyst {
  import opened Strings
  import opened Types
  import opened Seqs

  datatype AiVerification = AiVerification(ruleId: string, confirmed: bool, reason: string)

  datatype Adjustment = Adjustment(ruleId: string, newSeverity: Severity, reason: string)

  /** One entry of the reply's `suggestions` array; a missing field is `None`. */
  datatype SuggestionEntry = SuggestionEntry(ruleId: Option<string>, suggestion: Option<string>)

  /**
   * The analysis; `suggestions` is the `_suggestions` record the analyst
   * attaches, `None` for an analysis that lacks it.
   */
  datatype AiAnalysis = AiAnalysis(
    verifications: seq<AiVerification>,
    adjustments: seq<Adjustment>,
    additionalFindings: seq<Diagnostic>,
    summary: string,
    tokensUsed: nat,
    modelUsed: string,
    confirmedCount: nat,
    dismissedCount: nat,
    suggestions: Option<map<string, string>>)

  /** The parsed reply; a field that is missing or not an array is `None`. */
  datatype ParsedReply = ParsedReply(
    verifications: Option<seq<AiVerification>>,
    newFindings: Option<seq<Diagnostic>>,
    suggestions: Option<seq<SuggestionEntry>>,
    summary: Option<string>)

  /**
   * What the model call did: it replied, with a token count and the parsed
   * reply or `None` when the reply was not valid JSON; it replied with JSON
   * that the reads after the `try` cannot take apart (`null`, a `null`
   * entry in one of the arrays read, or an AI finding whose `ruleId` is
   * neither missing nor a string), so those reads throw; or it threw.
   */
  datatype LlmOutcome = Replied(tokens: nat, parsed: Option<ParsedReply>) | Unreadable | Failed

  /**
   * How the promise `runAiAnalysis` returns settles: resolved with an
   * analysis or with `null` (`None`), or rejected.
   */
  datatype AnalysisOutcome = Resolved(analysis: Option<AiAnalysis>) | Rejected

  /** The reply in effect before the call: everything empty. */
  const EMPTY_REPLY := ParsedReply(Some([]), Some([]), Some([]), Some(""))

  // ---------------------------------------------------------------------
  // runAiAnalysis

  /** `s.ruleId && s.suggestion`: both present and non-empty. */
  predicate UsableEntry(s: SuggestionEntry) {
    Truthy(s.ruleId) && Truthy(s.suggestion)
  }

  /** The suggestion map: usable entries in order, a later entry for the same rule replacing an earlier one. */
  function SuggestionsOf(entries: seq<SuggestionEntry>): map<string, string> {
    if |entries| == 0 then map[]
    else
      var m := SuggestionsOf(entries[..|entries| - 1]);
      var s := entries[|entries| - 1];
      if UsableEntry(s) then m[s.ruleId.value := s.suggestion.value] else m
  }

  /** `entries[i]` is the last usable entry for rule `id`. */
  predicate LastEntryFor(entries: seq<SuggestionEntry>, id: string, i: int) {
    0 <= i < |entries| && UsableEntry(entries[i]) && entries[i].ruleId.value == id
    && forall j :: i < j < |entries| ==> !(UsableEntry(entries[j]) && entries[j].ruleId.value == id)
  }

  /**
   * The map has a key exactly for the rules of the usable entries, and maps
   * each to the suggestion of the last usable entry for it.
   */
  lemma {:induction false} SuggestionsOfMembers(entries: seq<SuggestionEntry>)
    ensures forall id :: id in SuggestionsOf(entries) <==>
      exists i :: 0 <= i < |entries| && UsableEntry(entries[i]) && entries[i].ruleId.value == id
    ensures forall id :: id in SuggestionsOf(entries) ==>
      exists i :: LastEntryFor(entries, id, i) && SuggestionsOf(entries)[id] == entries[i].suggestion.value
  {
    if |entries| > 0 {
      var init := entries[..|entries| - 1];
      var s := entries[|entries| - 1];
      var n := |entries| - 1;
      SuggestionsOfMembers(init);
      assert forall i :: 0 <= i < |init| ==> init[i] == entries[i];
      var m := SuggestionsOf(entries);
      forall id
        ensures id in m <==> exists i :: 0 <= i < |entries| && UsableEntry(entries[i]) && entries[i].ruleId.value == id
      {
        if exists i :: 0 <= i < |entries| && UsableEntry(entries[i]) && entries[i].ruleId.value == id {
          var i :| 0 <= i < |entries| && UsableEntry(entries[i]) && entries[i].ruleId.value == id;
          if i < n {
            assert UsableEntry(init[i]) && init[i].ruleId.value == id;
            assert id in SuggestionsOf(init);
          }
        }
        if id in m {
          if UsableEntry(s) && s.ruleId.value == id {
            assert UsableEntry(entries[n]) && entries[n].ruleId.value == id;
          } else {
            assert id in SuggestionsOf(init);
            var i :| 0 <= i < |init| && UsableEntry(init[i]) && init[i].ruleId.value == id;
            assert entries[i] == init[i];
          }
        }
      }
      forall id | id in m
        ensures exists i :: LastEntryFor(entries, id, i) && m[id] == entries[i].suggestion.value
      {
        if UsableEntry(s) && s.ruleId.value == id {
          assert LastEntryFor(entries, id, n);
        } else {
          assert id in SuggestionsOf(init) && m[id] == SuggestionsOf(init)[id];
          var i :| LastEntryFor(init, id, i) && SuggestionsOf(init)[id] == init[i].suggestion.value;
          assert LastEntryFor(entries, id, i);
        }
      }
    }
  }

  /** The loop that fills `suggestionsMap`. */
  method BuildSuggestions(entries: seq<SuggestionEntry>) returns (m: map<string, string>)
    ensures m == SuggestionsOf(entries)
  {
    m := map[];
    var i := 0;
    while i < |entries|
      invariant 0 <= i <= |entries|
      invariant m == SuggestionsOf(entries[..i])
    {
      assert entries[..i + 1][..i] == entries[..i];
      var s := entries[i];
      if s.ruleId.Some? && s.ruleId.value != "" && s.suggestion.Some? && s.suggestion.value != "" {
        m := m[s.ruleId.value := s.suggestion.value];
      }
      i := i + 1;
    }
    assert entries[..i] == entries;
  }

  /** The reply the analysis is built from: the parsed reply, or the empty one when the call or the parse failed. */
  function ReplyOf(outcome: LlmOutcome): ParsedReply {
    match outcome
    case Replied(_, Some(p)) => p
    case _ => EMPTY_REPLY
  }

  /** The tokens are counted once the call returns, even if its reply does not parse. */
  function TokensOf(outcome: LlmOutcome): nat {
    match outcome
    case Replied(tokens, _) => tokens
    case _ => 0
  }

  /** `Array.isArray(x) ? x : []`. */
  function OrEmpty<T>(x: Option<seq<T>>): seq<T> {
    if x.Some? then x.value else []
  }

  function Confirmed(vs: seq<AiVerification>): seq<AiVerification> {
    Filter(vs, (v: AiVerification) => v.confirmed)
  }

  function Unconfirmed(vs: seq<AiVerification>): seq<AiVerification> {
    Filter(vs, (v: AiVerification) => !v.confirmed)
  }

  /** An AI finding is one whose rule id starts with "AI-". */
  predicate IsAiFinding(f: Diagnostic) {
    StartsWith(f.ruleId, "AI-")
  }

  /** The analysis built from the model's outcome, for the analyst's spec. */
  function BuiltAnalysis(modelName: string, outcome: LlmOutcome): AiAnalysis {
    var reply := ReplyOf(outcome);
    var vs := OrEmpty(reply.verifications);
    AiAnalysis(
      vs, [], Filter(OrEmpty(reply.newFindings), IsAiFinding),
      if reply.summary.Some? then reply.summary.value else "",
      TokensOf(outcome), modelName, |Confirmed(vs)|, |Unconfirmed(vs)|,
      Some(SuggestionsOf(OrEmpty(reply.suggestions))))
  }

  /**
   * `runAiAnalysis`: nothing without a configured model (`modelName`) or
   * without diagnostics; a rejection when the reply cannot be read;
   * otherwise an analysis read off the reply: its verifications as they
   * are, the confirmed and unconfirmed ones counted, exactly the reply's AI
   * findings in their order, its summary or "", the tokens of the call and
   * the map of its usable suggestions.
   */
  function AiAnalysisOf(modelName: Option<string>, diagnostics: seq<Diagnostic>, outcome: LlmOutcome): (r: AnalysisOutcome)
    ensures r.Rejected? <==> modelName.Some? && diagnostics != [] && outcome.Unreadable?
    ensures r.Resolved? ==> (r.analysis.None? <==> modelName.None? || diagnostics == [])
    ensures r.Resolved? && r.analysis.Some? ==>
      r.analysis.value.modelUsed == modelName.value && r.analysis.value.adjustments == []
      && r.analysis.value.confirmedCount + r.analysis.value.dismissedCount == |r.analysis.value.verifications|
      && (forall f :: f in r.analysis.value.additionalFindings ==> IsAiFinding(f))
      && r.analysis.value.suggestions.Some?
    ensures r.Resolved? && r.analysis.Some? ==>
      r.analysis.value.verifications == OrEmpty(ReplyOf(outcome).verifications)
      && r.analysis.value.confirmedCount == |Confirmed(r.analysis.value.verifications)|
      && r.analysis.value.dismissedCount == |Unconfirmed(r.analysis.value.verifications)|
      && r.analysis.value.additionalFindings == Filter(OrEmpty(ReplyOf(outcome).newFindings), IsAiFinding)
      && (forall f :: f in r.analysis.value.additionalFindings <==> f in OrEmpty(ReplyOf(outcome).newFindings) && IsAiFinding(f))
      && r.analysis.value.summary == (if ReplyOf(outcome).summary.Some? then ReplyOf(outcome).summary.value else "")
      && r.analysis.value.tokensUsed == TokensOf(outcome)
      && r.analysis.value.suggestions == Some(SuggestionsOf(OrEmpty(ReplyOf(outcome).suggestions)))
    ensures r.Resolved? && r.analysis.Some? && outcome.Replied? && outcome.parsed.Some? ==>
      r.analysis.value.verifications == OrEmpty(outcome.parsed.value.verifications)
      && r.analysis.value.tokensUsed == outcome.tokens
    ensures r.Resolved? && r.analysis.Some? && outcome.Failed? ==>
      r.analysis.value.tokensUsed == 0 && r.analysis.value.verifications == [] && r.analysis.value.additionalFindings == []
      && r.analysis.value.summary == "" && r.analysis.value.suggestions == Some(map[])
  {
    if modelName.None? || diagnostics == [] then Resolved(None)
    else if outcome.Unreadable? then Rejected
    else
      var vs := OrEmpty(ReplyOf(outcome).verifications);
      FilterComplement(vs, (v: AiVerification) => v.confirmed, (v: AiVerification) => !v.confirmed);
      Resolved(Some(BuiltAnalysis(modelName.value, outcome)))
  }

  /** `runAiAnalysis`, with its loop over the reply's suggestion entries. */
  method RunAiAnalysis(modelName: Option<string>, diagnostics: seq<Diagnostic>, outcome: LlmOutcome)
    returns (r: AnalysisOutcome)
    ensures r == AiAnalysisOf(modelName, diagnostics, outcome)
  {
    if modelName.None? || |diagnostics| == 0 {
      return Resolved(None);
    }
    if outcome.Unreadable? {
      return Rejected;
    }
    var reply := ReplyOf(outcome);
    var vs := if reply.verifications.Some? then reply.verifications.value else [];
    var findings := if reply.newFindings.Some? then reply.newFindings.value else [];
    var entries := if reply.suggestions.Some? then reply.suggestions.value else [];
    var suggestions := BuildSuggestions(entries);
    r := Resolved(Some(AiAnalysis(
      vs, [], Filter(findings, IsAiFinding),
      if reply.summary.Some? then reply.summary.value else "",
      TokensOf(outcome), modelName.value, |Confirmed(vs)|, |Unconfirmed(vs)|,
      Some(suggestions))));
  }

  // ---------------------------------------------------------------------
  // applyAiAnalysis

  /** Some verification of rule `id` was not confirmed. */
  predicate IsDismissed(vs: seq<AiVerification>, id: string) {
    exists i :: 0 <= i < |vs| && vs[i].ruleId == id && !vs[i].confirmed
  }

  /** `dismissedRuleIds`. */
  function DismissedIds(vs: seq<AiVerification>): (ids: set<string>)
    ensures forall id :: id in ids <==> IsDismissed(vs, id)
  {
    set i | 0 <= i < |vs| && !vs[i].confirmed :: vs[i].ruleId
  }

  /** `ext._suggestions ?? {}`. */
  function SuggestionMap(analysis: AiAnalysis): map<string, string> {
    if analysis.suggestions.Some? then analysis.suggestions.value else map[]
  }

  /**
   * `suggestions[d.ruleId] ?? d.suggestion`, attached when truthy: an AI
   * suggestion overrides the diagnostic's own, which is kept otherwise, and
   * nothing but the suggestion ever changes.
   */
  function WithSuggestion(d: Diagnostic, sugg: map<string, string>): (r: Diagnostic)
    ensures r.(suggestion := d.suggestion) == d
    ensures d.ruleId in sugg && sugg[d.ruleId] != "" ==> r.suggestion == Some(sugg[d.ruleId])
    ensures d.ruleId in sugg && sugg[d.ruleId] == "" ==> r == d
    ensures d.ruleId !in sugg ==> r == d
  {
    var s := if d.ruleId in sugg then Some(sugg[d.ruleId]) else d.suggestion;
    if Truthy(s) then d.(suggestion := s) else d
  }

  /** `confirmed.map(...)`. */
  function AttachSuggestions(ds: seq<Diagnostic>, sugg: map<string, string>): (r: seq<Diagnostic>)
    ensures |r| == |ds|
    ensures forall i :: 0 <= i < |ds| ==> r[i] == WithSuggestion(ds[i], sugg)
  {
    if |ds| == 0 then [] else AttachSuggestions(ds[..|ds| - 1], sugg) + [WithSuggestion(ds[|ds| - 1], sugg)]
  }

  /** The static diagnostics whose rule was not dismissed, in order. */
  function KeptStatic(diags: seq<Diagnostic>, analysis: AiAnalysis): (ks: seq<Diagnostic>)
    ensures forall d :: d in ks <==> d in diags && !IsDismissed(analysis.verifications, d.ruleId)
    ensures OrderedIn(ks, diags)
  {
    var dismissed := DismissedIds(analysis.verifications);
    var keep := (d: Diagnostic) => d.ruleId !in dismissed;
    FilterOrdered(diags, keep);
    Filter(diags, keep)
  }

  /** An AI finding is accepted when it is one and, if it names a file and real files are given, names a real one. */
  predicate Accepted(f: Diagnostic, realFiles: Option<set<string>>) {
    IsAiFinding(f) && !(Truthy(f.file) && realFiles.Some? && f.file.value !in realFiles.value)
  }

  /** The accepted AI findings, in order. */
  function KeptExtras(analysis: AiAnalysis, realFiles: Option<set<string>>): (xs: seq<Diagnostic>)
    ensures forall f :: f in xs <==> f in analysis.additionalFindings && Accepted(f, realFiles)
    ensures OrderedIn(xs, analysis.additionalFindings)
  {
    var keep := (f: Diagnostic) => Accepted(f, realFiles);
    FilterOrdered(analysis.additionalFindings, keep);
    Filter(analysis.additionalFindings, keep)
  }

  /**
   * `applyAiAnalysis`: the kept static diagnostics, each with its
   * suggestion attached, then the accepted AI findings. No diagnostic of a
   * dismissed rule stays among the static ones; every other one does.
   */
  function ApplyAiAnalysis(diags: seq<Diagnostic>, analysis: AiAnalysis, realFiles: Option<set<string>>): (r: seq<Diagnostic>)
    ensures |r| == |KeptStatic(diags, analysis)| + |KeptExtras(analysis, realFiles)|
    ensures forall i :: 0 <= i < |KeptStatic(diags, analysis)| ==>
      r[i] == WithSuggestion(KeptStatic(diags, analysis)[i], SuggestionMap(analysis))
      && !IsDismissed(analysis.verifications, r[i].ruleId)
    ensures r[|KeptStatic(diags, analysis)|..] == KeptExtras(analysis, realFiles)
    ensures forall d :: d in diags && !IsDismissed(analysis.verifications, d.ruleId) ==>
      WithSuggestion(d, SuggestionMap(analysis)) in r
  {
    var ks := KeptStatic(diags, analysis);
    var r := AttachSuggestions(ks, SuggestionMap(analysis)) + KeptExtras(analysis, realFiles);
    assert forall d :: d in ks ==> WithSuggestion(d, SuggestionMap(analysis)) in r by {
      forall d | d in ks
        ensures WithSuggestion(d, SuggestionMap(analysis)) in r
      {
        var i :| 0 <= i < |ks| && ks[i] == d;
        assert r[i] == WithSuggestion(d, SuggestionMap(analysis));
      }
    }
    r
  }

  /** An analysis that confirms everything, adds nothing and suggests nothing leaves the diagnostics as they are. */
  lemma NeutralAnalysis(diags: seq<Diagnostic>, analysis: AiAnalysis, realFiles: Option<set<string>>)
    requires forall i :: 0 <= i < |analysis.verifications| ==> analysis.verifications[i].confirmed
    requires analysis.additionalFindings == []
    requires analysis.suggestions.None? || analysis.suggestions == Some(map[])
    ensures ApplyAiAnalysis(diags, analysis, realFiles) == diags
  {
    var dismissed := DismissedIds(analysis.verifications);
    FilterKeepsAll(diags, (d: Diagnostic) => d.ruleId !in dismissed);
    var r := ApplyAiAnalysis(diags, analysis, realFiles);
    assert |r| == |diags|;
    forall i | 0 <= i < |diags|
      ensures r[i] == diags[i]
    {
      assert r[i] == WithSuggestion(diags[i], map[]);
    }
  }
}
