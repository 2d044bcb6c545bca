/**
 * The fix agent: which diagnostics are sent for a fix (all errors, then
 * all warnings, one per rule, at most five), and the map of fixes built
 * from the replies.
 */
module FixAgent {
  import opened Strings
  import opened Types
  import opened Seqs

  /** At most this many diagnostics are sent, to bound the cost. */
  const MAX_FIXES: nat := 5

  /** Every error comes before every warning. */
  predicate ErrorsFirst(s: seq<Diagnostic>) {
    forall a, b :: 0 <= a < b < |s| && IsError(s[b]) ==> IsError(s[a])
  }

  /** No two entries share a rule id. */
  predicate DistinctRules(s: seq<Diagnostic>) {
    forall a, b :: 0 <= a < b < |s| ==> s[a].ruleId != s[b].ruleId
  }

  /** `[...errors, ...warnings]`. */
  function FixCandidates(ds: seq<Diagnostic>): seq<Diagnostic> {
    Filter(ds, IsError) + Filter(ds, IsWarn)
  }

  /** The candidates hold every diagnostic once, errors first. */
  lemma CandidatesShape(ds: seq<Diagnostic>)
    ensures |FixCandidates(ds)| == |ds|
    ensures forall d :: d in FixCandidates(ds) <==> d in ds
    ensures ErrorsFirst(FixCandidates(ds))
  {
    FilterComplement(ds, IsError, IsWarn);
    var es := Filter(ds, IsError);
    var c := FixCandidates(ds);
    forall a, b | 0 <= a < b < |c| && IsError(c[b])
      ensures IsError(c[a])
    {
      if b < |es| {
        assert c[a] == es[a] && es[a] in es;
      }
    }
  }

  /**
   * The candidates are a permutation of the input in which the errors, and
   * likewise the warnings, keep their input order.
   */
  lemma CandidatesOrder(ds: seq<Diagnostic>)
    ensures multiset(FixCandidates(ds)) == multiset(ds)
    ensures Filter(FixCandidates(ds), IsError) == Filter(ds, IsError)
    ensures Filter(FixCandidates(ds), IsWarn) == Filter(ds, IsWarn)
  {
    var es, ws := Filter(ds, IsError), Filter(ds, IsWarn);
    FilterMultiset(ds, IsError, IsWarn);
    assert Filter(es + ws, IsError) == es by {
      FilterAppend(es, ws, IsError);
      FilterIdempotent(ds, IsError);
      FilterPasses(ds, IsWarn);
      FilterKeepsNone(ws, IsError);
    }
    assert Filter(es + ws, IsWarn) == ws by {
      FilterAppend(es, ws, IsWarn);
      FilterIdempotent(ds, IsWarn);
      FilterPasses(ds, IsError);
      FilterKeepsNone(es, IsWarn);
    }
  }

  /** `arr.findIndex(x => x.ruleId === id)`. */
  function FindRule(arr: seq<Diagnostic>, id: string): (r: int)
    ensures -1 <= r < |arr|
    ensures r == -1 <==> forall j :: 0 <= j < |arr| ==> arr[j].ruleId != id
    ensures r >= 0 ==> arr[r].ruleId == id && forall j :: 0 <= j < r ==> arr[j].ruleId != id
  {
    if |arr| == 0 then -1
    else if arr[0].ruleId == id then 0
    else
      var r := FindRule(arr[1..], id);
      assert forall j :: 1 <= j < |arr| ==> arr[j] == arr[1..][j - 1];
      if r == -1 then -1 else r + 1
  }

  /** `arr[i]` is the first entry of its rule. */
  predicate FirstOfRule(arr: seq<Diagnostic>, i: int)
    requires 0 <= i < |arr|
  {
    forall j :: 0 <= j < i ==> arr[j].ruleId != arr[i].ruleId
  }

  /** `findIndex` finds `arr[i]` itself exactly when no earlier entry has its rule. */
  lemma {:induction false} FindRuleFirst(arr: seq<Diagnostic>, i: int)
    requires 0 <= i < |arr|
    ensures FindRule(arr, arr[i].ruleId) == i <==> FirstOfRule(arr, i)
  {
  }

  /** The entries among the first `n` of `arr` that pass `findIndex(...) === i`. */
  function FirstPerRule(arr: seq<Diagnostic>, n: nat): seq<Diagnostic>
    requires n <= |arr|
  {
    if n == 0 then []
    else FirstPerRule(arr, n - 1) + (if FirstOfRule(arr, n - 1) then [arr[n - 1]] else [])
  }

  /** `d` is the first entry of its rule among the first `n` of `arr`. */
  predicate KeptFrom(arr: seq<Diagnostic>, n: nat, d: Diagnostic)
    requires n <= |arr|
  {
    exists i :: 0 <= i < n && FirstOfRule(arr, i) && arr[i] == d
  }

  /**
   * The filter keeps only first entries, one per rule, and every rule of
   * the scanned prefix has an entry.
   */
  lemma {:induction false} FirstPerRuleKept(arr: seq<Diagnostic>, n: nat)
    requires n <= |arr|
    ensures forall k :: 0 <= k < |FirstPerRule(arr, n)| ==> KeptFrom(arr, n, FirstPerRule(arr, n)[k])
  {
    if n > 0 {
      FirstPerRuleKept(arr, n - 1);
      var r0 := FirstPerRule(arr, n - 1);
      var r := FirstPerRule(arr, n);
      forall k | 0 <= k < |r|
        ensures KeptFrom(arr, n, r[k])
      {
        if k < |r0| {
          assert r[k] == r0[k] && KeptFrom(arr, n - 1, r0[k]);
          var i :| 0 <= i < n - 1 && FirstOfRule(arr, i) && arr[i] == r0[k];
        } else {
          assert FirstOfRule(arr, n - 1) && r[k] == arr[n - 1];
        }
      }
    }
  }

  lemma {:induction false} FirstPerRuleDistinct(arr: seq<Diagnostic>, n: nat)
    requires n <= |arr|
    ensures DistinctRules(FirstPerRule(arr, n))
  {
    if n > 0 {
      FirstPerRuleDistinct(arr, n - 1);
      FirstPerRuleKept(arr, n - 1);
      var r0 := FirstPerRule(arr, n - 1);
      if FirstOfRule(arr, n - 1) {
        var r := FirstPerRule(arr, n);
        assert r == r0 + [arr[n - 1]];
        forall a | 0 <= a < |r0|
          ensures r0[a].ruleId != arr[n - 1].ruleId
        {
          assert KeptFrom(arr, n - 1, r0[a]);
          var i :| 0 <= i < n - 1 && FirstOfRule(arr, i) && arr[i] == r0[a];
        }
      }
    }
  }

  lemma {:induction false} FirstPerRuleCovers(arr: seq<Diagnostic>, n: nat)
    requires n <= |arr|
    ensures forall i :: 0 <= i < n ==> exists k :: 0 <= k < |FirstPerRule(arr, n)| && FirstPerRule(arr, n)[k].ruleId == arr[i].ruleId
  {
    if n > 0 {
      FirstPerRuleCovers(arr, n - 1);
      var r0 := FirstPerRule(arr, n - 1);
      var r := FirstPerRule(arr, n);
      var last := arr[n - 1];
      forall i | 0 <= i < n
        ensures exists k :: 0 <= k < |r| && r[k].ruleId == arr[i].ruleId
      {
        if i < n - 1 {
          var k :| 0 <= k < |r0| && r0[k].ruleId == arr[i].ruleId;
          assert r[k] == r0[k];
        } else if FirstOfRule(arr, n - 1) {
          assert r[|r| - 1] == last;
        } else {
          var j :| 0 <= j < n - 1 && arr[j].ruleId == last.ruleId;
          var k :| 0 <= k < |r0| && r0[k].ruleId == arr[j].ruleId;
          assert r[k] == r0[k];
        }
      }
      assert forall i :: 0 <= i < n ==> exists k :: 0 <= k < |r| && r[k].ruleId == arr[i].ruleId;
      assert r == FirstPerRule(arr, n);
    }
  }

  /** Keeping first entries keeps errors before warnings. */
  lemma {:induction false} FirstPerRuleErrorsFirst(arr: seq<Diagnostic>, n: nat)
    requires n <= |arr|
    requires ErrorsFirst(arr)
    ensures ErrorsFirst(FirstPerRule(arr, n))
  {
    if n > 0 {
      FirstPerRuleErrorsFirst(arr, n - 1);
      var r0 := FirstPerRule(arr, n - 1);
      var last := arr[n - 1];
      if FirstOfRule(arr, n - 1) {
        assert FirstPerRule(arr, n) == r0 + [last];
        if IsError(last) {
          forall a | 0 <= a < |r0|
            ensures IsError(r0[a])
          {
            var i := KeptIndex(arr, n - 1, a);
            ErrorBefore(arr, i, n - 1);
          }
        }
        ErrorsFirstAppend(r0, last);
      } else {
        assert FirstPerRule(arr, n) == r0;
      }
    }
  }

  /** The position in `arr` of a kept entry. */
  lemma KeptIndex(arr: seq<Diagnostic>, n: nat, a: nat) returns (i: nat)
    requires n <= |arr| && a < |FirstPerRule(arr, n)|
    ensures i < n && FirstOfRule(arr, i) && arr[i] == FirstPerRule(arr, n)[a]
  {
    FirstPerRuleKept(arr, n);
    assert KeptFrom(arr, n, FirstPerRule(arr, n)[a]);
    i :| 0 <= i < n && FirstOfRule(arr, i) && arr[i] == FirstPerRule(arr, n)[a];
  }

  /** In an errors-first list, whatever precedes an error is an error. */
  lemma ErrorBefore(arr: seq<Diagnostic>, i: nat, j: nat)
    requires ErrorsFirst(arr) && i < j < |arr| && IsError(arr[j])
    ensures IsError(arr[i])
  {
  }

  /** Appending a warning, or an error after errors only, keeps errors first. */
  lemma ErrorsFirstAppend(s: seq<Diagnostic>, d: Diagnostic)
    requires ErrorsFirst(s)
    requires IsError(d) ==> forall a :: 0 <= a < |s| ==> IsError(s[a])
    ensures ErrorsFirst(s + [d])
  {
  }

  /** The candidates after the `findIndex` filter. */
  function OnePerRule(ds: seq<Diagnostic>): seq<Diagnostic> {
    FirstPerRule(FixCandidates(ds), |FixCandidates(ds)|)
  }

  /** The `toFix` list. */
  function SelectToFix(ds: seq<Diagnostic>): seq<Diagnostic> {
    var u := OnePerRule(ds);
    u[..Min(MAX_FIXES, |u|)]
  }

  /** Every kept entry is a diagnostic of the input. */
  lemma OnePerRuleFromInput(ds: seq<Diagnostic>)
    ensures forall k :: 0 <= k < |OnePerRule(ds)| ==> OnePerRule(ds)[k] in ds
  {
    var c := FixCandidates(ds);
    var u := OnePerRule(ds);
    CandidatesShape(ds);
    FirstPerRuleKept(c, |c|);
    forall k | 0 <= k < |u|
      ensures u[k] in ds
    {
      var i :| 0 <= i < |c| && FirstOfRule(c, i) && c[i] == u[k];
      assert c[i] in c;
    }
  }

  /** Every rule of the input has an entry. */
  lemma OnePerRuleCovers(ds: seq<Diagnostic>)
    ensures forall d :: d in ds ==> exists k :: 0 <= k < |OnePerRule(ds)| && OnePerRule(ds)[k].ruleId == d.ruleId
  {
    var c := FixCandidates(ds);
    var u := OnePerRule(ds);
    CandidatesShape(ds);
    FirstPerRuleCovers(c, |c|);
    forall d | d in ds
      ensures exists k :: 0 <= k < |u| && u[k].ruleId == d.ruleId
    {
      assert d in c;
      var j :| 0 <= j < |c| && c[j] == d;
    }
  }

  /** A rule that has an error in the input is represented by an error. */
  lemma OnePerRulePrefersErrors(ds: seq<Diagnostic>)
    ensures forall k, d :: 0 <= k < |OnePerRule(ds)| && d in ds && IsError(d) && d.ruleId == OnePerRule(ds)[k].ruleId ==>
      IsError(OnePerRule(ds)[k])
  {
    var c := FixCandidates(ds);
    var u := OnePerRule(ds);
    CandidatesShape(ds);
    FirstPerRuleKept(c, |c|);
    forall k, d | 0 <= k < |u| && d in ds && IsError(d) && d.ruleId == u[k].ruleId
      ensures IsError(u[k])
    {
      var i :| 0 <= i < |c| && FirstOfRule(c, i) && c[i] == u[k];
      assert d in c;
      var j :| 0 <= j < |c| && c[j] == d;
      if i < j {
        assert IsError(c[i]);
      }
    }
  }

  /**
   * At most five diagnostics, each from the input, with distinct rule ids,
   * errors before warnings; a rule that has an error in the input is sent
   * as an error; and when fewer than five are sent, every rule of the input
   * is among them.
   */
  lemma SelectToFixProperties(ds: seq<Diagnostic>)
    ensures |SelectToFix(ds)| <= MAX_FIXES
    ensures forall k :: 0 <= k < |SelectToFix(ds)| ==> SelectToFix(ds)[k] in ds
    ensures DistinctRules(SelectToFix(ds))
    ensures ErrorsFirst(SelectToFix(ds))
    ensures forall k, d :: 0 <= k < |SelectToFix(ds)| && d in ds && IsError(d) && d.ruleId == SelectToFix(ds)[k].ruleId ==>
      IsError(SelectToFix(ds)[k])
    ensures |SelectToFix(ds)| < MAX_FIXES ==>
      forall d :: d in ds ==> exists k :: 0 <= k < |SelectToFix(ds)| && SelectToFix(ds)[k].ruleId == d.ruleId
  {
    var u := OnePerRule(ds);
    var s := SelectToFix(ds);
    var c := FixCandidates(ds);
    assert s == u[..Min(MAX_FIXES, |u|)];
    forall k | 0 <= k < |s|
      ensures s[k] in ds
    {
      OnePerRuleFromInput(ds);
      assert s[k] == u[k];
    }
    assert DistinctRules(s) by {
      FirstPerRuleDistinct(c, |c|);
    }
    assert ErrorsFirst(s) by {
      CandidatesShape(ds);
      FirstPerRuleErrorsFirst(c, |c|);
    }
    forall k, d | 0 <= k < |s| && d in ds && IsError(d) && d.ruleId == s[k].ruleId
      ensures IsError(s[k])
    {
      OnePerRulePrefersErrors(ds);
      assert s[k] == u[k];
    }
    if |s| < MAX_FIXES {
      assert s == u;
      OnePerRuleCovers(ds);
    }
  }

  /** Scanning further never loses kept entries. */
  lemma {:induction false} FirstPerRuleGrows(arr: seq<Diagnostic>, m: nat, n: nat)
    requires m <= |arr| && n <= |arr|
    ensures m <= n ==> |FirstPerRule(arr, m)| <= |FirstPerRule(arr, n)|
  {
    if m < n {
      FirstPerRuleGrows(arr, m, n - 1);
    }
  }

  /** A first entry sits in the filtered list right after the entries kept before it. */
  lemma {:induction false} FirstPerRuleAt(arr: seq<Diagnostic>, n: nat, i: nat)
    requires i < n <= |arr| && FirstOfRule(arr, i)
    ensures |FirstPerRule(arr, i)| < |FirstPerRule(arr, n)|
    ensures FirstPerRule(arr, n)[|FirstPerRule(arr, i)|] == arr[i]
  {
    if n == i + 1 {
      assert FirstPerRule(arr, n) == FirstPerRule(arr, i) + [arr[i]];
    } else {
      FirstPerRuleAt(arr, n - 1, i);
    }
  }

  /** Where the `k`-th kept entry comes from: the `findIndex` position of its rule. */
  lemma KeptPosition(arr: seq<Diagnostic>, k: nat) returns (i: nat)
    requires k < |FirstPerRule(arr, |arr|)|
    ensures i < |arr| && FirstOfRule(arr, i) && arr[i] == FirstPerRule(arr, |arr|)[k]
    ensures FindRule(arr, arr[i].ruleId) == i
    ensures |FirstPerRule(arr, i)| == k
  {
    i := KeptIndex(arr, |arr|, k);
    FindRuleFirst(arr, i);
    FirstPerRuleAt(arr, |arr|, i);
    FirstPerRuleDistinct(arr, |arr|);
    var u := FirstPerRule(arr, |arr|);
    assert u[|FirstPerRule(arr, i)|] == u[k];
  }

  /** Each selected diagnostic is the first candidate of its rule, the one `findIndex` finds. */
  lemma SelectToFixFirst(ds: seq<Diagnostic>)
    ensures forall k :: 0 <= k < |SelectToFix(ds)| ==>
      0 <= FindRule(FixCandidates(ds), SelectToFix(ds)[k].ruleId)
      && FixCandidates(ds)[FindRule(FixCandidates(ds), SelectToFix(ds)[k].ruleId)] == SelectToFix(ds)[k]
  {
    var c, u, s := FixCandidates(ds), OnePerRule(ds), SelectToFix(ds);
    forall k | 0 <= k < |s|
      ensures 0 <= FindRule(c, s[k].ruleId) && c[FindRule(c, s[k].ruleId)] == s[k]
    {
      var i := KeptPosition(c, k);
      assert s[k] == u[k];
    }
  }

  /** The selection follows the order of its rules' first candidates. */
  lemma SelectToFixOrdered(ds: seq<Diagnostic>)
    ensures forall a, b :: 0 <= a < b < |SelectToFix(ds)| ==>
      FindRule(FixCandidates(ds), SelectToFix(ds)[a].ruleId) < FindRule(FixCandidates(ds), SelectToFix(ds)[b].ruleId)
  {
    var c, u, s := FixCandidates(ds), OnePerRule(ds), SelectToFix(ds);
    forall a, b | 0 <= a < b < |s|
      ensures FindRule(c, s[a].ruleId) < FindRule(c, s[b].ruleId)
    {
      var ia := KeptPosition(c, a);
      var ib := KeptPosition(c, b);
      assert s[a] == u[a] && s[b] == u[b];
      FirstPerRuleGrows(c, ib, ia);
    }
  }

  /**
   * A rule whose first candidate comes before that of a selected diagnostic
   * is selected too: the selection is the first rules in candidate order.
   */
  lemma SelectToFixPrefix(ds: seq<Diagnostic>)
    ensures forall i, k ::
      (0 <= i < |FixCandidates(ds)| && FirstOfRule(FixCandidates(ds), i) && 0 <= k < |SelectToFix(ds)|
       && i < FindRule(FixCandidates(ds), SelectToFix(ds)[k].ruleId)) ==> FixCandidates(ds)[i] in SelectToFix(ds)
  {
    var c, u, s := FixCandidates(ds), OnePerRule(ds), SelectToFix(ds);
    forall i, k | 0 <= i < |c| && FirstOfRule(c, i) && 0 <= k < |s| && i < FindRule(c, s[k].ruleId)
      ensures c[i] in s
    {
      var j := KeptPosition(c, k);
      assert s[k] == u[k];
      FirstPerRuleAt(c, j, i);
      FirstPerRuleAt(c, |c|, i);
      var p := |FirstPerRule(c, i)|;
      assert s[p] == u[p];
    }
  }

  /** The fixes map after the loop: each reply stored under its rule id. */
  function FixMap(sel: seq<Diagnostic>, respond: Diagnostic -> Option<string>): map<string, string> {
    if |sel| == 0 then map[]
    else
      var m := FixMap(sel[..|sel| - 1], respond);
      var d := sel[|sel| - 1];
      if respond(d).Some? then m[d.ruleId := respond(d).value] else m
  }

  /**
   * With distinct rule ids, a rule has a fix exactly when the call for its
   * diagnostic returned, and the fix is that reply.
   */
  lemma {:induction false} FixMapEntries(sel: seq<Diagnostic>, respond: Diagnostic -> Option<string>)
    requires DistinctRules(sel)
    ensures forall id :: id in FixMap(sel, respond) <==> exists k :: 0 <= k < |sel| && sel[k].ruleId == id && respond(sel[k]).Some?
    ensures forall k :: 0 <= k < |sel| && respond(sel[k]).Some? ==> FixMap(sel, respond)[sel[k].ruleId] == respond(sel[k]).value
  {
    if |sel| > 0 {
      var init := sel[..|sel| - 1];
      var d := sel[|sel| - 1];
      assert forall k :: 0 <= k < |init| ==> init[k] == sel[k];
      assert DistinctRules(init);
      FixMapEntries(init, respond);
      forall k | 0 <= k < |init|
        ensures init[k].ruleId != d.ruleId
      {
        assert sel[k].ruleId != sel[|sel| - 1].ruleId;
      }
    }
  }

  /** The fix loop: one call per selected diagnostic; a failed call is skipped. */
  method CollectFixes(sel: seq<Diagnostic>, respond: Diagnostic -> Option<string>) returns (fixes: map<string, string>)
    ensures fixes == FixMap(sel, respond)
  {
    fixes := map[];
    var k := 0;
    while k < |sel|
      invariant 0 <= k <= |sel|
      invariant fixes == FixMap(sel[..k], respond)
    {
      assert sel[..k + 1][..k] == sel[..k];
      var diag := sel[k];
      match respond(diag) {
        case Some(text) => fixes := fixes[diag.ruleId := text];
        case None =>
      }
      k := k + 1;
    }
    assert sel[..k] == sel;
  }

  /**
   * `generateFixes`. `hasAgent` says whether a model is configured;
   * `respond` gives the agent's reply to the prompt built for a diagnostic,
   * or `None` when the call throws.
   */
  method GenerateFixes(hasAgent: bool, ds: seq<Diagnostic>, respond: Diagnostic -> Option<string>) returns (fixes: map<string, string>)
    ensures !hasAgent ==> fixes == map[]
    ensures hasAgent ==> fixes == FixMap(SelectToFix(ds), respond)
  {
    if !hasAgent {
      return map[];
    }
    var toFix := SelectToFix(ds);
    fixes := CollectFixes(toFix, respond);
  }

  /**
   * The fixes are keyed by the rule ids of at most five selected
   * diagnostics, each holding the reply to that diagnostic.
   */
  lemma GenerateFixesEntries(ds: seq<Diagnostic>, respond: Diagnostic -> Option<string>)
    ensures forall id :: id in FixMap(SelectToFix(ds), respond) <==>
      exists k :: 0 <= k < |SelectToFix(ds)| && SelectToFix(ds)[k].ruleId == id && respond(SelectToFix(ds)[k]).Some?
    ensures forall k :: 0 <= k < |SelectToFix(ds)| && respond(SelectToFix(ds)[k]).Some? ==>
      FixMap(SelectToFix(ds), respond)[SelectToFix(ds)[k].ruleId] == respond(SelectToFix(ds)[k]).value
  {
    SelectToFixProperties(ds);
    FixMapEntries(SelectToFix(ds), respond);
  }
}
