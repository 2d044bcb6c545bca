/**
 * The dead-tool pass: every registered tool whose name no scanned file
 * invokes, with the file and line of its first registration.
 */
module DeadTools {
  import opened Regexes
  import opened Types
  import opened ImportTracer
  import opened CallGraph
  import opened Seqs

  /** The report entry for a registration. */
  function ToDead(t: RegisteredTool): DeadTool {
    DeadTool(t.name, t.file, t.line)
  }

  /** The entries of the registrations, in map order, whose names are not invoked. */
  function DeadOf(registered: seq<RegisteredTool>, invoked: set<string>): seq<DeadTool> {
    if |registered| == 0 then []
    else
      var t := registered[|registered| - 1];
      DeadOf(registered[..|registered| - 1], invoked) + (if t.name in invoked then [] else [ToDead(t)])
  }

  /** Some dead tool is called `name`. */
  predicate DeadName(dead: seq<DeadTool>, name: string) {
    exists k :: 0 <= k < |dead| && dead[k].name == name
  }

  /** `registered[k]` is a registration whose name is not invoked and whose entry is `d`. */
  predicate DeadEntry(registered: seq<RegisteredTool>, invoked: set<string>, d: DeadTool) {
    exists k :: 0 <= k < |registered| && registered[k].name !in invoked && d == ToDead(registered[k])
  }

  /** The dead tools are exactly the entries of the registrations whose names are not invoked. */
  lemma {:induction false} DeadOfMembers(registered: seq<RegisteredTool>, invoked: set<string>)
    ensures |DeadOf(registered, invoked)| <= |registered|
    ensures forall d :: d in DeadOf(registered, invoked) <==> DeadEntry(registered, invoked, d)
  {
    if |registered| > 0 {
      var init := registered[..|registered| - 1];
      DeadOfMembers(init, invoked);
      assert forall k :: 0 <= k < |init| ==> init[k] == registered[k];
      var last := registered[|registered| - 1];
      forall d
        ensures d in DeadOf(registered, invoked) <==> DeadEntry(registered, invoked, d)
      {
        if DeadEntry(registered, invoked, d) && !DeadEntry(init, invoked, d) {
          var k :| 0 <= k < |registered| && registered[k].name !in invoked && d == ToDead(registered[k]);
          if k < |init| {
            assert init[k] == registered[k];
          } else {
            assert d == ToDead(last) && last.name !in invoked;
          }
        }
      }
    }
  }

  /** No two dead tools share a name when the registrations have distinct names. */
  lemma {:induction false} DeadOfUnique(registered: seq<RegisteredTool>, invoked: set<string>)
    requires UniqueNames(registered)
    ensures forall a, b :: 0 <= a < b < |DeadOf(registered, invoked)| ==>
      DeadOf(registered, invoked)[a].name != DeadOf(registered, invoked)[b].name
  {
    if |registered| > 0 {
      var init := registered[..|registered| - 1];
      var last := registered[|registered| - 1];
      assert UniqueNames(init);
      DeadOfUnique(init, invoked);
      DeadOfMembers(init, invoked);
      var d0 := DeadOf(init, invoked);
      if last.name !in invoked {
        var d := DeadOf(registered, invoked);
        assert d == d0 + [ToDead(last)];
        forall a | 0 <= a < |d0|
          ensures d0[a].name != last.name
        {
          assert d0[a] in d0;
          var k :| 0 <= k < |init| && init[k].name !in invoked && d0[a] == ToDead(init[k]);
          assert init[k] == registered[k];
        }
      }
    }
  }

  /** `detectDeadTools`, on the tracer's and the call graph's results. */
  function DeadToolsOf(e: Engine, files: Corpus): seq<DeadTool> {
    DeadOf(Registered(e, files), CallGraphOf(e, files))
  }

  /**
   * A name is reported dead exactly when some scanned file registers it and
   * no scanned file invokes it; the entry is the first registration of that
   * name, and no name is reported twice.
   */
  lemma {:induction false} DeadToolsExact(e: Engine, files: Corpus)
    ensures forall name :: DeadName(DeadToolsOf(e, files), name) <==>
      HasName(Candidates(e, files), name) && name !in CallGraphOf(e, files)
    ensures forall d :: d in DeadToolsOf(e, files) ==>
      d.name !in CallGraphOf(e, files) && exists j :: FirstOfName(Candidates(e, files), j) && ToDead(Candidates(e, files)[j]) == d
    ensures forall a, b :: 0 <= a < b < |DeadToolsOf(e, files)| ==> DeadToolsOf(e, files)[a].name != DeadToolsOf(e, files)[b].name
  {
    DeadToolsNames(e, files);
    DeadToolsFirst(e, files);
    DeadToolsUnique(e, files);
  }

  lemma {:induction false} DeadToolsNames(e: Engine, files: Corpus)
    ensures forall name :: DeadName(DeadToolsOf(e, files), name) <==>
      HasName(Candidates(e, files), name) && name !in CallGraphOf(e, files)
  {
    var r, cs, invoked := Registered(e, files), Candidates(e, files), CallGraphOf(e, files);
    RegisteredFirst(e, files);
    DeadOfAllNames(r, cs, invoked);
    assert DeadToolsOf(e, files) == DeadOf(r, invoked);
  }

  lemma {:induction false} DeadToolsFirst(e: Engine, files: Corpus)
    ensures forall d :: d in DeadToolsOf(e, files) ==>
      d.name !in CallGraphOf(e, files) && exists j :: FirstOfName(Candidates(e, files), j) && ToDead(Candidates(e, files)[j]) == d
  {
    var r, cs, invoked := Registered(e, files), Candidates(e, files), CallGraphOf(e, files);
    RegisteredFirst(e, files);
    DeadOfFirst(r, cs, invoked);
    assert DeadToolsOf(e, files) == DeadOf(r, invoked);
    forall d | d in DeadToolsOf(e, files)
      ensures d.name !in invoked && exists j :: FirstOfName(cs, j) && ToDead(cs[j]) == d
    {
      assert d in DeadOf(r, invoked);
    }
    assert cs == Candidates(e, files);
  }

  lemma DeadToolsUnique(e: Engine, files: Corpus)
    ensures forall a, b :: 0 <= a < b < |DeadToolsOf(e, files)| ==> DeadToolsOf(e, files)[a].name != DeadToolsOf(e, files)[b].name
  {
    RegisteredFirst(e, files);
    DeadOfUnique(Registered(e, files), CallGraphOf(e, files));
  }

  /** When `r` keeps exactly the names of `cs`, a name is dead exactly when some candidate has it and it is not invoked. */
  lemma {:induction false} DeadOfNames(r: seq<RegisteredTool>, cs: seq<RegisteredTool>, invoked: set<string>, name: string)
    requires forall name :: HasName(r, name) <==> HasName(cs, name)
    ensures DeadName(DeadOf(r, invoked), name) <==> HasName(cs, name) && name !in invoked
  {
    var dead := DeadOf(r, invoked);
    DeadOfMembers(r, invoked);
    if DeadName(dead, name) {
      var k :| 0 <= k < |dead| && dead[k].name == name;
      assert dead[k] in dead;
      var i :| 0 <= i < |r| && r[i].name !in invoked && dead[k] == ToDead(r[i]);
      assert HasName(r, name);
    }
    if HasName(cs, name) && name !in invoked {
      assert HasName(r, name);
      var i :| 0 <= i < |r| && r[i].name == name;
      assert DeadEntry(r, invoked, ToDead(r[i]));
      var d := ToDead(r[i]);
      assert d in dead;
      var k :| 0 <= k < |dead| && dead[k] == d;
    }
  }

  /** When `r` keeps exactly the names of `cs`, the dead names are the candidates' names that are not invoked. */
  lemma {:induction false} DeadOfAllNames(r: seq<RegisteredTool>, cs: seq<RegisteredTool>, invoked: set<string>)
    requires forall name :: HasName(r, name) <==> HasName(cs, name)
    ensures forall name :: DeadName(DeadOf(r, invoked), name) <==> HasName(cs, name) && name !in invoked
  {
    forall name
      ensures DeadName(DeadOf(r, invoked), name) <==> HasName(cs, name) && name !in invoked
    {
      DeadOfNames(r, cs, invoked, name);
    }
  }

  /** When `r` holds first registrations of `cs`, so does every dead entry. */
  lemma {:induction false} DeadOfFirst(r: seq<RegisteredTool>, cs: seq<RegisteredTool>, invoked: set<string>)
    requires FirstRegistrations(cs, r)
    ensures forall d :: d in DeadOf(r, invoked) ==>
      d.name !in invoked && exists j :: FirstOfName(cs, j) && ToDead(cs[j]) == d
  {
    DeadOfMembers(r, invoked);
    forall d | d in DeadOf(r, invoked)
      ensures d.name !in invoked && exists j :: FirstOfName(cs, j) && ToDead(cs[j]) == d
    {
      var i :| 0 <= i < |r| && r[i].name !in invoked && d == ToDead(r[i]);
      assert IsFirstRegistration(cs, r[i]);
    }
  }

  /** The report entries of a list of registrations, position by position. */
  function ToDeadAll(ts: seq<RegisteredTool>): (ds: seq<DeadTool>)
    ensures |ds| == |ts|
    ensures forall i :: 0 <= i < |ts| ==> ds[i] == ToDead(ts[i])
  {
    if |ts| == 0 then [] else ToDeadAll(ts[..|ts| - 1]) + [ToDead(ts[|ts| - 1])]
  }

  /** A registration whose name is not invoked. */
  function NotInvoked(invoked: set<string>): RegisteredTool -> bool {
    (t: RegisteredTool) => t.name !in invoked
  }

  /**
   * The loop over the map is a filter of the registrations by "not invoked"
   * followed by the report entry of each: nothing is reordered, dropped
   * twice or added.
   */
  lemma {:induction false} DeadOfFiltered(registered: seq<RegisteredTool>, invoked: set<string>)
    ensures DeadOf(registered, invoked) == ToDeadAll(Filter(registered, NotInvoked(invoked)))
  {
    if |registered| > 0 {
      var init := registered[..|registered| - 1];
      var t := registered[|registered| - 1];
      DeadOfFiltered(init, invoked);
      var f0 := Filter(init, NotInvoked(invoked));
      if t.name !in invoked {
        assert Filter(registered, NotInvoked(invoked)) == f0 + [t];
        assert (f0 + [t])[..|f0 + [t]| - 1] == f0;
      } else {
        assert Filter(registered, NotInvoked(invoked)) == f0;
      }
    }
  }

  /** The dead tools at `a` and `b` come from registrations in that order. */
  predicate FromOrderedRegistrations(registered: seq<RegisteredTool>, dead: seq<DeadTool>, a: int, b: int)
    requires 0 <= a < |dead| && 0 <= b < |dead|
  {
    exists i, j :: 0 <= i < j < |registered| && dead[a] == ToDead(registered[i]) && dead[b] == ToDead(registered[j])
  }

  /** Two dead tools appear in the order of the registrations they come from. */
  lemma DeadOfOrdered(registered: seq<RegisteredTool>, invoked: set<string>)
    ensures forall a, b :: 0 <= a < b < |DeadOf(registered, invoked)| ==>
      FromOrderedRegistrations(registered, DeadOf(registered, invoked), a, b)
  {
    var f := Filter(registered, NotInvoked(invoked));
    DeadOfFiltered(registered, invoked);
    FilterOrdered(registered, NotInvoked(invoked));
    var d := DeadOf(registered, invoked);
    assert d == ToDeadAll(f);
    forall a, b | 0 <= a < b < |d|
      ensures FromOrderedRegistrations(registered, d, a, b)
    {
      var i, j := OrderedInPair(f, registered, a, b);
      assert d[a] == ToDead(registered[i]) && d[b] == ToDead(registered[j]);
    }
  }

  /**
   * `detectDeadTools` reports in the order of the registration map, which is
   * the order in which names are first registered.
   */
  lemma DeadToolsOrdered(e: Engine, files: Corpus)
    ensures forall a, b :: 0 <= a < b < |DeadToolsOf(e, files)| ==>
      IndexOfName(Candidates(e, files), DeadToolsOf(e, files)[a].name)
      < IndexOfName(Candidates(e, files), DeadToolsOf(e, files)[b].name)
  {
    var cs := Candidates(e, files);
    var r := Registered(e, files);
    var d := DeadToolsOf(e, files);
    RegisterAllOrdered(cs);
    DeadOfOrdered(r, CallGraphOf(e, files));
    forall a, b | 0 <= a < b < |d|
      ensures IndexOfName(cs, d[a].name) < IndexOfName(cs, d[b].name)
    {
      assert FromOrderedRegistrations(r, d, a, b);
      var i, j :| 0 <= i < j < |r| && d[a] == ToDead(r[i]) && d[b] == ToDead(r[j]);
      assert d[a].name == r[i].name && d[b].name == r[j].name;
    }
  }

  /** When every registered name is invoked, nothing is reported. */
  lemma {:induction false} AllInvokedNoneDead(e: Engine, files: Corpus)
    requires forall j :: 0 <= j < |Candidates(e, files)| ==> Candidates(e, files)[j].name in CallGraphOf(e, files)
    ensures DeadToolsOf(e, files) == []
  {
    var r := Registered(e, files);
    var cs := Candidates(e, files);
    RegisteredFirst(e, files);
    forall k | 0 <= k < |r|
      ensures r[k].name in CallGraphOf(e, files)
    {
      assert IsFirstRegistration(cs, r[k]);
    }
    DeadOfNone(r, CallGraphOf(e, files));
  }

  /** Registrations whose names are all invoked leave nothing dead. */
  lemma {:induction false} DeadOfNone(registered: seq<RegisteredTool>, invoked: set<string>)
    requires forall k :: 0 <= k < |registered| ==> registered[k].name in invoked
    ensures DeadOf(registered, invoked) == []
  {
    if |registered| > 0 {
      DeadOfNone(registered[..|registered| - 1], invoked);
    }
  }

  /** The loop over the registered tools. */
  method CollectDead(registered: seq<RegisteredTool>, invoked: set<string>) returns (dead: seq<DeadTool>)
    ensures dead == DeadOf(registered, invoked)
  {
    dead := [];
    var k := 0;
    while k < |registered|
      invariant 0 <= k <= |registered|
      invariant dead == DeadOf(registered[..k], invoked)
    {
      assert registered[..k + 1][..k] == registered[..k];
      var t := registered[k];
      if t.name !in invoked {
        dead := dead + [DeadTool(t.name, t.file, t.line)];
      }
      k := k + 1;
    }
    assert registered[..k] == registered;
  }

  /** `detectDeadTools`. */
  method DetectDeadTools(e: Engine, files: Corpus) returns (dead: seq<DeadTool>)
    ensures dead == DeadToolsOf(e, files)
  {
    var registered := TraceRegisteredTools(e, files);
    var invoked := BuildCallGraph(e, files);
    dead := CollectDead(registered, invoked);
  }
}
