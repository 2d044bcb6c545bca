/**
 * Regular expressions are not given a semantics here. A pattern is its
 * source text and flags, and what it matches is decided by an `Engine`
 * supplied by the caller: `exec` lists, from offset 0, the successive
 * non-overlapping matches that a loop of `RegExp.prototype.exec` calls on a
 * global regex would return. Every use of a regex in the engine either resets
 * `lastIndex` or uses a non-global regex, so a test is a pure function of the
 * pattern and the text.
 */
module Regexes {
  import opened Strings

  datatype Regex = Regex(source: string, flags: string)

  /** One match: its start offset and its capture groups 1, 2, ... ("" when a group did not take part). */
  datatype Match = Match(index: nat, groups: seq<string>)

  datatype Engine = Engine(exec: (Regex, string) -> seq<Match>)

  /** `re.test(text)` with `lastIndex` at 0. */
  predicate Test(e: Engine, re: Regex, text: string) {
    |e.exec(re, text)| > 0
  }

  /** `re.exec(text)` for a regex without the `g` flag: the first match, if any. */
  function First(e: Engine, re: Regex, text: string): (m: Option<Match>)
    ensures m.Some? <==> Test(e, re, text)
  {
    if |e.exec(re, text)| > 0 then Some(e.exec(re, text)[0]) else None
  }

  /** `match[i]` for `i >= 1`, with an absent group read as the empty (falsy) string. */
  function Group(m: Match, i: nat): string {
    if 1 <= i <= |m.groups| then m.groups[i - 1] else ""
  }

  /** `patterns.some(p => p.test(text))`. */
  predicate AnyTest(e: Engine, patterns: seq<Regex>, text: string) {
    exists j :: 0 <= j < |patterns| && Test(e, patterns[j], text)
  }
}
