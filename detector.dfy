/**
 * The dependency-string detectors: framework, model provider and memory
 * backend, each a decision list of substring tests over the dependency
 * names joined with spaces and over the lower-cased requirement text.
 */
module Detector {
  import opened Strings

  // ---------------------------------------------------------------------
  // Lower-casing

  /**
   * `toLowerCase` of one character, as far as it can produce ASCII: the
   * ASCII capitals, U+0130 (which lower-cases to "i" and a combining dot)
   * and the Kelvin sign U+212A (which lower-cases to "k"). Every other
   * character is kept; its real lower case is not ASCII either, so no
   * search term below can tell the two apart.
   */
  function JsLowerChar(c: char): string {
    if 'A' <= c <= 'Z' then [(c as int + 32) as char]
    else if c == '\U{0130}' then "i\U{0307}"
    else if c == '\U{212A}' then "k"
    else [c]
  }

  function JsLower(s: string): string {
    if |s| == 0 then "" else JsLowerChar(s[0]) + JsLower(s[1..])
  }

  lemma {:induction false} JsLowerAppend(a: string, b: string)
    ensures JsLower(a + b) == JsLower(a) + JsLower(b)
  {
    if |a| > 0 {
      assert (a + b)[0] == a[0] && (a + b)[1..] == a[1..] + b;
      JsLowerAppend(a[1..], b);
      var c := JsLowerChar(a[0]);
      assert JsLower(a + b) == c + JsLower(a[1..] + b);
      assert JsLower(a) == c + JsLower(a[1..]);
      assert c + (JsLower(a[1..]) + JsLower(b)) == (c + JsLower(a[1..])) + JsLower(b);
    } else {
      assert a + b == b;
    }
  }

  /** Lower-casing twice is lower-casing once, so the text tests ignore case. */
  lemma {:induction false} JsLowerIdempotent(s: string)
    ensures JsLower(JsLower(s)) == JsLower(s)
  {
    if |s| > 0 {
      JsLowerIdempotent(s[1..]);
      var l := JsLowerChar(s[0]);
      JsLowerAppend(l, JsLower(s[1..]));
      if s[0] == '\U{0130}' {
        assert JsLower(l) == "i\U{0307}" by {
          assert l[1..] == "\U{0307}";
          assert JsLower(l[1..]) == "\U{0307}" by {
            assert l[1..][1..] == "";
          }
        }
      } else {
        assert JsLower(l) == l by {
          assert l[1..] == "";
        }
      }
    }
  }

  // ---------------------------------------------------------------------
  // Substrings of the joined keys

  /** Some dependency name contains `needle`. */
  predicate InKeys(keys: seq<string>, needle: string) {
    exists i :: 0 <= i < |keys| && Contains(keys[i], needle)
  }

  /** A window of `a + " " + b` that covers the space holds the space. */
  lemma WindowHasSpace(a: string, b: string, needle: string, i: nat)
    requires ContainsAt(a + " " + b, needle, i) && i <= |a| < i + |needle|
    ensures ' ' in needle
  {
    var s := a + " " + b;
    assert needle[|a| - i] == s[i..i + |needle|][|a| - i] == s[|a|];
  }

  /** A term without a space occurs across a space exactly when it occurs on one side. */
  lemma ContainsAroundSpace(a: string, b: string, needle: string)
    requires |needle| > 0 && ' ' !in needle
    ensures Contains(a + " " + b, needle) <==> Contains(a, needle) || Contains(b, needle)
  {
    var s := a + " " + b;
    var n := |needle|;
    if Contains(s, needle) {
      var i :| 0 <= i <= |s| && ContainsAt(s, needle, i);
      if i + n <= |a| {
        assert s[i..i + n] == a[i..i + n];
        assert ContainsAt(a, needle, i);
      } else if i >= |a| + 1 {
        var j := i - |a| - 1;
        assert forall m :: 0 <= m < |b| ==> s[|a| + 1 + m] == b[m];
        assert s[i..i + n] == b[j..j + n];
        assert ContainsAt(b, needle, j);
      } else {
        WindowHasSpace(a, b, needle, i);
        assert false;
      }
    }
    if Contains(a, needle) {
      var i :| 0 <= i <= |a| && ContainsAt(a, needle, i);
      assert s[i..i + n] == a[i..i + n];
      assert ContainsAt(s, needle, i);
    }
    if Contains(b, needle) {
      var j :| 0 <= j <= |b| && ContainsAt(b, needle, j);
      var i := j + |a| + 1;
      assert s[i..i + n] == b[j..j + n];
      assert ContainsAt(s, needle, i);
    }
  }

  /** `Object.keys(deps).join(" ").includes(t)` is a test of the single names, for every term `t` used here. */
  lemma {:induction false} JoinedKeys(keys: seq<string>, needle: string)
    requires |needle| > 0 && ' ' !in needle
    ensures Contains(Join(keys, " "), needle) <==> InKeys(keys, needle)
  {
    if |keys| == 0 {
      assert !ContainsAt("", needle, 0);
    } else if |keys| == 1 {
      assert keys[0] == Join(keys, " ");
    } else {
      var rest := keys[1..];
      JoinedKeys(rest, needle);
      ContainsAroundSpace(keys[0], Join(rest, " "), needle);
      assert Join(keys, " ") == keys[0] + " " + Join(rest, " ");
      if InKeys(rest, needle) {
        var i :| 0 <= i < |rest| && Contains(rest[i], needle);
        assert keys[i + 1] == rest[i];
      }
      if InKeys(keys, needle) && !Contains(keys[0], needle) {
        var i :| 0 <= i < |keys| && Contains(keys[i], needle);
        assert rest[i - 1] == keys[i];
      }
    }
  }

  /** The memory detector's combined text: a term is in it when it is in a name or in the lower-cased text. */
  lemma {:induction false} CombinedText(keys: seq<string>, text: string, needle: string)
    requires |needle| > 0 && ' ' !in needle
    ensures Contains(Join(keys, " ") + " " + JsLower(text), needle) <==> InKeys(keys, needle) || Contains(JsLower(text), needle)
  {
    JoinedKeys(keys, needle);
    ContainsAroundSpace(Join(keys, " "), JsLower(text), needle);
  }

  // ---------------------------------------------------------------------
  // The detectors

  const FRAMEWORKS: set<string> := {"langchain", "crewai", "autogen", "mcp", "mastra", "llamaindex", "custom"}
  const PROVIDERS: set<string> := {"openai", "anthropic", "google", "ollama", "unknown"}
  const BACKENDS: set<string> := {"redis", "pinecone", "chroma", "weaviate", "pgvector", "qdrant", "none"}

  /** `detectFramework`: the first hit of the decision list, "custom" when none hits. */
  function DetectFramework(keys: seq<string>, reqText: string): (r: string)
    ensures r in FRAMEWORKS
  {
    var joined := Join(keys, " ");
    var lower := JsLower(reqText);
    if Contains(joined, "langchain") || Contains(joined, "@langchain/core") then "langchain"
    else if Contains(lower, "crewai") then "crewai"
    else if Contains(lower, "autogen") || Contains(lower, "pyautogen") then "autogen"
    else if Contains(joined, "@modelcontextprotocol/sdk") || Contains(joined, "mcp") then "mcp"
    else if Contains(joined, "mastra") then "mastra"
    else if Contains(joined, "llamaindex") then "llamaindex"
    else if Contains(lower, "langchain") then "langchain"
    else "custom"
  }

  /** `detectModelProvider`: openai before anthropic before google before ollama, else "unknown". */
  function DetectModelProvider(keys: seq<string>, reqText: string): (r: string)
    ensures r in PROVIDERS
  {
    var joined := Join(keys, " ");
    var lower := JsLower(reqText);
    if Contains(joined, "openai") || Contains(lower, "openai") then "openai"
    else if Contains(joined, "@anthropic-ai/sdk") || Contains(lower, "anthropic") then "anthropic"
    else if Contains(joined, "@google/generative-ai") || Contains(lower, "google-generativeai") then "google"
    else if Contains(joined, "ollama") || Contains(lower, "ollama") then "ollama"
    else "unknown"
  }

  /** `detectMemoryBackend`: the first of six back ends named in the names or the text, else "none". */
  function DetectMemoryBackend(keys: seq<string>, reqText: string): (r: string)
    ensures r in BACKENDS
  {
    var combined := Join(keys, " ") + " " + JsLower(reqText);
    if Contains(combined, "redis") then "redis"
    else if Contains(combined, "pinecone") then "pinecone"
    else if Contains(combined, "chroma") then "chroma"
    else if Contains(combined, "weaviate") then "weaviate"
    else if Contains(combined, "pgvector") || Contains(combined, "pg-vector") then "pgvector"
    else if Contains(combined, "qdrant") then "qdrant"
    else "none"
  }

  // ---------------------------------------------------------------------
  // Reference decision lists over single names

  /** A term found in a name, or in the lower-cased text. */
  predicate Named(keys: seq<string>, text: string, needle: string) {
    InKeys(keys, needle) || Contains(JsLower(text), needle)
  }

  /**
   * The framework decision list over single names. "@langchain/core" and
   * "pyautogen" are left out: each contains a shorter term tested beside it.
   */
  function FrameworkReference(keys: seq<string>, text: string): string {
    var lower := JsLower(text);
    if InKeys(keys, "langchain") then "langchain"
    else if Contains(lower, "crewai") then "crewai"
    else if Contains(lower, "autogen") then "autogen"
    else if InKeys(keys, "@modelcontextprotocol/sdk") || InKeys(keys, "mcp") then "mcp"
    else if InKeys(keys, "mastra") then "mastra"
    else if InKeys(keys, "llamaindex") then "llamaindex"
    else if Contains(lower, "langchain") then "langchain"
    else "custom"
  }

  function ProviderReference(keys: seq<string>, text: string): string {
    var lower := JsLower(text);
    if InKeys(keys, "openai") || Contains(lower, "openai") then "openai"
    else if InKeys(keys, "@anthropic-ai/sdk") || Contains(lower, "anthropic") then "anthropic"
    else if InKeys(keys, "@google/generative-ai") || Contains(lower, "google-generativeai") then "google"
    else if InKeys(keys, "ollama") || Contains(lower, "ollama") then "ollama"
    else "unknown"
  }

  function BackendReference(keys: seq<string>, text: string): string {
    if Named(keys, text, "redis") then "redis"
    else if Named(keys, text, "pinecone") then "pinecone"
    else if Named(keys, text, "chroma") then "chroma"
    else if Named(keys, text, "weaviate") then "weaviate"
    else if Named(keys, text, "pgvector") || Named(keys, text, "pg-vector") then "pgvector"
    else if Named(keys, text, "qdrant") then "qdrant"
    else "none"
  }

  /** `s` contains `t` wherever it contains `t` inside a longer term `u == p + t + q`. */
  lemma ContainsInner(s: string, u: string, t: string, k: nat)
    requires k + |t| <= |u| && u[k..k + |t|] == t
    requires Contains(s, u)
    ensures Contains(s, t)
  {
    var i :| 0 <= i <= |s| && ContainsAt(s, u, i);
    assert forall j :: 0 <= j < |u| ==> s[i + j] == s[i..i + |u|][j] == u[j];
    assert s[i + k..i + k + |t|] == u[k..k + |t|];
    assert ContainsAt(s, t, i + k);
  }

  lemma InKeysInner(keys: seq<string>, u: string, t: string, k: nat)
    requires k + |t| <= |u| && u[k..k + |t|] == t
    requires InKeys(keys, u)
    ensures InKeys(keys, t)
  {
    var i :| 0 <= i < |keys| && Contains(keys[i], u);
    ContainsInner(keys[i], u, t, k);
  }

  /** Every dependency-name test hits a single name, and the redundant terms change nothing. */
  lemma FrameworkByName(keys: seq<string>, text: string)
    ensures DetectFramework(keys, text) == FrameworkReference(keys, text)
  {
    var joined := Join(keys, " ");
    var lower := JsLower(text);
    JoinedKeys(keys, "langchain");
    JoinedKeys(keys, "@langchain/core");
    JoinedKeys(keys, "@modelcontextprotocol/sdk");
    JoinedKeys(keys, "mcp");
    JoinedKeys(keys, "mastra");
    JoinedKeys(keys, "llamaindex");
    if InKeys(keys, "@langchain/core") {
      assert "@langchain/core"[1..10] == "langchain";
      InKeysInner(keys, "@langchain/core", "langchain", 1);
    }
    if Contains(lower, "pyautogen") {
      assert "pyautogen"[2..9] == "autogen";
      ContainsInner(lower, "pyautogen", "autogen", 2);
    }
  }

  lemma ProviderByName(keys: seq<string>, text: string)
    ensures DetectModelProvider(keys, text) == ProviderReference(keys, text)
  {
    JoinedKeys(keys, "openai");
    JoinedKeys(keys, "@anthropic-ai/sdk");
    JoinedKeys(keys, "@google/generative-ai");
    JoinedKeys(keys, "ollama");
  }

  lemma BackendByName(keys: seq<string>, text: string)
    ensures DetectMemoryBackend(keys, text) == BackendReference(keys, text)
  {
    CombinedText(keys, text, "redis");
    CombinedText(keys, text, "pinecone");
    CombinedText(keys, text, "chroma");
    CombinedText(keys, text, "weaviate");
    CombinedText(keys, text, "pgvector");
    CombinedText(keys, text, "pg-vector");
    CombinedText(keys, text, "qdrant");
  }

  /** The requirement text is read without regard to case. */
  lemma {:induction false} TextCaseFree(keys: seq<string>, text: string)
    ensures DetectFramework(keys, JsLower(text)) == DetectFramework(keys, text)
    ensures DetectModelProvider(keys, JsLower(text)) == DetectModelProvider(keys, text)
    ensures DetectMemoryBackend(keys, JsLower(text)) == DetectMemoryBackend(keys, text)
  {
    JsLowerIdempotent(text);
  }

  /** The names, unlike the text, are read with regard to case. */
  lemma NamesCaseSensitive()
    ensures DetectModelProvider(["OpenAI"], "") == "unknown"
    ensures DetectModelProvider([], "OpenAI") == "openai"
  {
    var name := "OpenAI";
    ProviderByName([name], "");
    assert !Contains(JsLower(""), "openai") && !Contains(JsLower(""), "anthropic");
    assert !Contains(JsLower(""), "google-generativeai") && !Contains(JsLower(""), "ollama");
    assert !Contains(name, "openai") by {
      forall i | 0 <= i <= |name| ensures !ContainsAt(name, "openai", i) {
        if i == 0 { assert name[0..6][0] == 'O'; }
      }
    }
    assert !Contains(name, "ollama") by {
      forall i | 0 <= i <= |name| ensures !ContainsAt(name, "ollama", i) {
        if i == 0 { assert name[0..6][0] == 'O'; }
      }
    }
    assert !Contains(name, "@anthropic-ai/sdk") && !Contains(name, "@google/generative-ai");
    assert !InKeys([name], "openai") && !InKeys([name], "ollama");
    assert !InKeys([name], "@anthropic-ai/sdk") && !InKeys([name], "@google/generative-ai");
    assert JsLower(name) == "openai";
    assert ContainsAt(JsLower(name), "openai", 0);
  }
}
