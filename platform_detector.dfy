/** Which supported chat site a host name belongs to, and that site's element selectors. */
module PlatformDetector {
  import opened Wrappers
  import opened Strings

  /** The CSS selectors of one platform's page regions. */
  datatype Selectors = Selectors(root: string, chatArea: string, sidebar: string,
                                 header: string, inputBox: string, messages: string)

  /** The selector table, keyed by platform key. */
  const PlatformSelectors: map<string, Selectors> := map[
    "claude.ai" := Selectors("html", "main, [role=\"main\"]", "nav, aside, .sidebar", "header",
                             "textarea, [contenteditable=\"true\"]", ".message, [data-testid*=\"message\"]"),
    "chat.openai.com" := Selectors("html", "main", "nav", "header",
                                   "#prompt-textarea, textarea", "[data-message-author-role]"),
    "chatgpt.com" := Selectors("html", "main", "nav", "header",
                               "#prompt-textarea, textarea", "[data-message-author-role]"),
    "gemini.google.com" := Selectors("html", "main, .chat-container", "nav, .navigation", "header",
                                     "textarea, [contenteditable=\"true\"]", ".message, [role=\"article\"]"),
    "grok.com" := Selectors("html", "main, [role=\"main\"]", "nav, aside, .sidebar", "header",
                            "textarea, [contenteditable=\"true\"]", ".message, [data-testid*=\"message\"]")
  ]

  /** The order in which host-name substrings are tried, with the key each one yields. */
  const DetectionOrder: seq<(string, string)> := [
    ("claude.ai", "claude.ai"),
    ("chatgpt.com", "chatgpt.com"),
    ("openai.com", "chat.openai.com"),
    ("gemini.google.com", "gemini.google.com"),
    ("grok.com", "grok.com")
  ]

  /** Reference definition: the key of the first entry whose substring the host name contains. */
  function FirstMatch(order: seq<(string, string)>, hostname: string): Option<string> {
    if order == [] then None
    else if Contains(hostname, order[0].0) then Some(order[0].1)
    else FirstMatch(order[1..], hostname)
  }

  /** `detectPlatform`, with the page's host name as a parameter: a first-match chain. */
  function DetectPlatform(hostname: string): (r: Option<string>)
    ensures r.Some? ==> r.value in PlatformSelectors
  {
    if Contains(hostname, "claude.ai") then Some("claude.ai")
    else if Contains(hostname, "chatgpt.com") then Some("chatgpt.com")
    else if Contains(hostname, "openai.com") then Some("chat.openai.com")
    else if Contains(hostname, "gemini.google.com") then Some("gemini.google.com")
    else if Contains(hostname, "grok.com") then Some("grok.com")
    else None
  }

  /**
   * `getPlatformSelectors`: the table entry for one of the table's own keys, or null for any
   * other key. Keys naming properties every object inherits are not distinguished.
   */
  function GetPlatformSelectors(platform: string): (r: Option<Selectors>)
    ensures r.None? <==> platform !in PlatformSelectors
    ensures r.Some? ==> r.value == PlatformSelectors[platform]
  {
    if platform in PlatformSelectors then Some(PlatformSelectors[platform]) else None
  }

  /** First-match semantics: the result is entry `j`'s key iff entry `j` matches and no earlier one does. */
  lemma {:induction false} FirstMatchSpec(order: seq<(string, string)>, hostname: string, j: nat)
    requires j < |order|
    requires forall k :: 0 <= k < |order| ==> order[k].1 != "" && (forall m :: 0 <= m < k ==> order[m].1 != order[k].1)
    ensures FirstMatch(order, hostname) == Some(order[j].1) <==>
              Contains(hostname, order[j].0) && forall k :: 0 <= k < j ==> !Contains(hostname, order[k].0)
  {
    if j > 0 && !Contains(hostname, order[0].0) {
      var tail := order[1..];
      FirstMatchSpec(tail, hostname, j - 1);
      assert tail[j - 1] == order[j];
      assert (forall k :: 0 <= k < j ==> !Contains(hostname, order[k].0)) <==>
             (forall k :: 0 <= k < j - 1 ==> !Contains(hostname, tail[k].0)) by {
        assert forall k :: 0 <= k < j - 1 ==> tail[k] == order[k + 1];
        if forall k :: 0 <= k < j - 1 ==> !Contains(hostname, tail[k].0) {
          forall k | 0 <= k < j ensures !Contains(hostname, order[k].0) {
            if k > 0 { assert order[k] == tail[k - 1]; }
          }
        }
      }
    } else if j > 0 {
      assert order[0].1 != order[j].1;
      assert !(forall k :: 0 <= k < j ==> !Contains(hostname, order[k].0));
    } else if !Contains(hostname, order[0].0) {
      FirstMatchFrom(order[1..], hostname);
      if FirstMatch(order, hostname).Some? {
        var i :| 0 <= i < |order[1..]| && FirstMatch(order[1..], hostname) == Some(order[1..][i].1);
        assert order[1..][i] == order[i + 1];
      }
    }
  }

  /** A match is always the key of some entry. */
  lemma {:induction false} FirstMatchFrom(order: seq<(string, string)>, hostname: string)
    ensures FirstMatch(order, hostname).Some? ==>
              exists i :: 0 <= i < |order| && FirstMatch(order, hostname) == Some(order[i].1)
  {
    if order != [] && !Contains(hostname, order[0].0) {
      FirstMatchFrom(order[1..], hostname);
      if FirstMatch(order, hostname).Some? {
        var i :| 0 <= i < |order[1..]| && FirstMatch(order[1..], hostname) == Some(order[1..][i].1);
        assert order[1..][i] == order[i + 1];
      }
    } else if order != [] {
      assert FirstMatch(order, hostname) == Some(order[0].1);
    }
  }

  /** The if-chain is the first match over the detection order. */
  lemma DetectIsFirstMatch(hostname: string)
    ensures DetectPlatform(hostname) == FirstMatch(DetectionOrder, hostname)
  {
    var h := hostname;
    var o4 := [("grok.com", "grok.com")];
    var o3 := [("gemini.google.com", "gemini.google.com")] + o4;
    var o2 := [("openai.com", "chat.openai.com")] + o3;
    var o1 := [("chatgpt.com", "chatgpt.com")] + o2;
    assert DetectionOrder == [("claude.ai", "claude.ai")] + o1;
    assert o4[1..] == [] && o3[1..] == o4 && o2[1..] == o3 && o1[1..] == o2 && DetectionOrder[1..] == o1;
    assert FirstMatch(o4, h) == if Contains(h, "grok.com") then Some("grok.com") else None;
    assert FirstMatch(o3, h) == if Contains(h, "gemini.google.com") then Some("gemini.google.com") else FirstMatch(o4, h);
    assert FirstMatch(o2, h) == if Contains(h, "openai.com") then Some("chat.openai.com") else FirstMatch(o3, h);
    assert FirstMatch(o1, h) == if Contains(h, "chatgpt.com") then Some("chatgpt.com") else FirstMatch(o2, h);
  }

  /** A host name with no listed substring is not a supported platform. */
  lemma {:induction false} FirstMatchNone(order: seq<(string, string)>, hostname: string)
    ensures FirstMatch(order, hostname).None? <==> forall k :: 0 <= k < |order| ==> !Contains(hostname, order[k].0)
  {
    if order != [] {
      FirstMatchNone(order[1..], hostname);
      assert forall k :: 1 <= k < |order| ==> order[k] == order[1..][k - 1];
    }
  }

  /** Claude is tested first: a host name containing "claude.ai" is Claude whatever else it contains. */
  lemma ClaudeWins(hostname: string)
    requires Contains(hostname, "claude.ai")
    ensures DetectPlatform(hostname) == Some("claude.ai")
  {
  }

  /** "chatgpt.com" is tested before "openai.com"; "openai.com" alone yields the older key. */
  lemma OpenAiHosts(hostname: string)
    requires !Contains(hostname, "claude.ai")
    ensures Contains(hostname, "chatgpt.com") ==> DetectPlatform(hostname) == Some("chatgpt.com")
    ensures !Contains(hostname, "chatgpt.com") && Contains(hostname, "openai.com") ==>
              DetectPlatform(hostname) == Some("chat.openai.com")
  {
  }

  /** Gemini and then Grok come last; a host with none of the five substrings yields null. */
  lemma LaterHosts(hostname: string)
    requires !Contains(hostname, "claude.ai") && !Contains(hostname, "chatgpt.com") && !Contains(hostname, "openai.com")
    ensures Contains(hostname, "gemini.google.com") ==> DetectPlatform(hostname) == Some("gemini.google.com")
    ensures !Contains(hostname, "gemini.google.com") && Contains(hostname, "grok.com") ==>
              DetectPlatform(hostname) == Some("grok.com")
    ensures DetectPlatform(hostname).None? <==> !Contains(hostname, "gemini.google.com") && !Contains(hostname, "grok.com")
  {
  }

  /** Detection and the table agree: every detected key has selectors. */
  lemma DetectedHasSelectors(hostname: string)
    ensures DetectPlatform(hostname).Some? ==> GetPlatformSelectors(DetectPlatform(hostname).value).Some?
  {
  }

  /** The table's keys are exactly the keys detection can yield. */
  lemma TableKeysAreDetectable()
    ensures PlatformSelectors.Keys == set k | 0 <= k < |DetectionOrder| :: DetectionOrder[k].1
  {
    assert DetectionOrder[0].1 == "claude.ai" && DetectionOrder[1].1 == "chatgpt.com";
    assert DetectionOrder[2].1 == "chat.openai.com" && DetectionOrder[3].1 == "gemini.google.com";
    assert DetectionOrder[4].1 == "grok.com";
  }

  /** Every table entry has root "html" and header "header". */
  lemma SharedSelectors(platform: string)
    requires platform in PlatformSelectors
    ensures PlatformSelectors[platform].root == "html" && PlatformSelectors[platform].header == "header"
  {
  }
}
