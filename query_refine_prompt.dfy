/** The chat request that asks the language model to split a song query into a cleaned title
    and its artists. */
module QueryRefinePrompt {
  import opened Common

  /** One text part of a message. */
  datatype Part = Part(text: string)

  /** One chat message: a role and its parts. */
  datatype Message = Message(role: string, parts: seq<Part>)

  /** The instructions and worked examples sent ahead of every query, character for character
      (including the three characters that stand where the examples heading has a dash). */
  const Instructions: string := @"### Remove artist names from song titles

**Delete:**

* Everything **before** `-` or `:`
* `(feat. ...)`, `(ft. ...)`, `(featuring ...)` **anywhere** in the title

**Keep:**

* Only the actual song name (trim spaces) (No ft or names of artists)

**Return JSON only. No hello. No extra words.**

---

### Examples (DO NOT PROCESS â€” FAKE DATA)

**Input (Example Only, Do Not Process):**
`Nebula Vibes (feat. Zeta Ray & Comet Child) [DJ Quanta Remix]`
**Output:**

```json
{
  ""title"": ""Nebula Vibes"",
  ""artist"": [""Zeta Ray"", ""Comet Child"", ""DJ Quanta""]
}
```

**Input (Example Only, Do Not Process):**
`Echo Prime - Lunar Drift (ft. Nova Ghost)`
**Output:**

```json
{
  ""title"": ""Lunar Drift"",
  ""artist"": [""Echo Prime"", ""Nova Ghost""]
}
```

**Input (Example Only, Do Not Process):**
`Synth Fox & Melody Arc - Light Pulse`
**Output:**

```json
{
  ""title"": ""Light Pulse"",
  ""artist"": [""Synth Fox"", ""Melody Arc""]
}
```

**Input (Example Only, Do Not Process):**
`Crimson Veil: Skybreak (ft. Phantom Note)`
**Output:**

```json
{
  ""title"": ""Skybreak"",
  ""artist"": [""Crimson Veil"", ""Phantom Note""]
}
```"

  /** The text in front of the query in the second part. */
  const InputPrefix: string := "# Process with this:\n\n**Input:**\n`"

  /** The text after the query in the second part. */
  const InputSuffix: string := "`"

  /** `ExtractSongDetailsPrompt(query)`: one `user` message of two parts, the fixed instructions
      and then the query, unescaped, between the input prefix and a closing backtick. */
  function ExtractSongDetailsPrompt(query: string): (prompt: seq<Message>)
    ensures |prompt| == 1 && prompt[0].role == "user" && |prompt[0].parts| == 2
    ensures prompt[0].parts[0].text == Instructions
  {
    [Message("user", [Part(Instructions), Part(InputPrefix + query + InputSuffix)])]
  }

  /** Reads the query back out of a prompt of that shape; None for any other shape. */
  function QueryOf(prompt: seq<Message>): Option<string> {
    if |prompt| == 1 && |prompt[0].parts| == 2 then
      var text := prompt[0].parts[1].text;
      if |InputPrefix| + |InputSuffix| <= |text|
         && text[..|InputPrefix|] == InputPrefix
         && text[|text| - |InputSuffix|..] == InputSuffix
      then Some(text[|InputPrefix|..|text| - |InputSuffix|])
      else None
    else None
  }

  /** The query is carried verbatim: it can be read back out of its prompt. */
  lemma QueryRoundTrip(query: string)
    ensures QueryOf(ExtractSongDetailsPrompt(query)) == Some(query)
  {
    var text := InputPrefix + query + InputSuffix;
    assert ExtractSongDetailsPrompt(query)[0].parts[1].text == text;
    assert text[..|InputPrefix|] == InputPrefix;
    assert text[|text| - |InputSuffix|..] == InputSuffix;
    assert text[|InputPrefix|..|text| - |InputSuffix|] == query;
  }

  /** Two prompts agree in their role, their number of parts and their first part whatever
      the queries, and their second parts agree exactly when the queries do. */
  lemma PromptsDifferOnlyInQuery(q1: string, q2: string)
    ensures var p1, p2 := ExtractSongDetailsPrompt(q1), ExtractSongDetailsPrompt(q2);
      && p1[0].role == p2[0].role
      && |p1[0].parts| == |p2[0].parts|
      && p1[0].parts[0] == p2[0].parts[0]
      && (p1[0].parts[1] == p2[0].parts[1] <==> q1 == q2)
      && (p1 == p2 <==> q1 == q2)
  {
    var p1, p2 := ExtractSongDetailsPrompt(q1), ExtractSongDetailsPrompt(q2);
    if p1[0].parts[1] == p2[0].parts[1] {
      QueryRoundTrip(q1);
      QueryRoundTrip(q2);
      assert QueryOf(p1) == QueryOf(p2);
    }
  }
}
