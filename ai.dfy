/** `QueryCleaning`: asks the language model, at most three times, to turn a raw song query
    into a SongInfo, and falls back to the raw query as the title when no reply is usable. */
module Ai {
  import opened Common
  import opened SongInfoDto
  import QueryRefinePrompt

  const MaxAttempts: nat := 3
  const RetryDelayMs: int := 10000
  const ModelId: string := "gemini-2.0-flash-lite"

  /** One property of the response schema. */
  datatype SchemaField = SchemaField(name: string, fieldType: string, description: string, itemType: Option<string>)

  /** The generation config: a JSON response of an object type with required fields. */
  datatype GenerationConfig = GenerationConfig(
    responseMimeType: string,
    schemaType: string,
    required: seq<string>,
    properties: seq<SchemaField>)

  const ResponseConfig: GenerationConfig := GenerationConfig(
    "application/json",
    "OBJECT",
    ["title", "artist"],
    [ SchemaField("title", "STRING", "Cleaned song title with artist names removed, remix/version info preserved", None),
      SchemaField("artist", "ARRAY", "Ordered list of all artists as they appear in the original title", Some("STRING")) ])

  /** The argument of one `generateContent` call. */
  datatype GenerateRequest = GenerateRequest(model: string, config: GenerationConfig, contents: seq<QueryRefinePrompt.Message>)

  /** What one `generateContent` call does: it throws, or it resolves to a response whose
      `text` may be absent. */
  datatype GenerateReply = GenerateThrew(error: string) | Generated(text: Option<string>)

  /** What the function does that can be observed from outside: model calls and waits. */
  datatype Event = GenerateCall(request: GenerateRequest) | Delay(ms: int)

  /** How one attempt ends: a usable reply, a reply that is retried, or an exception that escapes. */
  datatype Attempt = Accepted(info: SongInfo) | Retried | Raised(error: string)

  /** A run of QueryCleaning: what it returns (or throws) and the events it causes, in order. */
  datatype Run = Run(result: Result<SongInfo>, trace: seq<Event>)

  /** The request every attempt sends. */
  function RequestFor(query: string): GenerateRequest {
    GenerateRequest(ModelId, ResponseConfig, QueryRefinePrompt.ExtractSongDetailsPrompt(query))
  }

  /** One attempt on a reply: an absent or empty text is retried; text that `JSON.parse`
      rejects throws; a parsed value is accepted when it is truthy, validates and has a
      non-empty title, and is retried otherwise. */
  function AttemptOn(reply: GenerateReply, parse: string -> Result<Json>): (a: Attempt)
    ensures a.Accepted? ==> a.info.title != ""
    ensures a.Accepted? ==>
      && reply.Generated? && Present(reply.text)
      && parse(reply.text.value).Ok? && parse(reply.text.value).value != JNull
      && Validate(parse(reply.text.value).value)
      && a.info == FromValidated(parse(reply.text.value).value)
    ensures a.Raised? <==> reply.GenerateThrew? || (Present(reply.text) && parse(reply.text.value).Err?)
    ensures reply.GenerateThrew? ==> a == Raised(reply.error)
    ensures reply.Generated? && Present(reply.text) && parse(reply.text.value).Err? ==>
      a == Raised(parse(reply.text.value).message)
    ensures reply.Generated? && Present(reply.text) && parse(reply.text.value).Ok?
            && Truthy(parse(reply.text.value).value) && Validate(parse(reply.text.value).value)
            && FromValidated(parse(reply.text.value).value).title != "" ==>
      a == Accepted(FromValidated(parse(reply.text.value).value))
  {
    match reply
    case GenerateThrew(e) => Raised(e)
    case Generated(text) =>
      if !Present(text) then Retried
      else
        match parse(text.value)
        case Err(e) => Raised(e)
        case Ok(v) =>
          if Truthy(v) && Validate(v) && FromValidated(v).title != "" then Accepted(FromValidated(v))
          else Retried
  }

  /** What QueryCleaning does from attempt `attempt` on, every attempt sending `request`. */
  function Cleaning(query: string, request: GenerateRequest, replies: seq<GenerateReply>, parse: string -> Result<Json>, attempt: nat): (r: Run)
    requires MaxAttempts <= |replies|
    ensures r.result.Ok? ==> r.result.value == SongInfo(query, []) || r.result.value.title != ""
    ensures attempt < MaxAttempts ==> |r.trace| > 0 && r.trace[0] == GenerateCall(request)
    decreases MaxAttempts - attempt
  {
    if attempt >= MaxAttempts then Run(Ok(SongInfo(query, [])), [])
    else
      var call := GenerateCall(request);
      match AttemptOn(replies[attempt], parse)
      case Accepted(info) => Run(Ok(info), [call])
      case Raised(e) => Run(Err(e), [call])
      case Retried =>
        var rest := Cleaning(query, request, replies, parse, attempt + 1);
        Run(rest.result, [call, Delay(RetryDelayMs)] + rest.trace)
  }

  /** The first attempt from `attempt` on that is not retried, or MaxAttempts if all are. */
  function Deciding(replies: seq<GenerateReply>, parse: string -> Result<Json>, attempt: nat): (k: nat)
    requires attempt <= MaxAttempts <= |replies|
    ensures attempt <= k <= MaxAttempts
    ensures forall j :: attempt <= j < k ==> AttemptOn(replies[j], parse).Retried?
    ensures k < MaxAttempts ==> !AttemptOn(replies[k], parse).Retried?
    decreases MaxAttempts - attempt
  {
    if attempt == MaxAttempts || !AttemptOn(replies[attempt], parse).Retried? then attempt
    else Deciding(replies, parse, attempt + 1)
  }

  /** `n` retried attempts: each a call followed by a wait. */
  function RetriedAttempts(request: GenerateRequest, n: nat): seq<Event> {
    if n == 0 then [] else [GenerateCall(request), Delay(RetryDelayMs)] + RetriedAttempts(request, n - 1)
  }

  function CallCount(trace: seq<Event>): nat {
    if trace == [] then 0 else (if trace[0].GenerateCall? then 1 else 0) + CallCount(trace[1..])
  }

  /** The whole behaviour from attempt `a` on. With `k` the first attempt not retried, the
      trace is a call and a 10 000 ms wait for each retried attempt, then, if `k` is a real
      attempt, its call with no wait after it. The result is the reply of attempt `k` if it was
      accepted, its error if it threw, and `SongInfo(query, [])` if every attempt was retried. */
  lemma {:induction false} CleaningShape(query: string, request: GenerateRequest, replies: seq<GenerateReply>, parse: string -> Result<Json>, a: nat)
    requires a <= MaxAttempts <= |replies|
    ensures var k := Deciding(replies, parse, a);
      var run := Cleaning(query, request, replies, parse, a);
      && run.trace == RetriedAttempts(request, k - a) + (if k < MaxAttempts then [GenerateCall(request)] else [])
      && run.result == (if k == MaxAttempts then Ok(SongInfo(query, []))
                        else match AttemptOn(replies[k], parse)
                          case Accepted(info) => Ok(info)
                          case Raised(e) => Err(e)
                          case Retried => Ok(SongInfo(query, [])))
    decreases MaxAttempts - a
  {
    if a < MaxAttempts && AttemptOn(replies[a], parse).Retried? {
      CleaningShape(query, request, replies, parse, a + 1);
      var k := Deciding(replies, parse, a);
      assert k == Deciding(replies, parse, a + 1);
      var tail := if k < MaxAttempts then [GenerateCall(request)] else [];
      assert RetriedAttempts(request, k - a) == [GenerateCall(request), Delay(RetryDelayMs)] + RetriedAttempts(request, k - (a + 1));
      assert [GenerateCall(request), Delay(RetryDelayMs)] + (RetriedAttempts(request, k - (a + 1)) + tail)
          == ([GenerateCall(request), Delay(RetryDelayMs)] + RetriedAttempts(request, k - (a + 1))) + tail;
    }
  }

  lemma {:induction false} CallCountAppend(s: seq<Event>, t: seq<Event>)
    ensures CallCount(s + t) == CallCount(s) + CallCount(t)
    decreases |s|
  {
    if s == [] {
      assert s + t == t;
    } else {
      assert (s + t)[0] == s[0];
      assert (s + t)[1..] == s[1..] + t;
      CallCountAppend(s[1..], t);
    }
  }

  lemma {:induction false} RetriedAttemptsCalls(request: GenerateRequest, n: nat)
    ensures CallCount(RetriedAttempts(request, n)) == n
    ensures forall i :: 0 <= i < |RetriedAttempts(request, n)| ==>
      RetriedAttempts(request, n)[i] == (if i % 2 == 0 then GenerateCall(request) else Delay(RetryDelayMs))
    ensures |RetriedAttempts(request, n)| == 2 * n
  {
    if n > 0 {
      RetriedAttemptsCalls(request, n - 1);
      var pair := [GenerateCall(request), Delay(RetryDelayMs)];
      CallCountAppend(pair, RetriedAttempts(request, n - 1));
      assert CallCount(pair) == 1 by {
        assert pair[1..] == [Delay(RetryDelayMs)];
        assert pair[1..][1..] == [];
      }
    }
  }

  /** `generateContent` is called at most three times, once per attempt up to and including
      the first one that is not retried, and every call sends the same request: the model id,
      the response schema and the prompt for the query. */
  lemma CallsPerRun(query: string, request: GenerateRequest, replies: seq<GenerateReply>, parse: string -> Result<Json>)
    requires MaxAttempts <= |replies|
    ensures var k := Deciding(replies, parse, 0);
      var run := Cleaning(query, request, replies, parse, 0);
      && CallCount(run.trace) == (if k < MaxAttempts then k + 1 else MaxAttempts)
      && CallCount(run.trace) <= MaxAttempts
      && forall i :: 0 <= i < |run.trace| && run.trace[i].GenerateCall? ==> run.trace[i].request == request
  {
    var k := Deciding(replies, parse, 0);
    CleaningShape(query, request, replies, parse, 0);
    RetriedAttemptsCalls(request, k);
    var tail := if k < MaxAttempts then [GenerateCall(request)] else [];
    CallCountAppend(RetriedAttempts(request, k), tail);
    assert CallCount(tail) == (if k < MaxAttempts then 1 else 0) by {
      if k < MaxAttempts { assert tail[1..] == []; }
    }
  }

  /** The events of `k` retried attempts, and of a deciding one if `decided`: the call of
      attempt `j` at position `2 * j`, each but the deciding one followed by a 10 000 ms wait. */
  lemma ShapeLayout(request: GenerateRequest, k: nat, decided: bool)
    ensures var t := RetriedAttempts(request, k) + (if decided then [GenerateCall(request)] else []);
      && (forall i :: 0 <= i < |t| && t[i].GenerateCall? ==>
            && (i / 2 < k || (decided && i / 2 == k))
            && (i + 1 < |t| <==> i / 2 < k))
      && (forall i :: 0 <= i < |t| && t[i].Delay? ==> i > 0 && t[i - 1].GenerateCall? && t[i].ms == RetryDelayMs)
      && (decided ==> t[|t| - 1].GenerateCall?)
  {
    RetriedAttemptsCalls(request, k);
    var t := RetriedAttempts(request, k) + (if decided then [GenerateCall(request)] else []);
    forall i | 0 <= i < |t| && t[i].GenerateCall?
      ensures && (i / 2 < k || (decided && i / 2 == k))
              && (i + 1 < |t| <==> i / 2 < k)
    {
      if i < 2 * k {
        assert i % 2 == 0;
      }
    }
    forall i | 0 <= i < |t| && t[i].Delay?
      ensures i > 0 && t[i - 1].GenerateCall? && t[i].ms == RetryDelayMs
    {
      assert i < 2 * k && i % 2 == 1;
    }
  }

  /** Every retried attempt is followed by a 10 000 ms wait, the third included; the attempt
      that returns or throws is not. The call at position `i` is attempt `i / 2`. */
  lemma DelayAfterEveryRetry(query: string, request: GenerateRequest, replies: seq<GenerateReply>, parse: string -> Result<Json>)
    requires MaxAttempts <= |replies|
    ensures var run := Cleaning(query, request, replies, parse, 0);
      && (forall i :: 0 <= i < |run.trace| && run.trace[i].GenerateCall? ==>
            (i + 1 < |run.trace| <==> AttemptOn(replies[i / 2], parse).Retried?))
      && (forall i :: 0 <= i < |run.trace| && run.trace[i].Delay? ==>
            i > 0 && run.trace[i - 1].GenerateCall? && run.trace[i].ms == RetryDelayMs)
      && (Deciding(replies, parse, 0) < MaxAttempts ==> run.trace[|run.trace| - 1].GenerateCall?)
  {
    var k := Deciding(replies, parse, 0);
    CleaningShape(query, request, replies, parse, 0);
    ShapeLayout(request, k, k < MaxAttempts);
  }

  /** Every attempt retried: the raw query comes back as the title with no artists, after
      exactly three calls and three waits. */
  lemma FallbackWhenAllRetried(query: string, request: GenerateRequest, replies: seq<GenerateReply>, parse: string -> Result<Json>)
    requires MaxAttempts <= |replies|
    requires forall j :: 0 <= j < MaxAttempts ==> AttemptOn(replies[j], parse).Retried?
    ensures var run := Cleaning(query, request, replies, parse, 0);
      && run.result == Ok(SongInfo(query, []))
      && run.trace == RetriedAttempts(request, MaxAttempts)
  {
    CleaningShape(query, request, replies, parse, 0);
  }

  /** Two unusable replies and then a valid one: the third reply is returned as it was sent,
      after three calls with a wait after each of the first two. */
  lemma ThirdReplyAccepted(query: string, request: GenerateRequest, replies: seq<GenerateReply>, parse: string -> Result<Json>, info: SongInfo)
    requires MaxAttempts <= |replies|
    requires AttemptOn(replies[0], parse).Retried? && AttemptOn(replies[1], parse).Retried?
    requires AttemptOn(replies[2], parse) == Accepted(info)
    ensures var run := Cleaning(query, request, replies, parse, 0);
      && run.result == Ok(info)
      && run.trace == RetriedAttempts(request, 2) + [GenerateCall(request)]
  {
    CleaningShape(query, request, replies, parse, 0);
  }

  /** An empty title passes `SongInfo.validate` but the reply is still retried: the non-empty
      check belongs to the caller. */
  lemma EmptyTitleRetried(text: string, parse: string -> Result<Json>, artist: seq<string>)
    requires text != "" && parse(text) == Ok(ToJson(SongInfo("", artist)))
    ensures ToJson(SongInfo("", artist)) != JNull && Validate(ToJson(SongInfo("", artist)))
    ensures AttemptOn(Generated(Some(text)), parse) == Retried
  {
    FromToJson(SongInfo("", artist));
  }

  /** A retried attempt appends a call and a wait. */
  lemma {:induction false} RetriedAttemptsSnoc(request: GenerateRequest, n: nat)
    ensures RetriedAttempts(request, n + 1) == RetriedAttempts(request, n) + [GenerateCall(request), Delay(RetryDelayMs)]
  {
    if n > 0 {
      RetriedAttemptsSnoc(request, n - 1);
      var pair := [GenerateCall(request), Delay(RetryDelayMs)];
      assert pair + (RetriedAttempts(request, n - 1) + pair) == (pair + RetriedAttempts(request, n - 1)) + pair;
    }
  }

  /** The run, once it is known which attempt `k` decides it. */
  lemma DecidedAt(query: string, request: GenerateRequest, replies: seq<GenerateReply>, parse: string -> Result<Json>, k: nat)
    requires k <= MaxAttempts <= |replies|
    requires forall j :: 0 <= j < k ==> AttemptOn(replies[j], parse).Retried?
    requires k < MaxAttempts ==> !AttemptOn(replies[k], parse).Retried?
    ensures Deciding(replies, parse, 0) == k
    ensures k < MaxAttempts && AttemptOn(replies[k], parse).Raised? ==>
      Cleaning(query, request, replies, parse, 0)
        == Run(Err(AttemptOn(replies[k], parse).error), RetriedAttempts(request, k) + [GenerateCall(request)])
    ensures k < MaxAttempts && AttemptOn(replies[k], parse).Accepted? ==>
      Cleaning(query, request, replies, parse, 0)
        == Run(Ok(AttemptOn(replies[k], parse).info), RetriedAttempts(request, k) + [GenerateCall(request)])
    ensures k == MaxAttempts ==>
      Cleaning(query, request, replies, parse, 0) == Run(Ok(SongInfo(query, [])), RetriedAttempts(request, k))
  {
    CleaningShape(query, request, replies, parse, 0);
    assert RetriedAttempts(request, k) + [] == RetriedAttempts(request, k);
  }

  /** The retry loop of QueryCleaning: each attempt sends `model`, `config` and `prompt`. */
  method AskModel(songQuery: string, model: string, config: GenerationConfig, prompt: seq<QueryRefinePrompt.Message>,
                  replies: seq<GenerateReply>, parse: string -> Result<Json>)
    returns (result: Result<SongInfo>, trace: seq<Event>)
    requires MaxAttempts <= |replies|
    ensures Run(result, trace) == Cleaning(songQuery, GenerateRequest(model, config, prompt), replies, parse, 0)
  {
    var attempts: nat := 0;
    var parsedResponse: Json := JNull;
    trace := [];
    while attempts < MaxAttempts
      invariant attempts <= MaxAttempts
      invariant trace == RetriedAttempts(GenerateRequest(model, config, prompt), attempts)
      invariant forall j :: 0 <= j < attempts ==> AttemptOn(replies[j], parse).Retried?
      decreases MaxAttempts - attempts
    {
      var request := GenerateRequest(model, config, prompt);
      trace := trace + [GenerateCall(request)];
      var response := replies[attempts];
      if response.GenerateThrew? {
        DecidedAt(songQuery, request, replies, parse, attempts);
        result := Err(response.error);
        return;
      }
      if Present(response.text) {
        var parsed := parse(response.text.value);
        if parsed.Err? {
          DecidedAt(songQuery, request, replies, parse, attempts);
          result := Err(parsed.message);
          return;
        }
        parsedResponse := parsed.value;
      } else {
        parsedResponse := JNull;
      }
      if Truthy(parsedResponse) && Validate(parsedResponse) && FromValidated(parsedResponse).title != "" {
        DecidedAt(songQuery, request, replies, parse, attempts);
        result := Ok(FromValidated(parsedResponse));
        return;
      }
      assert AttemptOn(response, parse).Retried?;
      RetriedAttemptsSnoc(request, attempts);
      attempts := attempts + 1;
      trace := trace + [Delay(RetryDelayMs)];
    }
    DecidedAt(songQuery, GenerateRequest(model, config, prompt), replies, parse, attempts);
    result := Ok(SongInfo(songQuery, []));
  }

  /** QueryCleaning(songQuery, apiKey): the model is asked up to MaxAttempts times through
      `replies`, the oracle of what each `generateContent` call does, and `parse` stands for
      `JSON.parse`. Every attempt sends the request for `songQuery`. */
  method QueryCleaning(songQuery: string, replies: seq<GenerateReply>, parse: string -> Result<Json>)
    returns (result: Result<SongInfo>, trace: seq<Event>)
    requires MaxAttempts <= |replies|
    ensures Run(result, trace) == Cleaning(songQuery, RequestFor(songQuery), replies, parse, 0)
  {
    var prompt := QueryRefinePrompt.ExtractSongDetailsPrompt(songQuery);
    var config := ResponseConfig;
    var model := ModelId;
    result, trace := AskModel(songQuery, model, config, prompt, replies, parse);
  }
}
