/** The two rules of backend/ai_services.py that are code rather than calls
    into other services: the stripping of a Markdown code fence from the
    vision model's reply before it is parsed as JSON, and the wrapping of
    every failure of either analysis step into an HTTP error.

    The Gemini SDK call, the HTTP request to Ollama, base64 encoding,
    `json.loads` and the pydantic models are foreign: an exchange with a
    service is a datatype value, and "parse this text into a response" is a
    function parameter that succeeds or fails with the exception's text. */
module AiServices {
  import opened Wrappers

  // ---------------------------------------------------------------------
  // Python strings

  /** `str.isspace()` on one code point: the characters Python's `strip()`
      removes when given no argument. */
  predicate IsSpace(c: char) {
    c == ' ' || ('\t' <= c <= '\r') || ('\U{1C}' <= c <= '\U{1F}') ||
    c == '\U{85}' || c == '\U{A0}' || c == '\U{1680}' ||
    ('\U{2000}' <= c <= '\U{200A}') || c == '\U{2028}' || c == '\U{2029}' ||
    c == '\U{202F}' || c == '\U{205F}' || c == '\U{3000}'
  }

  predicate AllSpace(s: string) {
    forall i :: 0 <= i < |s| ==> IsSpace(s[i])
  }

  /** Neither end of `s` is whitespace. */
  predicate IsStripped(s: string) {
    s == [] || (!IsSpace(s[0]) && !IsSpace(s[|s| - 1]))
  }

  predicate StartsWith(s: string, prefix: string) {
    |prefix| <= |s| && s[..|prefix|] == prefix
  }

  /** The length of the longest all-whitespace prefix of `s`. */
  function LeadingSpaces(s: string): (n: nat)
    ensures n <= |s|
    ensures forall i :: 0 <= i < n ==> IsSpace(s[i])
    ensures n < |s| ==> !IsSpace(s[n])
  {
    if |s| > 0 && IsSpace(s[0]) then 1 + LeadingSpaces(s[1..]) else 0
  }

  /** The length of the longest all-whitespace suffix of `s`. */
  function TrailingSpaces(s: string): (n: nat)
    ensures n <= |s|
    ensures forall i :: |s| - n <= i < |s| ==> IsSpace(s[i])
    ensures n < |s| ==> !IsSpace(s[|s| - n - 1])
  {
    if |s| > 0 && IsSpace(s[|s| - 1]) then 1 + TrailingSpaces(s[..|s| - 1]) else 0
  }

  /** `s.strip()`: `s` with its leading and trailing whitespace removed. */
  function Strip(s: string): (r: string)
    ensures IsStripped(r)
    ensures LeadingSpaces(s) + |r| <= |s|
    ensures r == s[LeadingSpaces(s)..LeadingSpaces(s) + |r|]
    ensures AllSpace(s[..LeadingSpaces(s)]) && AllSpace(s[LeadingSpaces(s) + |r|..])
  {
    var rest := s[LeadingSpaces(s)..];
    rest[..|rest| - TrailingSpaces(rest)]
  }

  lemma {:induction false} LeadingSpacesOfPadded(a: string, m: string)
    requires AllSpace(a)
    requires m == [] || !IsSpace(m[0])
    ensures LeadingSpaces(a + m) == |a|
  {
    if a != [] {
      assert (a + m)[1..] == a[1..] + m;
      LeadingSpacesOfPadded(a[1..], m);
    } else {
      assert a + m == m;
    }
  }

  lemma {:induction false} TrailingSpacesOfPadded(m: string, b: string)
    requires AllSpace(b)
    requires m == [] || !IsSpace(m[|m| - 1])
    ensures TrailingSpaces(m + b) == |b|
  {
    if b != [] {
      assert (m + b)[..|m + b| - 1] == m + b[..|b| - 1];
      TrailingSpacesOfPadded(m, b[..|b| - 1]);
    } else {
      assert m + b == m;
    }
  }

  /** Stripping recovers the text between any two runs of whitespace, so
      `Strip` is determined by its contract; in particular it is idempotent. */
  lemma StripPadded(a: string, m: string, b: string)
    requires AllSpace(a) && AllSpace(b) && IsStripped(m)
    ensures Strip(a + m + b) == m
  {
    var s := a + m + b;
    if m == [] {
      assert s == (a + b) + [];
      assert AllSpace(a + b);
      LeadingSpacesOfPadded(a + b, []);
    } else {
      assert s == a + (m + b);
      LeadingSpacesOfPadded(a, m + b);
      assert s[|a|..] == m + b;
      TrailingSpacesOfPadded(m, b);
    }
  }

  lemma StripIdempotent(s: string)
    ensures Strip(Strip(s)) == Strip(s)
  {
  }

  /** A Python index into a sequence of length `n`, as a slice bound:
      negative values count from the end, and the result is clamped. */
  function SliceBound(i: int, n: nat): (k: nat)
    ensures k <= n
  {
    if i < 0 then (if i + n < 0 then 0 else i + n) else if i > n then n else i
  }

  /** `s[start:stop]` with Python's slice semantics: empty when the
      normalised stop does not exceed the normalised start. */
  function PySlice(s: string, start: int, stop: int): (r: string)
    ensures |r| <= |s|
    ensures 0 <= start <= stop <= |s| ==> r == s[start..stop]
    ensures 0 <= start && stop < 0 && start >= stop + |s| ==> r == []
  {
    var a, b := SliceBound(start, |s|), SliceBound(stop, |s|);
    if a < b then s[a..b] else []
  }

  /** `s[k:-3]` for a non-negative `k`: drop `k` characters in front and
      always three at the end, or give the empty string if fewer than
      `k + 3` characters are there. */
  lemma DropThreeSlice(s: string, k: nat)
    ensures |s| >= k + 3 ==> PySlice(s, k, -3) == s[k..|s| - 3]
    ensures |s| < k + 3 ==> PySlice(s, k, -3) == []
  {
  }

  // ---------------------------------------------------------------------
  // Code-fence stripping (the `result_text` sequence of analyze_with_gemini)

  const JsonFence: string := "```json"
  const Fence: string := "```"

  /** The text handed to `json.loads`. */
  function StripFence(text: string): (r: string)
    ensures IsStripped(r)
    ensures |r| <= |Strip(text)|
    ensures !StartsWith(Strip(text), Fence) ==> r == Strip(text)
  {
    var t := Strip(text);
    if StartsWith(t, JsonFence) then Strip(PySlice(t, 7, -3))
    else if StartsWith(t, Fence) then Strip(PySlice(t, 3, -3))
    else t
  }

  /** Whitespace around a reply that is already stripped does not change
      what is handed on. */
  lemma StripFencePadded(before: string, t: string, after: string)
    requires AllSpace(before) && AllSpace(after) && IsStripped(t)
    ensures StripFence(before + t + after) == StripFence(t)
  {
    StripPadded(before, t, after);
    StripPadded([], t, []);
    assert [] + t + [] == t;
  }

  lemma StripFenceOfJson(t: string)
    requires IsStripped(t) && StartsWith(t, JsonFence)
    ensures |t| >= 10 ==> StripFence(t) == Strip(t[7..|t| - 3])
    ensures |t| < 10 ==> StripFence(t) == []
  {
    StripPadded([], t, []);
    assert [] + t + [] == t;
    DropThreeSlice(t, 7);
  }

  lemma StripFenceOfBare(t: string)
    requires IsStripped(t) && StartsWith(t, Fence) && !StartsWith(t, JsonFence)
    ensures |t| >= 6 ==> StripFence(t) == Strip(t[3..|t| - 3])
    ensures |t| < 6 ==> StripFence(t) == []
  {
    StripPadded([], t, []);
    assert [] + t + [] == t;
    DropThreeSlice(t, 3);
  }

  /** A reply fenced as `json`, with any whitespace around the fences,
      yields its stripped contents; the `json` tag is removed with the
      opening fence rather than being left for the bare-fence rule. */
  lemma JsonFenceRoundTrip(before: string, inner: string, after: string)
    requires AllSpace(before) && AllSpace(after)
    ensures StripFence(before + JsonFence + inner + Fence + after) == Strip(inner)
  {
    var fenced := JsonFence + inner + Fence;
    assert IsStripped(fenced) by {
      assert fenced[0] == '`' && fenced[|fenced| - 1] == '`';
    }
    assert before + JsonFence + inner + Fence + after == before + fenced + after;
    StripFencePadded(before, fenced, after);
    assert StartsWith(fenced, JsonFence) by {
      assert fenced[..7] == JsonFence;
    }
    StripFenceOfJson(fenced);
    assert fenced[7..|fenced| - 3] == inner;
  }

  /** A bare fence around contents that do not begin with `json` is not
      mistaken for a `json` fence. */
  lemma BareFenceIsNotJson(inner: string)
    requires !StartsWith(inner, "json")
    ensures !StartsWith(Fence + inner + Fence, JsonFence)
  {
    var fenced := Fence + inner + Fence;
    if |inner| >= 4 {
      assert fenced[3..7] == inner[..4];
    } else {
      assert fenced[3 + |inner|] == '`';
      assert JsonFence[3 + |inner|] != '`';
    }
  }

  /** A reply inside a bare fence yields its stripped contents, provided
      the contents do not begin with `json` (those are taken by the rule above). */
  lemma BareFenceRoundTrip(before: string, inner: string, after: string)
    requires AllSpace(before) && AllSpace(after)
    requires !StartsWith(inner, "json")
    ensures StripFence(before + Fence + inner + Fence + after) == Strip(inner)
  {
    var fenced := Fence + inner + Fence;
    assert IsStripped(fenced) by {
      assert fenced[0] == '`' && fenced[|fenced| - 1] == '`';
    }
    assert before + Fence + inner + Fence + after == before + fenced + after;
    StripFencePadded(before, fenced, after);
    assert StartsWith(fenced, Fence) by {
      assert fenced[..3] == Fence;
    }
    BareFenceIsNotJson(inner);
    StripFenceOfBare(fenced);
    assert fenced[3..|fenced| - 3] == inner;
  }

  /** The closing fence is never looked for: after an opening `json`
      fence, the last three characters are dropped whatever they are, and
      a reply shorter than ten characters becomes empty. */
  lemma ClosingFenceNotChecked(body: string)
    requires body == [] || !IsSpace(body[|body| - 1])
    ensures |body| >= 3 ==> StripFence(JsonFence + body) == Strip(body[..|body| - 3])
    ensures |body| < 3 ==> StripFence(JsonFence + body) == []
  {
    var t := JsonFence + body;
    assert IsStripped(t) by {
      assert t[0] == '`' && t[|t| - 1] == (if body == [] then 'n' else body[|body| - 1]);
    }
    assert StartsWith(t, JsonFence) by {
      assert t[..7] == JsonFence;
    }
    StripFenceOfJson(t);
    if |body| >= 3 {
      assert t[7..|t| - 3] == body[..|body| - 3];
    }
  }

  // ---------------------------------------------------------------------
  // Failures as HTTP errors

  /** A FastAPI `HTTPException`. */
  datatype HttpError = HttpError(status: int, detail: string)

  const GeminiPrefix: string := "Gemini analysis failed: "
  const OllamaPrefix: string := "Ollama analysis failed: "
  const OllamaNotRunning: string := "Ollama service not running. Please start Ollama."

  /** The exception raised for a non-200 answer from Ollama. */
  const OllamaUnavailable: HttpError := HttpError(500, "Ollama service unavailable")

  /** One decimal digit. */
  function Digit(d: nat): (c: char)
    requires d < 10
    ensures '0' <= c <= '9' && c as int - '0' as int == d
  {
    "0123456789"[d]
  }

  /** `str(e)` for an `HTTPException` with a three-digit status code:
      Starlette renders it as `"<status>: <detail>"`. */
  function HttpErrorText(e: HttpError): (t: string)
    requires 100 <= e.status < 1000
    ensures |t| == 5 + |e.detail| && t[3..5] == ": " && t[5..] == e.detail
    ensures forall j :: 0 <= j < 3 ==> '0' <= t[j] <= '9'
    ensures (t[0] as int - '0' as int) * 100 + (t[1] as int - '0' as int) * 10
            + (t[2] as int - '0' as int) == e.status
  {
    [Digit(e.status / 100), Digit(e.status / 10 % 10), Digit(e.status % 10)] + ": " + e.detail
  }

  lemma UnavailableText()
    ensures HttpErrorText(OllamaUnavailable) == "500: Ollama service unavailable"
  {
  }

  /** What the Gemini SDK call gives: a raised exception with its text, or
      the reply's `text`. */
  datatype GeminiExchange = SdkRaised(text: string) | Replied(text: string)

  /** `analyze_with_gemini`: `parse` stands for `json.loads` followed by
      building a `GeminiResponse`, and fails with the exception's text. */
  function AnalyzeWithGemini<T>(exchange: GeminiExchange, parse: string -> Result<T, string>): (r: Result<T, HttpError>)
    ensures r.Success? <==> exchange.Replied? && parse(StripFence(exchange.text)).Success?
    ensures r.Success? ==> r.value == parse(StripFence(exchange.text)).value
    ensures r.Failure? ==> r.error.status == 500 && StartsWith(r.error.detail, GeminiPrefix)
    ensures exchange.SdkRaised? ==> r == Failure(HttpError(500, GeminiPrefix + exchange.text))
  {
    match exchange
    case SdkRaised(text) => Failure(HttpError(500, GeminiPrefix + text))
    case Replied(text) =>
      match parse(StripFence(text))
      case Success(response) => Success(response)
      case Failure(message) => Failure(HttpError(500, GeminiPrefix + message))
  }

  /** What the request to Ollama gives: a connection error, any other
      raised exception with its text, or an answer with its status code and
      body. */
  datatype OllamaExchange = ConnectFailed | Raised(text: string) | Answered(status: int, body: string)

  /** `analyze_with_ollama`: `parse` stands for `response.json()`, reading
      its `response` field, `json.loads` and building an `OllamaResponse`.
      The `HTTPException` raised for a non-200 answer is itself caught by
      the generic handler and re-wrapped. */
  function AnalyzeWithOllama<T>(exchange: OllamaExchange, parse: string -> Result<T, string>): (r: Result<T, HttpError>)
    ensures exchange.ConnectFailed? <==> r == Failure(HttpError(503, OllamaNotRunning))
    ensures !exchange.ConnectFailed? && r.Failure? ==> r.error.status == 500 && StartsWith(r.error.detail, OllamaPrefix)
    ensures exchange.Answered? && exchange.status != 200 ==>
              r == Failure(HttpError(500, OllamaPrefix + "500: Ollama service unavailable"))
    ensures r.Success? <==> exchange.Answered? && exchange.status == 200 && parse(exchange.body).Success?
    ensures r.Success? ==> r.value == parse(exchange.body).value
  {
    match exchange
    case ConnectFailed => Failure(HttpError(503, OllamaNotRunning))
    case Raised(text) => Failure(HttpError(500, OllamaPrefix + text))
    case Answered(status, body) =>
      if status != 200 then
        UnavailableText();
        Failure(HttpError(500, OllamaPrefix + HttpErrorText(OllamaUnavailable)))
      else
        match parse(body)
        case Success(response) => Success(response)
        case Failure(message) => Failure(HttpError(500, OllamaPrefix + message))
  }
}
