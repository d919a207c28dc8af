/** The browser-side helpers of client/src/lib/openai.ts: the image check run before a photo
    is sent, the data-URL formatter, and the error and response formatters. */
module ClientOpenAI {
  import opened JsValues
  import opened Schema

  /** `OPENAI_CONFIG.vision.maxImageSize`: 20 MiB. */
  const MaxImageSize := 20 * 1024 * 1024

  /** A regular-expression word character: an ASCII letter, digit or underscore. */
  predicate IsWordChar(c: char) {
    ('A' <= c <= 'Z') || ('a' <= c <= 'z') || ('0' <= c <= '9') || c == '_'
  }

  /** The base64 alphabet the check accepts: ASCII letters, digits, plus, slash and the
      padding sign. */
  predicate IsBase64Char(c: char) {
    ('A' <= c <= 'Z') || ('a' <= c <= 'z') || ('0' <= c <= '9') || c == '+' || c == '/' || c == '='
  }

  const ImagePrefix := "data:image/"
  const Base64Marker := ";base64,"

  /** A complete data-URL prefix: "data:image/", a non-empty run of word characters naming
      the format, then ";base64,". */
  predicate IsDataUrlPrefix(p: string) {
    && |p| > |ImagePrefix| + |Base64Marker|
    && p[..|ImagePrefix|] == ImagePrefix
    && p[|p| - |Base64Marker|..] == Base64Marker
    && forall i :: |ImagePrefix| <= i < |p| - |Base64Marker| ==> IsWordChar(p[i])
  }

  /** The length of the run of word characters at the front of `s`: as much as a greedy
      word-character repetition takes. */
  function WordRun(s: string): (n: nat)
    ensures n <= |s|
    ensures forall i :: 0 <= i < n ==> IsWordChar(s[i])
    ensures n < |s| ==> !IsWordChar(s[n])
  {
    if s != [] && IsWordChar(s[0]) then 1 + WordRun(s[1..]) else 0
  }

  /** A run of word characters followed by a non-word character is consumed exactly. */
  lemma {:induction false} WordRunStopsAt(w: string, t: string)
    requires forall i :: 0 <= i < |w| ==> IsWordChar(w[i])
    requires t != [] && !IsWordChar(t[0])
    ensures WordRun(w + t) == |w|
    decreases |w|
  {
    if w != [] {
      assert (w + t)[1..] == w[1..] + t;
      WordRunStopsAt(w[1..], t);
    }
  }

  /** The first step of `validateImageData`: removes one data-URL prefix at the very start,
      if there is one, and nothing else. */
  function StripDataUrlPrefix(s: string): (r: string)
    ensures |r| <= |s| && r == s[|s| - |r|..]
    ensures r != s ==> IsDataUrlPrefix(s[..|s| - |r|])
  {
    if StartsWith(s, ImagePrefix) then
      var n := WordRun(s[|ImagePrefix|..]);
      var end := |ImagePrefix| + n + |Base64Marker|;
      if n > 0 && end <= |s| && s[|ImagePrefix| + n..end] == Base64Marker then
        assert s[..end][..|ImagePrefix|] == ImagePrefix;
        assert s[..end][end - |Base64Marker|..] == Base64Marker;
        assert forall i :: |ImagePrefix| <= i < end - |Base64Marker| ==>
          s[..end][i] == s[|ImagePrefix|..][i - |ImagePrefix|];
        s[end..]
      else s
    else s
  }

  /** The prefix is removed whatever follows it, and only that prefix. */
  lemma StripRemovesPrefix(p: string, body: string)
    requires IsDataUrlPrefix(p)
    ensures StripDataUrlPrefix(p + body) == body
  {
    var s := p + body;
    var w := p[|ImagePrefix|..|p| - |Base64Marker|];
    assert s[..|ImagePrefix|] == ImagePrefix;
    assert s[|ImagePrefix|..] == w + (Base64Marker + body);
    WordRunStopsAt(w, Base64Marker + body);
    assert s[|ImagePrefix| + |w|..|p|] == Base64Marker;
  }

  /** A string with no data-URL prefix is left unchanged. */
  lemma StripKeepsUnprefixed(s: string)
    requires forall k :: 0 <= k <= |s| ==> !IsDataUrlPrefix(s[..k])
    ensures StripDataUrlPrefix(s) == s
  {
  }

  /** What the character check and the size check accept: a non-empty base64 string whose
      decoded size, estimated as three quarters of its length, is at most 20 MiB. */
  predicate IsPayload(d: string) {
    && d != ""
    && (forall i :: 0 <= i < |d| ==> IsBase64Char(d[i]))
    && |d| * 3 <= 4 * MaxImageSize
  }

  /** `validateImageData`. */
  function ValidateImageData(s: string): (ok: bool)
    ensures ok ==> s != ""
  {
    if s == "" then false
    else
      var d := StripDataUrlPrefix(s);
      if !(d != "" && forall i :: 0 <= i < |d| ==> IsBase64Char(d[i])) then false
      else if |d| * 3 > 4 * MaxImageSize then false
      else true
  }

  /** After an optional data-URL prefix, the image must be an acceptable payload. */
  lemma ValidateWithPrefix(p: string, body: string)
    requires IsDataUrlPrefix(p)
    ensures ValidateImageData(p + body) == IsPayload(body)
  {
    StripRemovesPrefix(p, body);
  }

  /** Without a prefix, the image itself must be an acceptable payload. */
  lemma ValidateWithoutPrefix(s: string)
    requires forall k :: 0 <= k <= |s| ==> !IsDataUrlPrefix(s[..k])
    ensures ValidateImageData(s) == IsPayload(s)
  {
    StripKeepsUnprefixed(s);
  }

  /** A character outside the base64 alphabet after the prefix fails the check. */
  lemma NonBase64Rejected(s: string, i: int)
    requires 0 <= i < |StripDataUrlPrefix(s)| && !IsBase64Char(StripDataUrlPrefix(s)[i])
    ensures !ValidateImageData(s)
  {
  }

  /** Only one prefix is removed: a doubly prefixed image is rejected, since the second
      prefix holds a ':' that base64 does not allow. */
  lemma DoublePrefixRejected(p: string, q: string, body: string)
    requires IsDataUrlPrefix(p) && IsDataUrlPrefix(q)
    ensures !ValidateImageData(p + (q + body))
  {
    StripRemovesPrefix(p, q + body);
    assert q[4] == q[..|ImagePrefix|][4] == ':';
    assert (q + body)[4] == q[4];
    NonBase64Rejected(p + (q + body), 4);
  }

  /** The size check in characters: at most 27962026 base64 characters get through. */
  lemma AcceptedPayloadLength(d: string)
    requires IsPayload(d)
    ensures |d| <= 27962026
  {
  }

  /** `formatImageData`: adds the JPEG data-URL prefix unless the image already starts like a
      data URL. */
  function FormatImageData(s: string): (r: string)
    ensures StartsWith(r, ImagePrefix)
    ensures StartsWith(s, ImagePrefix) ==> r == s
    ensures !StartsWith(s, ImagePrefix) ==> r == JpegDataUrlPrefix + s
  {
    if !StartsWith(s, ImagePrefix) then
      assert (JpegDataUrlPrefix + s)[..|ImagePrefix|] == JpegDataUrlPrefix[..|ImagePrefix|];
      JpegDataUrlPrefix + s
    else s
  }

  lemma FormatIsIdempotent(s: string)
    ensures FormatImageData(FormatImageData(s)) == FormatImageData(s)
  {
  }

  lemma JpegPrefixIsDataUrlPrefix()
    ensures IsDataUrlPrefix(JpegDataUrlPrefix)
  {
    assert JpegDataUrlPrefix[..|ImagePrefix|] == ImagePrefix;
    assert JpegDataUrlPrefix[|JpegDataUrlPrefix| - |Base64Marker|..] == Base64Marker;
  }

  /** Formatting never changes the verdict of the image check. */
  lemma ValidateIgnoresFormatting(s: string)
    ensures ValidateImageData(FormatImageData(s)) == ValidateImageData(s)
  {
    if !StartsWith(s, ImagePrefix) {
      JpegPrefixIsDataUrlPrefix();
      ValidateWithPrefix(JpegDataUrlPrefix, s);
      ValidateWithoutPrefix(s);
    }
  }

  /** `error.response.data.error`: the body of a failed API reply. */
  datatype ApiErrorBody = ApiErrorBody(message: Option<string>, code: Option<string>)

  /** `error.response`: the failed reply, with its parsed error body if there is one. */
  datatype ErrorReply = ErrorReply(error: Option<ApiErrorBody>, status: Option<int>)

  /** A thrown error as `formatOpenAIError` reads it. */
  datatype ThrownError = ThrownError(response: Option<ErrorReply>, message: Option<string>)

  datatype OpenAIError = OpenAIError(message: string, code: Option<string>, status: Option<int>)

  const ApiErrorDefault := "An OpenAI API error occurred"
  const UnexpectedErrorDefault := "An unexpected error occurred"

  /** `formatOpenAIError`: the reply's message, code and status when there is a reply; the
      error's own message and status 500 otherwise; a falsy message gives way to a default,
      so the message is never empty. */
  function FormatOpenAIError(e: ThrownError): (r: OpenAIError)
    ensures r.message != ""
    ensures e.response.Some? ==> r.status == e.response.value.status
    ensures e.response.Some? ==>
      r.code == (if e.response.value.error.Some? then e.response.value.error.value.code else None)
    ensures e.response.Some? && e.response.value.error.Some? && TruthyOpt(e.response.value.error.value.message) ==>
      r.message == e.response.value.error.value.message.value
    ensures e.response.Some? && !(e.response.value.error.Some? && TruthyOpt(e.response.value.error.value.message)) ==>
      r.message == ApiErrorDefault
    ensures e.response.None? ==> r.status == Some(500) && r.code.None?
    ensures e.response.None? ==> r.message == if TruthyOpt(e.message) then e.message.value else UnexpectedErrorDefault
  {
    match e.response
    case Some(reply) =>
      var body := reply.error;
      OpenAIError(
        OrElse(if body.Some? then body.value.message else None, ApiErrorDefault),
        if body.Some? then body.value.code else None,
        reply.status)
    case None =>
      OpenAIError(OrElse(e.message, UnexpectedErrorDefault), None, Some(500))
  }

  /** The `url` of `formatOpenAIResponse`: the stored record's generated image when truthy,
      else the reply's own `url`. */
  function ResponseUrl(generatedImage: Option<string>, url: Option<string>): (r: Option<string>)
    ensures TruthyOpt(generatedImage) ==> r == generatedImage
    ensures !TruthyOpt(generatedImage) ==> r == url
    ensures TruthyOpt(r) <==> TruthyOpt(generatedImage) || TruthyOpt(url)
  {
    if TruthyOpt(generatedImage) then generatedImage else url
  }
}
