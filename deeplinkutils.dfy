/**
 * The deep-link helpers (deeplink/utils.rs): the http(s) check of URL
 * parameters, the decoding of Base64 parameters that may have lost their `+`
 * signs or their padding on the way through a URL, and the homepage guessed
 * from an API endpoint.
 *
 * URL parsing (the `url` crate) and the Base64 engines (the `base64` crate,
 * the alphabets of sections 4 and 5 of RFC 4648) are parameters; the standard
 * encoding is written out so that what a faithful decoder accepts can be
 * stated.
 */
module DeepLinkUtils {
  import opened Wrappers
  import opened Values
  import opened Text
  import opened Sorting

  // ---------------------------------------------------------------------------
  // validate_url and infer_homepage_from_endpoint
  // ---------------------------------------------------------------------------

  /** What `Url::parse` makes of a string: its scheme and host, or the reason it is no URL. */
  datatype ParsedUrl = Url(scheme: string, host: Option<string>) | BadUrl(reason: string)

  type UrlParser = string -> ParsedUrl

  /** `validate_url`: the value must parse as a URL whose scheme is `http` or `https`. */
  function ValidateUrl(s: string, field: string, parse: UrlParser): (r: Result<()>)
    ensures r.Ok? <==> parse(s).Url? && parse(s).scheme in {"http", "https"}
    ensures r.Err? ==> r.error.InvalidInput?
  {
    match parse(s)
    case BadUrl(reason) => Err(InvalidInput("Invalid URL for '" + field + "': " + reason))
    case Url(scheme, _) =>
      if scheme != "http" && scheme != "https" then
        Err(InvalidInput("Invalid URL scheme for '" + field + "': must be http or https, got '" + scheme + "'"))
      else Ok(())
  }

  /** The host with one leading `api.`, or else one leading `api-`, removed. */
  function StripApiPrefix(host: string): (r: string)
    ensures StartsWith(host, "api.") ==> host == "api." + r
    ensures !StartsWith(host, "api.") && StartsWith(host, "api-") ==> host == "api-" + r
    ensures !StartsWith(host, "api.") && !StartsWith(host, "api-") ==> r == host
  {
    if StartsWith(host, "api.") then host[4..]
    else if StartsWith(host, "api-") then host[4..]
    else host
  }

  /** `infer_homepage_from_endpoint`: `https://` and the endpoint's host without its API prefix. */
  function InferHomepage(endpoint: string, parse: UrlParser): (r: Option<string>)
    ensures r.Some? <==> parse(endpoint).Url? && parse(endpoint).host.Some?
    ensures r.Some? ==> r.value == "https://" + StripApiPrefix(parse(endpoint).host.value)
  {
    match parse(endpoint)
    case BadUrl(_) => None
    case Url(_, host) => if host.None? then None else Some("https://" + StripApiPrefix(host.value))
  }

  /**
   * Only one prefix is removed: `api-test.company.com` keeps `test`, and
   * `api.api.x` keeps its second `api.`.
   */
  lemma StripApiPrefixExamples()
    ensures StripApiPrefix("api.anthropic.com") == "anthropic.com"
    ensures StripApiPrefix("api-test.company.com") == "test.company.com"
    ensures StripApiPrefix("example.com") == "example.com"
    ensures StripApiPrefix("api.api.x") == "api.x"
  {
    assert StartsWith("api.anthropic.com", "api.");
    assert "api-test.company.com"[3] == '-';
    assert !StartsWith("api-test.company.com", "api.") && StartsWith("api-test.company.com", "api-");
    assert "example.com"[0] == 'e';
    assert !StartsWith("example.com", "api.") && !StartsWith("example.com", "api-");
    assert StartsWith("api.api.x", "api.");
  }

  // ---------------------------------------------------------------------------
  // decode_base64_param: the candidates
  // ---------------------------------------------------------------------------

  /** The characters stripped from both ends of a Base64 parameter; spaces are kept. */
  const LineBreaks: set<char> := {'\r', '\n'}

  /** `n` copies of `c`. */
  function Repeat(c: char, n: nat): (r: string)
    ensures |r| == n && forall i :: 0 <= i < n ==> r[i] == c
  {
    if n == 0 then [] else [c] + Repeat(c, n - 1)
  }

  /** A candidate padded with `=` to a length that is a multiple of four. */
  function Pad(c: string): (r: string)
    ensures |r| % 4 == 0 && |c| <= |r| < |c| + 4 && r[..|c|] == c
    ensures forall i :: |c| <= i < |r| ==> r[i] == '='
    ensures |c| % 4 == 0 ==> r == c
  {
    var rem := |c| % 4;
    c + Repeat('=', if rem == 0 then 0 else 4 - rem)
  }

  /** The first candidates: spaces turned back into `+` (when there are spaces), then the value itself. */
  function BaseCandidates(t: string): (r: seq<string>)
  {
    var restored := if ' ' in t then [ReplaceChar(t, ' ', "+")] else [];
    restored + (if t != "" && t !in restored then [t] else [])
  }

  /** The padding loop: each of `rest` padded, appended unless the list holds it already. */
  function AddPadded(acc: seq<string>, rest: seq<string>): seq<string>
    decreases |rest|
  {
    if rest == [] then acc
    else AddPadded(if Pad(rest[0]) in acc then acc else acc + [Pad(rest[0])], rest[1..])
  }

  /** Every candidate `decode_base64_param` tries, in order. */
  function Candidates(raw: string): seq<string>
  {
    var base := BaseCandidates(TrimChars(raw, LineBreaks));
    AddPadded(base, base)
  }

  lemma {:induction false} AddPaddedFacts(acc: seq<string>, rest: seq<string>)
    requires Distinct(acc)
    ensures Distinct(AddPadded(acc, rest))
    ensures |acc| <= |AddPadded(acc, rest)| && AddPadded(acc, rest)[..|acc|] == acc
    ensures forall c :: c in AddPadded(acc, rest) <==> c in acc || exists d :: d in rest && c == Pad(d)
    decreases |rest|
  {
    if rest != [] {
      var next := if Pad(rest[0]) in acc then acc else acc + [Pad(rest[0])];
      assert Distinct(next);
      AddPaddedFacts(next, rest[1..]);
      assert next[..|acc|] == acc;
      assert AddPadded(acc, rest)[..|acc|] == AddPadded(acc, rest)[..|next|][..|acc|];
      forall c
        ensures c in AddPadded(acc, rest) <==> c in acc || exists d :: d in rest && c == Pad(d)
      {
        AddPaddedMember(acc, rest, next, c);
      }
    }
  }

  /** One padding step: a candidate is in the result iff it was in `acc` or is a padded member of `rest`. */
  lemma AddPaddedMember(acc: seq<string>, rest: seq<string>, next: seq<string>, c: string)
    requires rest != [] && next == (if Pad(rest[0]) in acc then acc else acc + [Pad(rest[0])])
    requires forall c :: c in AddPadded(next, rest[1..]) <==> c in next || exists d :: d in rest[1..] && c == Pad(d)
    ensures c in AddPadded(acc, rest) <==> c in acc || exists d :: d in rest && c == Pad(d)
  {
    assert AddPadded(acc, rest) == AddPadded(next, rest[1..]);
    if c in AddPadded(acc, rest) && c !in acc && c !in next[|acc|..] {
      var d :| d in rest[1..] && c == Pad(d);
      assert d in rest;
    }
    if exists d :: d in rest && c == Pad(d) {
      var d :| d in rest && c == Pad(d);
      if d != rest[0] {
        assert d in rest[1..];
      }
    }
  }

  /**
   * The candidates hold no repeats; the first ones are the value with its
   * spaces turned back into `+` (when it has spaces) and the value itself;
   * the others are those padded; none is empty.
   */
  lemma CandidatesFacts(raw: string)
    ensures var t := TrimChars(raw, LineBreaks);
      var cs := Candidates(raw);
      Distinct(cs) &&
      (' ' in t ==> |cs| >= 2 && cs[0] == ReplaceChar(t, ' ', "+") && cs[1] == t) &&
      (' ' !in t && t != "" ==> |cs| >= 1 && cs[0] == t) &&
      (t == "" ==> cs == []) &&
      (forall c :: c in cs <==> c in BaseCandidates(t) || exists d :: d in BaseCandidates(t) && c == Pad(d)) &&
      (forall i :: 0 <= i < |cs| ==> cs[i] != "")
  {
    var t := TrimChars(raw, LineBreaks);
    var base := BaseCandidates(t);
    BaseCandidatesFacts(t);
    AddPaddedFacts(base, base);
    var cs := Candidates(raw);
    assert cs[..|base|] == base;
    forall i | 0 <= i < |cs|
      ensures cs[i] != ""
    {
      assert cs[i] in cs;
      if cs[i] !in base {
        var d :| d in base && cs[i] == Pad(d);
        assert d != "";
      }
    }
    if ' ' in t {
      assert cs[0] == cs[..|base|][0] && cs[1] == cs[..|base|][1];
    } else if t != "" {
      assert cs[0] == cs[..|base|][0];
    }
  }

  /** The first candidates hold no repeats and no empty text. */
  lemma BaseCandidatesFacts(t: string)
    ensures var base := BaseCandidates(t);
      Distinct(base) &&
      (' ' in t ==> |base| == 2 && base[0] == ReplaceChar(t, ' ', "+") && base[1] == t) &&
      (' ' !in t ==> base == (if t == "" then [] else [t])) &&
      (forall d :: d in base ==> d != "")
  {
    if ' ' in t {
      assert ' ' !in ReplaceChar(t, ' ', "+") by { ReplaceKeepsOut(t, ' ', "+", ' '); }
      assert t != ReplaceChar(t, ' ', "+");
      ReplaceNonEmpty(t, ' ', "+");
    }
  }

  /** A character absent from the replacement is left only where it stood and was not replaced. */
  lemma {:induction false} ReplaceKeepsOut(s: string, from: char, to: string, c: char)
    requires c !in to && (c in s ==> c == from)
    ensures c !in ReplaceChar(s, from, to)
  {
    if s != [] {
      assert s[0] in s;
      assert forall x :: x in s[1..] ==> x in s;
      ReplaceKeepsOut(s[1..], from, to, c);
    }
  }

  /** Replacing a character of a non-empty text by a non-empty string leaves it non-empty. */
  lemma {:induction false} ReplaceNonEmpty(s: string, from: char, to: string)
    requires s != [] && to != []
    ensures ReplaceChar(s, from, to) != []
  {
  }

  /** Turning `+` into spaces and back gives the original text, when it had no spaces. */
  lemma {:induction false} ReplaceBack(s: string)
    requires ' ' !in s
    ensures ReplaceChar(ReplaceChar(s, '+', " "), ' ', "+") == s
  {
    if s != [] {
      ReplaceBack(s[1..]);
      assert ReplaceChar(s, '+', " ") == (if s[0] == '+' then " " else [s[0]]) + ReplaceChar(s[1..], '+', " ");
      ReplaceCons(if s[0] == '+' then ' ' else s[0], ReplaceChar(s[1..], '+', " "), ' ', "+");
    }
  }

  lemma ReplaceCons(c: char, s: string, from: char, to: string)
    ensures ReplaceChar([c] + s, from, to) == (if c == from then to else [c]) + ReplaceChar(s, from, to)
  {
    assert ([c] + s)[0] == c;
    assert ([c] + s)[1..] == s;
  }

  /** `decode_base64_param`'s candidate list, built as the source builds it. */
  method BuildCandidates(raw: string) returns (candidates: seq<string>)
    ensures candidates == Candidates(raw)
  {
    var trimmed := TrimChars(raw, LineBreaks);
    candidates := [];
    if ' ' in trimmed {
      var replaced := ReplaceChar(trimmed, ' ', "+");
      ReplaceNonEmpty(trimmed, ' ', "+");
      if replaced != "" && replaced !in candidates {
        candidates := candidates + [replaced];
      }
    }
    if trimmed != "" && trimmed !in candidates {
      candidates := candidates + [trimmed];
    }
    assert candidates == BaseCandidates(trimmed);
    var existing := candidates;
    for i := 0 to |existing|
      invariant AddPadded(candidates, existing[i..]) == AddPadded(existing, existing)
    {
      PaddedStep(candidates, existing[i..]);
      var padded := Pad(existing[i]);
      if padded !in candidates {
        candidates := candidates + [padded];
      }
      assert existing[i..][1..] == existing[i + 1..];
    }
  }

  /** One turn of the padding loop. */
  lemma PaddedStep(acc: seq<string>, rest: seq<string>)
    requires rest != []
    ensures AddPadded(acc, rest) == AddPadded(if Pad(rest[0]) in acc then acc else acc + [Pad(rest[0])], rest[1..])
  {
  }

  // ---------------------------------------------------------------------------
  // decode_base64_param: the engines
  // ---------------------------------------------------------------------------

  /** What a decoding library makes of its input: a value, or the reason it refused it. */
  datatype Reading<T> = Read(value: T) | Unreadable(reason: string)

  /** `String::from_utf8` */
  type Utf8Decoder = seq<Byte> -> Reading<string>

  /** The four engines of the `base64` crate the decoder tries. */
  datatype Engine = Standard | StandardNoPad | UrlSafe | UrlSafeNoPad

  /** The order in which each candidate is tried. */
  const Engines: seq<Engine> := [Standard, StandardNoPad, UrlSafe, UrlSafeNoPad]

  /** What an engine makes of a candidate: its bytes, or the reason it refused it. */
  datatype Decoded = Bytes(bytes: seq<Byte>) | Refused(reason: string)

  /** A Base64 decoder: what each engine makes of a candidate. */
  type Decoder = (Engine, string) -> Decoded

  /** The first engine, from the `k`-th on, that decodes `c`. */
  function FirstEngine(c: string, decode: Decoder, k: nat): (r: Option<seq<Byte>>)
    requires k <= |Engines|
    ensures r.None? <==> forall j :: k <= j < |Engines| ==> decode(Engines[j], c).Refused?
    ensures r.Some? ==> exists j :: (k <= j < |Engines| && decode(Engines[j], c) == Bytes(r.value) &&
      forall i :: k <= i < j ==> decode(Engines[i], c).Refused?)
    decreases |Engines| - k
  {
    if k == |Engines| then None
    else if decode(Engines[k], c).Bytes? then Some(decode(Engines[k], c).bytes)
    else FirstEngine(c, decode, k + 1)
  }

  /** The first candidate, in order, that some engine decodes, with the first such engine. */
  function FirstDecoded(cands: seq<string>, decode: Decoder): (r: Option<seq<Byte>>)
    ensures r.None? <==> forall i, j :: 0 <= i < |cands| && 0 <= j < |Engines| ==> decode(Engines[j], cands[i]).Refused?
    decreases |cands|
  {
    if cands == [] then None
    else
      var first := FirstEngine(cands[0], decode, 0);
      if first.Some? then first else
        var rest := FirstDecoded(cands[1..], decode);
        assert forall i, j :: 1 <= i < |cands| && 0 <= j < |Engines| ==>
          decode(Engines[j], cands[i]) == decode(Engines[j], cands[1..][i - 1]);
        rest
  }

  function DecodeFailed(field: string, lastError: string): Error
  {
    InvalidInput(field + " 参数 Base64 解码失败：" + lastError +
      "。请确认链接参数已用 Base64 编码并经过 URL 转义（尤其是将 '+' 编码为 %2B，或使用 URL-safe Base64）。")
  }

  /**
   * `decode_base64_param`: the bytes of the first candidate and engine that
   * decode; when none does, an error quoting the last engine's refusal of the
   * last candidate (or "未知错误" when there was no candidate).
   */
  function DecodeParam(field: string, raw: string, decode: Decoder): Result<seq<Byte>>
  {
    var cs := Candidates(raw);
    var r := FirstDecoded(cs, decode);
    if r.Some? then Ok(r.value)
    else Err(DecodeFailed(field, if cs == [] then "未知错误" else decode(UrlSafeNoPad, cs[|cs| - 1]).reason))
  }

  /** `last` holds the refusal of `c` by `e`. */
  predicate LastRefusal(decode: Decoder, c: string, e: Engine, last: Option<string>)
  {
    decode(e, c).Refused? && last == Some(decode(e, c).reason)
  }

  /** `decode_base64_param`: every candidate is tried with every engine in turn; the first success wins. */
  method DecodeBase64Param(field: string, raw: string, decode: Decoder) returns (r: Result<seq<Byte>>)
    ensures r == DecodeParam(field, raw, decode)
  {
    var candidates := BuildCandidates(raw);
    var lastError: Option<string> := None;
    for i := 0 to |candidates|
      invariant FirstDecoded(candidates, decode) == FirstDecoded(candidates[i..], decode)
      invariant i == 0 ==> lastError.None?
      invariant i > 0 ==> LastRefusal(decode, candidates[i - 1], UrlSafeNoPad, lastError)
    {
      var found;
      found, lastError := TryEngines(candidates[i], decode, lastError);
      if found.Some? {
        return Ok(found.value);
      }
      assert candidates[i..][1..] == candidates[i + 1..];
    }
    r := Err(DecodeFailed(field, if lastError.Some? then lastError.value else "未知错误"));
  }

  /** The inner loop of `decode_base64_param`: the engines in order on one candidate. */
  method TryEngines(c: string, decode: Decoder, lastIn: Option<string>) returns (found: Option<seq<Byte>>, last: Option<string>)
    ensures found == FirstEngine(c, decode, 0)
    ensures found.None? ==> LastRefusal(decode, c, UrlSafeNoPad, last)
  {
    last := lastIn;
    for k := 0 to |Engines|
      invariant FirstEngine(c, decode, 0) == FirstEngine(c, decode, k)
      invariant k > 0 ==> LastRefusal(decode, c, Engines[k - 1], last)
    {
      match decode(Engines[k], c)
      case Bytes(bytes) => return Some(bytes), last;
      case Refused(reason) => last := Some(reason);
    }
    found := None;
  }

  // ---------------------------------------------------------------------------
  // The standard encoding (section 4 of RFC 4648)
  // ---------------------------------------------------------------------------

  /** The standard alphabet: `A`-`Z`, `a`-`z`, `0`-`9`, `+`, `/`. */
  function B64Char(v: nat): (c: char)
    requires v < 64
    ensures c != ' ' && c != '\r' && c != '\n' && c != '='
  {
    if v < 26 then ('A' as int + v) as char
    else if v < 52 then ('a' as int + v - 26) as char
    else if v < 62 then ('0' as int + v - 52) as char
    else if v == 62 then '+'
    else '/'
  }

  /** Padded standard Base64 of `bytes`: three bytes become four characters of six bits each. */
  function Encode(bytes: seq<Byte>): (r: string)
    ensures |r| % 4 == 0 && (|r| == 0 <==> |bytes| == 0)
    ensures ' ' !in r && '\r' !in r && '\n' !in r
    decreases |bytes|
  {
    if |bytes| == 0 then ""
    else if |bytes| == 1 then
      [B64Char(bytes[0] / 4), B64Char(bytes[0] % 4 * 16), '=', '=']
    else if |bytes| == 2 then
      [B64Char(bytes[0] / 4), B64Char(bytes[0] % 4 * 16 + bytes[1] / 16), B64Char(bytes[1] % 16 * 4), '=']
    else
      [B64Char(bytes[0] / 4), B64Char(bytes[0] % 4 * 16 + bytes[1] / 16),
       B64Char(bytes[1] % 16 * 4 + bytes[2] / 64), B64Char(bytes[2] % 64)] + Encode(bytes[3..])
  }

  /** A standard engine that decodes what the standard encoding produces back to its bytes. */
  ghost predicate DecodesStandard(decode: Decoder)
  {
    forall bytes :: decode(Standard, Encode(bytes)) == Bytes(bytes)
  }

  /**
   * Standard Base64 whose `+` signs became spaces in the URL still decodes to
   * its bytes: the first candidate restores the `+` signs, and the standard
   * engine is tried first.
   */
  lemma SpacesRestored(field: string, bytes: seq<Byte>, decode: Decoder)
    requires DecodesStandard(decode) && |bytes| > 0
    ensures DecodeParam(field, ReplaceChar(Encode(bytes), '+', " "), decode) == Ok(bytes)
    ensures DecodeParam(field, Encode(bytes), decode) == Ok(bytes)
  {
    var e := Encode(bytes);
    var spaced := ReplaceChar(e, '+', " ");
    ReplaceBack(e);
    ReplaceKeepsOut(e, '+', " ", '\r');
    ReplaceKeepsOut(e, '+', " ", '\n');
    ReplaceNonEmpty(e, '+', " ");
    FirstCandidate(ReplaceChar(e, '+', " "), e, decode);
    FirstCandidate(e, e, decode);
  }

  /** When the first candidate is a standard encoding, its bytes are the result. */
  lemma FirstCandidate(raw: string, e: string, decode: Decoder)
    requires ReplaceChar(raw, ' ', "+") == e && '\r' !in raw && '\n' !in raw && raw != ""
    requires decode(Standard, e).Bytes?
    ensures FirstDecoded(Candidates(raw), decode) == Some(decode(Standard, e).bytes)
  {
    assert TrimStartChars(raw, LineBreaks) == raw;
    assert TrimChars(raw, LineBreaks) == raw;
    CandidatesFacts(raw);
    var cs := Candidates(raw);
    if ' ' !in raw {
      assert raw == e;
    }
    assert cs[0] == e;
  }

  /** The input `Pj4 ` (a URL-decoded `Pj4+`) decodes to `>>>`. */
  lemma PlusAsSpaceExample(decode: Decoder)
    requires DecodesStandard(decode)
    ensures DecodeParam("content", "Pj4 ", decode) == Ok([62, 62, 62])
  {
    assert Encode([62, 62, 62]) == "Pj4+";
    assert ReplaceChar("Pj4+", '+', " ") == "Pj4 ";
    SpacesRestored("content", [62, 62, 62], decode);
  }
}
