/**
 * Utils.js: the JSON fetch every API call goes through, its single retry
 * after a rate limit, and the URL normaliser.
 */
module Utils {
  import opened Common

  /** What `UrlFetchApp.fetch` answered: the status code and the body text. */
  datatype Response = Response(code: int, body: string)

  /** The message of the error thrown for a status outside 200-299. */
  function HttpErrorMessage(code: int, body: string): string
  {
    "HTTP " + IntToString(code) + ": " + Take(body, 200)
  }

  /** The message of the error thrown for a body `JSON.parse` rejects. */
  function InvalidJsonMessage(body: string): string
  {
    "Invalid JSON response: " + Take(body, 200)
  }

  /**
   * `fetchJson_`: a 2xx answer whose body parses yields the parsed value;
   * any other status throws an "HTTP <code>" error, an unparsable body an
   * "Invalid JSON response" error. `parse` stands for `JSON.parse`.
   */
  function FetchJson<J>(resp: Response, parse: string -> Option<J>): (r: Result<J>)
    ensures r.Ok? <==> 200 <= resp.code < 300 && parse(resp.body).Some?
    ensures r.Ok? ==> r.value == parse(resp.body).value
    ensures !(200 <= resp.code < 300) ==> r == Err(HttpErrorMessage(resp.code, resp.body))
    ensures 200 <= resp.code < 300 && parse(resp.body).None? ==> r == Err(InvalidJsonMessage(resp.body))
  {
    if resp.code < 200 || resp.code >= 300 then Err(HttpErrorMessage(resp.code, resp.body))
    else match parse(resp.body)
      case Some(v) => Ok(v)
      case None => Err(InvalidJsonMessage(resp.body))
  }

  /** The test `/^HTTP 429/.test(e.message)`. */
  predicate RateLimited<J>(r: Result<J>)
  {
    r.Err? && StartsWith(r.error, "HTTP 429")
  }

  /** The outcome of `fetchJsonWithRetry_`: the result, how many fetches were made, how long it slept. */
  datatype Retried<J> = Retried(result: Result<J>, fetches: nat, sleptMs: int)

  const DefaultRetryDelayMs := 45000

  /**
   * `fetchJsonWithRetry_`: `first` and `second` are the answers to the first
   * and to the repeated request. Only a rate-limit error is retried, once,
   * after `retryDelayMs || 45000` milliseconds; the second outcome is final.
   */
  function FetchJsonWithRetry<J>(first: Response, second: Response, parse: string -> Option<J>,
                                 retryDelayMs: int): (o: Retried<J>)
    ensures 1 <= o.fetches <= 2
    ensures o.fetches == 2 <==> RateLimited(FetchJson(first, parse))
    ensures o.fetches == 1 ==> o.result == FetchJson(first, parse) && o.sleptMs == 0
    ensures o.fetches == 2 ==> o.result == FetchJson(second, parse)
    ensures o.fetches == 2 ==> o.sleptMs == (if retryDelayMs != 0 then retryDelayMs else DefaultRetryDelayMs)
  {
    var r := FetchJson(first, parse);
    if RateLimited(r) then
      Retried(FetchJson(second, parse), 2, if retryDelayMs != 0 then retryDelayMs else DefaultRetryDelayMs)
    else Retried(r, 1, 0)
  }

  lemma ThreeDigits(n: nat)
    requires 100 <= n <= 999
    ensures NatToString(n) == [DigitChar(n / 100), DigitChar((n / 10) % 10), DigitChar(n % 10)]
  {
    assert (n / 10) / 10 == n / 100;
    assert NatToString(n / 10) == [DigitChar(n / 100), DigitChar((n / 10) % 10)];
  }

  /**
   * For every three-digit status the retry happens exactly on 429: no other
   * status and no unparsable body starts its message with "HTTP 429".
   */
  lemma {:induction false} RetryExactlyOn429<J>(resp: Response, parse: string -> Option<J>)
    requires 100 <= resp.code <= 999
    ensures RateLimited(FetchJson(resp, parse)) <==> resp.code == 429
  {
    var r := FetchJson(resp, parse);
    if !(200 <= resp.code < 300) {
      ThreeDigits(resp.code);
      var m := HttpErrorMessage(resp.code, resp.body);
      assert m[..8] == "HTTP " + NatToString(resp.code);
      if StartsWith(m, "HTTP 429") {
        assert m[5] == '4' && m[6] == '2' && m[7] == '9';
        assert resp.code / 100 == 4 && (resp.code / 10) % 10 == 2 && resp.code % 10 == 9;
      }
    } else if r.Err? {
      assert r.error[0] == 'I';
    }
  }

  /** A 2xx answer with a parsable body is never fetched twice. */
  lemma {:induction false} SuccessNotRetried<J>(first: Response, second: Response, parse: string -> Option<J>, delay: int)
    requires 200 <= first.code < 300 && parse(first.body).Some?
    ensures FetchJsonWithRetry(first, second, parse, delay) == Retried(Ok(parse(first.body).value), 1, 0)
  {
  }

  /**
   * `normalizeUrl_`: an empty URL gives "", otherwise every trailing '/' is
   * dropped and nothing else changes.
   */
  function NormalizeUrl(url: string): (r: string)
    ensures |r| <= |url| && r == url[..|r|]
    ensures r == [] || r[|r| - 1] != '/'
    ensures forall i :: |r| <= i < |url| ==> url[i] == '/'
  {
    if |url| > 0 && url[|url| - 1] == '/' then NormalizeUrl(url[..|url| - 1]) else url
  }

  /** Normalising a normalised URL changes nothing. */
  lemma {:induction false} NormalizeUrlIdempotent(url: string)
    ensures NormalizeUrl(NormalizeUrl(url)) == NormalizeUrl(url)
  {
    var r := NormalizeUrl(url);
    assert r == [] || r[|r| - 1] != '/';
  }

  /** The URL kept is the longest prefix that does not end in '/'. */
  lemma {:induction false} NormalizeUrlKeepsPath(base: string, slashes: nat)
    requires base == [] || base[|base| - 1] != '/'
    ensures NormalizeUrl(base + seq(slashes, _ => '/')) == base
    decreases slashes
  {
    var s := base + seq(slashes, _ => '/');
    if slashes > 0 {
      assert s[..|s| - 1] == base + seq(slashes - 1, _ => '/');
      NormalizeUrlKeepsPath(base, slashes - 1);
    } else {
      assert s == base;
    }
  }
}
