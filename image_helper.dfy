/**
 * to_image/helper.go: classifying a card source as a URL, and the two
 * raster loaders. Network retrieval, base64 decoding and image decoding
 * are supplied as functions, because they are library calls.
 */
module ImageHelper {
  import opened Wrappers
  import opened Strings
  import opened Data

  /**
   * The library calls a loader chains: `http.Get` followed by reading the body,
   * `base64.StdEncoding.DecodeString`, and `imgconv.Decode`.
   */
  datatype Loaders = Loaders(
    fetch: string -> Result<Bytes, Error>,
    decodeBase64: string -> Result<Bytes, Error>,
    decodeImage: Bytes -> Result<Image, Error>)

  /** `isURL`: the source starts with "http://" or "https://". */
  predicate IsUrl(s: string)
  {
    HasPrefix(s, "http://") || HasPrefix(s, "https://")
  }

  /** Every string written as one of the two schemes followed by anything is a URL. */
  lemma SchemePlusAnythingIsUrl(rest: string)
    ensures IsUrl("http://" + rest) && IsUrl("https://" + rest)
  {
    assert ("http://" + rest)[..7] == "http://";
    assert ("https://" + rest)[..8] == "https://";
  }

  /** Conversely, a URL is exactly one of the two schemes followed by the rest of the string. */
  lemma UrlIsSchemePlusRest(s: string)
    requires IsUrl(s)
    ensures s == "http://" + s[7..] || s == "https://" + s[8..]
  {
    if HasPrefix(s, "http://") {
      assert s == s[..7] + s[7..];
    } else {
      assert s == s[..8] + s[8..];
    }
  }

  /** A string shorter than "http://" is never a URL. */
  lemma ShortIsNotUrl(s: string)
    requires |s| < 7
    ensures !IsUrl(s)
  {
  }

  /** The test is case-sensitive, refuses other schemes, and needs nothing after the scheme. */
  lemma IsUrlExamples()
    ensures !IsUrl("HTTP://a") && !IsUrl("ftp://a")
    ensures IsUrl("https://") && IsUrl("http://x")
    ensures !IsUrl("https:/") && !IsUrl("data:image/png;base64,AAAA")
  {
    assert "HTTP://a"[..7][1] != "http://"[1];
    assert "HTTP://a"[..8][1] != "https://"[1];
    assert "ftp://a"[..7][0] != "http://"[0];
    assert "https:/"[..7][4] != "http://"[4];
    assert "https://"[..8] == "https://";
    assert "http://x"[..7] == "http://";
    assert "data:image/png;base64,AAAA"[0] != 'h';
  }

  /**
   * `loadImageFromURL`: a failed fetch is returned as it is and nothing is
   * decoded; otherwise the result is the decoder's result on the body.
   * `http.Get` reports only transport failures, so a body with any HTTP status
   * goes to the decoder.
   */
  function LoadImageFromUrl(l: Loaders, url: string): (r: Result<Image, Error>)
    ensures l.fetch(url).Failure? ==> r == Failure(l.fetch(url).error)
    ensures l.fetch(url).Success? ==> r == l.decodeImage(l.fetch(url).value)
  {
    match l.fetch(url)
    case Failure(e) => Failure(e)
    case Success(body) => l.decodeImage(body)
  }

  /**
   * `loadImageFromBase64`: an invalid payload returns the base64 error without
   * decoding; otherwise the result is the decoder's result on the decoded bytes.
   */
  function LoadImageFromBase64(l: Loaders, payload: string): (r: Result<Image, Error>)
    ensures l.decodeBase64(payload).Failure? ==> r == Failure(l.decodeBase64(payload).error)
    ensures l.decodeBase64(payload).Success? ==> r == l.decodeImage(l.decodeBase64(payload).value)
  {
    match l.decodeBase64(payload)
    case Failure(e) => Failure(e)
    case Success(raw) => l.decodeImage(raw)
  }

  /** When the fetch fails, the decoder plays no part: any other decoder gives the same error. */
  lemma UrlFailureSkipsDecoder(l: Loaders, url: string, decoder: Bytes -> Result<Image, Error>)
    requires l.fetch(url).Failure?
    ensures LoadImageFromUrl(l, url) == LoadImageFromUrl(l.(decodeImage := decoder), url)
    ensures LoadImageFromUrl(l, url).Failure?
  {
  }

  /** When the payload is not valid base64, the decoder plays no part either. */
  lemma Base64FailureSkipsDecoder(l: Loaders, payload: string, decoder: Bytes -> Result<Image, Error>)
    requires l.decodeBase64(payload).Failure?
    ensures LoadImageFromBase64(l, payload) == LoadImageFromBase64(l.(decodeImage := decoder), payload)
    ensures LoadImageFromBase64(l, payload).Failure?
  {
  }
}
