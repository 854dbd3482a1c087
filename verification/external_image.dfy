/** `load_image` of the external image node: dispatch on the input's prefix
    to a download, a base64 data URI, or the node's default image. */
module ExternalImage {

  import opened Base
  import opened Text
  import opened Url
  import opened Download

  /** What the node returns or raises. */
  datatype Outcome =
    | UseDefault            // `[default_value]`
    | Loaded(image: Image)  // the one image obtained
    | LoadFailed            // RuntimeError: no download succeeded
    | DecodeFailed          // the base64 payload did not decode to a picture

  const PngPrefix: string := "data:image/png;base64,"
  const JpegPrefix: string := "data:image/jpeg;base64,"
  const JpgPrefix: string := "data:image/jpg;base64,"

  predicate IsDataUri(s: string)
  {
    StartsWith(s, PngPrefix) || StartsWith(s, JpegPrefix) || StartsWith(s, JpgPrefix)
  }

  predicate NotComma(c: char)
  {
    c != ','
  }

  /** `s[s.find(",") + 1:]`: after the first comma, or the whole string when
      there is none (`find` then gives -1). */
  function Payload(s: string): (r: string)
    ensures |r| <= |s|
  {
    var i := RunLen(s, NotComma);
    if i == |s| then s else s[i + 1..]
  }

  /** Which branch an input takes. */
  datatype Route = Download | DataUri | Default

  function RouteOf(s: string): (r: Route)
    ensures r == Download <==> s != "" && StartsWith(s, "http")
    ensures r == DataUri <==> !StartsWith(s, "http") && IsDataUri(s)
  {
    if s != "" && StartsWith(s, "http") then Download
    else if IsDataUri(s) then DataUri
    else Default
  }

  /** What `load_image` returns or raises; downloads are entry 0 of `fetch`,
      and `b64decode` stands for decoding and opening the payload. */
  function LoadImageSpec(s: string, fetch: (nat, nat) -> Fetch, b64decode: string -> Option<Image>): Outcome
  {
    match RouteOf(s)
    case Download =>
      if !IsValidUrl(s) then UseDefault
      else (match Downloaded(fetch, 0) case Some(img) => Loaded(img) case None => LoadFailed)
    case DataUri =>
      (match b64decode(Payload(s)) case Some(img) => Loaded(img) case None => DecodeFailed)
    case Default => UseDefault
  }

  /** The requests `load_image` issues. */
  function LoadImageRequests(s: string, fetch: (nat, nat) -> Fetch): seq<(nat, nat)>
  {
    if RouteOf(s) == Download && IsValidUrl(s) then Tries(0, 1, Attempts(fetch, 0) + 1) else []
  }

  /** No attempt of entry 0 before attempt `i` succeeded. */
  predicate FailedBefore(fetch: (nat, nat) -> Fetch, i: nat)
  {
    forall k :: 1 <= k < i ==> !Succeeds(fetch(0, k))
  }

  /** The retry loop of the download branch; the URL check that opens each
      attempt ends the loop at once when it fails (its outcome is the same
      on every attempt, so it is computed once). */
  method FetchImage(s: string, fetch: (nat, nat) -> Fetch) returns (valid: bool, image: Option<Image>, requests: seq<(nat, nat)>)
    ensures valid == IsValidUrl(s)
    ensures valid ==> image == Downloaded(fetch, 0) && requests == Tries(0, 1, Attempts(fetch, 0) + 1)
  {
    requests, image := [], None;
    valid := IsValidUrl(s);
    for i := 1 to MaxAttempts + 1
      invariant valid || i == 1
      invariant FailedBefore(fetch, i)
      invariant requests == Tries(0, 1, i)
      invariant image == None
    {
      if !valid {
        return false, None, [];
      }
      assert requests + [(0, i)] == Tries(0, 1, i + 1) by { TriesSnoc(0, 1, i); }
      requests := requests + [(0, i)];
      var f := fetch(0, i);
      if Succeeds(f) {
        assert AttemptsFrom(fetch, 0, 1) == i by { AttemptsAt(fetch, 0, 1, i); }
        image := Some(f.picture.value);
        return;
      }
      if i == MaxAttempts {
        assert AttemptsFrom(fetch, 0, 1) == i by { AttemptsAt(fetch, 0, 1, i); }
      }
    }
  }

  /** The node itself. */
  method LoadImage(s: string, fetch: (nat, nat) -> Fetch, b64decode: string -> Option<Image>)
    returns (r: Outcome, requests: seq<(nat, nat)>)
    ensures r == LoadImageSpec(s, fetch, b64decode)
    ensures requests == LoadImageRequests(s, fetch)
  {
    requests := [];
    var image: Option<Image> := None;
    if s != "" && StartsWith(s, "http") {
      var valid;
      valid, image, requests := FetchImage(s, fetch);
      if !valid {
        return UseDefault, [];
      }
    } else if IsDataUri(s) {
      image := b64decode(Payload(s));
      if image.None? {
        return DecodeFailed, [];
      }
    } else {
      return UseDefault, [];
    }
    if image.None? {
      return LoadFailed, requests;
    }
    r := Loaded(image.value);
  }

  // ---------------------------------------------------------------------
  // Properties

  /** The first comma of a data URI closes its prefix, so the payload is
      exactly what follows the prefix. */
  lemma DataUriPayload(s: string, prefix: string)
    requires prefix == PngPrefix || prefix == JpegPrefix || prefix == JpgPrefix
    requires StartsWith(s, prefix)
    ensures Payload(s) == s[|prefix|..]
  {
    var k := |prefix| - 1;
    assert s[..|prefix|] == prefix;
    assert forall i :: 0 <= i < k ==> s[i] == prefix[i];
    assert s[k] == prefix[k] == ',';
    RunLenAt(s, NotComma, k);
  }

  /** An input the URL check rejects yields the default image and no
      download is made. */
  lemma InvalidUrlUsesDefault(s: string, fetch: (nat, nat) -> Fetch, b64decode: string -> Option<Image>)
    requires StartsWith(s, "http") && !IsValidUrl(s)
    ensures LoadImageSpec(s, fetch, b64decode) == UseDefault
    ensures LoadImageRequests(s, fetch) == []
  {
  }

  /** A valid URL is downloaded with at most three attempts; the node fails
      exactly when none of them succeeds. */
  lemma ValidUrlDownloads(s: string, fetch: (nat, nat) -> Fetch, b64decode: string -> Option<Image>)
    requires IsValidUrl(s)
    ensures 1 <= |LoadImageRequests(s, fetch)| <= MaxAttempts
    ensures LoadImageSpec(s, fetch, b64decode) == LoadFailed
        <==> forall k :: 1 <= k <= MaxAttempts ==> !Succeeds(fetch(0, k))
  {
    ValidStartsWithHttp(s);
    assert s[..4] == "http" by {
      if StartsWith(s, "https://") {
        assert s[..4] == s[..8][..4];
      } else {
        assert s[..4] == s[..7][..4];
      }
    }
    assert RouteOf(s) == Download;
    DownloadedIffSomeAttemptSucceeds(fetch, 0);
  }

  /** Every other input, the empty string included, yields the default image
      without any request. */
  lemma OtherInputsUseDefault(s: string, fetch: (nat, nat) -> Fetch, b64decode: string -> Option<Image>)
    requires !StartsWith(s, "http") && !IsDataUri(s)
    ensures LoadImageSpec(s, fetch, b64decode) == UseDefault
    ensures LoadImageRequests(s, fetch) == []
  {
  }
}
