/** `load_image_batch` of the external image batch node: parse the input
    into a list of URLs, download each with up to three attempts, and fail
    when nothing loaded. */
module ImageBatch {

  import opened Base
  import opened Text
  import opened Url
  import opened Download

  /** The node's `default_value`: a string, or any other value given
      directly (a list, None, ...). */
  datatype BatchInput = Text(s: string) | Value(v: Json)

  /** What the node returns or raises. */
  datatype Outcome =
    | NotValidJson      // RuntimeError: the input looked like a JSON list but did not decode
    | NotStrings        // TypeError or AttributeError: the value is not iterable, or an item is not a string
    | NothingLoaded     // RuntimeError: no image could be loaded
    | Loaded(images: seq<Image>)

  /** What the loop over the entries iterates, or why it cannot start. */
  datatype Listing = BadJson | NotIterable | Listing(items: seq<Json>)

  /** `[x.strip() for x in parts]` */
  function StripAll(parts: seq<string>): (r: seq<string>)
    ensures |r| == |parts|
  {
    seq(|parts|, i requires 0 <= i < |parts| => Strip(parts[i]))
  }

  function Last<T>(s: seq<T>): T
    requires s != []
  {
    s[|s| - 1]
  }

  function Strs(parts: seq<string>): (r: seq<Json>)
    ensures |r| == |parts| && forall i :: 0 <= i < |parts| ==> r[i] == JStr(parts[i])
  {
    seq(|parts|, i requires 0 <= i < |parts| => JStr(parts[i]))
  }

  /** `for x in v`: the items of a list, the keys of a dict, the
      one-character strings of a string; numbers, booleans and None are not
      iterable. */
  function Iterated(v: Json): Listing
  {
    match v
    case JList(xs) => Listing(xs)
    case JObj(fs) => Listing(Strs(Keys(fs)))
    case JStr(s) => Listing(seq(|s|, i requires 0 <= i < |s| => JStr([s[i]])))
    case _ => NotIterable
  }

  /** What a string input is iterated as: the pieces between commas, or
      whatever `jsonDecode` (standing for `json.loads`) makes of a text that
      holds `["`, `BadJson` when it rejects it. */
  function ParseBatchText(s: string, jsonDecode: string -> Option<Json>): Listing
  {
    if '[' in s && ']' in s then
      if Contains(s, "[\"") then
        match jsonDecode(s)
        case None => BadJson
        case Some(v) => Iterated(v)
      else Listing(Strs(StripAll(Split(Split(Last(Split(s, '[')), ']')[0], ','))))
    else Listing(Strs(StripAll(Split(s, ','))))
  }

  /** What the loop iterates: a string input, given as text or as a string
      value, is parsed; any other value is iterated as it is. */
  function Entries(input: BatchInput, jsonDecode: string -> Option<Json>): Listing
  {
    match input
    case Text(s) => ParseBatchText(s, jsonDecode)
    case Value(v) => if v.JStr? then ParseBatchText(v.s, jsonDecode) else Iterated(v)
  }

  /** The number of leading items that are strings: the loop calls
      `strip` on each item, which raises on the first one that is not. */
  function StringRun(items: seq<Json>): (n: nat)
    ensures n <= |items|
    ensures forall i :: 0 <= i < n ==> items[i].JStr?
    ensures n < |items| ==> !items[n].JStr?
  {
    if items != [] && items[0].JStr? then 1 + StringRun(items[1..]) else 0
  }

  /** The URLs the loop handles before it raises or ends. */
  function Urls(items: seq<Json>): (urls: seq<string>)
    ensures |urls| == StringRun(items)
    ensures forall i :: 0 <= i < |urls| ==> items[i] == JStr(urls[i])
  {
    seq(StringRun(items), i requires 0 <= i < StringRun(items) => items[i].s)
  }

  /** An entry worth trying: non-blank and starting with `http` once stripped. */
  predicate Loadable(url: string)
  {
    Strip(url) != "" && StartsWith(Strip(url), "http")
  }

  /** An entry that gets downloaded: loadable, and accepted by the URL
      check, which sees the entry unstripped. */
  predicate Tried(url: string)
  {
    Loadable(url) && IsValidUrl(url)
  }

  /** Which entries get downloaded. */
  function TriedAll(urls: seq<string>): (r: seq<bool>)
    ensures |r| == |urls|
  {
    seq(|urls|, j requires 0 <= j < |urls| => Tried(urls[j]))
  }

  /** The requests issued for entry `j`: none when it is not tried, else one
      per attempt. */
  function EntryRequests(tried: bool, fetch: (nat, nat) -> Fetch, j: nat): seq<(nat, nat)>
  {
    if tried then Tries(j, 1, Attempts(fetch, j) + 1) else []
  }

  function EntryImage(tried: bool, fetch: (nat, nat) -> Fetch, j: nat): Option<Image>
  {
    if tried then Downloaded(fetch, j) else None
  }

  /** The images loaded from the first `n` entries, in entry order. */
  function ImagesUpTo(tried: seq<bool>, fetch: (nat, nat) -> Fetch, n: nat): seq<Image>
    requires n <= |tried|
  {
    if n == 0 then []
    else
      ImagesUpTo(tried, fetch, n - 1)
      + match EntryImage(tried[n - 1], fetch, n - 1) case Some(img) => [img] case None => []
  }

  /** The requests issued for the first `n` entries, in order. */
  function RequestsUpTo(tried: seq<bool>, fetch: (nat, nat) -> Fetch, n: nat): seq<(nat, nat)>
    requires n <= |tried|
  {
    if n == 0 then [] else RequestsUpTo(tried, fetch, n - 1) + EntryRequests(tried[n - 1], fetch, n - 1)
  }

  /** What `load_image_batch` returns or raises. */
  function BatchOutcome(input: BatchInput, jsonDecode: string -> Option<Json>, fetch: (nat, nat) -> Fetch): Outcome
  {
    match Entries(input, jsonDecode)
    case BadJson => NotValidJson
    case NotIterable => NotStrings
    case Listing(items) =>
      var urls := Urls(items);
      var tried := TriedAll(urls);
      var images := ImagesUpTo(tried, fetch, |tried|);
      if |urls| < |items| then NotStrings
      else if images == [] then NothingLoaded
      else Loaded(images)
  }

  /** The requests `load_image_batch` issues: those of the entries handled
      before the loop ends or raises. */
  function BatchRequests(input: BatchInput, jsonDecode: string -> Option<Json>,
                         fetch: (nat, nat) -> Fetch): seq<(nat, nat)>
  {
    match Entries(input, jsonDecode)
    case Listing(items) =>
      var tried := TriedAll(Urls(items));
      RequestsUpTo(tried, fetch, |tried|)
    case _ => []
  }

  /** The retry loop for entry `j`: up to three attempts, each first
      checking the URL (leaving the loop when it is rejected) and then
      downloading, stopping at the first success. */
  method DownloadEntry(url: string, fetch: (nat, nat) -> Fetch, j: nat)
    returns (image: Option<Image>, sent: seq<(nat, nat)>)
    ensures image == EntryImage(IsValidUrl(url), fetch, j)
    ensures sent == EntryRequests(IsValidUrl(url), fetch, j)
  {
    image, sent := Retry(IsValidUrl(url), fetch, j);
  }

  /** The retry loop itself; `valid` is the verdict of the URL check, which
      depends on the entry alone and so is the same on every turn. */
  method Retry(valid: bool, fetch: (nat, nat) -> Fetch, j: nat)
    returns (image: Option<Image>, sent: seq<(nat, nat)>)
    ensures image == EntryImage(valid, fetch, j)
    ensures sent == EntryRequests(valid, fetch, j)
  {
    image := None;
    sent := [];
    for i := 1 to MaxAttempts + 1
      invariant 1 < i ==> valid
      invariant forall k :: 1 <= k < i ==> !Succeeds(fetch(j, k))
      invariant sent == Tries(j, 1, i)
      invariant image == None
    {
      if !valid {
        break;
      }
      sent := sent + [(j, i)];
      var f := fetch(j, i);
      TriesSnoc(j, 1, i);
      if f.Response? && f.status == 200 && f.picture.Some? {
        AttemptsAt(fetch, j, 1, i);
        image := Some(f.picture.value);
        break;
      }
      if i == MaxAttempts {
        AttemptsAt(fetch, j, 1, i);
      }
    }
  }

  /** The loop over entries, skipping blank entries and those not starting
      with `http`, and raising at the first item that is not a string.
      `requests` lists the downloads issued as (entry index, attempt). */
  method LoadEntries(items: seq<Json>, fetch: (nat, nat) -> Fetch)
    returns (images: seq<Image>, requests: seq<(nat, nat)>, raised: bool)
    ensures raised <==> StringRun(items) < |items|
    ensures images == ImagesUpTo(TriedAll(Urls(items)), fetch, StringRun(items))
    ensures requests == RequestsUpTo(TriedAll(Urls(items)), fetch, StringRun(items))
  {
    var urls := Urls(items);
    images := [];
    requests := [];
    for j := 0 to |items|
      invariant j <= StringRun(items)
      invariant images == ImagesUpTo(TriedAll(urls), fetch, j)
      invariant requests == RequestsUpTo(TriedAll(urls), fetch, j)
    {
      if !items[j].JStr? {
        return images, requests, true;
      }
      images, requests := LoadNext(urls, fetch, j, images, requests);
    }
    raised := false;
  }

  /** One turn of the loop: entry j's image, if any, and its requests are
      appended. */
  method LoadNext(urls: seq<string>, fetch: (nat, nat) -> Fetch, j: nat, images: seq<Image>,
                  requests: seq<(nat, nat)>)
    returns (images': seq<Image>, requests': seq<(nat, nat)>)
    requires j < |urls|
    requires images == ImagesUpTo(TriedAll(urls), fetch, j)
    requires requests == RequestsUpTo(TriedAll(urls), fetch, j)
    ensures images' == ImagesUpTo(TriedAll(urls), fetch, j + 1)
    ensures requests' == RequestsUpTo(TriedAll(urls), fetch, j + 1)
  {
    ghost var tried := TriedAll(urls);
    assert tried[j] == Tried(urls[j]);
    var image, sent := LoadEntry(urls[j], fetch, j);
    UpToStep(tried, fetch, j);
    requests' := requests + sent;
    images' := images;
    if image.Some? {
      images' := images + [image.value];
    }
  }

  lemma UpToStep(tried: seq<bool>, fetch: (nat, nat) -> Fetch, j: nat)
    requires j < |tried|
    ensures RequestsUpTo(tried, fetch, j + 1) == RequestsUpTo(tried, fetch, j) + EntryRequests(tried[j], fetch, j)
    ensures var img := EntryImage(tried[j], fetch, j);
            ImagesUpTo(tried, fetch, j + 1) == ImagesUpTo(tried, fetch, j) + if img.Some? then [img.value] else []
  {
  }

  /** One turn of the loop: a blank or non-`http` entry is skipped, any
      other goes to the retry loop. */
  method LoadEntry(url: string, fetch: (nat, nat) -> Fetch, j: nat)
    returns (image: Option<Image>, sent: seq<(nat, nat)>)
    ensures image == EntryImage(Tried(url), fetch, j)
    ensures sent == EntryRequests(Tried(url), fetch, j)
  {
    if Strip(url) == "" || !StartsWith(Strip(url), "http") {
      return None, [];
    }
    image, sent := DownloadEntry(url, fetch, j);
  }

  /** The node itself: parse the input, load the entries, and fail when
      nothing loaded. */
  method LoadImageBatch(input: BatchInput, jsonDecode: string -> Option<Json>, fetch: (nat, nat) -> Fetch)
    returns (r: Outcome, requests: seq<(nat, nat)>)
    ensures r == BatchOutcome(input, jsonDecode, fetch)
    ensures requests == BatchRequests(input, jsonDecode, fetch)
  {
    var entries := Entries(input, jsonDecode);
    match entries
    case BadJson =>
      return NotValidJson, [];
    case NotIterable =>
      return NotStrings, [];
    case Listing(items) =>
      var images, raised;
      images, requests, raised := LoadEntries(items, fetch);
      if raised {
        r := NotStrings;
      } else if images == [] {
        r := NothingLoaded;
      } else {
        r := Loaded(images);
      }
  }

  // ---------------------------------------------------------------------
  // Properties

  /** A string without `[` or `]` is cut at every comma and each piece is
      stripped: the pieces, joined back with commas, give the input. */
  lemma PlainTextSplitsOnCommas(s: string, jsonDecode: string -> Option<Json>)
    requires '[' !in s || ']' !in s
    ensures var parts := Split(s, ',');
      ParseBatchText(s, jsonDecode) == Listing(Strs(StripAll(parts)))
      && Join(parts, ',') == s
      && forall i :: 0 <= i < |parts| ==> ',' !in parts[i]
  {
    JoinSplit(s, ',');
    SplitPiecesLackSeparator(s, ',');
  }

  /** A bracketed string without `["` yields the text between its last `[`
      and the next `]`, cut at commas and stripped. */
  lemma BracketedTextTakesLastList(pre: string, body: string, post: string,
                                   jsonDecode: string -> Option<Json>)
    requires '[' !in body && ']' !in body && '[' !in post
    requires !Contains(pre + "[" + body + "]" + post, "[\"")
    ensures ParseBatchText(pre + "[" + body + "]" + post, jsonDecode)
         == Listing(Strs(StripAll(Split(body, ','))))
  {
    var s := pre + "[" + body + "]" + post;
    var after := body + "]" + post;
    assert s == pre + ['['] + after;
    assert '[' in s && ']' in s by {
      assert s[|pre|] == '[' && s[|pre| + 1 + |body|] == ']';
    }
    SplitConcat(pre, after, '[');
    assert '[' !in after;
    SplitNoSeparator(after, '[');
    assert Last(Split(s, '[')) == after;
    assert after == body + [']'] + post;
    SplitConcat(body, post, ']');
    SplitNoSeparator(body, ']');
  }

  /** A string holding `["` goes to the JSON decoder; if that fails the
      node raises, and otherwise the decoded value is iterated. */
  lemma JsonTextDecoded(s: string, jsonDecode: string -> Option<Json>, fetch: (nat, nat) -> Fetch)
    requires Contains(s, "[\"") && ']' in s
    ensures jsonDecode(s).None? ==> ParseBatchText(s, jsonDecode) == BadJson
                                    && BatchOutcome(Text(s), jsonDecode, fetch) == NotValidJson
    ensures jsonDecode(s).Some? ==> ParseBatchText(s, jsonDecode) == Iterated(jsonDecode(s).value)
  {
    ContainsIffOccurs(s, "[\"");
    var i :| OccursAt(s, "[\"", i);
    assert s[i..i + 2][0] == s[i] == '[';
    assert s[i..i + 2][1] == s[i + 1] == '"';
    assert s[i] == '[';
  }

  /** Every request names one of the first `n` entries, which is tried,
      with an attempt number between 1 and 3, and requests are strictly
      increasing in (entry, attempt) order. */
  predicate WellOrdered(reqs: seq<(nat, nat)>, tried: seq<bool>, n: nat)
    requires n <= |tried|
  {
    (forall k :: 0 <= k < |reqs| ==> reqs[k].0 < n && 1 <= reqs[k].1 <= MaxAttempts && tried[reqs[k].0])
    && (forall k, l :: 0 <= k < l < |reqs| ==>
          reqs[k].0 < reqs[l].0 || (reqs[k].0 == reqs[l].0 && reqs[k].1 < reqs[l].1))
  }

  /** The requests of one entry are its attempts 1, 2, ... in order, at
      most three, and only when it is tried. */
  lemma EntryRequestsShape(tried: bool, fetch: (nat, nat) -> Fetch, j: nat)
    ensures var mine := EntryRequests(tried, fetch, j);
      |mine| <= MaxAttempts && (mine != [] ==> tried)
      && forall k :: 0 <= k < |mine| ==> mine[k].0 == j && mine[k].1 == k + 1
  {
  }

  /** The requests are well ordered: only tried entries are downloaded, no
      entry more than three times, and entries in input order. */
  lemma {:induction false} RequestsWellFormed(tried: seq<bool>, fetch: (nat, nat) -> Fetch, n: nat)
    requires n <= |tried|
    ensures WellOrdered(RequestsUpTo(tried, fetch, n), tried, n)
  {
    if n > 0 {
      RequestsWellFormed(tried, fetch, n - 1);
      EntryRequestsShape(tried[n - 1], fetch, n - 1);
      AppendEntryKeepsOrder(RequestsUpTo(tried, fetch, n - 1), EntryRequests(tried[n - 1], fetch, n - 1), tried, n);
    }
  }

  lemma AppendEntryKeepsOrder(prev: seq<(nat, nat)>, mine: seq<(nat, nat)>, tried: seq<bool>, n: nat)
    requires 0 < n <= |tried|
    requires WellOrdered(prev, tried, n - 1)
    requires |mine| <= MaxAttempts && (mine != [] ==> tried[n - 1])
    requires forall k :: 0 <= k < |mine| ==> mine[k].0 == n - 1 && mine[k].1 == k + 1
    ensures WellOrdered(prev + mine, tried, n)
  {
    var reqs := prev + mine;
    forall k | 0 <= k < |reqs|
      ensures reqs[k].0 < n && 1 <= reqs[k].1 <= MaxAttempts && tried[reqs[k].0]
    {
      if k < |prev| {
        assert reqs[k] == prev[k];
      } else {
        assert reqs[k] == mine[k - |prev|];
      }
    }
    forall k, l | 0 <= k < l < |reqs|
      ensures reqs[k].0 < reqs[l].0 || (reqs[k].0 == reqs[l].0 && reqs[k].1 < reqs[l].1)
    {
      if l < |prev| {
        assert reqs[k] == prev[k] && reqs[l] == prev[l];
      } else if k < |prev| {
        assert reqs[k] == prev[k] && reqs[l] == mine[l - |prev|];
      } else {
        assert reqs[k] == mine[k - |prev|] && reqs[l] == mine[l - |prev|];
      }
    }
  }

  /** A skipped entry (blank or not starting with `http`) and an entry the
      URL check rejects are never downloaded. */
  lemma UntriedNeverRequested(urls: seq<string>, fetch: (nat, nat) -> Fetch, j: nat)
    requires j < |urls| && !(Loadable(urls[j]) && IsValidUrl(urls[j]))
    ensures forall k :: 0 <= k < |RequestsUpTo(TriedAll(urls), fetch, |urls|)| ==>
      RequestsUpTo(TriedAll(urls), fetch, |urls|)[k].0 != j
  {
    var tried := TriedAll(urls);
    assert !tried[j];
    RequestsWellFormed(tried, fetch, |urls|);
    var reqs := RequestsUpTo(tried, fetch, |urls|);
    assert forall k :: 0 <= k < |reqs| ==> tried[reqs[k].0];
  }

  /** The node raises "nothing loaded" exactly when the input parses into
      strings and no entry yields a picture. */
  lemma NothingLoadedIffNoEntryLoads(input: BatchInput, jsonDecode: string -> Option<Json>,
                                     fetch: (nat, nat) -> Fetch)
    ensures BatchOutcome(input, jsonDecode, fetch) == NothingLoaded
      <==> Entries(input, jsonDecode).Listing?
           && var items := Entries(input, jsonDecode).items;
              (forall j :: 0 <= j < |items| ==> items[j].JStr?)
              && var urls := Urls(items);
                 var tried := TriedAll(urls);
                 forall j :: 0 <= j < |urls| ==> EntryImage(tried[j], fetch, j).None?
  {
    var l := Entries(input, jsonDecode);
    if l.Listing? {
      var urls := Urls(l.items);
      var images := ImagesUpTo(TriedAll(urls), fetch, |urls|);
      assert BatchOutcome(input, jsonDecode, fetch)
          == if |urls| < |l.items| then NotStrings else if images == [] then NothingLoaded else Loaded(images);
      NoImagesIffNoneLoad(TriedAll(urls), fetch, |urls|);
      assert (forall j :: 0 <= j < |l.items| ==> l.items[j].JStr?) <==> |urls| == |l.items|;
    }
  }

  /** An input that is not a string and not iterable (None, a number, a
      boolean) raises before any request; an item that is not a string
      raises once the entries before it have been handled, and no later
      entry is requested. */
  lemma NonStringsRaise(input: BatchInput, jsonDecode: string -> Option<Json>, fetch: (nat, nat) -> Fetch)
    ensures input.Value? && (input.v.JNull? || input.v.JInt? || input.v.JBool?) ==>
              BatchOutcome(input, jsonDecode, fetch) == NotStrings && BatchRequests(input, jsonDecode, fetch) == []
    ensures var l := Entries(input, jsonDecode);
            l.Listing? && StringRun(l.items) < |l.items| ==>
              BatchOutcome(input, jsonDecode, fetch) == NotStrings
              && forall k :: 0 <= k < |BatchRequests(input, jsonDecode, fetch)| ==>
                   BatchRequests(input, jsonDecode, fetch)[k].0 < StringRun(l.items)
  {
    if Entries(input, jsonDecode).Listing? {
      var items := Entries(input, jsonDecode).items;
      var urls := Urls(items);
      RequestsWellFormed(TriedAll(urls), fetch, |urls|);
    }
  }

  lemma {:induction false} NoImagesIffNoneLoad(tried: seq<bool>, fetch: (nat, nat) -> Fetch, n: nat)
    requires n <= |tried|
    ensures ImagesUpTo(tried, fetch, n) == [] <==> forall j :: 0 <= j < n ==> EntryImage(tried[j], fetch, j).None?
  {
    if n > 0 {
      NoImagesIffNoneLoad(tried, fetch, n - 1);
    }
  }

  /** One output per loaded entry: the number of images is the number of
      entries whose download succeeded, so it never exceeds the entry count. */
  lemma {:induction false} ImageCount(tried: seq<bool>, fetch: (nat, nat) -> Fetch, n: nat)
    requires n <= |tried|
    ensures |ImagesUpTo(tried, fetch, n)| == |LoadedEntries(tried, fetch, n)|
    ensures |ImagesUpTo(tried, fetch, n)| <= n
  {
    if n > 0 {
      ImageCount(tried, fetch, n - 1);
      LoadedStep(tried, fetch, n);
    }
    SetBelowBound(LoadedEntries(tried, fetch, n), n);
  }

  /** The entries among the first `n` whose image was obtained. */
  ghost function LoadedEntries(tried: seq<bool>, fetch: (nat, nat) -> Fetch, n: nat): set<nat>
    requires n <= |tried|
  {
    set j | 0 <= j < n && EntryImage(tried[j], fetch, j).Some?
  }

  /** Entry `n - 1` adds one image and one loaded entry, or neither. */
  lemma LoadedStep(tried: seq<bool>, fetch: (nat, nat) -> Fetch, n: nat)
    requires 0 < n <= |tried|
    ensures var d := if EntryImage(tried[n - 1], fetch, n - 1).Some? then 1 else 0;
            |ImagesUpTo(tried, fetch, n)| == |ImagesUpTo(tried, fetch, n - 1)| + d
            && |LoadedEntries(tried, fetch, n)| == |LoadedEntries(tried, fetch, n - 1)| + d
  {
    var s, s' := LoadedEntries(tried, fetch, n), LoadedEntries(tried, fetch, n - 1);
    if EntryImage(tried[n - 1], fetch, n - 1).Some? {
      assert s == s' + {n - 1} && n - 1 !in s';
    } else {
      assert s == s';
    }
  }

  lemma {:induction false} SetBelowBound(s: set<nat>, n: nat)
    requires forall j :: j in s ==> j < n
    ensures |s| <= n
  {
    if n > 0 {
      SetBelowBound(s - {n - 1}, n - 1);
    } else {
      assert s == {};
    }
  }
}
