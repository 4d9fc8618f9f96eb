/** The virtual try-on service: uploading an image to temporary storage
    and turning its page URL into a direct-download URL, choosing the
    output URL in the try-on answer, the request headers, and the try-on
    prompt suggestions with their fixed fallback. The uploads, the try-on
    call and the language models are outside; their answers are inputs. */
module TryOnService {
  import opened Common
  import opened Text
  import opened Models

  /** The part of a temporary-storage page URL that is rewritten. */
  const PagePrefix: string := "tmpfiles.org/"

  /** What it is rewritten to, giving the direct-download URL. */
  const DirectPrefix: string := "tmpfiles.org/dl/"

  /** `page_url.replace('tmpfiles.org/', 'tmpfiles.org/dl/')`. */
  function DirectDownloadUrl(pageUrl: string): string
  {
    ReplaceAll(pageUrl, PagePrefix, DirectPrefix)
  }

  /** A text without the letter 't' holds no page prefix and is kept. */
  lemma {:induction false} KeepsTextWithoutT(s: string)
    requires 't' !in s
    ensures DirectDownloadUrl(s) == s
  {
    if |s| >= |PagePrefix| {
      assert s[..|PagePrefix|][0] == s[0];
      KeepsTextWithoutT(s[1..]);
      assert [s[0]] + s[1..] == s;
    }
  }

  /** A head at none of whose positions the page prefix starts is kept. */
  lemma {:induction false} KeepsHead(a: string, s: string)
    requires forall i :: 0 <= i < |a| ==> !StartsWith((a + s)[i..], PagePrefix)
    ensures DirectDownloadUrl(a + s) == a + DirectDownloadUrl(s)
  {
    if a != [] {
      assert (a + s)[0..] == a + s;
      assert (a + s)[1..] == a[1..] + s;
      forall i | 0 <= i < |a[1..]| ensures !StartsWith((a[1..] + s)[i..], PagePrefix) {
        assert (a[1..] + s)[i..] == (a + s)[i + 1..];
      }
      KeepsHead(a[1..], s);
      assert a + s == [a[0]] + (a[1..] + s);
    }
  }

  /** A page prefix at the front is rewritten, and the rest after it. */
  lemma RewritesFront(tail: string)
    ensures DirectDownloadUrl(PagePrefix + tail) == DirectPrefix + DirectDownloadUrl(tail)
  {
    var s := PagePrefix + tail;
    assert s[..|PagePrefix|] == PagePrefix && s[|PagePrefix|..] == tail;
  }

  /** The page prefix starts at no position of the scheme "https://". */
  lemma SchemeHoldsNoPrefix(s: string)
    ensures forall i :: 0 <= i < |"https://"| ==> !StartsWith(("https://" + s)[i..], PagePrefix)
  {
    var u := "https://" + s;
    forall i | 0 <= i < |"https://"| ensures !StartsWith(u[i..], PagePrefix) {
      if |PagePrefix| <= |u[i..]| {
        assert u[i..][..|PagePrefix|][0] == u[i];
        assert u[i..][..|PagePrefix|][1] == u[i + 1];
      }
    }
  }

  /** The example of the source comment: the page URL
      "https://tmpfiles.org/12345/image.png" of an upload becomes the
      direct-download URL "https://tmpfiles.org/dl/12345/image.png". */
  lemma DirectDownloadExample(scheme: string, tail: string)
    requires scheme == "https://" && tail == "12345/image.png"
    ensures DirectDownloadUrl(scheme + PagePrefix + tail) == scheme + DirectPrefix + tail
  {
    KeepsTextWithoutT(tail);
    RewritesFront(tail);
    SchemeHoldsNoPrefix(PagePrefix + tail);
    KeepsHead(scheme, PagePrefix + tail);
    assert scheme + PagePrefix + tail == scheme + (PagePrefix + tail);
    assert scheme + DirectPrefix + tail == scheme + (DirectPrefix + tail);
  }

  /** The rewritten text agrees with the original up to its first 't'. */
  lemma {:induction false} RewriteKeepsPrefix(t: string, k: nat)
    requires k <= |DirectDownloadUrl(t)|
    ensures 't' in DirectDownloadUrl(t)[..k] || (k <= |t| && t[..k] == DirectDownloadUrl(t)[..k])
    decreases k
  {
    var y := DirectDownloadUrl(t);
    if k == 0 || |t| < |PagePrefix| {
    } else if t[..|PagePrefix|] == PagePrefix {
      assert y[..k][0] == 't';
    } else {
      var y' := DirectDownloadUrl(t[1..]);
      assert y == [t[0]] + y';
      RewriteKeepsPrefix(t[1..], k - 1);
      assert y[..k] == [t[0]] + y'[..k - 1];
      if k - 1 <= |t[1..]| && t[1..][..k - 1] == y'[..k - 1] {
        assert t[..k] == [t[0]] + t[1..][..k - 1];
      }
    }
  }

  /** The rewrite loses nothing: turning every direct prefix back into a
      page prefix restores the original URL, whatever it contains. */
  lemma {:induction false} RewriteIsLossless(u: string)
    ensures ReplaceAll(DirectDownloadUrl(u), DirectPrefix, PagePrefix) == u
    decreases |u|
  {
    var x := DirectDownloadUrl(u);
    if |u| < |PagePrefix| {
    } else if u[..|PagePrefix|] == PagePrefix {
      var rest := DirectDownloadUrl(u[|PagePrefix|..]);
      assert x == DirectPrefix + rest;
      assert x[..|DirectPrefix|] == DirectPrefix;
      assert x[|DirectPrefix|..] == rest;
      RewriteIsLossless(u[|PagePrefix|..]);
      assert PagePrefix + u[|PagePrefix|..] == u;
    } else {
      var y := DirectDownloadUrl(u[1..]);
      assert x == [u[0]] + y;
      NoDirectPrefixAfterMiss(u);
      assert x[1..] == y;
      RewriteIsLossless(u[1..]);
      assert [u[0]] + u[1..] == u;
    }
  }

  /** Where no page prefix starts, the rewritten text does not start with
      a direct prefix either. */
  lemma NoDirectPrefixAfterMiss(u: string)
    requires |u| >= |PagePrefix| && u[..|PagePrefix|] != PagePrefix
    ensures !StartsWith(DirectDownloadUrl(u), DirectPrefix)
  {
    var x := DirectDownloadUrl(u);
    var y := DirectDownloadUrl(u[1..]);
    assert x == [u[0]] + y;
    if StartsWith(x, DirectPrefix) {
      var k := |PagePrefix| - 1;
      assert DirectPrefix[..|PagePrefix|] == PagePrefix;
      assert x[..|PagePrefix|] == PagePrefix;
      assert u[0] == x[0] == 't';
      assert y[..k] == x[1..|PagePrefix|] == PagePrefix[1..];
      assert 't' !in PagePrefix[1..];
      assert u[..|PagePrefix|] == [u[0]] + u[1..][..k];
      RewriteKeepsPrefix(u[1..], k);
      assert false;
    }
  }

  /** Why an upload or a try-on call fails. */
  datatype TryOnError =
    | UploadFailed              // status other than 200, or status field not "success"
    | MalformedUploadReply      // data.url missing or not a string
    | NoOutputUrl(reply: Json)  // no output URL found in the try-on answer

  /** The upload service reports success: `data.get('status') == 'success'`. */
  predicate UploadSucceeded(body: Json)
  {
    body.JObj? && "status" in body.fields && body.fields["status"] == JStr("success")
  }

  /** `data['data']['url']`, when it is a string. */
  function PageUrl(body: Json): Option<string>
  {
    if body.JObj? && "data" in body.fields && body.fields["data"].JObj?
       && "url" in body.fields["data"].fields && body.fields["data"].fields["url"].JStr?
    then Some(body.fields["data"].fields["url"].s)
    else None
  }

  /** `_upload_temp_image` after the POST: a URL exactly for status 200
      with `status == "success"` and a page URL, and then the direct-download
      form of that page URL; every other answer raises. */
  function UploadedUrl(status: int, body: Json): (r: Result<string>)
    ensures r.Success? <==> status == 200 && UploadSucceeded(body) && PageUrl(body).Some?
    ensures r.Success? ==> r.value == DirectDownloadUrl(PageUrl(body).value)
    ensures r.Failure? && (status != 200 || !UploadSucceeded(body)) ==> r.error == UploadFailed
  {
    if status != 200 || !UploadSucceeded(body) then Failure(UploadFailed)
    else
      var page := PageUrl(body);
      if page.None? then Failure(MalformedUploadReply) else Success(DirectDownloadUrl(page.value))
  }

  datatype Result<+T> = Success(value: T) | Failure(error: TryOnError)

  /** The keys of a dictionary answer that may hold the output URL, in
      the order they are tried. */
  const OutputKeys: seq<string> := ["output", "image", "url", "result"]

  /** The value under the first key of `keys` that `fields` holds with a
      truthy value. */
  function FirstTruthy(fields: map<string, Json>, keys: seq<string>): (r: Option<Json>)
    ensures r.Some? <==> exists i :: 0 <= i < |keys| && keys[i] in fields && fields[keys[i]].Truthy()
    ensures r.Some? ==> r.value.Truthy()
  {
    if keys == [] then None
    else if keys[0] in fields && fields[keys[0]].Truthy() then Some(fields[keys[0]])
    else
      var r := FirstTruthy(fields, keys[1..]);
      assert forall i :: 1 <= i < |keys| ==> keys[i] == keys[1..][i - 1];
      r
  }

  /** The key found is the first key that holds a truthy value. */
  lemma {:induction false} FirstTruthyIsFirst(fields: map<string, Json>, keys: seq<string>)
    requires FirstTruthy(fields, keys).Some?
    ensures exists i :: 0 <= i < |keys| && keys[i] in fields && fields[keys[i]] == FirstTruthy(fields, keys).value
                        && forall j :: 0 <= j < i ==> !(keys[j] in fields && fields[keys[j]].Truthy())
  {
    if keys[0] in fields && fields[keys[0]].Truthy() {
      assert keys[0] in fields && fields[keys[0]] == FirstTruthy(fields, keys).value;
    } else {
      FirstTruthyIsFirst(fields, keys[1..]);
      var i :| 0 <= i < |keys[1..]| && keys[1..][i] in fields
        && fields[keys[1..][i]] == FirstTruthy(fields, keys[1..]).value
        && forall j :: 0 <= j < i ==> !(keys[1..][j] in fields && fields[keys[1..][j]].Truthy());
      assert keys[i + 1] == keys[1..][i];
      assert forall j :: 1 <= j < i + 1 ==> keys[j] == keys[1..][j - 1];
    }
  }

  /** The output URL of a try-on answer: for a dictionary, the value under
      the first of `OutputKeys` with a truthy value; for a non-empty list,
      its first element if truthy; for a string starting with "http", the
      string; anything else is an error naming the answer. */
  function OutputUrl(reply: Json): (r: Result<Json>)
    ensures r.Success? ==> r.value.Truthy()
  {
    var found :=
      if reply.JObj? then FirstTruthy(reply.fields, OutputKeys)
      else if reply.JArr? && reply.items != [] then Some(reply.items[0])
      else None;
    if found.Some? && found.value.Truthy() then Success(found.value)
    else if reply.JStr? && StartsWith(reply.s, "http") then Success(reply)
    else Failure(NoOutputUrl(reply))
  }

  /** The URL choice of `try_on`: a loop over `OutputKeys` that takes the
      first key present with a truthy value and stops. */
  method ExtractOutputUrl(reply: Json) returns (r: Result<Json>)
    ensures r == OutputUrl(reply)
  {
    var output: Option<Json> := None;
    if reply.JObj? {
      var fields := reply.fields;
      var i := 0;
      while i < |OutputKeys|
        invariant 0 <= i <= |OutputKeys|
        invariant output.None? ==> FirstTruthy(fields, OutputKeys) == FirstTruthy(fields, OutputKeys[i..])
        invariant output.Some? ==> output == FirstTruthy(fields, OutputKeys)
      {
        var key := OutputKeys[i];
        if key in fields && fields[key].Truthy() {
          output := Some(fields[key]);
          break;
        }
        assert OutputKeys[i..][1..] == OutputKeys[i + 1..];
        i := i + 1;
      }
    } else if reply.JArr? && reply.items != [] {
      output := Some(reply.items[0]);
    }
    if output.Some? && output.value.Truthy() {
      r := Success(output.value);
    } else if reply.JStr? && StartsWith(reply.s, "http") {
      r := Success(reply);
    } else {
      r := Failure(NoOutputUrl(reply));
    }
  }

  /** The priority rule for dictionary answers: an output URL is found
      exactly when one of the keys holds a truthy value, and it is the value
      of the first such key. */
  lemma OutputKeyPriority(fields: map<string, Json>)
    ensures OutputUrl(JObj(fields)).Success? <==>
      exists i :: 0 <= i < |OutputKeys| && OutputKeys[i] in fields && fields[OutputKeys[i]].Truthy()
    ensures OutputUrl(JObj(fields)).Success? ==>
      exists i :: 0 <= i < |OutputKeys| && OutputKeys[i] in fields
        && OutputUrl(JObj(fields)).value == fields[OutputKeys[i]]
        && forall j :: 0 <= j < i ==> !(OutputKeys[j] in fields && fields[OutputKeys[j]].Truthy())
  {
    if OutputUrl(JObj(fields)).Success? {
      FirstTruthyIsFirst(fields, OutputKeys);
    }
  }

  /** A list answer yields its first element when that is truthy and an
      error otherwise; a string answer is itself the URL when it starts
      with "http", and an error otherwise. */
  lemma OutputFromListOrString(reply: Json)
    ensures reply.JArr? ==> (OutputUrl(reply).Success? <==> reply.items != [] && reply.items[0].Truthy())
    ensures reply.JArr? && OutputUrl(reply).Success? ==> OutputUrl(reply).value == reply.items[0]
    ensures reply.JStr? ==> (OutputUrl(reply).Success? <==> StartsWith(reply.s, "http"))
    ensures reply.JStr? && OutputUrl(reply).Success? ==> OutputUrl(reply).value == reply
  {
  }

  /** The headers of the try-on request: JSON content and no caching, plus
      a bearer token exactly when an API key is configured and non-empty. */
  function RequestHeaders(apiKey: Option<string>): (h: map<string, string>)
    ensures "Content-Type" in h && h["Content-Type"] == "application/json"
    ensures "Cache-Control" in h && h["Cache-Control"] == "no-cache"
    ensures "Authorization" in h <==> apiKey.Some? && apiKey.value != ""
    ensures "Authorization" in h ==> h["Authorization"] == "Bearer " + apiKey.value
  {
    var base := map["Content-Type" := "application/json", "Cache-Control" := "no-cache"];
    if apiKey.Some? && apiKey.value != "" then base["Authorization" := "Bearer " + apiKey.value] else base
  }

  /** The suggestions returned when anything in `generate_suggestions` fails. */
  const FallbackSuggestions: seq<string> := [
    "A stylish black cocktail dress",
    "A casual blue denim jacket",
    "A professional white shirt",
    "A cozy beige sweater"
  ]

  /** A non-empty line with no white space at either end. */
  predicate IsStrippedLine(s: string)
  {
    s != [] && !IsPySpace(s[0]) && !IsPySpace(s[|s| - 1])
  }

  /** `[f(x) for x in xs]`. */
  function Map<T, U>(f: T -> U, xs: seq<T>): (r: seq<U>)
    ensures |r| == |xs|
    ensures forall j :: 0 <= j < |xs| ==> r[j] == f(xs[j])
  {
    seq(|xs|, j requires 0 <= j < |xs| => f(xs[j]))
  }

  /** Mapping over two blocks is mapping over each, in order. */
  lemma MapAppend<T, U>(f: T -> U, a: seq<T>, b: seq<T>)
    ensures Map(f, a + b) == Map(f, a) + Map(f, b)
  {
    var x := Map(f, a + b);
    var y := Map(f, a) + Map(f, b);
    forall j | 0 <= j < |x| ensures x[j] == y[j] {
      if j < |a| {
        assert (a + b)[j] == a[j];
      } else {
        assert (a + b)[j] == b[j - |a|];
      }
    }
  }

  /** `[s.strip() for s in lines]`. */
  function StripLines(lines: seq<string>): (r: seq<string>)
    ensures |r| == |lines|
    ensures forall j :: 0 <= j < |lines| ==> r[j] == PyStrip(lines[j])
  {
    Map(PyStrip, lines)
  }

  /** `[s for s in xs if s]`: the non-empty strings, in order. */
  function NonEmpty(xs: seq<string>): (r: seq<string>)
    ensures |r| <= |xs|
    ensures forall i :: 0 <= i < |r| ==> r[i] != [] && r[i] in xs
  {
    if xs == [] then []
    else if xs[0] != [] then [xs[0]] + NonEmpty(xs[1..])
    else NonEmpty(xs[1..])
  }

  /** `[s.strip() for s in lines if s.strip()]`: what is kept are
      non-empty lines (each also free of surrounding white space, see
      `NonBlankLineStripped`). */
  function NonBlankLines(lines: seq<string>): (r: seq<string>)
    ensures |r| <= |lines|
    ensures forall i :: 0 <= i < |r| ==> r[i] != []
  {
    NonEmpty(StripLines(lines))
  }

  /** Filtering two blocks of strings is filtering each, in order. */
  lemma {:induction false} NonEmptyAppend(a: seq<string>, b: seq<string>)
    ensures NonEmpty(a + b) == NonEmpty(a) + NonEmpty(b)
  {
    if a == [] {
      assert a + b == b;
    } else {
      assert (a + b)[0] == a[0];
      assert (a + b)[1..] == a[1..] + b;
      NonEmptyAppend(a[1..], b);
    }
  }

  /** Keeping the non-blank lines of two blocks of lines is keeping those
      of each block, in order. */
  lemma NonBlankLinesAppend(a: seq<string>, b: seq<string>)
    ensures NonBlankLines(a + b) == NonBlankLines(a) + NonBlankLines(b)
  {
    MapAppend(PyStrip, a, b);
    NonEmptyAppend(StripLines(a), StripLines(b));
  }

  /** The `i`-th kept string is some string of the input, and kept
      strings keep the input's order. */
  lemma {:induction false} NonEmptySource(xs: seq<string>, i: nat) returns (j: nat)
    requires i < |NonEmpty(xs)|
    ensures j < |xs| && NonEmpty(xs)[i] == xs[j]
  {
    var rest := NonEmpty(xs[1..]);
    if xs[0] != [] && i == 0 {
      j := 0;
    } else {
      var k := if xs[0] != [] then i - 1 else i;
      assert NonEmpty(xs)[i] == rest[k];
      var j' := NonEmptySource(xs[1..], k);
      j := j' + 1;
    }
  }

  /** Every kept line is the stripped form of some line of the input. */
  lemma NonBlankLineSource(lines: seq<string>, i: nat) returns (j: nat)
    requires i < |NonBlankLines(lines)|
    ensures j < |lines| && NonBlankLines(lines)[i] == PyStrip(lines[j])
  {
    j := NonEmptySource(StripLines(lines), i);
  }

  /** Every kept line is non-empty and has no white space at either end. */
  lemma NonBlankLineStripped(lines: seq<string>, i: nat)
    requires i < |NonBlankLines(lines)|
    ensures IsStrippedLine(NonBlankLines(lines)[i])
  {
    var j := NonBlankLineSource(lines, i);
  }

  /** The first `n` elements of `s`, or all of them (Python `s[:n]`). */
  function Take<T>(s: seq<T>, n: nat): (r: seq<T>)
    ensures |r| <= n && |r| <= |s| && r == s[..|r|]
    ensures |s| >= n ==> |r| == n
    ensures |s| < n ==> r == s
  {
    if |s| <= n then s else s[..n]
  }

  /** The parsing of the model's answer: split on newlines, strip, drop
      blank lines, keep at most the first four. Each kept suggestion is a
      non-empty line with no surrounding white space. */
  function ParseSuggestions(content: string): (r: seq<string>)
    ensures |r| <= 4
    ensures forall i :: 0 <= i < |r| ==> r[i] != [] && '\n' !in r[i]
  {
    var r := Take(NonBlankLines(Split(content, '\n')), 4);
    assert forall i :: 0 <= i < |r| ==> '\n' !in r[i] by {
      forall i | 0 <= i < |r| ensures '\n' !in r[i] {
        var j := NonBlankLineSource(Split(content, '\n'), i);
        StripIsSlice(Split(content, '\n')[j], IsPySpace);
      }
    }
    r
  }

  /** An answer written as separate lines gives the first four non-blank
      lines, stripped, in their order. */
  lemma ParseLines(lines: seq<string>)
    requires |lines| >= 1
    requires forall i :: 0 <= i < |lines| ==> '\n' !in lines[i]
    ensures ParseSuggestions(Join(lines, "\n")) == Take(NonBlankLines(lines), 4)
  {
    JoinThenSplit(lines, '\n');
  }

  /** The garment description given to the language model:
      `f"{colors[0]} {style_aesthetic[0]} {category}"`, or `None` where the
      indexing raises because a list is empty. */
  function GarmentDescription(a: GarmentAnalysis): Option<string>
  {
    if a.colors == [] || a.styleAesthetic == [] then None
    else Some(a.colors[0] + " " + a.styleAesthetic[0] + " " + a.category)
  }

  /** `generate_suggestions`: analyse the garment, describe it, ask the
      model and parse its answer; if the analysis raises, a list is empty
      or the model call raises, the fixed four fallbacks. A successful
      answer with no non-blank line gives the empty list. */
  function GenerateSuggestions(analysis: Outcome<GarmentAnalysis>, llm: string -> Outcome<string>): (r: seq<string>)
    ensures |r| <= 4
    ensures analysis.Raised? ==> r == FallbackSuggestions
    ensures analysis.Ok? && GarmentDescription(analysis.value).None? ==> r == FallbackSuggestions
    ensures analysis.Ok? && GarmentDescription(analysis.value).Some? ==>
      r == (match llm(GarmentDescription(analysis.value).value)
            case Raised(_) => FallbackSuggestions
            case Ok(content) => ParseSuggestions(content))
  {
    if analysis.Raised? then FallbackSuggestions
    else
      var description := GarmentDescription(analysis.value);
      if description.None? then FallbackSuggestions
      else
        match llm(description.value)
        case Raised(_) => FallbackSuggestions
        case Ok(content) => ParseSuggestions(content)
  }
}
