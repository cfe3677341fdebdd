/** The HTTP request wrapper of
    `src/rot13-service/infrastructure/http_request.js`: header
    normalisation, media-type matching and the one-shot body read, for both
    the Node-backed request and the null (simulated) request. */
module Request {
  import opened Text
  import opened Results

  const AlreadyReadMessage := "Can't read request body because it's already been read"

  const DefaultUrl := "/null-request-url"
  const DefaultMethod := "GET"
  const DefaultBody := ""

  /** The options of `HttpRequest.createNull`; an absent field takes its
      default. Headers are the `Object.entries` of the options object, in
      order. */
  datatype NullOptions = NullOptions(
    url: Option<string>,
    httpMethod: Option<string>,
    headers: Option<seq<(string, string)>>,
    body: Option<string>)

  /** No later entry of `entries` has the same lower-cased name as entry `i`. */
  predicate IsLastWithName(entries: seq<(string, string)>, i: nat)
    requires i < |entries|
  {
    forall j :: i < j < |entries| ==> ToLower(entries[j].0) != ToLower(entries[i].0)
  }

  /** `normalizeHeaders`: lower-cases every header name; when two names
      collide the later entry wins, as with `Object.fromEntries`. */
  function NormalizeHeaders(entries: seq<(string, string)>): (m: map<string, string>)
    ensures forall name :: name in m ==> IsLowerCase(name)
  {
    if entries == [] then map[]
    else
      var n := |entries| - 1;
      NormalizeHeaders(entries[..n])[ToLower(entries[n].0) := entries[n].1]
  }

  /** Every entry's lower-cased name is a normalised header name. */
  lemma {:induction false} NormalizedNamesPresent(entries: seq<(string, string)>)
    ensures forall i :: 0 <= i < |entries| ==> ToLower(entries[i].0) in NormalizeHeaders(entries)
  {
    if entries != [] {
      var n := |entries| - 1;
      var front := entries[..n];
      NormalizedNamesPresent(front);
      forall i | 0 <= i < n
        ensures ToLower(entries[i].0) in NormalizeHeaders(entries)
      {
        assert front[i] == entries[i];
      }
    }
  }

  /** Every normalised header name comes from some entry. */
  lemma {:induction false} NormalizedNamesOnly(entries: seq<(string, string)>, name: string)
    requires name in NormalizeHeaders(entries)
    ensures exists i :: 0 <= i < |entries| && ToLower(entries[i].0) == name
  {
    var n := |entries| - 1;
    if name != ToLower(entries[n].0) {
      var front := entries[..n];
      NormalizedNamesOnly(front, name);
      var i :| 0 <= i < n && ToLower(front[i].0) == name;
      assert front[i] == entries[i];
    }
  }

  /** Each normalised header holds the value of the last entry with that
      name: a later colliding entry overwrites an earlier one. */
  lemma {:induction false} NormalizedValueIsLast(entries: seq<(string, string)>, i: nat)
    requires i < |entries| && IsLastWithName(entries, i)
    ensures ToLower(entries[i].0) in NormalizeHeaders(entries)
    ensures NormalizeHeaders(entries)[ToLower(entries[i].0)] == entries[i].1
  {
    var n := |entries| - 1;
    if i < n {
      var front := entries[..n];
      assert front[i] == entries[i];
      assert IsLastWithName(front, i) by {
        forall j | i < j < n
          ensures ToLower(front[j].0) != ToLower(front[i].0)
        {
          assert front[j] == entries[j];
        }
      }
      NormalizedValueIsLast(front, i);
    }
  }

  /** The body a stream delivers: its chunks concatenated in arrival order.
      It starts with the first chunk, and empty chunks alone give an empty
      body. */
  function Body(chunks: seq<string>): (r: string)
    ensures chunks != [] ==> chunks[0] <= r
    ensures (forall i :: 0 <= i < |chunks| ==> chunks[i] == "") ==> r == ""
  {
    if chunks == [] then "" else Body(chunks[..|chunks| - 1]) + chunks[|chunks| - 1]
  }

  /** A body delivered in one chunk is that chunk. */
  lemma BodyOfOneChunk(chunk: string)
    ensures Body([chunk]) == chunk
  {
    assert [chunk][..0] == [];
  }

  /** Splitting the chunk stream anywhere splits the body at the same place. */
  lemma {:induction false} BodyOfAppend(a: seq<string>, b: seq<string>)
    ensures Body(a + b) == Body(a) + Body(b)
  {
    if b == [] {
      assert a + b == a;
    } else {
      var n := |b| - 1;
      assert (a + b)[..|a + b| - 1] == a + b[..n];
      calc {
        Body(a + b);
        Body(a + b[..n]) + b[n];
        { BodyOfAppend(a, b[..n]); }
        Body(a) + Body(b[..n]) + b[n];
        Body(a) + Body(b);
      }
    }
  }

  /** The media type's canonical form: trimmed, then lower-cased. */
  function Canonical(s: string): string {
    ToLower(Trim(s))
  }

  /** The comparison `hasContentType` makes once the header is found: the
      header's text before the first `;` and the expected media type, both
      trimmed, are the same up to ASCII case, character by character. */
  predicate MediaTypeMatches(contentType: string, expectedMediaType: string): (r: bool)
    ensures var m, x := Trim(BeforeFirst(contentType, ';')), Trim(expectedMediaType);
            r <==> |m| == |x| && forall i :: 0 <= i < |m| ==> LowerChar(m[i]) == LowerChar(x[i])
  {
    Canonical(BeforeFirst(contentType, ';')) == Canonical(expectedMediaType)
  }

  /** Parameters after the first `;` never change the answer. */
  lemma ParametersIgnored(mediaType: string, parameters: string, expectedMediaType: string)
    requires ';' !in mediaType
    ensures MediaTypeMatches(mediaType + ";" + parameters, expectedMediaType)
        == MediaTypeMatches(mediaType, expectedMediaType)
  {
    BeforeFirstStopsAtSeparator(mediaType, ';', parameters);
    BeforeFirstWithoutSeparator(mediaType, ';');
  }

  /** White space around the header's media type or around the expected
      media type never changes the answer. */
  lemma PaddingIgnored(w1: string, mediaType: string, w2: string,
                       w3: string, expectedMediaType: string, w4: string)
    requires ';' !in mediaType
    requires AllWhiteSpace(w1) && AllWhiteSpace(w2) && AllWhiteSpace(w3) && AllWhiteSpace(w4)
    ensures MediaTypeMatches(w1 + mediaType + w2, w3 + expectedMediaType + w4)
        == MediaTypeMatches(mediaType, expectedMediaType)
  {
    var padded := w1 + mediaType + w2;
    forall i | 0 <= i < |padded|
      ensures padded[i] != ';'
    {
      if i < |w1| {
        assert padded[i] == w1[i];
      } else if i < |w1| + |mediaType| {
        assert padded[i] == mediaType[i - |w1|];
      } else {
        assert padded[i] == w2[i - |w1| - |mediaType|];
      }
    }
    BeforeFirstWithoutSeparator(padded, ';');
    BeforeFirstWithoutSeparator(mediaType, ';');
    TrimIgnoresPadding(w1, mediaType, w2);
    TrimIgnoresPadding(w3, expectedMediaType, w4);
  }

  /** The comparison ignores ASCII case on both sides. */
  lemma CaseIgnored(contentType1: string, contentType2: string,
                    expected1: string, expected2: string)
    requires ToLower(contentType1) == ToLower(contentType2)
    requires ToLower(expected1) == ToLower(expected2)
    ensures MediaTypeMatches(contentType1, expected1) == MediaTypeMatches(contentType2, expected2)
  {
    CanonicalOfLower(BeforeFirst(contentType1, ';'));
    CanonicalOfLower(BeforeFirst(contentType2, ';'));
    BeforeFirstOfLower(contentType1);
    BeforeFirstOfLower(contentType2);
    CanonicalOfLower(expected1);
    CanonicalOfLower(expected2);
  }

  /** The canonical form depends only on the lower-cased text. */
  lemma CanonicalOfLower(s: string)
    ensures Canonical(s) == Trim(ToLower(s))
  {
    TrimOfLower(s);
  }

  /** A media type without parameters matches itself. */
  lemma MatchIsReflexive(mediaType: string)
    requires ';' !in mediaType
    ensures MediaTypeMatches(mediaType, mediaType)
  {
    BeforeFirstWithoutSeparator(mediaType, ';');
  }

  /** Two media types that differ in their first letter never match. */
  lemma FirstLetterMismatch(mediaType: string, expectedMediaType: string)
    requires ';' !in mediaType
    requires mediaType != [] && !IsWhiteSpace(mediaType[0]) && !IsWhiteSpace(mediaType[|mediaType| - 1])
    requires expectedMediaType != [] && !IsWhiteSpace(expectedMediaType[0])
    requires !IsWhiteSpace(expectedMediaType[|expectedMediaType| - 1])
    requires LowerChar(mediaType[0]) != LowerChar(expectedMediaType[0])
    ensures !MediaTypeMatches(mediaType, expectedMediaType)
  {
    BeforeFirstWithoutSeparator(mediaType, ';');
    TrimOfUnpadded(mediaType);
    TrimOfUnpadded(expectedMediaType);
    assert Canonical(mediaType)[0] != Canonical(expectedMediaType)[0];
  }

  /** Texts with the same letters up to ASCII case match. */
  lemma SameLettersMatch(contentType: string, expectedMediaType: string, mediaType: string)
    requires ';' !in mediaType
    requires ToLower(contentType) == ToLower(mediaType) && ToLower(expectedMediaType) == ToLower(mediaType)
    ensures MediaTypeMatches(contentType, expectedMediaType)
  {
    MatchIsReflexive(mediaType);
    CaseIgnored(contentType, mediaType, expectedMediaType, mediaType);
  }

  /** Two of the media-type cases of the request wrapper's own tests,
      with `json` standing for "application/json": a different media type
      does not match, and the comparison ignores case. The literal comes in
      as a parameter because a string literal in the statement itself makes
      the verifier unfold `Trim` and `BeforeFirst` without bound. */
  lemma ExampleMismatch(json: string, plain: string)
    requires json == "application/json" && plain == "text/plain"
    ensures !MediaTypeMatches(json, plain)
  {
    FirstLetterMismatch(json, plain);
  }

  lemma ExampleCase(json: string)
    requires json == "application/json"
    ensures MediaTypeMatches("APPLICATION/json", "application/JSON")
  {
    SameLettersMatch("APPLICATION/json", "application/JSON", json);
  }

  /** One inbound request, together with the Node request object it wraps
      (`_request`): its URL, method, headers and body chunks, and whether the
      body stream has ended (`readableEnded`). */
  class HttpRequest {
    const url: string
    const httpMethod: string
    const headers: map<string, string>
    const chunks: seq<string>
    var bodyRead: bool

    /** Header names are lower-case. */
    ghost predicate Valid() {
      forall name :: name in headers ==> IsLowerCase(name)
    }

    /** `HttpRequest.create`: wraps a request that Node received. Node's
        `IncomingMessage` has already lower-cased the header names. */
    constructor Create(url: string, httpMethod: string, headers: map<string, string>, chunks: seq<string>)
      requires forall name :: name in headers ==> IsLowerCase(name)
      ensures Valid()
      ensures this.url == url && this.httpMethod == httpMethod
      ensures this.headers == headers && this.chunks == chunks
      ensures !bodyRead
    {
      this.url := url;
      this.httpMethod := httpMethod;
      this.headers := headers;
      this.chunks := chunks;
      bodyRead := false;
    }

    /** `HttpRequest.createNull`: a simulated request whose absent options
        take their defaults, whose method is upper-cased and whose headers
        are normalised; its body arrives as a single chunk. */
    constructor CreateNull(options: NullOptions)
      ensures Valid()
      ensures url == options.url.GetOr(DefaultUrl)
      ensures httpMethod == ToUpper(options.httpMethod.GetOr(DefaultMethod)) && IsUpperCase(httpMethod)
      ensures headers == NormalizeHeaders(options.headers.GetOr([]))
      ensures chunks == [options.body.GetOr(DefaultBody)]
      ensures !bodyRead
    {
      url := options.url.GetOr(DefaultUrl);
      httpMethod := ToUpper(options.httpMethod.GetOr(DefaultMethod));
      headers := NormalizeHeaders(options.headers.GetOr([]));
      chunks := [options.body.GetOr(DefaultBody)];
      bodyRead := false;
    }

    /** The `headers` getter: a copy whose names are all lower-case. */
    function Headers(): (h: map<string, string>)
      requires Valid()
      ensures forall name :: name in h ==> IsLowerCase(name)
      ensures forall name :: name in h <==> name in headers
      ensures forall name :: name in h ==> h[name] == headers[name]
    {
      map name | name in headers :: headers[name]
    }

    /** `hasContentType`: false without a `content-type` header; otherwise
        whether the header's media type matches `expectedMediaType`. */
    function HasContentType(expectedMediaType: string): (r: bool)
      requires Valid()
      ensures "content-type" !in headers ==> !r
      ensures "content-type" in headers ==>
                (r <==> MediaTypeMatches(headers["content-type"], expectedMediaType))
    {
      var h := Headers();
      if "content-type" !in h then false
      else
        var contentType := h["content-type"];
        var mediaType := BeforeFirst(contentType, ';');
        ToLower(Trim(mediaType)) == ToLower(Trim(expectedMediaType))
    }

    /** `readBodyAsync`: refused once the stream has ended; otherwise
        accumulates every chunk in order and ends the stream. */
    method ReadBody() returns (r: Result<string>)
      modifies this
      ensures bodyRead
      ensures old(bodyRead) ==> r == Failure(AlreadyReadMessage)
      ensures !old(bodyRead) ==> r == Success(Body(chunks))
    {
      if bodyRead {
        return Failure(AlreadyReadMessage);
      }
      var body := "";
      for i := 0 to |chunks|
        invariant body == Body(chunks[..i])
      {
        assert chunks[..i + 1][..i] == chunks[..i];
        body := body + chunks[i];
      }
      assert chunks[..|chunks|] == chunks;
      bodyRead := true;
      r := Success(body);
    }
  }

  /** A simulated request reads back the body it was configured with, and
      the second read is refused with the request still marked as read. */
  method NullBodyReadsOnce(body: string) returns (first: Result<string>, second: Result<string>)
    ensures first == Success(body)
    ensures second == Failure(AlreadyReadMessage)
  {
    var request := new HttpRequest.CreateNull(NullOptions(None, None, None, Some(body)));
    first := request.ReadBody();
    BodyOfOneChunk(body);
    second := request.ReadBody();
  }
}
