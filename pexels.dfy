/** `blog_creation_suite/utils/pexels_api.py`: the API-key gate in front of
    the Pexels search and photo lookups, and the mock search response used
    whenever the real service is not reachable or not configured. The HTTP
    exchange itself is a parameter: what the service answered, or that
    the request failed. */
module PexelsApi {
  import opened Wrappers
  import opened JsonValue
  import opened PyText

  const Placeholder: string := "YOUR_PEXELS_API_KEY"
  const DefaultPerPage: int := 5
  const DefaultPage: int := 1

  /** `not self.api_key or self.api_key == "YOUR_PEXELS_API_KEY"` */
  predicate Unconfigured(apiKey: Json) {
    !Truthy(apiKey) || apiKey == JStr(Placeholder)
  }

  /** The outcome of one `requests.get`: a response (whose body may fail
      to parse as JSON), or an exception. */
  datatype Http = Response(status: int, body: Option<Json>) | Failure

  datatype Src = Src(original: string, large2x: string, large: string, medium: string, small: string)

  datatype Photo = Photo(
    id: int, width: int, height: int, url: string,
    photographer: string, photographerUrl: string, photographerId: int,
    avgColor: string, src: Src, liked: bool, alt: string)

  datatype Envelope = Envelope(page: int, perPage: int, photos: seq<Photo>, totalResults: int, nextPage: string)

  const PhotosBase: string := "https://images.pexels.com/photos/"
  const PhotoFile: string := "/pexels-photo-"
  const SearchBase: string := "https://api.pexels.com/v1/search/?page=2&per_page="
  const QueryKey: string := "&query="

  /** The mock image address of photo `id`. */
  function PhotoUrl(id: nat): string {
    PhotosBase + NatToString(id) + PhotoFile + NatToString(id) + ".jpeg"
  }

  /** Mock photo `i` (from 0). */
  function MockPhoto(query: string, i: nat): Photo {
    var id := 123456 + i;
    var url := PhotoUrl(id);
    Photo(id, 1920, 1080, url,
      "Mock Photographer " + NatToString(i + 1),
      "https://www.pexels.com/@photographer" + NatToString(i + 1),
      1000 + i, "#374151",
      Src(url,
        url + "?auto=compress&cs=tinysrgb&dpr=2&h=650&w=940",
        url + "?auto=compress&cs=tinysrgb&h=650&w=940",
        url + "?auto=compress&cs=tinysrgb&h=350",
        url + "?auto=compress&cs=tinysrgb&h=130"),
      false,
      "Professional image related to " + query)
  }

  function NextPage(query: string, perPage: int): string {
    SearchBase + IntToString(perPage) + QueryKey + query
  }

  /** The whole mock response: `range(per_page)` photos, none for a
      count below 1. */
  function Mock(query: string, perPage: int): Envelope {
    var n := if perPage > 0 then perPage else 0;
    Envelope(1, perPage, seq(n, i requires 0 <= i < n => MockPhoto(query, i)), 500, NextPage(query, perPage))
  }

  /** `get_mock_response`: the photo loop. */
  method GetMockResponse(query: string, perPage: int) returns (r: Envelope)
    ensures r == Mock(query, perPage)
  {
    var photos: seq<Photo> := [];
    var i := 0;
    while i < perPage
      invariant if perPage > 0 then i <= perPage else i == 0
      invariant |photos| == i
      invariant forall k :: 0 <= k < i ==> photos[k] == MockPhoto(query, k)
    {
      photos := photos + [MockPhoto(query, i)];
      i := i + 1;
    }
    assert photos == Mock(query, perPage).photos;
    r := Envelope(1, perPage, photos, 500, NextPage(query, perPage));
  }

  /** What `search_images` returns: the service's JSON, or the mock. */
  datatype SearchResult = Live(body: Json) | Mocked(envelope: Envelope)

  /** `search_images`: the mock when the key is missing or the
      placeholder, and again when the request fails, answers with another
      status than 200, or answers with a body that is not JSON. */
  function SearchImages(apiKey: Json, query: string, perPage: int, page: int, http: Http): (r: SearchResult)
    ensures r.Mocked? ==> r.envelope == Mock(query, perPage)
    ensures r.Live? <==> !Unconfigured(apiKey) && http.Response? && http.status == 200 && http.body.Some?
  {
    if Unconfigured(apiKey) then Mocked(Mock(query, perPage))
    else match http
      case Response(status, body) =>
        if status == 200 && body.Some? then Live(body.value) else Mocked(Mock(query, perPage))
      case Failure => Mocked(Mock(query, perPage))
  }

  /** Without a usable key no request is made: whatever the service would
      have answered, the result is the same mock. */
  lemma UnconfiguredIgnoresNetwork(apiKey: Json, query: string, perPage: int, page: int, h1: Http, h2: Http)
    requires Unconfigured(apiKey)
    ensures SearchImages(apiKey, query, perPage, page, h1) == SearchImages(apiKey, query, perPage, page, h2)
    ensures SearchImages(apiKey, query, perPage, page, h1) == Mocked(Mock(query, perPage))
  {
  }

  /** `get_image_info`: None without a usable key, on failure, or on a
      status other than 200. */
  function GetImageInfo(apiKey: Json, photoId: int, http: Http): (r: Option<Json>)
    ensures Unconfigured(apiKey) ==> r.None?
    ensures r.Some? <==> !Unconfigured(apiKey) && http.Response? && http.status == 200 && http.body.Some?
  {
    if Unconfigured(apiKey) then None
    else match http
      case Response(status, body) => if status == 200 then body else None
      case Failure => None
  }

  /** The mock holds `per_page` photos (none when it is below 1), each
      numbered from 123456 and credited to photographer `i + 1`, every
      source URL of a photo built from its id, and an envelope that echoes
      `per_page` and the query. */
  lemma MockShape(query: string, perPage: int)
    ensures var m := Mock(query, perPage);
      && |m.photos| == (if perPage > 0 then perPage else 0)
      && m.page == 1 && m.perPage == perPage && m.totalResults == 500
      && Contains(m.nextPage, IntToString(perPage)) && Contains(m.nextPage, query)
      && forall i :: 0 <= i < |m.photos| ==>
           var p := m.photos[i];
           && p.id == 123456 + i && p.photographerId == 1000 + i
           && p.photographer == "Mock Photographer " + NatToString(i + 1)
           && p.width == 1920 && p.height == 1080
           && Contains(p.url, NatToString(p.id))
           && StartsWith(p.src.original, p.url) && StartsWith(p.src.large2x, p.url)
           && StartsWith(p.src.large, p.url) && StartsWith(p.src.medium, p.url)
           && StartsWith(p.src.small, p.url)
  {
    NextPageMentions(query, perPage);
    forall i | 0 <= i < (if perPage > 0 then perPage else 0)
      ensures Contains(MockPhoto(query, i).url, NatToString(123456 + i))
    {
      PhotoUrlMentions(123456 + i);
    }
  }

  lemma NextPageMentions(query: string, perPage: int)
    ensures Contains(NextPage(query, perPage), IntToString(perPage))
    ensures Contains(NextPage(query, perPage), query)
  {
    var n := IntToString(perPage);
    ContainsMiddle(SearchBase, n, QueryKey + query);
    assert NextPage(query, perPage) == SearchBase + n + (QueryKey + query);
    ContainsMiddle(SearchBase + n + QueryKey, query, []);
    assert NextPage(query, perPage) == SearchBase + n + QueryKey + query + [];
  }

  lemma PhotoUrlMentions(id: nat)
    ensures Contains(PhotoUrl(id), NatToString(id))
  {
    var n := NatToString(id);
    ContainsMiddle(PhotosBase, n, PhotoFile + n + ".jpeg");
    assert PhotoUrl(id) == PhotosBase + n + (PhotoFile + n + ".jpeg");
  }

  /** Two mock photos never share an id or a photographer id. */
  lemma MockIdsDistinct(query: string, perPage: int, i: nat, j: nat)
    requires i < j < |Mock(query, perPage).photos|
    ensures Mock(query, perPage).photos[i].id != Mock(query, perPage).photos[j].id
    ensures Mock(query, perPage).photos[i].photographer != Mock(query, perPage).photos[j].photographer
  {
    var p := "Mock Photographer ";
    if p + NatToString(i + 1) == p + NatToString(j + 1) {
      assert (p + NatToString(i + 1))[|p|..] == NatToString(i + 1);
      assert (p + NatToString(j + 1))[|p|..] == NatToString(j + 1);
      NatToStringInjective(i + 1, j + 1);
    }
  }
}
