/** The client of the Lorem Picsum API: request URLs, image URLs, and how a
    response becomes a value or a failure. The network itself is a parameter
    (`server`), a function from the requested URL to the response it gets. */
module PhotoService {
  import opened Wrappers

  /** One record of the Lorem Picsum listing (`download_url` is `downloadUrl` here). */
  datatype Photo = Photo(id: string, author: string, width: int, height: int, url: string, downloadUrl: string)

  const ApiBaseUrl: string := "https://picsum.photos"

  // Default arguments of the service's functions.
  const DefaultPage: int := 1
  const DefaultLimit: int := 20
  const DefaultPhotoWidth: int := 400
  const DefaultPhotoHeight: int := 300
  const ThumbnailWidth: int := 300
  const ThumbnailHeight: int := 200
  const DefaultFullSizeWidth: int := 800
  const DefaultFullSizeHeight: int := 600

  // ---------------------------------------------------------------------------
  // Decimal numerals, as a template string prints an integral number.

  predicate IsDigit(c: char)
  {
    '0' <= c <= '9'
  }

  predicate AllDigits(s: string)
  {
    forall i :: 0 <= i < |s| ==> IsDigit(s[i])
  }

  function DigitChar(d: nat): char
    requires d < 10
  {
    ('0' as int + d) as char
  }

  function DigitValue(c: char): nat
    requires IsDigit(c)
  {
    c as int - '0' as int
  }

  /** The shortest decimal numeral of `n`: at least one digit, digits only. */
  function NatToString(n: nat): (s: string)
    ensures |s| >= 1 && AllDigits(s)
    ensures n >= 10 ==> s[0] != '0'
    decreases n
  {
    if n < 10 then [DigitChar(n)] else NatToString(n / 10) + [DigitChar(n % 10)]
  }

  /** The plain decimal numeral of an integer: a minus sign before the numeral
      of |n|. This is what `${n}` prints for integers below 10^21 in magnitude. */
  function IntToString(n: int): (s: string)
    ensures |s| >= 1
    ensures forall i :: 0 <= i < |s| ==> IsDigit(s[i]) || s[i] == '-'
  {
    if n < 0 then "-" + NatToString(-n) else NatToString(n)
  }

  /** The value of a string of digits, most significant first. */
  function DigitsValue(s: string): nat
    requires AllDigits(s)
    decreases |s|
  {
    if s == [] then 0 else DigitsValue(s[..|s| - 1]) * 10 + DigitValue(s[|s| - 1])
  }

  function ParseNat(s: string): Option<nat>
  {
    if |s| > 0 && AllDigits(s) then Some(DigitsValue(s)) else None
  }

  /** Reads back a numeral printed by `IntToString`. */
  function ParseInt(s: string): Option<int>
  {
    if |s| > 0 && s[0] == '-' then
      match ParseNat(s[1..])
      case Some(k) => Some(-(k as int))
      case None => None
    else
      match ParseNat(s)
      case Some(k) => Some(k as int)
      case None => None
  }

  lemma {:induction false} NatToStringValue(n: nat)
    ensures DigitsValue(NatToString(n)) == n
    decreases n
  {
    var s := NatToString(n);
    if n >= 10 {
      assert s[..|s| - 1] == NatToString(n / 10);
      NatToStringValue(n / 10);
    } else {
      assert s[..|s| - 1] == [];
    }
  }

  /** The numeral of every integer reads back as that integer. */
  lemma IntToStringRoundTrip(n: int)
    ensures ParseInt(IntToString(n)) == Some(n)
  {
    if n < 0 {
      var s := IntToString(n);
      assert s[1..] == NatToString(-n);
      NatToStringValue(-n);
    } else {
      NatToStringValue(n);
    }
  }

  // ---------------------------------------------------------------------------
  // Splitting a string at the first occurrence of a separator.

  function SplitFirst(s: string, sep: char): (r: Option<(string, string)>)
    ensures r.Some? ==> s == r.value.0 + [sep] + r.value.1 && sep !in r.value.0
    ensures r.None? ==> sep !in s
    decreases |s|
  {
    if s == [] then None
    else if s[0] == sep then Some(([], s[1..]))
    else
      match SplitFirst(s[1..], sep)
      case Some((a, b)) => Some(([s[0]] + a, b))
      case None => None
  }

  lemma {:induction false} SplitFirstOfJoin(a: string, b: string, sep: char)
    requires sep !in a
    ensures SplitFirst(a + [sep] + b, sep) == Some((a, b))
    decreases |a|
  {
    var s := a + [sep] + b;
    if a == [] {
      assert s[1..] == b;
    } else {
      assert s[0] == a[0] && a[0] in a;
      assert s[1..] == a[1..] + [sep] + b;
      SplitFirstOfJoin(a[1..], b, sep);
      assert [s[0]] + a[1..] == a;
    }
  }

  lemma NumeralHasNoSeparator(n: int)
    ensures '/' !in IntToString(n) && '&' !in IntToString(n)
  {
    var s := IntToString(n);
    forall i | 0 <= i < |s| ensures s[i] != '/' && s[i] != '&' {
      assert IsDigit(s[i]) || s[i] == '-';
    }
  }

  // ---------------------------------------------------------------------------
  // Image URLs.

  /** `getPhotoUrl(id, width = 400, height = 300)`; an omitted argument is `None`. */
  function GetPhotoUrl(id: string, width: Option<int>, height: Option<int>): (url: string)
    ensures ApiBaseUrl + "/id/" + id + "/" <= url
  {
    ApiBaseUrl + "/id/" + id + "/" + IntToString(width.GetOr(DefaultPhotoWidth))
      + "/" + IntToString(height.GetOr(DefaultPhotoHeight))
  }

  function GetThumbnailUrl(id: string): (url: string)
    ensures ApiBaseUrl + "/id/" + id + "/" <= url
  {
    GetPhotoUrl(id, Some(ThumbnailWidth), Some(ThumbnailHeight))
  }

  /** `getFullSizeUrl(id, width = 800, height = 600)`, delegating to `getPhotoUrl`. */
  function GetFullSizeUrl(id: string, width: Option<int>, height: Option<int>): (url: string)
    ensures ApiBaseUrl + "/id/" + id + "/" <= url
  {
    GetPhotoUrl(id, Some(width.GetOr(DefaultFullSizeWidth)), Some(height.GetOr(DefaultFullSizeHeight)))
  }

  /** Reads the identifier and the two dimensions back out of an image URL. */
  function ParsePhotoUrl(url: string): Option<(string, int, int)>
  {
    var prefix := ApiBaseUrl + "/id/";
    if !(prefix <= url) then None
    else
      match SplitFirst(url[|prefix|..], '/')
      case None => None
      case Some((id, dims)) =>
        match SplitFirst(dims, '/')
        case None => None
        case Some((w, h)) =>
          match (ParseInt(w), ParseInt(h))
          case (Some(width), Some(height)) => Some((id, width, height))
          case _ => None
  }

  /** An image URL determines the identifier and the size it was built from,
      the omitted ones being 400 by 300 (Lorem Picsum identifiers hold no '/'). */
  lemma PhotoUrlRoundTrip(id: string, width: Option<int>, height: Option<int>)
    requires '/' !in id
    ensures ParsePhotoUrl(GetPhotoUrl(id, width, height))
         == Some((id, width.GetOr(DefaultPhotoWidth), height.GetOr(DefaultPhotoHeight)))
  {
    var prefix := ApiBaseUrl + "/id/";
    var w, h := width.GetOr(DefaultPhotoWidth), height.GetOr(DefaultPhotoHeight);
    var ws, hs := IntToString(w), IntToString(h);
    var url := GetPhotoUrl(id, width, height);
    assert url == prefix + (id + ['/'] + (ws + ['/'] + hs));
    assert url[|prefix|..] == id + ['/'] + (ws + ['/'] + hs);
    SplitFirstOfJoin(id, ws + ['/'] + hs, '/');
    NumeralHasNoSeparator(w);
    SplitFirstOfJoin(ws, hs, '/');
    IntToStringRoundTrip(w);
    IntToStringRoundTrip(h);
  }

  /** A thumbnail is the 300 by 200 image of the photo. */
  lemma ThumbnailUrlSize(id: string)
    requires '/' !in id
    ensures ParsePhotoUrl(GetThumbnailUrl(id)) == Some((id, 300, 200))
  {
    PhotoUrlRoundTrip(id, Some(ThumbnailWidth), Some(ThumbnailHeight));
  }

  /** A full-size URL is the image URL at the given size, 800 by 600 when omitted. */
  lemma FullSizeUrlSize(id: string, width: Option<int>, height: Option<int>)
    requires '/' !in id
    ensures ParsePhotoUrl(GetFullSizeUrl(id, width, height))
         == Some((id, width.GetOr(800), height.GetOr(600)))
  {
    PhotoUrlRoundTrip(id, Some(width.GetOr(DefaultFullSizeWidth)), Some(height.GetOr(DefaultFullSizeHeight)));
  }

  // ---------------------------------------------------------------------------
  // Request URLs.

  /** The listing request of `fetchPhotos(page = 1, limit = 20)`. */
  function ListRequestUrl(page: Option<int>, limit: Option<int>): (url: string)
    ensures ApiBaseUrl + "/v2/list?page=" <= url
  {
    ApiBaseUrl + "/v2/list?page=" + IntToString(page.GetOr(DefaultPage))
      + "&limit=" + IntToString(limit.GetOr(DefaultLimit))
  }

  function ParseListRequestUrl(url: string): Option<(int, int)>
  {
    var prefix := ApiBaseUrl + "/v2/list?page=";
    if !(prefix <= url) then None
    else
      match SplitFirst(url[|prefix|..], '&')
      case None => None
      case Some((p, rest)) =>
        if !("limit=" <= rest) then None
        else
          match (ParseInt(p), ParseInt(rest[|"limit="|..]))
          case (Some(page), Some(limit)) => Some((page, limit))
          case _ => None
  }

  /** A listing request names the page and the page size it asks for,
      page 1 and 20 photos when omitted. */
  lemma ListRequestUrlRoundTrip(page: Option<int>, limit: Option<int>)
    ensures ParseListRequestUrl(ListRequestUrl(page, limit))
         == Some((page.GetOr(1), limit.GetOr(20)))
  {
    var prefix := ApiBaseUrl + "/v2/list?page=";
    var p, l := page.GetOr(DefaultPage), limit.GetOr(DefaultLimit);
    var ps, ls := IntToString(p), IntToString(l);
    var url := ListRequestUrl(page, limit);
    assert url == prefix + (ps + ['&'] + ("limit=" + ls));
    assert url[|prefix|..] == ps + ['&'] + ("limit=" + ls);
    NumeralHasNoSeparator(p);
    SplitFirstOfJoin(ps, "limit=" + ls, '&');
    assert ("limit=" + ls)[|"limit="|..] == ls;
    IntToStringRoundTrip(p);
    IntToStringRoundTrip(l);
  }

  /** The detail request of `fetchPhotoById(id)`. */
  function DetailRequestUrl(id: string): (url: string)
    ensures ApiBaseUrl + "/id/" + id + "/" <= url
  {
    ApiBaseUrl + "/id/" + id + "/info"
  }

  function ParseDetailRequestUrl(url: string): Option<string>
  {
    var prefix := ApiBaseUrl + "/id/";
    if !(prefix <= url) then None
    else
      match SplitFirst(url[|prefix|..], '/')
      case Some((id, "info")) => Some(id)
      case _ => None
  }

  /** A detail request names the photo it asks for, and is never an image URL. */
  lemma DetailRequestUrlRoundTrip(id: string)
    requires '/' !in id
    ensures ParseDetailRequestUrl(DetailRequestUrl(id)) == Some(id)
    ensures ParsePhotoUrl(DetailRequestUrl(id)) == None
  {
    var prefix := ApiBaseUrl + "/id/";
    var url := DetailRequestUrl(id);
    assert url == prefix + (id + ['/'] + "info");
    assert url[|prefix|..] == id + ['/'] + "info";
    SplitFirstOfJoin(id, "info", '/');
    assert '/' !in "info";
  }

  // ---------------------------------------------------------------------------
  // Responses.

  /** What `fetch` yields: a rejected promise (transport failure), or a response
      with its `ok` flag and its body, `None` when `response.json()` rejects. */
  datatype Response<T> = NetworkError | HttpResponse(ok: bool, json: Option<T>)

  /** The `response.ok` check and `response.json()`: a value only for an ok
      response whose body parses, and then that body. */
  function Settle<T>(response: Response<T>): (r: Option<T>)
    ensures r.Some? <==> response.HttpResponse? && response.ok && response.json.Some?
    ensures r.Some? ==> r.value == response.json.value
  {
    match response
    case HttpResponse(true, Some(body)) => Some(body)
    case _ => None
  }

  /** `fetchPhotos(page, limit)`: asks `server` for the listing request URL and
      fails (`None`) unless the response is ok and its body parses. */
  function FetchPhotos(page: Option<int>, limit: Option<int>, server: string -> Response<seq<Photo>>): (r: Option<seq<Photo>>)
    ensures var response := server(ListRequestUrl(page, limit));
      (r.Some? <==> response.HttpResponse? && response.ok && response.json.Some?)
      && (r.Some? ==> r.value == response.json.value)
  {
    Settle(server(ListRequestUrl(page, limit)))
  }

  /** `fetchPhotoById(id)`: asks `server` for the detail request URL, with the
      same failure rule. */
  function FetchPhotoById(id: string, server: string -> Response<Photo>): (r: Option<Photo>)
    ensures var response := server(DetailRequestUrl(id));
      (r.Some? <==> response.HttpResponse? && response.ok && response.json.Some?)
      && (r.Some? ==> r.value == response.json.value)
  {
    Settle(server(DetailRequestUrl(id)))
  }
}
