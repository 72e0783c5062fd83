/**
  Model of app/api/links/route.ts: the POST handler that shortens a URL and
  the GET handler that lists the `urls` table. The table is the sequence of
  rows of class `Links`; the SQL engine is abstracted to an INSERT and a
  SELECT that may fail at random.
*/
module LinksRoute {
  import opened Wrappers
  import opened UrlParser
  import Url

  /** The columns the INSERT writes; `id`, `track` and `created_at` are filled in by the database. */
  datatype Row = Row(slug: string, originalUrl: string, shortenUrl: string)

  const DefaultBaseUrl := "http://localhost:3000"

  /** `process.env.NEXT_PUBLIC_BASE_URL || "http://localhost:3000"`: an unset or empty value falls back. */
  function BaseUrl(env: Option<string>): (base: string)
    ensures env.Some? && env.value != "" ==> base == env.value
    ensures env.None? || env == Some("") ==> base == DefaultBaseUrl
    ensures base != ""
  {
    if env.Some? && env.value != "" then env.value else DefaultBaseUrl
  }

  /** The short link `${BASE_URL}/${slug}`. */
  function ShortUrl(base: string, slug: string): (short: string)
    ensures |short| == |base| + 1 + |slug|
    ensures short[..|base|] == base && short[|base|] == '/' && short[|base| + 1..] == slug
  {
    base + "/" + slug
  }

  /** Reads the slug back out of a short link built on `base`. */
  function SlugOfShortUrl(base: string, short: string): (slug: Option<string>)
    ensures slug.Some? <==> |short| > |base| && short[..|base|] == base && short[|base|] == '/'
    ensures slug.Some? ==> ShortUrl(base, slug.value) == short
  {
    if |short| > |base| && short[..|base|] == base && short[|base|] == '/'
    then Some(short[|base| + 1..])
    else None
  }

  lemma ShortUrlRoundTrip(base: string, slug: string)
    ensures SlugOfShortUrl(base, ShortUrl(base, slug)) == Some(slug)
  {
  }

  /** Under one base URL, distinct slugs give distinct short links, and equal short links mean equal slugs. */
  lemma ShortUrlInjective(base: string, s1: string, s2: string)
    ensures ShortUrl(base, s1) == ShortUrl(base, s2) <==> s1 == s2
  {
  }

  /** What `request.json()` yields: a body that does not parse, or is JSON `null` (both throw), or one with a string `url`. */
  datatype RequestBody = NotJson | Json(url: string)

  /**
    The JSON body POST answers with. `Rejected` is sent with HTTP status 200:
    its `status` is only a field of the body. `data` is what `saveUrl`
    returned, which is always `undefined` (`None`).
  */
  datatype PostResponse =
    | Shortened(slug: string, originalUrl: string, shortUrl: string, createdAt: string, data: Option<seq<Row>>)
    | Rejected(error: string, status: int)
    | ServerError(error: string)

  /** The HTTP status `NextResponse.json` sends each body with. */
  function HttpStatus(r: PostResponse): (code: int)
    ensures 200 <= code < 300 <==> !r.ServerError?
    ensures r.ServerError? ==> code == 500
  {
    if r.ServerError? then 500 else 200
  }

  /** The GET answer: every row, or the error body sent with HTTP status 500. */
  datatype GetResponse = Listed(rows: seq<Row>) | ListFailed(error: string)

  class Links {
    /**
      The rows of the `urls` table. The sequence order is only a way to hold
      them: the SELECT below does not promise to hand them back in it.
    */
    var urls: seq<Row>

    constructor (initial: seq<Row>)
      ensures urls == initial
    {
      urls := initial;
    }

    /** The INSERT statement: appends the row, or fails and leaves the table as it was. */
    method Insert(row: Row) returns (ok: bool)
      modifies this
      ensures urls == if ok then old(urls) + [row] else old(urls)
    {
      ok := *;
      if ok {
        urls := urls + [row];
      }
    }

    /**
      `SELECT * FROM urls`: every row, each as often as it is stored, in an
      order the query leaves open (it has no ORDER BY), or a failure.
    */
    method SelectAll() returns (result: Option<seq<Row>>)
      ensures result.Some? ==> multiset(result.value) == multiset(urls)
    {
      var ok: bool := *;
      if ok {
        var rows: seq<Row> :| multiset(rows) == multiset(urls);
        result := Some(rows);
      } else {
        result := None;
      }
    }

    /** `saveUrl`: an insert whose failure is caught and logged; it returns nothing either way. */
    method SaveUrl(url: string, slug: string, shortenUrl: string)
      modifies this
      ensures urls == old(urls) + [Row(slug, url, shortenUrl)] || urls == old(urls)
    {
      var _ := Insert(Row(slug, url, shortenUrl));
    }

    /**
      POST /api/links. `uuid` stands for the value of `crypto.randomUUID()`,
      `env` for the base-URL environment value and `today` for
      `new Date().toDateString()`.
    */
    method Post(body: RequestBody, parse: Parser, uuid: string, env: Option<string>, today: string)
      returns (resp: PostResponse)
      modifies this
      ensures body.NotJson? ==> resp == ServerError("Internal server error") && urls == old(urls)
      ensures body.Json? && !Url.IsValidUrl(parse, body.url) ==>
        resp == Rejected("Invalid URL.", 400) && urls == old(urls)
      ensures body.Json? && Url.IsValidUrl(parse, body.url) ==>
        var slug := Url.GenerateUniqueSlug(uuid);
        var short := ShortUrl(BaseUrl(env), slug);
        && resp == Shortened(slug, body.url, short, today, None)
        && (urls == old(urls) + [Row(slug, body.url, short)] || urls == old(urls))
    {
      if body.NotJson? {
        return ServerError("Internal server error");
      }
      var url := body.url;
      if !Url.IsValidUrl(parse, url) {
        return Rejected("Invalid URL.", 400);
      }
      var baseUrl := BaseUrl(env);
      var slug := Url.GenerateUniqueSlug(uuid);
      var shortenUrl := ShortUrl(baseUrl, slug);
      SaveUrl(url, slug, shortenUrl);
      resp := Shortened(slug, url, ShortUrl(baseUrl, slug), today, None);
    }

    /** GET /api/links: every row of the table, in no promised order; the table is not changed. */
    method Get() returns (resp: GetResponse)
      ensures resp.Listed? ==> multiset(resp.rows) == multiset(urls)
      ensures resp.ListFailed? ==> resp.error == "Internal Server Error"
    {
      var result := SelectAll();
      resp := if result.Some? then Listed(result.value) else ListFailed("Internal Server Error");
    }
  }
}
