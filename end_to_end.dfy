/**
  How the form of app/page.tsx and the POST handler of
  app/api/links/route.ts behave together on the input the form itself
  suggests, "example.com". The form validates "https://example.com" but sends
  "example.com"; the handler validates what it receives, refuses it, and
  answers with an ok HTTP status, so the form takes the refusal for success.
*/
module EndToEnd {
  import opened Wrappers
  import opened UrlParser
  import Url
  import HomePage
  import LinksRoute

  const Example := "example.com"

  lemma ExampleIsTrimmed()
    ensures HomePage.Trim(Example) == Example
  {
  }

  lemma ExampleCandidate()
    ensures HomePage.ValidationCandidate(Example) == "https://example.com"
  {
    assert Example[..4] == "exam";
    assert !HomePage.StartsWith(Example, "http");
  }

  lemma ExampleLength()
    ensures HomePage.Utf16Length(Example) == 11
  {
  }

  lemma SchemelessInputRefusedSilently(parse: Parser)
    requires parse("example.com") == Throws
    requires parse("https://example.com") == Parsed("https:")
    ensures HomePage.FieldValue(Some("example.com")) == "example.com"
    ensures HomePage.FirstInputError(parse, "example.com") == None
    ensures !Url.IsValidUrl(parse, "example.com")
    ensures 200 <= LinksRoute.HttpStatus(LinksRoute.Rejected("Invalid URL.", 400)) < 300
  {
    ExampleIsTrimmed();
    ExampleCandidate();
    ExampleLength();
  }

  /**
    The whole trace for `example.com` on a fresh page and an empty table. The
    server's answer is computed first because the form's handler takes the
    reply to its request as a parameter; the request it sends is asserted to
    be the body the server was given.
  */
  method ExampleSubmission(parse: Parser, uuid: string, env: Option<string>, today: string)
    returns (sent: Option<string>, resp: LinksRoute.PostResponse, rows: seq<LinksRoute.Row>, tableKey: int, open: bool)
    requires parse("example.com") == Throws
    requires parse("https://example.com") == Parsed("https:")
    ensures sent == Some("example.com")
    ensures resp == LinksRoute.Rejected("Invalid URL.", 400) && rows == []
    ensures tableKey == 1 && !open
  {
    SchemelessInputRefusedSilently(parse);
    var links := new LinksRoute.Links([]);
    resp := links.Post(LinksRoute.Json("example.com"), parse, uuid, env, today);
    var reply := HomePage.ReplyOf(LinksRoute.HttpStatus(resp), None);
    var home := new HomePage.Home();
    home.HandleOpenChange(true);
    sent := home.HandleAddUrl(Some("example.com"), parse, reply);
    assert sent == Some("example.com");
    rows, tableKey, open := links.urls, home.tableKey, home.open;
  }
}
