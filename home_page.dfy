/**
  Model of app/page.tsx: the add-URL dialog of the home page. `validateUrl`
  and the input checks are functions; the component's three state cells
  (`open`, `formState`, `tableKey`) are the fields of class `Home`, which the
  handlers assign step by step as the component does.
*/
module HomePage {
  import opened Wrappers
  import opened UrlParser
  import opened NumberText

  // ---------------------------------------------------------------- trimming

  /**
    The code points `String.prototype.trim` removes: ECMAScript's WhiteSpace
    (tab, vertical tab, form feed, space, no-break space, byte order mark and
    the other space separators) and LineTerminator (LF, CR, U+2028, U+2029).
  */
  predicate IsJsWhiteSpace(c: char) {
    c == '\t' || c == '\n' || c == '\U{000B}' || c == '\U{000C}' || c == '\r' || c == ' ' ||
    c == '\U{00A0}' || c == '\U{1680}' || ('\U{2000}' <= c <= '\U{200A}') ||
    c == '\U{2028}' || c == '\U{2029}' || c == '\U{202F}' || c == '\U{205F}' ||
    c == '\U{3000}' || c == '\U{FEFF}'
  }

  /** The number of white-space code points `s` starts with. */
  function LeadingSpace(s: string): (n: nat)
    ensures n <= |s|
    ensures forall k :: 0 <= k < n ==> IsJsWhiteSpace(s[k])
    ensures n < |s| ==> !IsJsWhiteSpace(s[n])
  {
    if s != [] && IsJsWhiteSpace(s[0]) then 1 + LeadingSpace(s[1..]) else 0
  }

  /** The length of `s` without its trailing white space. */
  function ContentEnd(s: string): (n: nat)
    ensures n <= |s|
    ensures forall k :: n <= k < |s| ==> IsJsWhiteSpace(s[k])
    ensures n > 0 ==> !IsJsWhiteSpace(s[n - 1])
  {
    if s != [] && IsJsWhiteSpace(s[|s| - 1]) then ContentEnd(s[..|s| - 1]) else |s|
  }

  /**
    `String.prototype.trim`: the part of `s` between its leading and its
    trailing white space. Everything cut off is white space, and what is left
    neither starts nor ends with white space.
  */
  function Trim(s: string): (r: string)
    ensures r == [] <==> forall k :: 0 <= k < |s| ==> IsJsWhiteSpace(s[k])
    ensures r != [] ==> !IsJsWhiteSpace(r[0]) && !IsJsWhiteSpace(r[|r| - 1])
    ensures var lead := LeadingSpace(s);
      && lead + |r| <= |s| && r == s[lead..lead + |r|]
      && (forall k :: lead + |r| <= k < |s| ==> IsJsWhiteSpace(s[k]))
  {
    var lead := LeadingSpace(s);
    if lead == |s| then []
    else
      var end := ContentEnd(s);
      assert lead < end;
      s[lead..end]
  }

  lemma TrimIdempotent(s: string)
    ensures Trim(Trim(s)) == Trim(s)
  {
  }

  /** `(formData.get("url") as string)?.trim() || ""`: a missing field reads as the empty string. */
  function FieldValue(field: Option<string>): (urlInput: string)
    ensures field.None? ==> urlInput == ""
    ensures field.Some? ==> urlInput == Trim(field.value)
  {
    if field.None? then "" else Trim(field.value)
  }

  // ------------------------------------------------------------- validation

  /** JavaScript's `.length`: the number of UTF-16 code units, two for a code point above U+FFFF. */
  function Utf16Length(s: string): (n: nat)
    ensures |s| <= n <= 2 * |s|
    ensures (forall k :: 0 <= k < |s| ==> s[k] as int <= 0xFFFF) ==> n == |s|
  {
    if s == [] then 0 else (if s[0] as int > 0xFFFF then 2 else 1) + Utf16Length(s[1..])
  }

  predicate StartsWith(s: string, prefix: string) {
    |prefix| <= |s| && s[..|prefix|] == prefix
  }

  /**
    The string `validateUrl` hands to the parser: the input itself when it
    starts with "http", otherwise the input behind "https://". Either way the
    candidate starts with "http".
  */
  function ValidationCandidate(urlString: string): (candidate: string)
    ensures StartsWith(candidate, "http")
    ensures candidate == urlString <==> StartsWith(urlString, "http")
    ensures candidate != urlString ==> candidate == "https://" + urlString
  {
    if StartsWith(urlString, "http") then urlString else "https://" + urlString
  }

  /** `validateUrl`: the candidate parses, and its protocol is "http:" or "https:"; a throwing parse is a rejection. */
  function ValidateUrl(parse: Parser, urlString: string): (ok: bool)
    ensures ok <==> parse(ValidationCandidate(urlString)) in {Parsed("http:"), Parsed("https:")}
    ensures parse(ValidationCandidate(urlString)) == Throws ==> !ok
  {
    match parse(ValidationCandidate(urlString))
    case Parsed(protocol) => protocol == "http:" || protocol == "https:"
    case Throws => false
  }

  const MaxUrlLength := 2048
  const UrlRequired := "URL is required"
  const InvalidUrl := "Please enter a valid URL (e.g., example.com or https://example.com)"
  const UrlTooLong := "URL is too long (max 2048 characters)"

  /**
    The checks `handleAddURL` runs on the trimmed input, in their order:
    empty, then valid, then at most 2048 code units. The first that fails
    gives the error; `None` means the input goes to the API.
  */
  function FirstInputError(parse: Parser, urlInput: string): (error: Option<string>)
    ensures error == Some(UrlRequired) <==> urlInput == ""
    ensures error == Some(InvalidUrl) <==> urlInput != "" && !ValidateUrl(parse, urlInput)
    ensures error == Some(UrlTooLong) <==>
      urlInput != "" && ValidateUrl(parse, urlInput) && Utf16Length(urlInput) > MaxUrlLength
    ensures error.None? <==>
      urlInput != "" && ValidateUrl(parse, urlInput) && Utf16Length(urlInput) <= MaxUrlLength
  {
    if urlInput == "" then Some(UrlRequired)
    else if !ValidateUrl(parse, urlInput) then Some(InvalidUrl)
    else if Utf16Length(urlInput) > MaxUrlLength then Some(UrlTooLong)
    else None
  }

  /** An empty input is refused without consulting the parser at all. */
  lemma EmptyInputIgnoresParser(p1: Parser, p2: Parser)
    ensures FirstInputError(p1, "") == FirstInputError(p2, "") == Some(UrlRequired)
  {
  }

  /** An input both invalid and too long reports only the validity failure. */
  lemma ValidityBeforeLength(parse: Parser, urlInput: string)
    requires urlInput != "" && !ValidateUrl(parse, urlInput)
    requires Utf16Length(urlInput) > MaxUrlLength
    ensures FirstInputError(parse, urlInput) == Some(InvalidUrl)
  {
  }

  /** The length limit is inclusive: 2048 code units pass, 2049 or more are refused. */
  lemma LengthBoundary(parse: Parser, urlInput: string)
    requires urlInput != "" && ValidateUrl(parse, urlInput)
    ensures Utf16Length(urlInput) == MaxUrlLength ==> FirstInputError(parse, urlInput).None?
    ensures Utf16Length(urlInput) >= MaxUrlLength + 1 ==> FirstInputError(parse, urlInput) == Some(UrlTooLong)
  {
  }

  // -------------------------------------------------------- request outcome

  /**
    How the POST request ends, as `handleAddURL` sees it: `Added` when
    `response.ok` holds and the body is read; `NotOk` when it does not, with
    the `message` field of the error body if there is one; `Threw` when
    `fetch` or reading the body throws, with the message of the `Error`, or
    `None` when the thrown value is not an `Error`.
  */
  datatype AddReply = Added | NotOk(status: nat, message: Option<string>) | Threw(message: Option<string>)

  /**
    The reply the form sees for an answer with HTTP status `status`: success
    exactly when `response.ok`, that is, the status is in 200-299;
    `bodyMessage` is the `message` field of the answer's JSON body, if any.
  */
  function ReplyOf(status: nat, bodyMessage: Option<string>): (reply: AddReply)
    ensures reply == Added <==> 200 <= status <= 299
    ensures !(200 <= status <= 299) ==> reply == NotOk(status, bodyMessage)
  {
    if 200 <= status <= 299 then Added else NotOk(status, bodyMessage)
  }

  /** The error message the catch block stores for a failed request. */
  function FailureMessage(reply: AddReply): (message: string)
    requires !reply.Added?
    ensures reply.NotOk? && reply.message.Some? && reply.message.value != "" ==> message == reply.message.value
    ensures reply.NotOk? && (reply.message.None? || reply.message == Some("")) ==>
      message == "Failed to add URL (" + DecimalString(reply.status) + ")"
    ensures reply.Threw? && reply.message.Some? ==> message == reply.message.value
    ensures reply == Threw(None) ==> message == "An unexpected error occurred"
  {
    match reply
    case NotOk(status, m) =>
      if m.Some? && m.value != "" then m.value else "Failed to add URL (" + DecimalString(status) + ")"
    case Threw(m) =>
      if m.Some? then m.value else "An unexpected error occurred"
  }

  // ------------------------------------------------------------ component

  datatype FormState = FormState(isSubmitting: bool, error: Option<string>)

  const Idle := FormState(false, None)

  class Home {
    var open: bool
    var formState: FormState
    var tableKey: int

    constructor ()
      ensures !open && formState == Idle && tableKey == 0
    {
      open := false;
      formState := Idle;
      tableKey := 0;
    }

    /**
      `handleAddURL` for the submitted url field. Returns the url sent in the
      POST body (`None` when no request is made); `reply` is how that request
      ends.
    */
    method HandleAddUrl(field: Option<string>, parse: Parser, reply: AddReply) returns (request: Option<string>)
      modifies this
      ensures var urlInput := FieldValue(field);
        var check := FirstInputError(parse, urlInput);
        if check.Some? then
          && request == None
          && formState == FormState(false, check)
          && open == old(open) && tableKey == old(tableKey)
        else
          && request == Some(urlInput)
          && if reply.Added? then
               !open && formState == Idle && tableKey == old(tableKey) + 1
             else
               && formState == FormState(false, Some(FailureMessage(reply)))
               && open == old(open) && tableKey == old(tableKey)
    {
      var urlInput := FieldValue(field);
      formState := FormState(true, None);
      if urlInput == "" {
        formState := FormState(false, Some(UrlRequired));
        return None;
      }
      if !ValidateUrl(parse, urlInput) {
        formState := FormState(false, Some(InvalidUrl));
        return None;
      }
      if Utf16Length(urlInput) > MaxUrlLength {
        formState := FormState(false, Some(UrlTooLong));
        return None;
      }
      request := Some(urlInput);
      if reply.Added? {
        open := false;
        formState := FormState(false, None);
        tableKey := tableKey + 1;
      } else {
        formState := FormState(false, Some(FailureMessage(reply)));
      }
    }

    /** `handleOpenChange`: closing the dialog also clears the form state; opening changes only `open`. */
    method HandleOpenChange(newOpen: bool)
      modifies this
      ensures open == newOpen && tableKey == old(tableKey)
      ensures formState == if newOpen then old(formState) else Idle
    {
      open := newOpen;
      if !newOpen {
        formState := FormState(false, None);
      }
    }
  }
}
