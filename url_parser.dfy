/**
  The two things the shortener asks of JavaScript's `new URL(...)` constructor
  (the basic URL parser of the WHATWG URL Standard, section 4.4 "URL parsing"):
  whether it throws, and, when it returns, the `protocol` of the URL record
  (the scheme followed by ':'). The parser itself is not re-specified here;
  every operation that parses a string takes the parser as a parameter.
*/
module UrlParser {

  datatype ParseResult = Parsed(protocol: string) | Throws

  type Parser = string -> ParseResult
}
