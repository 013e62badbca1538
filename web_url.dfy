/** URLs as the WHATWG URL Standard's parser hands them back. The parser
    itself (section 4.4, "URL parsing") is not modelled: callers receive it
    as a value whose functions may throw, as `new URL(...)` does. */
module WebUrl {
  import opened JsRuntime

  /** A parsed URL: its serialisation (`toString()` / `href`) and its `origin`. */
  datatype Url = Url(href: string, origin: string)

  /** `new URL(input)` and `new URL(input, base)`. */
  datatype UrlParser = UrlParser(
    parse: string -> Completion<Url>,
    resolve: (string, Url) -> Completion<Url>)

  /** What the URL Standard guarantees and the route relies on: a URL that
      parses has a non-empty serialisation (it always holds a scheme and ':'). */
  ghost predicate Serialises(p: UrlParser)
  {
    (forall s :: p.parse(s).Normal? ==> p.parse(s).value.href != "")
    && (forall s, b :: p.resolve(s, b).Normal? ==> p.resolve(s, b).value.href != "")
  }
}
