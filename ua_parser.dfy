/** The shape of the user-agent parser's result. The parser itself is an
    external library; the rules receive it as a function parameter. */
module UaParser {
  import opened Js

  /** One part of the result (browser, os, device): string fields such as
      `name` and `version`, each absent when the parser found nothing. */
  type Part = map<string, string>

  datatype UaResult = UaResult(browser: Part, os: Part, device: Part)

  /** `new UAParser(ua).getResult()` for the user-agent value `ua`. */
  type Parser = Value -> UaResult

  /** `part.name`. */
  function Name(part: Part): Option<string>
  {
    if "name" in part then Some(part["name"]) else None
  }
}
