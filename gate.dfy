/**
 * The response gate of `fetchApiFromBrowser`: what the in-page fetch
 * returned is checked for status, then for an HTML challenge page, before
 * the text goes to JSON parsing.
 */
module Gate {

  /** The `{ status, text }` pair the in-page fetch returns. */
  datatype Response = Response(status: int, text: string)

  /** Why a response was thrown out. */
  datatype GateError =
    | BadStatus(status: int)   // "API status …"
    | HtmlPage                 // "API returned HTML (Cloudflare) …"

  datatype Verdict = Rejected(reason: GateError) | Accepted(text: string)

  /** `t.startsWith("<")`. */
  predicate StartsWithLt(t: string)
  {
    |t| > 0 && t[0] == '<'
  }

  /**
   * The gate. `trim` stands for String.prototype.trim. The status is
   * checked first, so a non-200 HTML page is a status rejection; the text
   * handed on is the untrimmed body.
   */
  function Classify(res: Response, trim: string -> string): (v: Verdict)
    ensures v.Rejected? && v.reason.BadStatus? <==> res.status != 200
    ensures v.Rejected? && v.reason.BadStatus? ==> v.reason.status == res.status
    ensures v == Rejected(HtmlPage) <==> res.status == 200 && StartsWithLt(trim(res.text))
    ensures v.Accepted? <==> res.status == 200 && !StartsWithLt(trim(res.text))
    ensures v.Accepted? ==> v.text == res.text
  {
    if res.status != 200 then Rejected(BadStatus(res.status))
    else if StartsWithLt(trim(res.text)) then Rejected(HtmlPage)
    else Accepted(res.text)
  }
}
