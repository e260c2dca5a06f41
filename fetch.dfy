/** The result of a `fetch` call as the Gemini and Ollama discovery code reads it. */
module Fetch {
  import opened Base

  /**
   * `ok`, `status`, the body as text, and the body parsed as JSON into `J`
   * (an error when it does not parse).
   */
  datatype HttpResponse<J> = HttpResponse(ok: bool, status: nat, text: string, json: Result<J>)

  /** The error raised for a non-OK response: `HTTP <status>: <body>`. */
  function HttpError(status: nat, body: string): (msg: string)
    ensures StartsWith(msg, "HTTP ")
  {
    "HTTP " + NatToString(status) + ": " + body
  }

  const FormatError := "API 返回格式异常：models 字段不存在或不是数组"
}
