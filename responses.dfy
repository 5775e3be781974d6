/** The JSON replies the back end writes: an HTTP status and one of the reply shapes. */
module Responses {
  import opened Wrappers
  import opened Models

  const StatusOK := 200
  const StatusCreated := 201
  const StatusBadRequest := 400
  const StatusUnauthorized := 401
  const StatusNotFound := 404
  const StatusInternalServerError := 500

  /** The `data` of a success reply. */
  datatype Data = UrlData(item: URLItem) | CountData(key: string, count: int)

  datatype Body =
    | ErrorBody(error: string)
    | Success(message: string, payload: Option<Data>)
    | ItemBody(item: URLItem)
    | ResultBody(result: CrawlResult)
    /** A list page; `data` is `None` when it encodes as JSON `null`. */
    | PageBody(data: Option<seq<URLItem>>, total: int, page: int, pageSize: int, totalPages: int)

  /** A reply, or a run-time panic of the handler (which the server turns into a 500). */
  datatype Response = Reply(status: int, body: Body) | Panic

  function Error(status: int, message: string): Response {
    Reply(status, ErrorBody(message))
  }
}
