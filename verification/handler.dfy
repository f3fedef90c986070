/** What an Express handler of this model produces: the JSON response it
    sends and the external calls it makes, in order. The 500 responses of
    the handlers' catch blocks are not modelled. */
module Handler {
  import opened Wrappers
  import opened Store

  /** Which AI-service prompt a model call is for. */
  datatype Task = IntentTask | PriceTask | EnhanceTask

  /** One call to a collaborator: a `Product.find` with its filter and
      optional `.limit`, the whole-catalog price aggregation, or a
      `generateContent` call. */
  datatype Call = Find(filter: Clause, limit: Option<nat>) | AverageAllPrices | Generate(task: Task)

  /** A 200 response carrying `body` (with `msg: 'success'`) or a 400
      response carrying an error message (with `msg: 'error'`). */
  datatype Response<+B> = Success(body: B) | ValidationError(error: string) {
    function Status(): int {
      if Success? then 200 else 400
    }
    function Msg(): string {
      if Success? then "success" else "error"
    }
  }

  datatype Handled<+B> = Handled(response: Response<B>, calls: seq<Call>)
}
