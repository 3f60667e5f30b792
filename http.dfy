/** JSON responses of the route handlers: a status code and a body. */
module Http {
  import opened Domain
  import opened Schemas

  datatype Body =
    | ErrorBody(error: string)
    | ValidationBody(error: string, details: seq<Issue>)
    | TaskListBody(tasks: seq<Task>)
    | TaskBody(task: Task)
    | MessageBody(message: string)

  datatype Response = Response(status: int, body: Body)
}
