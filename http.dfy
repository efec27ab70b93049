/** The part of an HTTP response the handlers decide: the status and the entity. */
module Http {
  import opened Wrappers
  import OutgoingEmployees

  /** The response statuses this service produces. */
  datatype Status =
    | Ok
    | Created
    | NoContent
    | BadRequest
    | NotFound
    | Conflict
    | InternalServerError
  {
    /** The numeric status code sent on the wire. */
    function Code(): (c: int)
      ensures 200 <= c < 600
      ensures c < 300 <==> this in {Ok, Created, NoContent}
    {
      match this
      case Ok => 200
      case Created => 201
      case NoContent => 204
      case BadRequest => 400
      case NotFound => 404
      case Conflict => 409
      case InternalServerError => 500
    }
  }

  /** The entity a response carries, when it carries one. */
  datatype Body =
    | View(employee: OutgoingEmployees.OutgoingEmployee)
    | Count(count: int)

  datatype Response = Response(status: Status, entity: Option<Body>)
}
