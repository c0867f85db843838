/** What a route handler does with the response object or with `next`. */
module Http {
  import opened Errors

  /** One entry of express-validator's `errors.array()`: the field and its message. */
  datatype FieldError = FieldError(path: string, msg: string)

  datatype Reply<T> =
    /** `res.status(status).json(body)` (`res.json(body)` is status 200). */
    | Json(status: int, body: T)
    /** `res.status(status).send(text)`. */
    | Text(status: int, text: string)
    /** `res.status(204).send()`. */
    | NoContent
    /** `res.status(400).json({ errors })`, sent by the field validator. */
    | Rejected(errors: seq<FieldError>)
    /** `next(error)`: the error is handed to the error-handling middleware. */
    | Next(error: AppError)
    /** A `TypeError` thrown inside the handler. */
    | Thrown
}
