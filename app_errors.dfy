/**
 * What the engine and the provider factory throw. The class `AppError` they
 * import from src/common/appError is not part of this model's sources; it is
 * represented here by its three constructor arguments (HTTP status, message,
 * trust flag). Every other JavaScript `Error` is a `PlainError`: the engine
 * tells the two apart with `instanceof AppError`.
 */
module AppErrors {

  datatype Thrown =
    | AppError(status: int, message: string, isTrusted: bool)
    | PlainError(message: string)

}
