/**
 * The HTTP error classes: `AppError` and its four subclasses, each a fixed
 * name and trust flag, and the mapping from an error's class to the HTTP
 * status a response carries (400, 404 and 500 of section 15 of RFC 9110).
 * The class an error was constructed with is kept as a tag, because the
 * mapper tests `instanceof`, not the name.
 */
module ErrorTypes {

  const BAD_REQUEST := 400
  const NOT_FOUND := 404
  const INTERNAL_SERVER_ERROR := 500

  /** The most derived class an error was constructed with. */
  datatype ErrorClass = Base | InvalidInput | ResourceNotFound | ResourceExists | DBConnection

  datatype AppError = AppError(cls: ErrorClass, name: string, message: string, isTrusted: bool)

  /** `new AppError(name, message, isTrusted = true)`. */
  function NewAppError(name: string, message: string, isTrusted: bool := true): (e: AppError)
    ensures e.cls == Base && e.name == name && e.message == message && e.isTrusted == isTrusted
  {
    AppError(Base, name, message, isTrusted)
  }

  function InvalidInputError(message: string): (e: AppError)
    ensures e.cls == InvalidInput && e.name == "Invalid Input Error"
    ensures e.message == message && e.isTrusted
  {
    AppError(InvalidInput, "Invalid Input Error", message, true)
  }

  function ResourceNotFoundError(message: string): (e: AppError)
    ensures e.cls == ResourceNotFound && e.name == "Resource not Found Error"
    ensures e.message == message && e.isTrusted
  {
    AppError(ResourceNotFound, "Resource not Found Error", message, true)
  }

  function ResourceExistsError(message: string): (e: AppError)
    ensures e.cls == ResourceExists && e.name == "Resource Already Exists Error"
    ensures e.message == message && e.isTrusted
  {
    AppError(ResourceExists, "Resource Already Exists Error", message, true)
  }

  /** The only subclass whose trust the caller decides. */
  function DBConnectionError(message: string, isTrusted: bool): (e: AppError)
    ensures e.cls == DBConnection && e.name == "DB Connection Error"
    ensures e.message == message && e.isTrusted == isTrusted
  {
    AppError(DBConnection, "DB Connection Error", message, isTrusted)
  }

  /**
   * `httpErrorCodeMapper`: 400 exactly for an `InvalidInputError`, 404
   * exactly for a `ResourceNotFoundError`, 500 for every other `AppError`.
   */
  function HttpErrorCodeMapper(error: AppError): (code: int)
    ensures code in {BAD_REQUEST, NOT_FOUND, INTERNAL_SERVER_ERROR}
    ensures code == BAD_REQUEST <==> error.cls == InvalidInput
    ensures code == NOT_FOUND <==> error.cls == ResourceNotFound
  {
    if error.cls == InvalidInput then BAD_REQUEST
    else if error.cls == ResourceNotFound then NOT_FOUND
    else INTERNAL_SERVER_ERROR
  }

  /**
   * The status depends on the class alone: a plain `AppError` named like a
   * subclass is still a server error, and every message maps the same way.
   */
  lemma MapperIgnoresNameAndMessage(e: AppError, name: string, message: string, isTrusted: bool)
    ensures HttpErrorCodeMapper(e.(name := name, message := message, isTrusted := isTrusted)) == HttpErrorCodeMapper(e)
    ensures HttpErrorCodeMapper(NewAppError("Invalid Input Error", message)) == INTERNAL_SERVER_ERROR
  {
  }

  /** The statuses of the four subclasses. */
  lemma SubclassStatuses(message: string, isTrusted: bool)
    ensures HttpErrorCodeMapper(InvalidInputError(message)) == BAD_REQUEST
    ensures HttpErrorCodeMapper(ResourceNotFoundError(message)) == NOT_FOUND
    ensures HttpErrorCodeMapper(ResourceExistsError(message)) == INTERNAL_SERVER_ERROR
    ensures HttpErrorCodeMapper(DBConnectionError(message, isTrusted)) == INTERNAL_SERVER_ERROR
  {
  }
}
