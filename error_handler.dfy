/** The application error type and the last-resort error handler: an
    ordered chain from the kind of the thrown error (and NODE_ENV) to the
    status and JSON body sent. */
module ErrorHandler {
  import opened Wrappers
  import opened Http

  /** An error raised by the application itself, and whether it was expected. */
  datatype AppError = AppError(message: string, statusCode: nat, isOperational: bool)

  /** `new AppError(message, statusCode)` */
  function NewAppError(message: string, statusCode: nat): (e: AppError)
    ensures e.message == message && e.statusCode == statusCode && e.isOperational
  {
    AppError(message, statusCode, true)
  }

  /** What reaches the handler: an AppError, or any other error with its
      `name` and `message`. */
  datatype Thrown = App(app: AppError) | Other(name: string, message: string)

  datatype Response = Response(status: nat, body: ErrorBody)

  const PRISMA_ERROR: string := "PrismaClientKnownRequestError"
  const ZOD_ERROR: string := "ZodError"
  const DEVELOPMENT: string := "development"

  function ErrorResponse(err: Thrown, nodeEnv: Option<string>): (r: Response)
    ensures err.App? ==> r == Response(err.app.statusCode, ErrorBody(err.app.message, None, None, None))
    ensures err.Other? && err.name == PRISMA_ERROR ==> r == Response(400, ErrorBody("Ошибка базы данных", None, None, None))
    ensures err.Other? && err.name == ZOD_ERROR ==>
      r == Response(400, ErrorBody("Неверные данные запроса", None, None, Some(err.message)))
    ensures err.Other? && err.name != PRISMA_ERROR && err.name != ZOD_ERROR ==>
      && r.status == 500 && r.body.details.None?
      && (r.body.error == err.message || r.body.error == "Внутренняя ошибка сервера")
  {
    match err
    case App(e) => Response(e.statusCode, ErrorBody(e.message, None, None, None))
    case Other(name, message) =>
      if name == PRISMA_ERROR then Response(400, ErrorBody("Ошибка базы данных", None, None, None))
      else if name == ZOD_ERROR then Response(400, ErrorBody("Неверные данные запроса", None, None, Some(message)))
      else Response(500, ErrorBody(if nodeEnv == Some(DEVELOPMENT) then message else "Внутренняя ошибка сервера",
                                   None, None, None))
  }

  /** An AppError is answered with its own status and message, whatever the
      environment. */
  lemma AppErrorFirst(message: string, statusCode: nat, env1: Option<string>, env2: Option<string>)
    ensures ErrorResponse(App(NewAppError(message, statusCode)), env1)
         == Response(statusCode, ErrorBody(message, None, None, None))
    ensures ErrorResponse(App(NewAppError(message, statusCode)), env1)
         == ErrorResponse(App(NewAppError(message, statusCode)), env2)
  {
  }

  /** Outside development an unexpected error never shows its message: the
      body is the fixed text whatever the message was; in development it is
      the message itself. */
  lemma UnknownErrorExposure(name: string, m1: string, m2: string, nodeEnv: Option<string>)
    requires name != PRISMA_ERROR && name != ZOD_ERROR
    ensures nodeEnv != Some(DEVELOPMENT) ==>
      ErrorResponse(Other(name, m1), nodeEnv) == ErrorResponse(Other(name, m2), nodeEnv)
      == Response(500, ErrorBody("Внутренняя ошибка сервера", None, None, None))
    ensures nodeEnv == Some(DEVELOPMENT) ==> ErrorResponse(Other(name, m1), nodeEnv).body.error == m1
  {
  }

  /** The statuses the handler can send: the AppError's own, 400 or 500. */
  lemma ErrorStatuses(err: Thrown, nodeEnv: Option<string>)
    ensures var s := ErrorResponse(err, nodeEnv).status;
      (err.App? && s == err.app.statusCode) || (err.Other? && (s == 400 || s == 500))
    ensures err.Other? ==> (ErrorResponse(err, nodeEnv).status == 400 <==> err.name == PRISMA_ERROR || err.name == ZOD_ERROR)
  {
  }
}
