/** The exceptions the core raises or lets through. */
module Errors {
  import opened Models

  /** The pymysql exception classes the MySQL client distinguishes. */
  datatype DriverError =
    | PyOperationalError
    | PyProgrammingError
    | PyDataError
    | PyInternalError
    | PyNotSupportedError
    | PyIntegrityError
    | PyDatabaseError
    | PyInterfaceError

  /** pymysql's `DatabaseError` and its subclasses; `InterfaceError` is not one of them. */
  predicate IsDatabaseErrorClass(d: DriverError)
  {
    d != PyInterfaceError
  }

  /** What an ORM `OperationalError` carries: a message, or the driver exception it wraps. */
  datatype Detail = Message(text: string) | Cause(driver: DriverError)

  datatype Error =
    | Driver(driver: DriverError)                        // raised by pymysql, not translated
    | RuntimeError
    | OtherError(name: string)                           // any other class, outside the RuntimeError hierarchy
    | OperationalError(detail: Detail)
    | IntegrityError(cause: DriverError)
    | DBConnectionError(template: map<string, Value>)    // "Can't connect to MySQL server: <template>"
    | TransactionManagementError(message: string)
    | NotImplementedError                                 // a subclass of RuntimeError
    | KeyError(key: string)
    | DecimalConversionError                              // `Decimal(value)` rejected the value
}
