/**
 * The exceptions the modelled code raises: the ones the library declares
 * (generic_sample.py and sample_generator.py) and the built-in ones it relies on.
 */
module Exceptions {
  import Os

  datatype Error =
    /** FileNotFoundError, FileExistsError or NotADirectoryError from the file system */
    | OsError(cause: Os.OsError)
    /** TypeError: a sample of another class was given to a dataset disk manager */
    | TypeError
    /** IndexError: the first dataset field of a sample that has none was requested */
    | IndexError
    /** FieldNameAlreadyExistsException */
    | FieldNameAlreadyExists(field: string)
    /** FieldDoesNotExistException */
    | FieldDoesNotExist(field: string)
    /** MethodAlreadyExistsException */
    | MethodAlreadyExists(methodName: string)
    /** FieldHasIncorrectTypeException */
    | FieldHasIncorrectType(field: string)
    /** FieldIsNotDatasetPart */
    | FieldIsNotDatasetPart(field: string)
    /** AnotherActivePipelineException */
    | AnotherActivePipeline(field: string)
}
