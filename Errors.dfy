/**
 * The ways the library rejects its input. Error messages are modelled by
 * their kind (and the values they quote), not by their text.
 */
module Errors {

  /** The parameter an entity constructor names in the exception it throws. */
  datatype Param = Host | Owner | Repository | Namespace | ProjectName | Number | Project | CommitId | Url

  /** The exceptions thrown by the entity constructors. */
  datatype ArgumentError =
    | NullOrWhiteSpace(param: Param)   // ArgumentException: value must not be null or whitespace
    | OutOfRange(param: Param)         // ArgumentOutOfRangeException
    | NullArgument(param: Param)       // ArgumentNullException

  /** Why a url was rejected: one kind per error message the parsers produce. */
  datatype ParseError =
    | BlankUrl                                     // url is null or whitespace
    | InvalidUri                                   // url is not a valid (absolute or SCP-style) uri
    | UnsupportedScheme(scheme: string)
    | NotWebUrl                                    // the path does not have the shape of a web url
    | MissingGitSuffix                             // a remote url's path does not end with ".git"
    | NotRemoteUrl                                 // a remote url's path does not have two segments
    | EmptyProjectPath                             // a GitLab remote url's project path is blank
    | InvalidProjectPath(projectPath: string)      // a GitLab remote url's project path has no '/'
    | BlankOwner
    | BlankRepository
    | BlankNamespace
    | BlankProjectName
    | WrongLinkType(expected: string, found: string)
    | InvalidNumber(input: string)                 // the id is not an Int32
    | NonPositiveNumber(number: int)               // the id is 0 or negative
    | BlankCommitId
    | InvalidArgument(error: ArgumentError)        // an entity constructor threw

  /** The ArgumentException raised by the throwing entry points: the message and nameof(url). */
  datatype UrlException = UrlException(message: ParseError, paramName: Param)
}
