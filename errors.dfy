/** The exceptions the modelled code raises, one variant per raise site or
    per kind of failure the Python runtime would raise on the code's behalf. */
module Errors {

  datatype Error =
      /** ValueError: the requested course id is not in the course list. */
    | CourseNotFound(courseId: int)
      /** requests' HTTPError from raise_for_status on a 4xx or 5xx reply. */
    | HttpStatus(status: int)
      /** "Login failed: No access token in response". */
    | NoAccessToken
      /** KeyError on a dictionary lookup of a key the reply lacks. */
    | MissingKey(key: string)
      /** "All authentication methods failed": the login reply's token is null. */
    | AllAuthFailed
      /** A reply whose JSON shape the code cannot index (TypeError, KeyError, AttributeError). */
    | UnexpectedReply(url: string)
      /** os.makedirs meets a regular file where a directory is needed. */
    | PathIsFile(path: string)
      /** open(path, 'w') on a path that is a directory. */
    | PathIsDirectory(path: string)
      /** file.write(None): the file has been opened (and truncated) but nothing is written. */
    | NullContent(path: string)
}
