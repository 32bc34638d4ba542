/** The parts of an HTTP request the two filters read. */
module Http {
  import opened Lang
  import opened Attempts

  datatype Request = Request(
    httpMethod: string,
    requestUri: string,
    queryString: Option<string>,
    contextPath: string,
    sessionId: SessionId,
    parameters: map<string, string>)
}
