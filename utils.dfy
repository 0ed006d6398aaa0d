/** The JSON-path check shared by the path fields (src/utils.ts). */
module Utils {
  import opened Wrappers
  import opened Failures

  /** The accepted paths: those that start with `$.`; nothing after the prefix is inspected. */
  predicate IsJsonPath(path: string)
  {
    |path| >= 2 && path[0] == '$' && path[1] == '.'
  }

  /** `validateJSONPath`: no error for a path that starts with `$.`, otherwise an error carrying the path. */
  function ValidateJsonPath(path: string): (r: Option<Failure>)
    ensures r == None <==> |path| >= 2 && path[..2] == "$."
    ensures r != None ==> r == Some(InvalidJsonPath(path))
  {
    if IsJsonPath(path) then None else Some(InvalidJsonPath(path))
  }

  /** Whatever follows `$.` is accepted, and no shorter string is. */
  lemma AcceptedPaths(suffix: string, short: string)
    requires |short| < 2
    ensures ValidateJsonPath("$." + suffix) == None
    ensures ValidateJsonPath(short) == Some(InvalidJsonPath(short))
  {
    assert ("$." + suffix)[..2] == "$.";
  }
}
