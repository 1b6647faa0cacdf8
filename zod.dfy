/** The string checks the form schemas chain, each reporting one issue with
    its own message when it fails. Every check of a field runs, whatever the
    earlier ones reported. */
module Zod {

  /** A reported problem: the field it belongs to and its message. */
  datatype Issue = Issue(path: string, message: string)

  /** `.min(n, { message })`. */
  function MinLength(s: string, n: nat, path: string, message: string): (r: seq<Issue>)
    ensures r == [] <==> |s| >= n
    ensures r != [] ==> r == [Issue(path, message)]
  {
    if |s| < n then [Issue(path, message)] else []
  }

  /** `.max(n, { message })`. */
  function MaxLength(s: string, n: nat, path: string, message: string): (r: seq<Issue>)
    ensures r == [] <==> |s| <= n
    ensures r != [] ==> r == [Issue(path, message)]
  {
    if |s| > n then [Issue(path, message)] else []
  }

  /** `.email({ message })`; the format itself is the predicate `isEmail`. */
  function EmailFormat(s: string, isEmail: string -> bool, path: string, message: string): (r: seq<Issue>)
    ensures r == [] <==> isEmail(s)
    ensures r != [] ==> r == [Issue(path, message)]
  {
    if isEmail(s) then [] else [Issue(path, message)]
  }
}
