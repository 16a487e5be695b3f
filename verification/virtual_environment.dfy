/** The test double for the web virtual environment: a request's virtual
    file path, its path info, the application's virtual root and the
    current execution file path, with the normalisation its constructor
    applies to the path info and the application root. */
module VirtualEnvironmentMock {
  import opened Wrappers
  import Text

  /** The mock's fields. `None` is a null string. */
  datatype Env = Env(
    currentVirtualFilePath: Option<string>,
    pathInfo: string,
    currentExecutionFilePath: Option<string>,
    applicationVirtualPath: string)

  /** Path info in the form the constructor produces: empty, or one `/`
      followed by something that does not start with `/`. */
  predicate CanonicalPathInfo(p: string) {
    p == [] || (p[0] == '/' && (|p| > 1 ==> p[1] != '/'))
  }

  /** An application root in the form the constructor produces: `/`, or a
      piece that neither starts nor ends with `/`, bracketed by one `/` on
      each side. */
  predicate CanonicalApplicationPath(a: string) {
    && |a| >= 1 && a[0] == '/' && a[|a| - 1] == '/'
    && (|a| > 1 ==> a[1] != '/' && a[|a| - 2] != '/')
  }

  /** The invariant every mock keeps. */
  predicate Valid(e: Env) {
    CanonicalPathInfo(e.pathInfo) && CanonicalApplicationPath(e.applicationVirtualPath)
  }

  /** The constructor's treatment of `pathInfo`: null and empty become
      empty; anything else loses its leading slashes and gets exactly one. */
  function NormalizePathInfo(pathInfo: Option<string>): (r: string)
    ensures r == [] <==> pathInfo == None || pathInfo == Some([])
    ensures CanonicalPathInfo(r)
    ensures r != [] ==> |r| - 1 <= |pathInfo.value|
    ensures r != [] ==> forall i :: 1 <= i < |r| ==> r[i] == pathInfo.value[|pathInfo.value| - |r| + i]
    ensures r != [] ==> forall i :: 0 <= i <= |pathInfo.value| - |r| ==> pathInfo.value[i] == '/'
  {
    match pathInfo
    case None => []
    case Some(p) => if |p| == 0 then [] else "/" + Text.TrimStart(p, '/')
  }

  /** The constructor's treatment of `applicationVirtualPath`: null counts
      as empty, slashes are trimmed from both ends, and the rest is
      bracketed by single slashes (a lone `/` when nothing is left). */
  function NormalizeApplicationPath(applicationVirtualPath: Option<string>): (r: string)
    ensures CanonicalApplicationPath(r)
    ensures r == "/" <==> Text.AllChar(applicationVirtualPath.GetOr([]), '/')
    ensures var t := Text.Trim(applicationVirtualPath.GetOr([]), '/');
      r == if t == [] then "/" else "/" + t + "/"
  {
    var t := Text.Trim(applicationVirtualPath.GetOr([]), '/');
    var p := "/" + t;
    Bracketed(t);
    if p[|p| - 1] == '/' then p else p + "/"
  }

  /** Prefixing a trimmed core with `/` and appending `/` unless it already
      ends with one brackets the core, or gives a lone `/` for an empty
      core. */
  lemma Bracketed(t: string)
    requires t == [] || (t[0] != '/' && t[|t| - 1] != '/')
    ensures var p := "/" + t;
      var r := if p[|p| - 1] == '/' then p else p + "/";
      && r == (if t == [] then "/" else "/" + t + "/")
      && CanonicalApplicationPath(r)
      && (r == "/" <==> t == [])
  {
    var p := "/" + t;
    if t != [] {
      assert p[|p| - 1] == t[|t| - 1];
    }
  }

  /** `new VirtualEnvironmentMock(currentVirtualFilePath, pathInfo,
      applicationVirtualPath, autoInitialize)`, without the registration as
      the ambient environment. */
  function Create(currentVirtualFilePath: Option<string>, pathInfo: Option<string>,
                  applicationVirtualPath: Option<string>): (e: Env)
    ensures Valid(e)
    ensures e.currentVirtualFilePath == currentVirtualFilePath
    ensures e.currentExecutionFilePath == None
  {
    Env(currentVirtualFilePath, NormalizePathInfo(pathInfo), None,
        NormalizeApplicationPath(applicationVirtualPath))
  }

  /** The `ApplicationVirtualPath` getter: on a valid mock, a canonical root
      that normalising again would leave as it is. */
  function ApplicationVirtualPath(e: Env): (r: string)
    ensures Valid(e) ==> CanonicalApplicationPath(r)
    ensures Valid(e) ==> NormalizeApplicationPath(Some(r)) == r
  {
    ApplicationPathFixpoints(e.applicationVirtualPath);
    e.applicationVirtualPath
  }

  /** The `CurrentVirtualFilePath` getter: the file path the current virtual
      path starts with (null reading as empty). */
  function CurrentVirtualFilePath(e: Env): (r: Option<string>)
    ensures |r.GetOr([])| <= |CurrentVirtualPath(e)|
    ensures forall i :: 0 <= i < |r.GetOr([])| ==> CurrentVirtualPath(e)[i] == r.GetOr([])[i]
  {
    e.currentVirtualFilePath
  }

  /** The `CurrentExecutionFilePath` getter: writing back the value it reads
      leaves the mock as it was. */
  function CurrentExecutionFilePath(e: Env): (r: Option<string>)
    ensures e.(currentExecutionFilePath := r) == e
  {
    e.currentExecutionFilePath
  }

  /** `CurrentVirtualPath`: the file path (null reads as empty under string
      concatenation) followed by the path info. */
  function CurrentVirtualPath(e: Env): (r: string)
    ensures |e.currentVirtualFilePath.GetOr([])| <= |r|
    ensures r[..|e.currentVirtualFilePath.GetOr([])|] == e.currentVirtualFilePath.GetOr([])
    ensures Valid(e) ==> CanonicalPathInfo(r[|e.currentVirtualFilePath.GetOr([])|..])
  {
    var file := e.currentVirtualFilePath.GetOr([]);
    assert (file + e.pathInfo)[|file|..] == e.pathInfo;
    file + e.pathInfo
  }

  /** The `CurrentExecutionFilePath` setter: the getter returns the new
      value and every other property reads as before. */
  function SetCurrentExecutionFilePath(e: Env, value: Option<string>): (e': Env)
    ensures CurrentExecutionFilePath(e') == value
    ensures CurrentVirtualFilePath(e') == CurrentVirtualFilePath(e)
    ensures CurrentVirtualPath(e') == CurrentVirtualPath(e)
    ensures ApplicationVirtualPath(e') == ApplicationVirtualPath(e)
    ensures Valid(e) ==> Valid(e')
  {
    e.(currentExecutionFilePath := value)
  }

  // ---------------------------------------------------------------------
  // Properties

  /** The canonical path infos are exactly the values normalisation leaves
      unchanged. */
  lemma PathInfoFixpoints(p: string)
    ensures NormalizePathInfo(Some(p)) == p <==> CanonicalPathInfo(p)
  {
    if CanonicalPathInfo(p) && p != [] {
      var q := p[1..];
      assert p == "/" + q;
      TrimStartOfCanonical(p, q);
    }
  }

  lemma TrimStartOfCanonical(p: string, q: string)
    requires p == "/" + q && (q == [] || q[0] != '/')
    ensures Text.TrimStart(p, '/') == q
  {
    assert p[1..] == q;
    assert Text.TrimStart(q, '/') == q;
  }

  /** Normalising path info twice is normalising it once. */
  lemma PathInfoIdempotent(p: Option<string>)
    ensures NormalizePathInfo(Some(NormalizePathInfo(p))) == NormalizePathInfo(p)
  {
    PathInfoFixpoints(NormalizePathInfo(p));
  }

  /** Non-empty path info made only of slashes becomes `/`, never empty. */
  lemma PathInfoOfSlashes(p: string)
    requires p != [] && Text.AllChar(p, '/')
    ensures NormalizePathInfo(Some(p)) == "/"
  {
  }

  /** The canonical application roots are exactly the values normalisation
      leaves unchanged. */
  lemma ApplicationPathFixpoints(a: string)
    ensures NormalizeApplicationPath(Some(a)) == a <==> CanonicalApplicationPath(a)
  {
    if CanonicalApplicationPath(a) && |a| > 1 {
      var t := a[1..|a| - 1];
      assert a == ['/'] + t + ['/'];
      Text.TrimBracketed(t, '/');
    }
  }

  /** Normalising the application root twice is normalising it once. */
  lemma ApplicationPathIdempotent(a: Option<string>)
    ensures NormalizeApplicationPath(Some(NormalizeApplicationPath(a))) == NormalizeApplicationPath(a)
  {
    ApplicationPathFixpoints(NormalizeApplicationPath(a));
  }

  /** Between its bracketing slashes the application root is a contiguous
      piece of the input, interior slashes included; everything of the input
      outside that piece is a slash. */
  lemma ApplicationPathKeepsInterior(a: string) returns (k: nat, t: string)
    requires !Text.AllChar(a, '/')
    ensures NormalizeApplicationPath(Some(a)) == "/" + t + "/"
    ensures t != [] && k + |t| <= |a|
    ensures forall i :: 0 <= i < |t| ==> t[i] == a[k + i]
    ensures forall i :: 0 <= i < k ==> a[i] == '/'
    ensures forall i :: k + |t| <= i < |a| ==> a[i] == '/'
  {
    t := Text.Trim(a, '/');
    k := Text.TrimKeepsCore(a, '/');
  }

  /** The current virtual path is the stored file path followed by the
      normalised path info; with null or empty path info it is the file
      path itself (null reading as empty). */
  lemma CurrentVirtualPathOfCreate(file: Option<string>, pathInfo: Option<string>,
                                   app: Option<string>)
    ensures var e := Create(file, pathInfo, app);
      && CurrentVirtualFilePath(e) == file
      && CurrentVirtualPath(e) == file.GetOr([]) + NormalizePathInfo(pathInfo)
      && (pathInfo == None || pathInfo == Some([]) ==> CurrentVirtualPath(e) == file.GetOr([]))
  {
  }

  /** A new mock's application root is the constructor's argument
      normalised: `/` for null, empty or all-slash input, and otherwise the
      input trimmed of slashes and bracketed by one `/` on each side. */
  lemma ApplicationVirtualPathOfCreate(file: Option<string>, pathInfo: Option<string>,
                                       app: Option<string>)
    ensures ApplicationVirtualPath(Create(file, pathInfo, app)) == NormalizeApplicationPath(app)
    ensures var t := Text.Trim(app.GetOr([]), '/');
      ApplicationVirtualPath(Create(file, pathInfo, app)) == if t == [] then "/" else "/" + t + "/"
  {
  }

  /** Setting the execution file path twice keeps the last value, and is the
      same as setting it once to that value. */
  lemma ExecutionFilePathSetGet(e: Env, v: Option<string>, w: Option<string>)
    ensures CurrentExecutionFilePath(SetCurrentExecutionFilePath(SetCurrentExecutionFilePath(e, v), w)) == w
    ensures SetCurrentExecutionFilePath(SetCurrentExecutionFilePath(e, v), w) == SetCurrentExecutionFilePath(e, w)
  {
  }
}
