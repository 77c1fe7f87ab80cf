/**
 * The per-user request rules of the web front end: the session gate and
 * the user's project root, project lookup by name, the error handlers,
 * the `DOCKER_HOST` and `WEB_CONSOLE_PATTERN` settings, and the user
 * directory made on login.
 */
module ComposeUi {
  import opened Wrappers
  import opened Faults
  import opened Fs
  import opened FindFiles

  const UsernameKey := "username"
  const UsersParent := "."
  const UsersName := "users"
  const UsersDir := "./users"
  const InfoFile := "info.json"
  const IndexUrl := "/"
  const DockerHost := "DOCKER_HOST"
  const WebConsolePatternVar := "WEB_CONSOLE_PATTERN"
  const DefaultWebConsolePattern := "/web-console/?cid={containerName}&cmd={command}"
  const ComposeProjectLabel := "com.docker.compose.project"

  /** A body and an HTTP status. */
  datatype Response = Response(body: string, status: int)

  const Unauthorized := Response("unauthorized", 403)

  /** A user-scoped endpoint either answers at once or goes on with a value. */
  datatype Outcome<T> = Replied(response: Response) | Proceed(value: T)

  // ---- Session gate ----

  /** The caller's project root, `"./users/" + username`, or None when the session has no user. */
  function UserRoot(session: map<string, string>): Option<string>
  {
    if UsernameKey in session then Some(UsersDir + "/" + session[UsernameKey]) else None
  }

  // ---- Error handlers ----

  /** The three registered handlers. */
  datatype Handler = ConnectionHandler | DockerHandler | GenericHandler

  const ConnectionPrefix := "docker host not found: "
  const DockerPrefix := "docker exception: "
  const GenericPrefix := "error: "

  /** The handler chosen for an exception: the most specific registered class. */
  function HandlerFor(f: Fault): Handler
  {
    match f
    case ConnectionError(_) => ConnectionHandler
    case DockerError(_) => DockerHandler
    case _ => GenericHandler
  }

  function HandlerPrefix(h: Handler): string
  {
    match h
    case ConnectionHandler => ConnectionPrefix
    case DockerHandler => DockerPrefix
    case GenericHandler => GenericPrefix
  }

  /** The response for an exception that escaped a request handler. */
  function HandleFault(f: Fault): (r: Response)
    ensures r.status == 500
  {
    Response(HandlerPrefix(HandlerFor(f)) + Str(f), 500)
  }

  predicate HasPrefix(s: string, p: string)
  {
    |p| <= |s| && s[..|p|] == p
  }

  /** Reads back which handler wrote an error body, and the exception text it carries. */
  function ReadErrorBody(body: string): Option<(Handler, string)>
  {
    if HasPrefix(body, ConnectionPrefix) then Some((ConnectionHandler, body[|ConnectionPrefix|..]))
    else if HasPrefix(body, DockerPrefix) then Some((DockerHandler, body[|DockerPrefix|..]))
    else if HasPrefix(body, GenericPrefix) then Some((GenericHandler, body[|GenericPrefix|..]))
    else None
  }

  /** Every error body names its handler unambiguously and carries `str(err)` unchanged. */
  lemma ErrorBodyRoundTrip(f: Fault)
    ensures ReadErrorBody(HandleFault(f).body) == Some((HandlerFor(f), Str(f)))
  {
    var b := HandleFault(f).body;
    match HandlerFor(f)
    case ConnectionHandler =>
      assert b[..|ConnectionPrefix|] == ConnectionPrefix;
    case DockerHandler =>
      assert b[..|DockerPrefix|] == DockerPrefix;
      assert b[7] != ConnectionPrefix[7];
    case GenericHandler =>
      assert b[..|GenericPrefix|] == GenericPrefix;
      assert b[0] != ConnectionPrefix[0] && b[0] != DockerPrefix[0];
  }

  // ---- Project lookup ----

  /** Where projects are looked for: the shared git checkout when one is configured. */
  datatype Config = Config(gitRepo: bool, gitYmlPath: string)

  /** The live project the container client builds from a project folder. */
  datatype ProjectHandle = ProjectHandle(path: string)

  /** The directory `load_projects(path)` scans. */
  function ScanRoot(cfg: Config, path: string): string
  {
    if cfg.gitRepo then cfg.gitYmlPath else path
  }

  /** `projects[name]`, wrapped into a handle, or the `KeyError` it raises. */
  function Lookup(projects: map<string, string>, name: string): Result<ProjectHandle, Fault>
  {
    if name in projects then Ok(ProjectHandle(projects[name])) else Err(KeyError(name))
  }

  /** What `get_project_with_name(path, name)` returns or raises: `load_projects`, then `projects[name]`. */
  function ProjectWithName(fs: Fs, cfg: Config, path: string, name: string): Result<ProjectHandle, Fault>
  {
    match ProjectsIn(fs, ScanRoot(cfg, path))
    case Err(e) => Err(e)
    case Ok(projects) => Lookup(projects, name)
  }

  /** `load_projects(path)`: the git checkout's projects when one is configured, otherwise those under `path`. */
  method LoadProjects(fs: Fs, cfg: Config, path: string) returns (r: Result<map<string, string>, Fault>)
    ensures cfg.gitRepo ==> r == ProjectsIn(fs, cfg.gitYmlPath)
    ensures !cfg.gitRepo ==> r == ProjectsIn(fs, path)
  {
    if cfg.gitRepo {
      r := FindYmlFiles(fs, cfg.gitYmlPath);
    } else {
      r := FindYmlFiles(fs, path);
    }
  }

  /**
   * A handle is produced exactly for a listed compose directory of the
   * scanned root, bound to that directory; any other name raises a
   * `KeyError` and never yields a handle.
   */
  lemma ProjectWithNameExactly(fs: Fs, cfg: Config, path: string, name: string)
    requires IsDir(fs, ScanRoot(cfg, path)) && PlainNames(fs[ScanRoot(cfg, path)].children)
    ensures var root := ScanRoot(cfg, path);
      ((ProjectWithName(fs, cfg, path, name).Ok?)
         <==> (name in fs[root].children && IsComposeDir(fs, Join(root, name))))
    ensures ProjectWithName(fs, cfg, path, name).Ok? ==>
      ProjectWithName(fs, cfg, path, name).value == ProjectHandle(Join(ScanRoot(cfg, path), name))
    ensures ProjectWithName(fs, cfg, path, name).Err? ==>
      ProjectWithName(fs, cfg, path, name).error == KeyError(name)
  {
    ProjectsInExactly(fs, ScanRoot(cfg, path), name);
  }

  // ---- User-scoped endpoints ----

  /** The start of every user-scoped project endpoint: gate, then `get_project_with_name` under the user's root. */
  function UserProject(fs: Fs, cfg: Config, session: map<string, string>, name: string): Outcome<ProjectHandle>
  {
    match UserRoot(session)
    case None => Replied(Unauthorized)
    case Some(root) =>
      match ProjectWithName(fs, cfg, root, name)
      case Ok(h) => Proceed(h)
      case Err(f) => Replied(HandleFault(f))
  }

  /**
   * Without a user the answer is `("unauthorized", 403)` and no project is
   * opened; with one, outside a git checkout, the project opened is the
   * compose directory `"./users/" + username + "/" + name`, and a name not
   * found is answered with `"error: '" + name + "'"` and status 500; a
   * missing user directory makes the scan raise before the name is read.
   */
  lemma UserProjectResolution(fs: Fs, cfg: Config, session: map<string, string>, name: string)
    ensures UsernameKey !in session ==> UserProject(fs, cfg, session, name) == Replied(Unauthorized)
    ensures UsernameKey in session && !cfg.gitRepo ==>
      var root := UsersDir + "/" + session[UsernameKey];
      IsDir(fs, root) && PlainNames(fs[root].children) ==>
        && ((UserProject(fs, cfg, session, name).Proceed?)
              <==> (name in fs[root].children && IsComposeDir(fs, Join(root, name))))
        && (UserProject(fs, cfg, session, name).Proceed? ==>
              UserProject(fs, cfg, session, name).value == ProjectHandle(Join(root, name)))
        && (UserProject(fs, cfg, session, name).Replied? ==>
              UserProject(fs, cfg, session, name).response == Response(GenericPrefix + Quote(name), 500))
    ensures UsernameKey in session && !cfg.gitRepo ==>
      var root := UsersDir + "/" + session[UsernameKey];
      !IsDir(fs, root) ==>
        UserProject(fs, cfg, session, name)
          == Replied(HandleFault(OsError(if root in fs then ENOTDIR else ENOENT, root)))
  {
    if UsernameKey in session && !cfg.gitRepo {
      var root := UsersDir + "/" + session[UsernameKey];
      if IsDir(fs, root) && PlainNames(fs[root].children) {
        ProjectWithNameExactly(fs, cfg, root, name);
      } else if !IsDir(fs, root) {
        ScanOfNonDirectoryRaises(fs, root);
      }
    }
  }

  /** Alice's directory: `blog` holds a compose file, `notes` one whose name differs in case. */
  function AliceFs(): Fs
  {
    map[
      "./users/alice" := Dir(["blog", "notes"]),
      "./users/alice/blog" := Dir(["docker-compose.yml"]),
      "./users/alice/notes" := Dir(["Docker-Compose.yml"])]
  }

  lemma AliceRoot()
    ensures UserRoot(map[UsernameKey := "alice"]) == Some("./users/alice")
    ensures IsDir(AliceFs(), "./users/alice") && PlainNames(AliceFs()["./users/alice"].children)
  {
    assert UsersDir + "/" + "alice" == "./users/alice";
    assert '/' !in "blog" && '/' !in "notes";
  }

  /** Alice's `blog` project opens, bound to `./users/alice/blog`. */
  lemma AliceBlogOpens()
    ensures UserProject(AliceFs(), Config(false, ""), map[UsernameKey := "alice"], "blog")
      == Proceed(ProjectHandle("./users/alice/blog"))
  {
    AliceRoot();
    assert Join("./users/alice", "blog") == "./users/alice/blog";
    ProjectWithNameExactly(AliceFs(), Config(false, ""), "./users/alice", "blog");
  }

  /** A name that is not a project of Alice's is answered with a 500 naming the key. */
  lemma AliceNotAProject(name: string)
    requires !IsComposeDir(AliceFs(), Join("./users/alice", name))
    ensures UserProject(AliceFs(), Config(false, ""), map[UsernameKey := "alice"], name)
      == Replied(Response(GenericPrefix + Quote(name), 500))
  {
    AliceRoot();
    ProjectWithNameExactly(AliceFs(), Config(false, ""), "./users/alice", name);
  }

  /** `notes` holds its compose file under another letter case, and `missing` does not exist: neither opens. */
  lemma AliceOthersFail()
    ensures UserProject(AliceFs(), Config(false, ""), map[UsernameKey := "alice"], "notes")
      == Replied(Response(GenericPrefix + Quote("notes"), 500))
    ensures UserProject(AliceFs(), Config(false, ""), map[UsernameKey := "alice"], "missing")
      == Replied(Response(GenericPrefix + Quote("missing"), 500))
  {
    assert !IsComposeDir(AliceFs(), Join("./users/alice", "notes")) by {
      assert Join("./users/alice", "notes") == "./users/alice/notes";
      assert "Docker-Compose.yml" != ComposeYml && "Docker-Compose.yml" != ComposeYaml by {
        assert "Docker-Compose.yml"[0] != ComposeYml[0];
      }
    }
    AliceNotAProject("notes");
    assert !IsComposeDir(AliceFs(), Join("./users/alice", "missing")) by {
      assert Join("./users/alice", "missing") == "./users/alice/missing";
      assert |"./users/alice/missing"| != |"./users/alice/blog"|;
      assert |"./users/alice/missing"| != |"./users/alice/notes"|;
      assert |"./users/alice/missing"| != |"./users/alice"|;
    }
    AliceNotAProject("missing");
  }

  /**
   * `get_project_readme`: the gate and the project lookup as above, then
   * the readme of the project folder (the handler reads `projects[name]`
   * directly, which is the folder the handle is bound to).
   */
  function ReadmeReply(fs: Fs, cfg: Config, session: map<string, string>, name: string): Outcome<Option<seq<byte>>>
  {
    match UserProject(fs, cfg, session, name)
    case Replied(r) => Replied(r)
    case Proceed(h) =>
      match NamedFileIn(fs, h.path, ReadmeName)
      case Err(f) => Replied(HandleFault(f))
      case Ok(readme) => Proceed(readme)
  }

  /**
   * A refused or failed project lookup is the readme endpoint's answer too.
   * An opened project is a directory, so its readme lookup cannot raise:
   * the answer is its first readme, or null.
   */
  lemma ReadmeOfOpenedProject(fs: Fs, cfg: Config, session: map<string, string>, name: string)
    ensures UserProject(fs, cfg, session, name).Replied? ==>
      ReadmeReply(fs, cfg, session, name) == Replied(UserProject(fs, cfg, session, name).response)
    ensures UserProject(fs, cfg, session, name).Proceed? ==>
      var path := UserProject(fs, cfg, session, name).value.path;
      IsDir(fs, path) && ReadmeReply(fs, cfg, session, name) == Proceed(FirstNamed(fs, path, fs[path].children, ReadmeName))
  {
    if UserProject(fs, cfg, session, name).Proceed? {
      var root := UserRoot(session).value;
      var projects := ProjectsIn(fs, ScanRoot(cfg, root)).value;
      ProjectsAreComposeDirs(fs, ScanRoot(cfg, root), fs[ScanRoot(cfg, root)].children, name);
      assert UserProject(fs, cfg, session, name).value.path == projects[name];
    }
  }

  /** One entry per container: its compose project label, or an empty list when it has none. */
  datatype Active = Labelled(project: string) | Unlabelled

  datatype Listing = Listing(projects: map<string, string>, active: seq<Active>)

  /** The `active` list of `list_projects`, from the labels of every container the client reports. */
  function ActiveOf(labels: seq<map<string, string>>): (r: seq<Active>)
    ensures |r| == |labels|
    ensures forall i :: 0 <= i < |r| ==>
      (r[i].Labelled? <==> ComposeProjectLabel in labels[i])
      && (r[i].Labelled? ==> r[i].project == labels[i][ComposeProjectLabel])
  {
    seq(|labels|, i requires 0 <= i < |labels| =>
      if ComposeProjectLabel in labels[i] then Labelled(labels[i][ComposeProjectLabel]) else Unlabelled)
  }

  /**
   * `list_projects`: refuses without a user, otherwise scans the user's
   * projects and then asks the container client for the running
   * containers' labels. Either step can raise; the scan comes first, so a
   * scan error wins over an unreachable Docker host.
   */
  method ListProjects(fs: Fs, cfg: Config, session: map<string, string>,
                      labels: Result<seq<map<string, string>>, Fault>)
    returns (o: Outcome<Listing>)
    ensures UserRoot(session).None? ==> o == Replied(Unauthorized)
    ensures UserRoot(session).Some? ==>
      match ProjectsIn(fs, ScanRoot(cfg, UserRoot(session).value))
      case Err(f) => o == Replied(HandleFault(f))
      case Ok(projects) =>
        match labels
        case Err(f) => o == Replied(HandleFault(f))
        case Ok(ls) => o == Proceed(Listing(projects, ActiveOf(ls)))
  {
    if UsernameKey !in session {
      return Replied(Unauthorized);
    }
    var root := UsersDir + "/" + session[UsernameKey];
    var projects := LoadProjects(fs, cfg, root);
    if projects.Err? {
      return Replied(HandleFault(projects.error));
    }
    if labels.Err? {
      return Replied(HandleFault(labels.error));
    }
    return Proceed(Listing(projects.value, ActiveOf(labels.value)));
  }

  // ---- DOCKER_HOST and WEB_CONSOLE_PATTERN ----

  /** A value of the parsed request body. */
  datatype Json = JNull | JString(s: string) | JOther(typeName: string)

  /** The JSON answer of `set_host`: empty, or the host just set. */
  datatype HostReply = EmptyReply | HostSet(host: string)

  /** What `set_host` answers and the environment it leaves. */
  datatype EnvUpdate = EnvUpdate(reply: Result<HostReply, Fault>, environ: map<string, string>)

  /** `set_host`: `id` null clears `DOCKER_HOST`, a string sets it; a missing `id` or a non-string raises first. */
  function SetHostOn(environ: map<string, string>, body: map<string, Json>): EnvUpdate
  {
    if "id" !in body then EnvUpdate(Err(KeyError("id")), environ)
    else match body["id"]
      case JNull =>
        EnvUpdate(Ok(EmptyReply), if DockerHost in environ then environ - {DockerHost} else environ)
      case JString(h) =>
        EnvUpdate(Ok(HostSet(h)), environ[DockerHost := h])
      case JOther(t) =>
        EnvUpdate(Err(TypeError("str expected, not " + t)), environ)
  }

  /** The answer of the `host` endpoint. */
  datatype HostInfo = HostInfo(host: Option<string>, workdir: string)

  /** `host`: refuses without a user, otherwise `DOCKER_HOST` (or null) and the workdir `"/" + username + "/"`. */
  function HostOf(session: map<string, string>, environ: map<string, string>): (r: Outcome<HostInfo>)
    ensures r.Replied? <==> UsernameKey !in session
    ensures r.Replied? ==> r.response == Unauthorized
    ensures r.Proceed? ==> (r.value.host.Some? <==> DockerHost in environ)
    ensures r.Proceed? && r.value.host.Some? ==> r.value.host.value == environ[DockerHost]
  {
    if UsernameKey !in session then Replied(Unauthorized)
    else Proceed(HostInfo(
      if DockerHost in environ then Some(environ[DockerHost]) else None,
      "/" + session[UsernameKey] + "/"))
  }

  /** The workdir `host` reports is the username between two separators, and nothing else. */
  lemma HostWorkdir(session: map<string, string>, environ: map<string, string>)
    requires UsernameKey in session
    ensures var w := HostOf(session, environ).value.workdir;
      && |w| == |session[UsernameKey]| + 2
      && w[0] == '/' && w[|w| - 1] == '/'
      && w[1..|w| - 1] == session[UsernameKey]
  {
    var w := HostOf(session, environ).value.workdir;
    assert w == "/" + session[UsernameKey] + "/";
    assert w[1..|w| - 1] == session[UsernameKey];
  }

  /** `get_web_console_pattern`: the variable's value when set, even empty, otherwise the default template. */
  function WebConsolePattern(environ: map<string, string>): string
  {
    if WebConsolePatternVar in environ then environ[WebConsolePatternVar] else DefaultWebConsolePattern
  }

  /**
   * Unset, the console pattern is the default template; set, it is the
   * variable's value unchanged, so it is empty only when the variable is
   * set to the empty string.
   */
  lemma WebConsolePatternDefault(environ: map<string, string>)
    ensures WebConsolePatternVar !in environ ==> WebConsolePattern(environ) == DefaultWebConsolePattern
    ensures WebConsolePatternVar in environ ==> WebConsolePattern(environ) == environ[WebConsolePatternVar]
    ensures WebConsolePattern(environ) != "" <==> !(WebConsolePatternVar in environ && environ[WebConsolePatternVar] == "")
  {
  }

  /**
   * `set_host` touches `DOCKER_HOST` only: every other variable, the web
   * console pattern among them, keeps its presence and value.
   */
  lemma SetHostFrame(environ: map<string, string>, body: map<string, Json>, k: string)
    requires k != DockerHost
    ensures var e := SetHostOn(environ, body).environ;
      (k in e <==> k in environ) && (k in e ==> e[k] == environ[k])
    ensures WebConsolePattern(SetHostOn(environ, body).environ) == WebConsolePattern(environ)
  {
  }

  /**
   * What `set_host` stores is what `host` then reports to a signed-in user;
   * a body without `id` raises `KeyError('id')`, and a failed `set_host`
   * changes nothing.
   */
  lemma SetHostThenHost(environ: map<string, string>, body: map<string, Json>, session: map<string, string>)
    ensures UsernameKey in session && "id" in body && body["id"].JString? ==>
      HostOf(session, SetHostOn(environ, body).environ) == Proceed(HostInfo(Some(body["id"].s), "/" + session[UsernameKey] + "/"))
    ensures UsernameKey in session && "id" in body && body["id"].JNull? ==>
      HostOf(session, SetHostOn(environ, body).environ).value.host == None
    ensures "id" !in body ==> SetHostOn(environ, body) == EnvUpdate(Err(KeyError("id")), environ)
    ensures SetHostOn(environ, body).reply.Err? ==> SetHostOn(environ, body).environ == environ
  {
  }

  /** Repeating a `set_host` request leaves the environment as the first one did. */
  lemma SetHostIdempotent(environ: map<string, string>, body: map<string, Json>)
    ensures var once := SetHostOn(environ, body);
      SetHostOn(once.environ, body) == once
  {
  }

  // ---- Login ----

  /** What the user-directory part of `login` answers and the filesystem and session it leaves. */
  datatype LoginUpdate = LoginUpdate(result: Result<string, Fault>, fs: Fs, session: map<string, string>)

  /** The user's directory, `"./users/" + lower-cased login`. */
  function HomeOf(login: string): string
  {
    UsersDir + "/" + Lower(login)
  }

  /**
   * The session stores the lower-cased login first; then `./users` is
   * made if it is not a directory, then the user's directory, and
   * `info.json` is written only into a directory made just now. The answer
   * is a redirect to the index page.
   */
  function LoginOn(fs: Fs, session: map<string, string>, login: string, profile: seq<byte>): LoginUpdate
  {
    var user := Lower(login);
    var session' := session[UsernameKey := user];
    var ready := if IsDir(fs, UsersDir) then Ok(fs) else MkDir(fs, UsersParent, UsersName);
    match ready
    case Err(e) => LoginUpdate(Err(e), fs, session')
    case Ok(fs1) =>
      if IsDir(fs1, HomeOf(login)) then LoginUpdate(Ok(IndexUrl), fs1, session')
      else match MkDir(fs1, UsersDir, user)
        case Err(e) => LoginUpdate(Err(e), fs1, session')
        case Ok(fs2) =>
          match WriteFile(fs2, HomeOf(login), InfoFile, profile)
          case Err(e) => LoginUpdate(Err(e), fs2, session')
          case Ok(fs3) => LoginUpdate(Ok(IndexUrl), fs3, session')
  }

  /** A login as the identity provider issues them: not empty and without a separator. */
  predicate PlainLogin(login: string)
  {
    login != [] && '/' !in login
  }

  lemma HomeIsJoined(login: string)
    requires PlainLogin(login)
    ensures Join(UsersDir, Lower(login)) == HomeOf(login)
    ensures Join(UsersParent, UsersName) == UsersDir
    ensures HomeOf(login) != UsersDir
    ensures Join(HomeOf(login), InfoFile) == HomeOf(login) + "/" + InfoFile
  {
  }

  /** After a successful login, both `./users` and the user's directory are directories. */
  lemma {:induction false} LoginLeavesHome(fs: Fs, session: map<string, string>, login: string, profile: seq<byte>)
    requires PlainLogin(login)
    requires LoginOn(fs, session, login, profile).result.Ok?
    ensures IsDir(LoginOn(fs, session, login, profile).fs, UsersDir)
    ensures IsDir(LoginOn(fs, session, login, profile).fs, HomeOf(login))
    ensures LoginOn(fs, session, login, profile).session == session[UsernameKey := Lower(login)]
  {
    HomeIsJoined(login);
    var home := HomeOf(login);
    var info := Join(home, InfoFile);
    assert |info| > |home| > |UsersDir|;
    var ready := if IsDir(fs, UsersDir) then Ok(fs) else MkDir(fs, UsersParent, UsersName);
    var fs1 := ready.value;
    assert IsDir(fs1, UsersDir);
    if !IsDir(fs1, home) {
      var fs2 := MkDir(fs1, UsersDir, Lower(login)).value;
      assert IsDir(fs2, UsersDir) && IsDir(fs2, home);
    }
  }

  /**
   * Logging in again changes nothing: the session already holds the user,
   * both directories exist, and `info.json` is not written again.
   */
  lemma LoginIdempotent(fs: Fs, session: map<string, string>, login: string, profile: seq<byte>, profile': seq<byte>)
    requires PlainLogin(login)
    requires LoginOn(fs, session, login, profile).result.Ok?
    ensures var once := LoginOn(fs, session, login, profile);
      LoginOn(once.fs, once.session, login, profile') == once
  {
    LoginLeavesHome(fs, session, login, profile);
    var once := LoginOn(fs, session, login, profile);
    assert once.session[UsernameKey := Lower(login)] == once.session;
  }

  /** A returning user, whose directory exists, only gets the session set: the filesystem is unchanged. */
  lemma LoginReturningUser(fs: Fs, session: map<string, string>, login: string, profile: seq<byte>)
    requires IsDir(fs, UsersDir) && IsDir(fs, HomeOf(login))
    ensures LoginOn(fs, session, login, profile) == LoginUpdate(Ok(IndexUrl), fs, session[UsernameKey := Lower(login)])
  {
  }

  /**
   * A first login makes exactly one directory for the user, listed in
   * `./users`, holding only `info.json` with the profile; every other path
   * keeps its node, and the new user has no projects.
   */
  lemma LoginNewUser(fs: Fs, session: map<string, string>, login: string, profile: seq<byte>)
    requires PlainLogin(login)
    requires IsDir(fs, UsersDir) && HomeOf(login) !in fs && Join(HomeOf(login), InfoFile) !in fs
    ensures var after := LoginOn(fs, session, login, profile);
      var home := HomeOf(login);
      var info := Join(home, InfoFile);
      && after.result == Ok(IndexUrl)
      && after.fs.Keys == fs.Keys + {home, info}
      && after.fs[UsersDir] == Dir(fs[UsersDir].children + [Lower(login)])
      && after.fs[home] == Dir([InfoFile])
      && after.fs[info] == File(profile)
      && (forall p :: p in fs && p != UsersDir ==> after.fs[p] == fs[p])
      && ProjectsIn(after.fs, home) == Ok(map[])
  {
    HomeIsJoined(login);
    var home := HomeOf(login);
    var info := Join(home, InfoFile);
    assert |info| > |home| > |UsersDir|;
    var fs2 := fs[UsersDir := Dir(fs[UsersDir].children + [Lower(login)])][home := Dir([])];
    assert MkDir(fs, UsersDir, Lower(login)) == Ok(fs2);
    var fs3 := fs2[home := Dir([InfoFile])][info := File(profile)];
    assert info !in fs2 && IsDir(fs2, home) && fs2[home].children == [];
    assert [] + [InfoFile] == [InfoFile];
    assert WriteFile(fs2, home, InfoFile, profile) == Ok(fs3);
    assert LoginOn(fs, session, login, profile).fs == fs3;
    assert Projects(fs3, home, [InfoFile]) == map[] by {
      assert [InfoFile][..0] == [];
      assert !IsComposeDir(fs3, info);
    }
  }

  /**
   * The first login on a fresh install, where `./users` does not exist yet:
   * `.` gains `users`, `./users` holds only the user's directory, which
   * holds only `info.json` with the profile, and every other path keeps
   * its node. The working directory `.` is taken to exist, as it always
   * does for a running process.
   */
  lemma LoginFirstEver(fs: Fs, session: map<string, string>, login: string, profile: seq<byte>)
    requires PlainLogin(login)
    requires IsDir(fs, UsersParent) && UsersDir !in fs
    requires HomeOf(login) !in fs && Join(HomeOf(login), InfoFile) !in fs
    ensures var after := LoginOn(fs, session, login, profile);
      var home := HomeOf(login);
      var info := Join(home, InfoFile);
      && after.result == Ok(IndexUrl)
      && after.session == session[UsernameKey := Lower(login)]
      && after.fs.Keys == fs.Keys + {UsersDir, home, info}
      && after.fs[UsersParent] == Dir(fs[UsersParent].children + [UsersName])
      && after.fs[UsersDir] == Dir([Lower(login)])
      && after.fs[home] == Dir([InfoFile])
      && after.fs[info] == File(profile)
      && (forall p :: p in fs && p != UsersParent ==> after.fs[p] == fs[p])
  {
    HomeIsJoined(login);
    var home := HomeOf(login);
    var info := Join(home, InfoFile);
    assert |info| > |home| > |UsersDir| > |UsersParent|;
    var fs1 := fs[UsersParent := Dir(fs[UsersParent].children + [UsersName])][UsersDir := Dir([])];
    assert MkDir(fs, UsersParent, UsersName) == Ok(fs1);
    assert LoginOn(fs, session, login, profile) == LoginOn(fs1, session, login, profile);
    LoginNewUser(fs1, session, login, profile);
    assert [] + [Lower(login)] == [Lower(login)];
  }

  /** When `./users` is a regular file, login fails with the `mkdir` error after the session is already set. */
  lemma LoginUsersIsAFile(fs: Fs, session: map<string, string>, login: string, profile: seq<byte>)
    requires IsFile(fs, UsersDir)
    ensures LoginOn(fs, session, login, profile)
      == LoginUpdate(Err(OsError(EEXIST, UsersDir)), fs, session[UsernameKey := Lower(login)])
  {
    assert Join(UsersParent, UsersName) == UsersDir;
  }

  /** The state the request handlers share: the process environment, the filesystem and the caller's session. */
  class Server {
    var environ: map<string, string>
    var fs: Fs
    var session: map<string, string>

    constructor (environ: map<string, string>, fs: Fs, session: map<string, string>)
      ensures this.environ == environ && this.fs == fs && this.session == session
    {
      this.environ := environ;
      this.fs := fs;
      this.session := session;
    }

    /** `set_host`: deletes or assigns `DOCKER_HOST` in the process environment. */
    method SetHost(body: map<string, Json>) returns (r: Result<HostReply, Fault>)
      modifies this`environ
      ensures r == SetHostOn(old(environ), body).reply
      ensures environ == SetHostOn(old(environ), body).environ
    {
      if "id" !in body {
        return Err(KeyError("id"));
      }
      var newHost := body["id"];
      match newHost
      case JNull =>
        if DockerHost in environ {
          environ := environ - {DockerHost};
        }
        return Ok(EmptyReply);
      case JString(h) =>
        environ := environ[DockerHost := h];
        return Ok(HostSet(h));
      case JOther(t) =>
        return Err(TypeError("str expected, not " + t));
    }

    /** The user-directory part of `login`, after the identity provider has given the login and profile. */
    method Login(login: string, profile: seq<byte>) returns (r: Result<string, Fault>)
      requires PlainLogin(login)
      modifies this`fs, this`session
      ensures var u := LoginOn(old(fs), old(session), login, profile);
        r == u.result && fs == u.fs && session == u.session
    {
      HomeIsJoined(login);
      var user := Lower(login);
      session := session[UsernameKey := user];
      if !IsDir(fs, UsersDir) {
        var made := MkDir(fs, UsersParent, UsersName);
        if made.Err? {
          return Err(made.error);
        }
        fs := made.value;
      }
      var home := UsersDir + "/" + user;
      if !IsDir(fs, home) {
        var made := MkDir(fs, UsersDir, user);
        if made.Err? {
          return Err(made.error);
        }
        fs := made.value;
        var written := WriteFile(fs, home, InfoFile, profile);
        if written.Err? {
          return Err(written.error);
        }
        fs := written.value;
      }
      return Ok(IndexUrl);
    }
  }
}
