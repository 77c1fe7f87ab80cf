# Docker Compose UI: project discovery and per-user request rules

This project models, in Dafny, the part of the Docker Compose web front end
that has rules of its own rather than calls into other libraries:

- **Project discovery** (`scripts/find_files.py`). `find_yml_files` lists one
  directory and keeps every subdirectory whose own listing holds an entry
  named exactly `docker-compose.yml` or `docker-compose.yaml`. Only the name
  is tested, so a subdirectory with that name also qualifies. It maps the folder's
  last path segment to the joined folder path. `get_readme_file` and
  `get_logo_file` return the contents of the first entry, in listing order,
  that is a regular file whose lower-cased name is `readme.md` or `logo.png`.
  They return `None` when there is no such entry.
- **Per-user request rules** (`main.py`):
  - the session gate (`("unauthorized", 403)` without a user, otherwise the
    root `"./users/" + username`);
  - `load_projects` and `get_project_with_name`, where a missing name raises a
    `KeyError`;
  - the three error handlers, which give status 500 and a prefixed message;
  - `set_host` on `DOCKER_HOST`, the `host` endpoint, and the
    `WEB_CONSOLE_PATTERN` default;
  - the user directory that `login` makes;
  - `list_projects` and `get_project_readme`, which are built from the
    pieces above.

The filesystem is a value, `Fs.Fs`, a map from path strings to nodes. A node
is a regular file with its bytes, or a directory with its entry names in
listing order. `os.listdir`, `os.path.isdir`, `os.path.isfile`,
`os.path.join`, `os.mkdir` and `open(..., "w")` are functions over that map,
and each one reports the `OSError` the real call raises. The loops of
`find_files.py` are methods. Each method is proved equal to a recursive
specification function (`Projects`, `FirstNamed`). Lemmas then describe those
functions without reference to scan order. `os.environ`, the filesystem and
the session are the fields of the class `ComposeUi.Server`. Its `SetHost` and
`Login` methods update those fields as the pure functions `SetHostOn` and
`LoginOn` say. Idempotence, frame and round-trip lemmas are proved about
those two functions.

Files: `wrappers.dfy` (Option, Result), `faults.dfy` (the exceptions and
their `str`), `fs.dfy` (the filesystem snapshot), `find_files.dfy`
(`scripts/find_files.py`), `compose_ui.dfy` (`main.py`).

Behaviour of the code worth stating:

- A name that is not a project raises a `KeyError`. The generic handler turns
  it into `"error: '<name>'"` with status 500. There is no separate 404.
- Project paths are `os.path.join(path, item)`, for example
  `./users/alice/blog`. They are relative paths.
- Neither a non-empty project name nor an existing user root is checked. A
  missing root makes the scan raise `FileNotFoundError`, which becomes a 500
  naming the root, before the project name is looked at.
- `set_host` is not behind the session gate. Only the basic-auth decorator
  guards it.

## Model

| member | source | states |
|---|---|---|
| `FindFiles.FindYmlFiles` | scripts/find_files.py:8-21 | The scan raises the error `os.listdir` raises on the root. Otherwise it returns exactly the map `Projects` builds from the root's listing, in listing order. |
| `FindFiles.ProjectsExactly` | scripts/find_files.py:14-20 | With separator-free entry names, a name is a key iff it is listed and its joined folder is a directory. That folder's own listing must hold an entry named `docker-compose.yml` or `docker-compose.yaml`: the names are exact and case-sensitive, and nested folders are not searched. The key maps to `join(path, name)`. |
| `FindFiles.ProjectsStep` | scripts/find_files.py:15-20 | One more separator-free entry adds exactly one key, its own name mapped to its joined folder, when that folder is a compose directory. Otherwise it adds nothing. |
| `FindFiles.ProjectsInExactly` | scripts/find_files.py:12-21 | The same iff and value, stated for the whole scan of a listable directory. |
| `FindFiles.ProjectsAreComposeDirs` | scripts/find_files.py:15-20 | Every value is a compose directory joined from some listed entry. Its key is that path's last `/`-segment. |
| `FindFiles.NonDirectoryNeverListed` | scripts/find_files.py:14-16 | An entry that is not a directory never appears in the result. |
| `FindFiles.ProjectKeysAreEntries` | scripts/find_files.py:12-21 | Every key is an entry name of the scanned directory, so an empty directory yields an empty map. |
| `FindFiles.ScanOfNonDirectoryRaises` | scripts/find_files.py:14 | Scanning a missing path raises `ENOENT`. Scanning a regular file raises `ENOTDIR`. |
| `Fs.LastSegment` | scripts/find_files.py:19 | `split('/')[-1]` contains no `/` and is a suffix of the path. The suffix is the whole path or follows a `/`. |
| `Fs.LastSegmentOfJoin` | scripts/find_files.py:15-19 | The last segment of `join(path, item)` is `item` for every separator-free `item`, including when `path` is empty or ends in `/`. |
| `FindFiles.FindNamedFile` | scripts/find_files.py:29-38 | The loop with `break` returns the listing error, or exactly `FirstNamed` over the listing: the first regular file whose lower-cased name is the target, or None. |
| `FindFiles.GetReadmeFile` | scripts/find_files.py:24-38 | `get_readme_file` is that lookup with target `readme.md`. |
| `FindFiles.GetLogoFile` | scripts/find_files.py:40-54 | `get_logo_file` is that lookup with target `logo.png`. |
| `FindFiles.FirstNamedIsFirstMatch` | scripts/find_files.py:31-36 | If entry `i` qualifies and no earlier entry does, the result is the contents of entry `i`. |
| `FindFiles.FirstNamedFound` | scripts/find_files.py:31-36 | A found result is the contents of a qualifying entry with no qualifying entry before it. |
| `FindFiles.FirstNamedNone` | scripts/find_files.py:29-38 | The result is None iff no entry is a regular file with the lower-cased target name. |
| `FindFiles.DirectoryWithMatchingNameSkipped` | scripts/find_files.py:32 | A directory named like the target is passed over and the scan continues with the next entry. |
| `FindFiles.ReadmeExample` | scripts/find_files.py:24-54 | In a listing of a directory `README.md`, then files `Readme.MD` and `readme.md`, the readme is `Readme.MD`'s contents. The directory is skipped and the case is ignored. There is no logo. |
| `ComposeUi.HandleFault` | main.py:651-671 | Every escaped exception is answered with status 500. |
| `ComposeUi.ErrorBodyRoundTrip` | main.py:651-671 | The three handler prefixes cannot be confused. Reading an error body gives back the handler class (connection, Docker, generic) and `str(err)` unchanged. |
| `ComposeUi.LoadProjects` | main.py:42-55 | With a git checkout configured, the checkout's path is scanned. Otherwise the given path is scanned. |
| `ComposeUi.ProjectWithNameExactly` | main.py:60-66 | When the scanned root is a directory, a handle is produced iff the name is a listed compose directory of that root. The handle is bound to `join(root, name)`. Otherwise the fault is `KeyError(name)` and no handle is produced. |
| `ComposeUi.UserProjectResolution` | main.py:105-111 | Without `username` the answer is the 403 and no project is opened. With a user and no git checkout, when the user's directory is a directory, the project opened is `join("./users/" + username, name)` iff it is a compose directory there. Otherwise the answer is `"error: '" + name + "'"` with status 500. When the user's directory is missing or is a file, the answer is the handled `OSError` of listing it, whatever the name. |
| `ComposeUi.AliceRoot` | main.py:74-75 | The session `{username: alice}` has the root `./users/alice`. |
| `ComposeUi.AliceBlogOpens` | main.py:60-66 | Alice's `blog` folder, which holds `docker-compose.yml`, opens as `./users/alice/blog`. |
| `ComposeUi.AliceNotAProject` | main.py:60-66 | Any name of Alice's that is not a compose directory is answered with a 500 that names the key. |
| `ComposeUi.AliceOthersFail` | scripts/find_files.py:18 | `notes`, whose compose file is named `Docker-Compose.yml`, is not a project, and neither is `missing`. Both are answered with the 500. |
| `ComposeUi.ActiveOf` | main.py:78-80 | One entry per container: the container's compose project label, or the empty list when it has no such label. |
| `ComposeUi.ListProjects` | main.py:69-83 | 403 without a user. Otherwise the scan runs first, and its error goes through the handlers. After a good scan, a failure of the container client (an unreachable Docker host) goes through the handlers too. When both succeed, the answer is the user's projects with the active list. |
| `ComposeUi.ReadmeOfOpenedProject` | main.py:162-173 | `get_project_readme` answers a refused or failed project lookup with that lookup's answer. An opened project is a directory, so the readme lookup cannot raise. The answer is the folder's first readme, or null. |
| `ComposeUi.WebConsolePatternDefault` | main.py:550-559 | When `WEB_CONSOLE_PATTERN` is unset, the answer is exactly `/web-console/?cid={containerName}&cmd={command}`. When it is set, its value is returned unchanged, even an empty one. |
| `ComposeUi.SetHostFrame` | main.py:568-581 | `set_host` changes no variable other than `DOCKER_HOST`. The web console pattern is unchanged. |
| `ComposeUi.SetHostThenHost` | main.py:529-581 | After `set_host` with a string, the `host` endpoint reports that string and the workdir to a signed-in user. After `set_host` with null it reports null. A body without `id` raises `KeyError('id')` and leaves the environment as it was. Every failed `set_host` (missing `id`, or a non-string value) leaves the environment as it was. |
| `ComposeUi.SetHostIdempotent` | main.py:574-581 | Repeating a `set_host` request gives the same answer and the same environment. |
| `ComposeUi.HostOf` | main.py:529-540 | `host` answers `("unauthorized", 403)` iff the session has no user. Otherwise it reports `DOCKER_HOST` when it is set, with its value, and null when it is unset. |
| `ComposeUi.HostWorkdir` | main.py:535-537 | The workdir `host` reports is the username with one `/` before it and one after it, and nothing else. |
| `ComposeUi.Server.SetHost` | main.py:568-581 | Only the environment changes. The new environment and the answer are those of `SetHostOn`: delete on null, assign on a string, `KeyError('id')` or `TypeError` otherwise. |
| `ComposeUi.Server.Login` | main.py:638-647 | Only the filesystem and the session change, as `LoginOn` says. The session gets the lower-cased login first. Then `./users` and the user's directory are made only if absent. `info.json` is written only into a directory made just now. |
| `ComposeUi.HomeIsJoined` | main.py:641-645 | `"./users/" + user` is `join("./users", user)`, and `./users` is `join(".", "users")`. |
| `ComposeUi.LoginLeavesHome` | main.py:638-646 | After a successful login, `./users` and the user's directory are directories, and the session holds the lower-cased login. |
| `ComposeUi.LoginIdempotent` | main.py:638-646 | A second login, with any profile, changes neither the filesystem nor the session. |
| `ComposeUi.LoginReturningUser` | main.py:641-646 | When the user's directory exists, only the session changes. `info.json` is not rewritten. |
| `ComposeUi.LoginNewUser` | main.py:641-646 | When `./users` already exists, a first login adds exactly the user's directory and its `info.json`, which holds the profile. The new directory is listed in `./users` and contains only `info.json`. Every other path keeps its node, and the new user has no projects. |
| `ComposeUi.LoginFirstEver` | main.py:638-646 | On a fresh install, where `./users` does not exist, the first login succeeds and adds exactly `./users`, the user's directory and `info.json`. `.` gains only the entry `users`, and `./users` lists only the user's directory. Every path other than `.` keeps its node, and the session holds the lower-cased login. |
| `ComposeUi.LoginUsersIsAFile` | main.py:639-642 | When `./users` is a regular file, login raises `FileExistsError` for `./users`. The filesystem is unchanged and the session is already set. |

## Left out

- The worker pool in `app_server.py` is not modelled. It covers forking the workers, sharing the listening socket, `os.wait`, `SIGINT` propagation, IP discovery and writing the nginx template, which are process concurrency and file I/O.
- `setup.py`, `create-theia.py`, `getPort.py` and `static/scripts/controllers/create.js` are not modelled. They cover interactive input, the Cloudflare and EC2 metadata HTTP calls, and a port hash computed by JavaScript code that is not part of this model.
- The container-client operations are not modelled: `up`, `down`, `build`, `scale`, `logs`, `kill`, `pull`, `start`, `stop`, `restart`, `create`, `remove_stopped`, `run_service`, the container details and `project_yml`. `scripts/bridge` is not part of this model, so the model stops at the `ProjectHandle` these endpoints act on. The handle records the project folder.
- ComposeUi.ProjectWithName: `get_project(path)` from `scripts/bridge` is taken to build a handle for every folder and never to raise. An invalid compose file or an unreachable Docker host inside `get_project` is not modelled. The iff of `ProjectWithNameExactly` holds under this assumption.
- `git_pull`, `git_clone`, `git_repo` and `GIT_YML_PATH` come from `scripts/git_repo`, which is not part of this model. The git flag and path are a `Config` value. The filesystem snapshot stands for the state after any pull. A `git_pull` that raises is not modelled: `LoadProjects` scans as if the pull succeeded.
- The `requires_auth` basic-auth decorator and the authentication endpoints are not modelled, because `scripts/requires_auth` is not part of this model. The endpoints are modelled as they run once the decorator admits the request.
- These external HTTP calls and I/O steps are not modelled: the GitHub OAuth token exchange, the Cloudflare DNS record calls, the registry `search` and `yml` proxies, `rmtree`, the `.env` writes, `create_project`, `update_project`, `remove_project` and the Jinja options.
- `get_project_logo` is not modelled. It answers with `abort(404)` or `abort(403)`, and how those reach the catch-all `Exception` handler depends on the Flask version, which is not shown. The logo lookup it uses is modelled as `GetLogoFile`.
- Fs.Lower: only ASCII letters are lowered, while Python's `str.lower` covers all of Unicode. For names made of ASCII characters the two agree.
- Faults.Quote: Python's `repr` of a key that holds quotes, backslashes or unprintable characters escapes them. The model always wraps the key in single quotes.
- The readme is returned as the file's bytes. The text-mode decoding of `get_readme_file` is not modelled, and neither is the encoding of the profile text written to `info.json`.
- Paths are compared as strings. There is no normalisation of `.`, `..` or doubled separators, and symbolic links and permission errors are not modelled. The real listing order is the filesystem's. A directory or file created by the model is listed after its parent's existing entries.
- The working directory `.` is taken to exist and to be a directory. In a snapshot without `.`, `LoginOn` fails with `ENOENT` when it makes `./users`, which the running program never meets.
- ComposeUi.Server.Login: requires a non-empty login without `/`. GitHub logins satisfy this, but the code does not check it.
- ComposeUi.Server.SetHost: the request body is given already parsed as a JSON object. Malformed JSON, a non-object body, and the `ValueError` raised for a host that contains a NUL character are not modelled.
- Each worker process has its own copy of the environment, so a `set_host` in one worker is not seen by the others. The model is a single process's environment.
- The session is a map from keys to strings. Cookie signing is not modelled.
- The container labels used by `list_projects` are a parameter, because they come from the container client. The parameter is either the labels or the exception `containers()` raises.
