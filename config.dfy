/** The project descriptor and the server configuration (src/config.rs).
    Everything here is a value: nothing in this module changes state. */
module Configuration {

  datatype Option<+T> = None | Some(value: T)

  /** The compose file name a project gets when its entry names none. */
  const DefaultComposeFile: string := "docker-compose.yaml"

  /** The path separator of `std::path` on Unix. */
  const Separator: char := '/'

  /** One managed deployment: the webhook token that names it, the directory
      holding its compose file, that file's name, and the optional list of
      package names the notification filter consults. */
  datatype Project = Project(
    token: string,
    location: string,
    composeFile: string,
    packageNames: Option<seq<string>>)

  /** A project as it appears in configuration, before the `compose_file`
      default is applied. */
  datatype ProjectEntry = ProjectEntry(
    token: string,
    location: string,
    composeFile: Option<string>,
    packageNames: Option<seq<string>>)

  /** The `u16` port: every value lies in 0..65535. */
  type Port = p: int | 0 <= p < 0x1_0000

  /** The whole configuration: where to listen and which projects to serve. */
  datatype Config = Config(host: string, port: Port, projects: seq<Project>)

  /** Deserialising one entry: a missing `compose_file` takes the default,
      every other field is copied. */
  function LoadProject(e: ProjectEntry): (p: Project)
    ensures p.token == e.token && p.location == e.location && p.packageNames == e.packageNames
    ensures e.composeFile.Some? ==> p.composeFile == e.composeFile.value
    ensures e.composeFile.None? ==> p.composeFile == "docker-compose.yaml"
  {
    Project(e.token, e.location,
            match e.composeFile case Some(f) => f case None => DefaultComposeFile,
            e.packageNames)
  }

  predicate IsAbsolute(path: string) {
    |path| > 0 && path[0] == Separator
  }

  predicate EndsWithSeparator(path: string) {
    |path| > 0 && path[|path| - 1] == Separator
  }

  /** `Path::join` on Unix: an absolute `file` replaces `dir`; otherwise
      `file` goes under `dir`, after a separator unless `dir` is empty or
      already ends in one. */
  function Join(dir: string, file: string): (r: string)
    ensures IsAbsolute(file) ==> r == file
    ensures !IsAbsolute(file) ==> dir <= r && |file| <= |r| && r[|r| - |file|..] == file
    ensures !IsAbsolute(file) && (dir == [] || EndsWithSeparator(dir)) ==> |r| == |dir| + |file|
    ensures !IsAbsolute(file) && dir != [] && !EndsWithSeparator(dir) ==>
              |r| == |dir| + 1 + |file| && r[|dir|] == Separator
    ensures IsAbsolute(r) <==> IsAbsolute(dir) || IsAbsolute(file)
  {
    if IsAbsolute(file) then file
    else if dir == [] || EndsWithSeparator(dir) then dir + file
    else dir + [Separator] + file
  }

  /** `Project::compose_path`: the compose file placed under the project's
      location. It reads the project and returns a new path. */
  function ComposePath(p: Project): (r: string)
    ensures IsAbsolute(p.composeFile) ==> r == p.composeFile
    ensures !IsAbsolute(p.composeFile) ==>
              p.location <= r && |p.composeFile| <= |r| && r[|r| - |p.composeFile|..] == p.composeFile
  {
    Join(p.location, p.composeFile)
  }

  /** A project configured without `compose_file` under a plain directory
      name deploys from `<location>/docker-compose.yaml`. */
  lemma DefaultComposePath(e: ProjectEntry)
    requires e.composeFile.None?
    requires e.location != [] && !EndsWithSeparator(e.location)
    ensures ComposePath(LoadProject(e)) == e.location + "/docker-compose.yaml"
  {
    assert !IsAbsolute(DefaultComposeFile) by { assert DefaultComposeFile[0] == 'd'; }
    assert [Separator] + DefaultComposeFile == "/docker-compose.yaml";
  }

  /** `Config::default()`: localhost, port 5000, no projects. */
  function DefaultConfig(): (c: Config)
    ensures c.host == "localhost" && c.port == 5000 && c.projects == []
  {
    Config("localhost", 5000, [])
  }
}
