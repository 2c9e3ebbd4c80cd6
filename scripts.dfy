/** The two script classes: CmdScript, a command line typed by the user, and
    ActionScript, a Python file whose text is read once, at construction.
    Running a script (a subprocess, or exec of the text) is outside the model. */
module Scripts {
  import opened Common

  const FileNotFoundMessage := "Script file not found!"

  /** Which class a script object belongs to; an ActionScript also keeps the
      path it was loaded from. */
  datatype ScriptKind = CommandLine | PythonFile(filepath: string)

  /** The path separators of the Windows path module the program runs with. */
  predicate IsSeparator(c: char) {
    c == '/' || c == '\\'
  }

  /** os.path.basename: the part of the path after its last separator. The
      contract pins the result down completely: a suffix of the path, free of
      separators, and either the whole path or preceded by a separator. */
  function Basename(path: string): (r: string)
    ensures |r| <= |path| && r == path[|path| - |r|..]
    ensures forall i :: 0 <= i < |r| ==> !IsSeparator(r[i])
    ensures |r| < |path| ==> IsSeparator(path[|path| - |r| - 1])
  {
    if path == [] || IsSeparator(path[|path| - 1]) then []
    else
      var front := path[..|path| - 1];
      var r := Basename(front) + [path[|path| - 1]];
      assert path == front + [path[|path| - 1]];
      r
  }

  /** CmdScript.get_name. The source tests for empty content and returns the
      literal "Cmd{}" then; both branches give the same bracketed form. */
  function CommandName(content: string): (r: string)
    ensures r == "Cmd{" + content + "}"
  {
    if content != [] then "Cmd{" + content + "}" else "Cmd{}"
  }

  /** ActionScript.get_name: the file's base name in braces. */
  function FileName(filepath: string): string {
    "File{" + Basename(filepath) + "}"
  }

  /** What an ActionScript's name shows of its path: the braces hold a
      separator-free tail of the path that starts right after the path's last
      separator (or at its start). */
  lemma FileNameShowsBasename(filepath: string)
    ensures var r := FileName(filepath);
      && |r| >= 6 && r[..5] == "File{" && r[|r| - 1] == '}'
      && var inner := r[5..|r| - 1];
         && |inner| <= |filepath| && inner == filepath[|filepath| - |inner|..]
         && (forall i :: 0 <= i < |inner| ==> !IsSeparator(inner[i]))
         && (|inner| < |filepath| ==> IsSeparator(filepath[|filepath| - |inner| - 1]))
  {
    var b := Basename(filepath);
    var r := FileName(filepath);
    assert r[5..|r| - 1] == b;
  }

  /** A command's name gives its content back: different commands show
      different names. */
  lemma CommandNameContent(content: string)
    ensures CommandName(content)[4..|CommandName(content)| - 1] == content
  {
  }

  /** ActionScript.load_content. `files` maps every readable path to its text;
      a missing path (None, never selected) fails like an unreadable one,
      because the bare except also catches open(None)'s TypeError. */
  function LoadContent(filepath: Option<string>, files: map<string, string>): (r: Result<string>)
    ensures r.Ok? <==> filepath.Some? && filepath.value in files
    ensures r.Ok? ==> r.value == files[filepath.value]
    ensures r.Err? ==> r.error == ScriptError(FileNotFoundMessage)
  {
    match filepath
    case None => Err(ScriptError(FileNotFoundMessage))
    case Some(p) => if p in files then Ok(files[p]) else Err(ScriptError(FileNotFoundMessage))
  }

  class Script {
    const kind: ScriptKind
    /** The command line, or the text read from the file. */
    const content: string
    /** The trigger description the GUI attaches ("interval", "cron", "dated:..."). */
    const execType: Option<string>
    /** The job handle the scheduler returned when the script was registered. */
    var execJobHandle: Option<JobId>
    /** The `id` attribute the by-id removal reads. The program never assigns
        it, so it is None (absent) unless a client sets it. */
    var id: Option<int>

    /** CmdScript(content, exec_job_handle, exec_type). */
    constructor Command(content: string, execJobHandle: Option<JobId>, execType: Option<string>)
      ensures this.kind == CommandLine && this.content == content && this.execType == execType
      ensures this.execJobHandle == execJobHandle && this.id == None
    {
      this.kind := CommandLine;
      this.content := content;
      this.execType := execType;
      this.execJobHandle := execJobHandle;
      this.id := None;
    }

    /** The object ActionScript.__init__ produces once the file text is loaded. */
    constructor Loaded(filepath: string, content: string, execJobHandle: Option<JobId>, execType: Option<string>)
      ensures this.kind == PythonFile(filepath) && this.content == content && this.execType == execType
      ensures this.execJobHandle == execJobHandle && this.id == None
    {
      this.kind := PythonFile(filepath);
      this.content := content;
      this.execType := execType;
      this.execJobHandle := execJobHandle;
      this.id := None;
    }

    /** get_name, dispatched on the class. */
    function Name(): string {
      match kind
      case CommandLine => CommandName(content)
      case PythonFile(p) => FileName(p)
    }
  }

  /** ActionScript(filepath, exec_job_handle, exec_type): loads the file text,
      or raises ScriptError and produces no object. */
  method NewActionScript(filepath: Option<string>, files: map<string, string>,
                         execJobHandle: Option<JobId>, execType: Option<string>)
    returns (r: Result<Script>)
    ensures r.Ok? <==> filepath.Some? && filepath.value in files
    ensures r.Err? ==> r.error == ScriptError(FileNotFoundMessage)
    ensures r.Ok? ==> fresh(r.value) && r.value.kind == PythonFile(filepath.value)
    ensures r.Ok? ==> r.value.content == files[filepath.value] && r.value.execType == execType
    ensures r.Ok? ==> r.value.execJobHandle == execJobHandle && r.value.id == None
  {
    var loaded := LoadContent(filepath, files);
    if loaded.Err? {
      return Err(loaded.error);
    }
    var script := new Script.Loaded(filepath.value, loaded.value, execJobHandle, execType);
    return Ok(script);
  }
}
