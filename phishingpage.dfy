/**
 * The phishing-page template registry: reading descriptor sections, the
 * template entity with its payload, context and staged extra files, the
 * template validator, and the template manager that discovers templates under
 * the pages directory and cleans up on exit.
 */
module PhishingPage {
  import opened Wrappers
  import opened Paths
  import opened FileSystem

  /** The two settings the code takes from its constants module. */
  datatype Constants = Constants(pagesDir: Path, htmlDir: string)

  const CONFIG_FILE: string := "config.ini"
  const HTML_SUFFIX: string := ".html"
  const STATIC_DIR: string := "static"

  const CONFIG_NOT_FOUND: string := "Configuration file not found in: "
  const NO_HTML_FILES: string := "No HTML files found in: "

  function NoHtmlDir(htmlDir: string): string {
    "No " + htmlDir + " directory found in: "
  }

  // ---------------------------------------------------------------------------
  // Descriptor sections

  /** A section of a descriptor, or no options when the section is absent. */
  function SectionOf(ini: Ini, section: string): Section {
    if section in ini then ini[section] else map[]
  }

  /**
   * `config_section_map(config_file, section)`: reads the descriptor and copies
   * the section's options one by one.
   */
  method ConfigSectionMap(disk: Disk, configFile: Path, section: string) returns (dict1: Section)
    ensures section !in ReadIni(disk.tree, configFile) ==> dict1 == map[]
    ensures section in ReadIni(disk.tree, configFile) ==> dict1 == ReadIni(disk.tree, configFile)[section]
  {
    var config := ReadIni(disk.tree, configFile);
    dict1 := map[];
    if section !in config {
      return;
    }
    var options := config[section].Keys;
    var rest := options;
    while rest != {}
      invariant rest <= options
      invariant dict1.Keys == options - rest
      invariant forall option :: option in dict1 ==> dict1[option] == config[section][option]
      decreases rest
    {
      var option :| option in rest;
      dict1 := dict1[option := config[section][option]];
      rest := rest - {option};
    }
  }

  // ---------------------------------------------------------------------------
  // Descriptor rewrite for a new payload

  /** The new value of one `info` option: `payloadpath` moves to the new file name. */
  function RewrittenOption(info: Section, option: string, filename: string): string
    requires option in info
  {
    if option != "payloadpath" then info[option] else Join(Dirname(info["payloadpath"]), filename)
  }

  /**
   * The descriptor `update_config_file` writes: every `info` option kept, with
   * `payloadpath` pointing at `filename` in the old payload's directory, and a
   * `context` section holding nothing but `update_path`, moved the same way.
   * Every other section and every other context option is dropped.
   */
  function RewriteDescriptor(original: Ini, filename: string): (r: Result<Ini>)
    ensures "info" !in original ==> r == Err(NoSectionError("info"))
    ensures "info" in original && "context" !in original ==> r == Err(NoSectionError("context"))
    ensures "info" in original && "context" in original && "update_path" !in original["context"] ==>
      r == Err(NoOptionError("context", "update_path"))
    ensures r.Ok? <==> "info" in original && "context" in original && "update_path" in original["context"]
    ensures r.Ok? ==>
      && r.value.Keys == {"info", "context"}
      && r.value["info"].Keys == original["info"].Keys
      && (forall option :: option in original["info"] && option != "payloadpath" ==>
            r.value["info"][option] == original["info"][option])
      && ("payloadpath" in original["info"] ==>
            r.value["info"]["payloadpath"] == Join(Dirname(original["info"]["payloadpath"]), filename))
      && r.value["context"].Keys == {"update_path"}
      && r.value["context"]["update_path"] == Join(Dirname(original["context"]["update_path"]), filename)
  {
    if "info" !in original then Err(NoSectionError("info"))
    else if "context" !in original then Err(NoSectionError("context"))
    else if "update_path" !in original["context"] then Err(NoOptionError("context", "update_path"))
    else
      var info := original["info"];
      var newInfo := map option | option in info :: RewrittenOption(info, option, filename);
      var newContext := map["update_path" := Join(Dirname(original["context"]["update_path"]), filename)];
      Ok(map["info" := newInfo, "context" := newContext])
  }

  /** Rewriting a descriptor a second time for the same bare file name changes nothing. */
  lemma RewriteDescriptorIdempotent(original: Ini, filename: string)
    requires NoSlash(filename)
    requires RewriteDescriptor(original, filename).Ok?
    ensures RewriteDescriptor(RewriteDescriptor(original, filename).value, filename)
         == RewriteDescriptor(original, filename)
  {
    var once := RewriteDescriptor(original, filename).value;
    var twice := RewriteDescriptor(once, filename).value;
    ReplaceFileNameIdempotent(original["context"]["update_path"], filename);
    if "payloadpath" in original["info"] {
      ReplaceFileNameIdempotent(original["info"]["payloadpath"], filename);
    }
    assert twice["info"] == once["info"];
    assert twice["context"] == once["context"];
    assert twice == once;
  }

  /** After a rewrite for a bare file name, the payload path ends in that file name. */
  lemma RewrittenPayloadNamesFile(original: Ini, filename: string)
    requires NoSlash(filename)
    requires RewriteDescriptor(original, filename).Ok?
    requires "payloadpath" in original["info"]
    ensures Basename(RewriteDescriptor(original, filename).value["info"]["payloadpath"]) == filename
    ensures Basename(RewriteDescriptor(original, filename).value["context"]["update_path"]) == filename
  {
    BasenameJoin(Dirname(original["info"]["payloadpath"]), filename);
    BasenameJoin(Dirname(original["context"]["update_path"]), filename);
  }

  /** After a rewrite for a non-empty bare file name, the descriptor names a payload
      (`has_payload()` is true) whose base name is that file name. */
  lemma RewrittenPayloadIsSet(original: Ini, filename: string)
    requires NoSlash(filename) && filename != ""
    requires RewriteDescriptor(original, filename).Ok?
    requires "payloadpath" in original["info"]
    ensures var p := PayloadOf(RewriteDescriptor(original, filename).value["info"]);
      p.PayloadAt? && p.path != "" && Basename(p.path) == filename
  {
    RewrittenPayloadNamesFile(original, filename);
  }

  // ---------------------------------------------------------------------------
  // Context merge

  /** `context.update(current)`: the union of both, the current value winning on a clash. */
  function MergedContext(current: Section, incoming: Section): (r: Section)
    ensures r.Keys == current.Keys + incoming.Keys
    ensures forall k :: k in current ==> r[k] == current[k]
    ensures forall k :: k in incoming && k !in current ==> r[k] == incoming[k]
  {
    incoming + current
  }

  /** Merging the same context again changes nothing. */
  lemma MergedContextIdempotent(current: Section, incoming: Section)
    ensures MergedContext(MergedContext(current, incoming), incoming) == MergedContext(current, incoming)
  {
  }

  // ---------------------------------------------------------------------------
  // Derived paths of a template

  function ConfigPath(c: Constants, name: string): Path {
    Join(Join(c.pagesDir, name), CONFIG_FILE)
  }

  function HtmlPath(c: Constants, name: string): Path {
    Join(Join(c.pagesDir, Lower(name)), c.htmlDir)
  }

  function StaticPath(c: Constants, name: string): Path {
    Join(Join(Join(c.pagesDir, Lower(name)), c.htmlDir), STATIC_DIR)
  }

  /**
   * `use_file` glues the file name onto `static_path` without a separator, so
   * with a plain HTML directory name the copy lands in the HTML directory
   * itself, under the name `static` followed by the file's base name.
   */
  lemma StaticCopyLocation(c: Constants, name: string, path: Path)
    requires c.htmlDir != "" && NoSlash(c.htmlDir)
    ensures Dirname(StaticPath(c, name) + Basename(path)) == HtmlPath(c, name)
    ensures Basename(StaticPath(c, name) + Basename(path)) == STATIC_DIR + Basename(path)
  {
    var h := HtmlPath(c, name);
    assert h[|h| - 1] == c.htmlDir[|c.htmlDir| - 1];
    GluedName(h, STATIC_DIR, Basename(path));
  }

  /** The payload attribute: `False`, or the path string read from the descriptor. */
  datatype Payload = NoPayload | PayloadAt(path: Path)

  function PayloadOf(info: Section): Payload {
    if "payloadpath" in info then PayloadAt(info["payloadpath"]) else NoPayload
  }

  // ---------------------------------------------------------------------------
  // The template entity

  class PhishingTemplate {
    const consts: Constants
    const name: string
    const configPath: Path
    const path: Path
    const staticPath: Path
    var displayName: string
    var description: string
    var payload: Payload
    /** The attribute `context`, set at construction. */
    var context: Section
    /** The attribute `_context`: never set at construction, first set by `UpdatePayloadPath`. */
    var privateContext: Option<Section>
    /** The files copied into the template by `UseFile`, in the order they were copied. */
    var extraFiles: seq<Path>

    /** The derived locations, computed from the name once and for all. */
    ghost predicate Valid() {
      && configPath == ConfigPath(consts, name)
      && path == HtmlPath(consts, name)
      && staticPath == StaticPath(consts, name)
    }

    constructor (consts: Constants, name: string, displayName: string, description: string,
                 payload: Payload, context: Section)
      ensures Valid()
      ensures this.consts == consts && this.name == name
      ensures this.displayName == displayName && this.description == description
      ensures this.payload == payload && this.context == context
      ensures privateContext == None && extraFiles == []
    {
      this.consts := consts;
      this.name := name;
      this.displayName := displayName;
      this.description := description;
      this.payload := payload;
      this.configPath := Join(Join(consts.pagesDir, name), CONFIG_FILE);
      this.path := Join(Join(consts.pagesDir, Lower(name)), consts.htmlDir);
      this.staticPath := Join(Join(Join(consts.pagesDir, Lower(name)), consts.htmlDir), STATIC_DIR);
      this.context := context;
      this.privateContext := None;
      this.extraFiles := [];
    }

    /**
     * `PhishingTemplate(name)`: reads the `info` section (name and description are
     * required, `payloadpath` is optional) and the `context` section of the
     * template's descriptor.
     */
    static method Load(disk: Disk, consts: Constants, name: string) returns (r: Result<PhishingTemplate>)
      ensures var info := SectionOf(ReadIni(disk.tree, ConfigPath(consts, name)), "info");
        && ("name" !in info ==> r == Err(KeyError("name")))
        && ("name" in info && "description" !in info ==> r == Err(KeyError("description")))
        && (r.Ok? <==> "name" in info && "description" in info)
      ensures r.Ok? ==> fresh(r.value) && LoadedFrom(r.value, disk.tree, consts, name)
      ensures r.Ok? ==>
        var info := SectionOf(ReadIni(disk.tree, ConfigPath(consts, name)), "info");
        (r.value.HasPayload() <==> "payloadpath" in info && info["payloadpath"] != "")
    {
      var configPath := Join(Join(consts.pagesDir, name), CONFIG_FILE);
      var info := ConfigSectionMap(disk, configPath, "info");
      if "name" !in info {
        return Err(KeyError("name"));
      }
      if "description" !in info {
        return Err(KeyError("description"));
      }
      var payload := NoPayload;
      if "payloadpath" in info {
        payload := PayloadAt(info["payloadpath"]);
      }
      var context := ConfigSectionMap(disk, configPath, "context");
      var t := new PhishingTemplate(consts, name, info["name"], info["description"], payload, context);
      return Ok(t);
    }

    /**
     * `update_config_file(payload_filename, config_path)`: rewrites the descriptor
     * on disk. Nothing is written when the descriptor lacks `info`, `context` or
     * `context.update_path`.
     */
    static method UpdateConfigFile(disk: Disk, payloadFilename: string, configPath: Path) returns (r: Outcome)
      modifies disk
      ensures var d := RewriteDescriptor(ReadIni(old(disk.tree), configPath), payloadFilename);
        if d.Err? then r == Fail(d.error) && disk.tree == old(disk.tree)
        else r == Pass && disk.tree == Put(old(disk.tree), configPath, File(d.value))
    {
      var originalConfig := ReadIni(disk.tree, configPath);
      if "info" !in originalConfig {
        return Fail(NoSectionError("info"));
      }
      var info := originalConfig["info"];
      var newInfo: Section := map[];
      var options := info.Keys;
      var rest := options;
      while rest != {}
        invariant rest <= options
        invariant newInfo.Keys == options - rest
        invariant forall option :: option in newInfo ==> newInfo[option] == RewrittenOption(info, option, payloadFilename)
        decreases rest
      {
        var option :| option in rest;
        if option != "payloadpath" {
          newInfo := newInfo[option := info[option]];
        } else {
          var dirname := Dirname(info["payloadpath"]);
          newInfo := newInfo[option := Join(dirname, payloadFilename)];
        }
        rest := rest - {option};
      }
      if "context" !in originalConfig {
        return Fail(NoSectionError("context"));
      }
      if "update_path" !in originalConfig["context"] {
        return Fail(NoOptionError("context", "update_path"));
      }
      var dirname := Dirname(originalConfig["context"]["update_path"]);
      var newContext := map["update_path" := Join(dirname, payloadFilename)];
      var config := map["info" := newInfo, "context" := newContext];
      assert newInfo == map option | option in info :: RewrittenOption(info, option, payloadFilename);
      r := disk.Write(configPath, config);
    }

    /**
     * `update_payload_path(filename)`: rewrites the descriptor, then re-reads the
     * payload and `_context` from it and forgets the staged files. The attribute
     * `context` is left as it was.
     */
    method UpdatePayloadPath(disk: Disk, filename: string) returns (r: Outcome)
      modifies this, disk
      ensures var d := RewriteDescriptor(ReadIni(old(disk.tree), configPath), filename);
        if d.Err? then
          r == Fail(d.error) && disk.tree == old(disk.tree)
          && payload == old(payload) && privateContext == old(privateContext)
          && extraFiles == old(extraFiles) && context == old(context)
        else
          && r == Pass
          && disk.tree == Put(old(disk.tree), configPath, File(d.value))
          && ReadIni(disk.tree, configPath) == d.value
          && payload == PayloadOf(d.value["info"])
          && privateContext == Some(d.value["context"])
          && extraFiles == []
          && context == old(context)
      ensures displayName == old(displayName) && description == old(description)
      ensures var original := ReadIni(old(disk.tree), configPath);
        && RewriteDescriptor(original, filename).Ok? && "payloadpath" in original["info"]
        && NoSlash(filename) && filename != "" ==>
          HasPayload() && Basename(GetPayloadPath().path) == filename
    {
      ghost var original := ReadIni(disk.tree, configPath);
      r := UpdateConfigFile(disk, filename, configPath);
      if r.Fail? {
        return;
      }
      Reload(disk);
      if RewriteDescriptor(original, filename).Ok? && "payloadpath" in original["info"]
         && NoSlash(filename) && filename != "" {
        RewrittenPayloadIsSet(original, filename);
      }
    }

    /** The second half of `update_payload_path`: re-reads the payload and `_context`
        from the descriptor on disk and forgets the staged files. */
    method Reload(disk: Disk)
      modifies this
      ensures var ini := ReadIni(disk.tree, configPath);
        && payload == PayloadOf(SectionOf(ini, "info"))
        && privateContext == Some(SectionOf(ini, "context"))
      ensures extraFiles == []
      ensures context == old(context) && displayName == old(displayName) && description == old(description)
    {
      var info := ConfigSectionMap(disk, configPath, "info");
      payload := NoPayload;
      if "payloadpath" in info {
        payload := PayloadAt(info["payloadpath"]);
      }
      var ctx := ConfigSectionMap(disk, configPath, "context");
      privateContext := Some(ctx);
      extraFiles := [];
    }

    /**
     * `merge_context(context)`: the template's `_context` absorbs the incoming
     * options it does not have. It raises when `_context` was never set.
     */
    method MergeContext(incoming: Section) returns (r: Outcome)
      modifies this
      ensures old(privateContext).None? ==> r == Fail(AttributeError("_context")) && privateContext == None
      ensures old(privateContext).Some? ==>
        r == Pass && privateContext == Some(MergedContext(old(privateContext).value, incoming))
      ensures payload == old(payload) && context == old(context) && extraFiles == old(extraFiles)
      ensures displayName == old(displayName) && description == old(description)
    {
      if privateContext.None? {
        return Fail(AttributeError("_context"));
      }
      privateContext := Some(incoming + privateContext.value);
      r := Pass;
    }

    /** `get_payload_path()`. */
    function GetPayloadPath(): (p: Payload)
      reads this
      ensures HasPayload() <==> p.PayloadAt? && p.path != ""
    {
      payload
    }

    /** `has_payload()`: `bool` of the payload attribute. */
    predicate HasPayload()
      reads this
    {
      payload.PayloadAt? && payload.path != ""
    }

    /**
     * `use_file(path)`: copies an existing file to `static_path + basename(path)`
     * (no separator in between) and records the copy; the empty path and a path
     * that is not a file are ignored.
     */
    method UseFile(disk: Disk, path: Path) returns (r: Result<Option<string>>)
      modifies this, disk
      ensures path == "" || !IsFile(old(disk.tree), path) ==>
        r == Ok(None) && disk.tree == old(disk.tree) && extraFiles == old(extraFiles)
      ensures path != "" && IsFile(old(disk.tree), path) ==>
        var dst := staticPath + Basename(path);
        var c := CopyFile(old(disk.tree), path, dst);
        if c.Ok? then
          r == Ok(Some(Basename(path))) && disk.tree == c.value && extraFiles == old(extraFiles) + [dst]
        else
          r == Err(c.error) && disk.tree == old(disk.tree) && extraFiles == old(extraFiles)
      ensures payload == old(payload) && context == old(context) && privateContext == old(privateContext)
      ensures displayName == old(displayName) && description == old(description)
    {
      if path != "" && IsFile(disk.tree, path) {
        var filename := Basename(path);
        var c := disk.Copy(path, staticPath + filename);
        if c.Fail? {
          return Err(c.error);
        }
        extraFiles := extraFiles + [staticPath + filename];
        return Ok(Some(filename));
      }
      return Ok(None);
    }

    /** `remove_extra_files()`: deletes every recorded file that is still a file. */
    method RemoveExtraFiles(disk: Disk)
      modifies disk
      ensures disk.tree == RemoveListed(old(disk.tree), extraFiles)
    {
      var i := 0;
      while i < |extraFiles|
        invariant 0 <= i <= |extraFiles|
        invariant disk.tree == RemoveListed(old(disk.tree), extraFiles[..i])
      {
        var filename := extraFiles[i];
        if IsFile(disk.tree, filename) {
          var _ := disk.Remove(filename);
        }
        assert extraFiles[..i + 1][..i] == extraFiles[..i];
        i := i + 1;
      }
      assert extraFiles[..i] == extraFiles;
    }
  }

  /** `t` is a template for `name` freshly built from its descriptor (at `t.configPath`) in `tree`. */
  ghost predicate LoadedFrom(t: PhishingTemplate, tree: Tree, consts: Constants, name: string)
    reads t
  {
    var ini := ReadIni(tree, t.configPath);
    var info := SectionOf(ini, "info");
    && t.Valid()
    && t.consts == consts && t.name == name
    && "name" in info && "description" in info
    && t.displayName == info["name"] && t.description == info["description"]
    && t.payload == PayloadOf(info)
    && t.context == SectionOf(ini, "context")
    && t.privateContext == None
    && t.extraFiles == []
  }

  /** Every name stored with a template loaded for it is loadable. */
  lemma StoredAreLoadable(m: map<string, PhishingTemplate>, tree: Tree, consts: Constants, names: seq<string>)
    requires forall n :: n in names ==> n in m && LoadedFrom(m[n], tree, consts, n)
    ensures forall n :: n in names ==> Loadable(tree, consts, n)
  {
  }

  /** `PhishingTemplate(name)` does not raise: the descriptor's `info` has a name and a description. */
  predicate Loadable(tree: Tree, consts: Constants, name: string) {
    var info := SectionOf(ReadIni(tree, ConfigPath(consts, name)), "info");
    "name" in info && "description" in info
  }

  /** The KeyError `PhishingTemplate(name)` raises: `name` is looked up before `description`. */
  function LoadError(tree: Tree, consts: Constants, name: string): Error {
    var info := SectionOf(ReadIni(tree, ConfigPath(consts, name)), "info");
    if "name" !in info then KeyError("name") else KeyError("description")
  }

  // ---------------------------------------------------------------------------
  // Template validation

  /**
   * What `is_valid_template(name)` returns, checked in order: the template's
   * directory lists `config.ini`; its HTML directory can be listed; some entry
   * of that listing ends in `.html`. An unlistable template directory raises.
   */
  function Validate(t: Tree, dir: Path, htmlDir: string, name: string): Result<(bool, string)> {
    var dirPath := Join(dir, name);
    match Listing(t, dirPath)
    case None => Err(OSError(dirPath))
    case Some(entries) =>
      if CONFIG_FILE !in entries then Ok((false, CONFIG_NOT_FOUND))
      else
        match Listing(t, Join(dirPath, htmlDir))
        case None => Ok((false, NoHtmlDir(htmlDir)))
        case Some(files) =>
          if HasHtmlFile(files) then Ok((true, name))
          else Ok((false, NO_HTML_FILES))
  }

  /** Some entry of `files` ends with `.html`, looked for from the first entry on. */
  predicate HasHtmlFile(files: seq<string>)
    decreases |files|
  {
    files != [] && (EndsWith(files[0], HTML_SUFFIX) || HasHtmlFile(files[1..]))
  }

  lemma {:induction false} HasHtmlFileExists(files: seq<string>)
    ensures HasHtmlFile(files) <==> exists f :: f in files && EndsWith(f, HTML_SUFFIX)
    decreases |files|
  {
    if files != [] {
      HasHtmlFileExists(files[1..]);
      assert forall f :: f in files ==> f == files[0] || f in files[1..];
    }
  }

  predicate IsTemplate(t: Tree, dir: Path, htmlDir: string, name: string) {
    var v := Validate(t, dir, htmlDir, name);
    v.Ok? && v.value.0
  }

  /** Check 1: without `config.ini` the verdict is fixed, whatever else the tree holds. */
  lemma ValidateWithoutConfig(t1: Tree, t2: Tree, dir: Path, htmlDir: string, name: string)
    requires Listing(t1, Join(dir, name)) == Listing(t2, Join(dir, name))
    requires IsDir(t1, Join(dir, name)) && CONFIG_FILE !in t1[Join(dir, name)].entries
    ensures Validate(t1, dir, htmlDir, name) == Ok((false, CONFIG_NOT_FOUND))
    ensures Validate(t2, dir, htmlDir, name) == Validate(t1, dir, htmlDir, name)
  {
  }

  /** Check 2: with `config.ini` but no listable HTML directory. */
  lemma ValidateWithoutHtmlDir(t: Tree, dir: Path, htmlDir: string, name: string)
    requires IsDir(t, Join(dir, name)) && CONFIG_FILE in t[Join(dir, name)].entries
    requires !IsDir(t, Join(Join(dir, name), htmlDir))
    ensures Validate(t, dir, htmlDir, name) == Ok((false, NoHtmlDir(htmlDir)))
  {
  }

  /** Success exactly when all three checks pass; otherwise the third message. */
  lemma ValidateVerdict(t: Tree, dir: Path, htmlDir: string, name: string)
    requires IsDir(t, Join(dir, name)) && CONFIG_FILE in t[Join(dir, name)].entries
    requires IsDir(t, Join(Join(dir, name), htmlDir))
    ensures var files := t[Join(Join(dir, name), htmlDir)].entries;
      && ((exists f :: f in files && EndsWith(f, HTML_SUFFIX)) ==> Validate(t, dir, htmlDir, name) == Ok((true, name)))
      && (!(exists f :: f in files && EndsWith(f, HTML_SUFFIX)) ==> Validate(t, dir, htmlDir, name) == Ok((false, NO_HTML_FILES)))
  {
    HasHtmlFileExists(t[Join(Join(dir, name), htmlDir)].entries);
  }

  /** A name that validates names a directory. */
  lemma TemplateIsDirectory(t: Tree, dir: Path, htmlDir: string, name: string)
    requires IsTemplate(t, dir, htmlDir, name)
    ensures IsDir(t, Join(dir, name)) && IsDir(t, Join(Join(dir, name), htmlDir))
    ensures Validate(t, dir, htmlDir, name) == Ok((true, name))
  {
  }

  // ---------------------------------------------------------------------------
  // Discovery

  /** A listing entry `find_user_templates` keeps. */
  predicate IsUserTemplate(t: Tree, dir: Path, htmlDir: string, known: set<string>, name: string) {
    IsDir(t, Join(dir, name)) && name !in known && IsTemplate(t, dir, htmlDir, name)
  }

  /** The entries of `names` that `find_user_templates` keeps, in listing order. */
  function UserTemplates(t: Tree, dir: Path, htmlDir: string, known: set<string>, names: seq<string>): (r: seq<string>)
    ensures forall n :: n in r <==> n in names && IsUserTemplate(t, dir, htmlDir, known, n)
    decreases |names|
  {
    if names == [] then []
    else
      var front := names[..|names| - 1];
      var last := names[|names| - 1];
      assert names == front + [last];
      var kept := UserTemplates(t, dir, htmlDir, known, front);
      if IsUserTemplate(t, dir, htmlDir, known, last) then kept + [last] else kept
  }

  /** Discovery keeps listing order: the kept entries of a concatenation are those of each part, in turn. */
  lemma {:induction false} UserTemplatesAppend(t: Tree, dir: Path, htmlDir: string, known: set<string>,
                                               a: seq<string>, b: seq<string>)
    ensures UserTemplates(t, dir, htmlDir, known, a + b)
         == UserTemplates(t, dir, htmlDir, known, a) + UserTemplates(t, dir, htmlDir, known, b)
    decreases |b|
  {
    if b == [] {
      assert a + b == a;
    } else {
      var front := b[..|b| - 1];
      assert (a + b)[..|a + b| - 1] == a + front;
      assert (a + b)[|a + b| - 1] == b[|b| - 1];
      UserTemplatesAppend(t, dir, htmlDir, known, a, front);
    }
  }

  /** What the first scan of `TemplateManager()` does with one listing entry. */
  datatype PageScan = Skipped | Loaded | Raised(error: Error)

  /**
   * The entry is skipped unless it is a directory by its bare name and validates;
   * validating it may raise; a valid entry is loaded, which raises when its
   * descriptor lacks a name or a description.
   */
  function ScanPage(t: Tree, consts: Constants, page: string): PageScan {
    if !IsDir(t, page) then Skipped
    else
      match Validate(t, consts.pagesDir, consts.htmlDir, page)
      case Err(e) => Raised(e)
      case Ok(v) =>
        if !v.0 then Skipped
        else if !Loadable(t, consts, page) then Raised(LoadError(t, consts, page))
        else Loaded
  }

  predicate PageFails(t: Tree, consts: Constants, page: string) {
    ScanPage(t, consts, page).Raised?
  }

  /** Without an exception, an entry is loaded exactly when it is a directory by its bare name and validates. */
  lemma ScanPageLoaded(t: Tree, consts: Constants, page: string)
    requires !PageFails(t, consts, page)
    ensures ScanPage(t, consts, page) == Loaded <==> IsDir(t, page) && IsTemplate(t, consts.pagesDir, consts.htmlDir, page)
  {
  }

  /** The outcome of the first scan over `pages`: the exception of the first entry that raises, if any. */
  function ScanOutcome(t: Tree, consts: Constants, pages: seq<string>): Outcome
    decreases |pages|
  {
    if pages == [] then Pass
    else
      var s := ScanPage(t, consts, pages[0]);
      if s.Raised? then Fail(s.error) else ScanOutcome(t, consts, pages[1..])
  }

  /** The first scan completes exactly when no entry raises. */
  lemma {:induction false} ScanOutcomePass(t: Tree, consts: Constants, pages: seq<string>)
    ensures ScanOutcome(t, consts, pages) == Pass <==> forall j :: 0 <= j < |pages| ==> !PageFails(t, consts, pages[j])
    decreases |pages|
  {
    if pages != [] {
      ScanOutcomePass(t, consts, pages[1..]);
      assert forall j :: 1 <= j < |pages| ==> pages[1..][j - 1] == pages[j];
    }
  }

  /** When the first scan raises, it raises the exception of its first failing entry. */
  lemma {:induction false} ScanOutcomeFail(t: Tree, consts: Constants, pages: seq<string>)
    requires ScanOutcome(t, consts, pages).Fail?
    ensures exists i :: FirstFailingPage(t, consts, pages, i)
                     && ScanOutcome(t, consts, pages).error == ScanPage(t, consts, pages[i]).error
    decreases |pages|
  {
    if !ScanPage(t, consts, pages[0]).Raised? {
      ScanOutcomeFail(t, consts, pages[1..]);
      var i :| FirstFailingPage(t, consts, pages[1..], i)
               && ScanOutcome(t, consts, pages[1..]).error == ScanPage(t, consts, pages[1..][i]).error;
      assert forall j :: 1 <= j < i + 1 ==> pages[j] == pages[1..][j - 1];
      assert FirstFailingPage(t, consts, pages, i + 1);
    } else {
      assert FirstFailingPage(t, consts, pages, 0);
    }
  }

  /** The names the first scan stores, for the entries `pages`. */
  function ScannedKeys(t: Tree, consts: Constants, pages: seq<string>): set<string>
    decreases |pages|
  {
    if pages == [] then {}
    else
      var last := pages[|pages| - 1];
      ScannedKeys(t, consts, pages[..|pages| - 1]) + (if ScanPage(t, consts, last) == Loaded then {last} else {})
  }

  /** When no entry raises, the first scan stores exactly the entries that are directories by
      their bare name and validate. */
  lemma {:induction false} ScannedKeysAll(t: Tree, consts: Constants, pages: seq<string>)
    requires forall j :: 0 <= j < |pages| ==> !PageFails(t, consts, pages[j])
    ensures ScannedKeys(t, consts, pages)
         == set n | n in pages && IsDir(t, n) && IsTemplate(t, consts.pagesDir, consts.htmlDir, n)
    decreases |pages|
  {
    if pages != [] {
      var front := pages[..|pages| - 1];
      var last := pages[|pages| - 1];
      assert pages == front + [last];
      assert forall j :: 0 <= j < |front| ==> front[j] == pages[j];
      ScannedKeysAll(t, consts, front);
      ScanPageLoaded(t, consts, last);
    }
  }

  /** `pages[i]` is the first page of the scan that raises. */
  predicate FirstFailingPage(t: Tree, consts: Constants, pages: seq<string>, i: int) {
    && 0 <= i < |pages| && PageFails(t, consts, pages[i])
    && forall j :: 0 <= j < i ==> !PageFails(t, consts, pages[j])
  }

  /** `names[i]` is the first name whose descriptor cannot be loaded. */
  predicate FirstUnloadable(t: Tree, consts: Constants, names: seq<string>, i: int) {
    && 0 <= i < |names| && !Loadable(t, consts, names[i])
    && forall j :: 0 <= j < i ==> Loadable(t, consts, names[j])
  }

  /** Every template the manager holds, with the files each has staged. */
  ghost function Staged(templates: map<string, PhishingTemplate>, keys: set<string>): set<Path>
    reads templates.Values
  {
    set k, p | k in keys && k in templates && p in templates[k].extraFiles :: p
  }

  // ---------------------------------------------------------------------------
  // The template manager

  class TemplateManager {
    const consts: Constants
    const templateDirectory: Path
    var templates: map<string, PhishingTemplate>

    /** Every template is stored under its own directory name. */
    ghost predicate Valid()
      reads this
    {
      && templateDirectory == consts.pagesDir
      && forall k :: k in templates ==> templates[k].name == k && templates[k].consts == consts
    }

    constructor (consts: Constants)
      ensures Valid() && this.consts == consts && templates == map[]
    {
      this.consts := consts;
      this.templateDirectory := consts.pagesDir;
      this.templates := map[];
    }

    /**
     * `TemplateManager()`: lists the pages directory, loads every entry that is a
     * directory by its bare name and validates, then adds the user templates.
     */
    static method Open(disk: Disk, consts: Constants) returns (r: Result<TemplateManager>)
      ensures !IsDir(disk.tree, consts.pagesDir) ==> r == Err(OSError(consts.pagesDir))
      ensures r.Ok? ==>
        && fresh(r.value) && r.value.Valid() && r.value.consts == consts
        && IsDir(disk.tree, consts.pagesDir)
        && r.value.templates.Keys
           == (set n | n in disk.tree[consts.pagesDir].entries && IsTemplate(disk.tree, consts.pagesDir, consts.htmlDir, n))
        && forall k :: k in r.value.templates ==> fresh(r.value.templates[k]) && LoadedFrom(r.value.templates[k], disk.tree, consts, k)
      ensures r.Ok? <==>
        && IsDir(disk.tree, consts.pagesDir)
        && (forall n :: n in disk.tree[consts.pagesDir].entries ==> !PageFails(disk.tree, consts, n))
        && (forall n :: n in disk.tree[consts.pagesDir].entries && IsTemplate(disk.tree, consts.pagesDir, consts.htmlDir, n) ==>
              Loadable(disk.tree, consts, n))
      ensures r.Err? && IsDir(disk.tree, consts.pagesDir) ==>
        var pageDirs := disk.tree[consts.pagesDir].entries;
        var scanned := ScanOutcome(disk.tree, consts, pageDirs);
        if scanned.Fail? then r.error == scanned.error
        else
          var found := UserTemplates(disk.tree, consts.pagesDir, consts.htmlDir,
                                     ScannedKeys(disk.tree, consts, pageDirs), pageDirs);
          exists i :: FirstUnloadable(disk.tree, consts, found, i) && r.error == LoadError(disk.tree, consts, found[i])
    {
      var listing := Listing(disk.tree, consts.pagesDir);
      if listing.None? {
        return Err(OSError(consts.pagesDir));
      }
      var pageDirs := listing.value;
      var m := new TemplateManager(consts);
      var scanned := m.LoadPages(disk, pageDirs);
      ScanOutcomePass(disk.tree, consts, pageDirs);
      if scanned.Fail? {
        return Err(scanned.error);
      }
      ScannedKeysAll(disk.tree, consts, pageDirs);
      ghost var initial := m.templates.Keys;
      var added := m.AddUserTemplates(disk);
      if added.Fail? {
        return Err(added.error);
      }
      ghost var found := UserTemplates(disk.tree, consts.pagesDir, consts.htmlDir, initial, pageDirs);
      forall n | n in pageDirs && IsTemplate(disk.tree, consts.pagesDir, consts.htmlDir, n)
        ensures n in m.templates
      {
        TemplateIsDirectory(disk.tree, consts.pagesDir, consts.htmlDir, n);
        if n !in initial {
          assert n in found;
        }
      }
      return Ok(m);
    }

    /**
     * The first loop of `TemplateManager()`: every entry of `pageDirs` that is a
     * directory when looked up by its bare name and validates is loaded and
     * stored under its name, stopping at the first error.
     */
    method LoadPages(disk: Disk, pageDirs: seq<string>) returns (r: Outcome)
      requires Valid() && templates == map[]
      modifies this
      ensures Valid()
      ensures r.Pass? ==> templates.Keys == ScannedKeys(disk.tree, consts, pageDirs)
      ensures forall k :: k in templates ==> fresh(templates[k]) && LoadedFrom(templates[k], disk.tree, consts, k)
      ensures r == ScanOutcome(disk.tree, consts, pageDirs)
    {
      var i := 0;
      while i < |pageDirs|
        invariant 0 <= i <= |pageDirs|
        invariant templates.Keys == ScannedKeys(disk.tree, consts, pageDirs[..i])
        invariant forall k :: k in templates ==> fresh(templates[k]) && LoadedFrom(templates[k], disk.tree, consts, k)
        invariant ScanOutcome(disk.tree, consts, pageDirs[i..]) == ScanOutcome(disk.tree, consts, pageDirs)
      {
        r := ScanStep(disk, pageDirs, i);
        if r.Fail? {
          return;
        }
        i := i + 1;
      }
      assert pageDirs[..i] == pageDirs;
      r := Pass;
    }

    /** `ScanEntry` on `pageDirs[i]`, stated as the step from `pageDirs[..i]` to `pageDirs[..i + 1]`. */
    method ScanStep(disk: Disk, pageDirs: seq<string>, i: nat) returns (r: Outcome)
      requires i < |pageDirs| && templateDirectory == consts.pagesDir
      requires templates.Keys == ScannedKeys(disk.tree, consts, pageDirs[..i])
      requires forall k :: k in templates ==> LoadedFrom(templates[k], disk.tree, consts, k)
      modifies this
      ensures r.Fail? ==> r == ScanOutcome(disk.tree, consts, pageDirs[i..])
      ensures r.Pass? ==> && templates.Keys == ScannedKeys(disk.tree, consts, pageDirs[..i + 1])
                          && ScanOutcome(disk.tree, consts, pageDirs[i + 1..]) == ScanOutcome(disk.tree, consts, pageDirs[i..])
      ensures forall k :: k in templates ==> LoadedFrom(templates[k], disk.tree, consts, k)
      ensures forall k :: k in templates ==> (k in old(templates) && templates[k] == old(templates)[k]) || fresh(templates[k])
    {
      var page := pageDirs[i];
      assert pageDirs[..i + 1] == pageDirs[..i] + [page];
      assert pageDirs[i..][1..] == pageDirs[i + 1..];
      r := ScanEntry(disk, page);
    }

    /**
     * One round of the first loop of `TemplateManager()`: an entry that is a
     * directory by its bare name and validates is loaded and stored under its
     * name; any other entry is skipped; an exception of the validation or the
     * load is returned.
     */
    method ScanEntry(disk: Disk, page: string) returns (r: Outcome)
      requires templateDirectory == consts.pagesDir
      modifies this
      ensures var s := ScanPage(disk.tree, consts, page);
        && (s.Raised? ==> r == Fail(s.error))
        && (!s.Raised? ==> r == Pass)
        && (s != Loaded ==> templates == old(templates))
        && (s == Loaded ==>
              && page in templates && templates == old(templates)[page := templates[page]]
              && fresh(templates[page]) && LoadedFrom(templates[page], disk.tree, consts, page))
    {
      if !IsDir(disk.tree, page) {
        return Pass;
      }
      var v := IsValidTemplate(disk, page);
      if v.Err? {
        return Fail(v.error);
      }
      if !v.value.0 {
        return Pass;
      }
      var t := PhishingTemplate.Load(disk, consts, page);
      if t.Err? {
        return Fail(t.error);
      }
      templates := templates[page := t.value];
      r := Pass;
    }

    /** `is_valid_template(name)`, scanning the HTML directory until an `.html` entry. */
    method IsValidTemplate(disk: Disk, name: string) returns (r: Result<(bool, string)>)
      ensures r == Validate(disk.tree, templateDirectory, consts.htmlDir, name)
    {
      var html := false;
      var dirPath := Join(templateDirectory, name);
      var entries := Listing(disk.tree, dirPath);
      if entries.None? {
        return Err(OSError(dirPath));
      }
      if CONFIG_FILE !in entries.value {
        return Ok((false, CONFIG_NOT_FOUND));
      }
      var tdir := Listing(disk.tree, Join(dirPath, consts.htmlDir));
      if tdir.None? {
        return Ok((false, NoHtmlDir(consts.htmlDir)));
      }
      var files := tdir.value;
      var i := 0;
      while i < |files|
        invariant 0 <= i <= |files|
        invariant !html
        invariant forall j :: 0 <= j < i ==> !EndsWith(files[j], HTML_SUFFIX)
      {
        if EndsWith(files[i], HTML_SUFFIX) {
          html := true;
          break;
        }
        i := i + 1;
      }
      HasHtmlFileExists(files);
      if !html {
        return Ok((false, NO_HTML_FILES));
      }
      assert files[i] in files;
      return Ok((true, name));
    }

    /**
     * `find_user_templates()`: the entries of the pages directory that are
     * directories, are not yet known and validate, in listing order.
     */
    method FindUserTemplates(disk: Disk) returns (r: Result<seq<string>>)
      ensures !IsDir(disk.tree, templateDirectory) ==> r == Err(OSError(templateDirectory))
      ensures IsDir(disk.tree, templateDirectory) ==>
        r == Ok(UserTemplates(disk.tree, templateDirectory, consts.htmlDir, templates.Keys,
                              disk.tree[templateDirectory].entries))
    {
      var listing := Listing(disk.tree, templateDirectory);
      if listing.None? {
        return Err(OSError(templateDirectory));
      }
      var names := listing.value;
      var localTemplates: seq<string> := [];
      var i := 0;
      while i < |names|
        invariant 0 <= i <= |names|
        invariant localTemplates == UserTemplates(disk.tree, templateDirectory, consts.htmlDir, templates.Keys, names[..i])
      {
        var name := names[i];
        assert names[..i + 1][..i] == names[..i];
        if IsDir(disk.tree, Join(templateDirectory, name)) && name !in templates {
          var v := IsValidTemplate(disk, name);
          if v.Ok? && v.value.0 {
            localTemplates := localTemplates + [name];
          }
        }
        i := i + 1;
      }
      assert names[..i] == names;
      return Ok(localTemplates);
    }

    /** One round of the loop of `add_user_templates`: load `name` and store it under itself. */
    method LoadStep(disk: Disk, name: string) returns (r: Outcome)
      modifies this
      ensures r.Fail? ==> !Loadable(disk.tree, consts, name) && r.error == LoadError(disk.tree, consts, name)
                          && templates == old(templates)
      ensures r.Pass? ==> && Loadable(disk.tree, consts, name)
                          && name in templates && templates == old(templates)[name := templates[name]]
                          && fresh(templates[name]) && LoadedFrom(templates[name], disk.tree, consts, name)
    {
      var localTemplate := PhishingTemplate.Load(disk, consts, name);
      if localTemplate.Err? {
        return Fail(localTemplate.error);
      }
      templates := templates[name := localTemplate.value];
      r := Pass;
    }

    /**
     * `add_user_templates()`: loads every template `find_user_templates` reports
     * and stores it under its name. Entries already present are never replaced.
     */
    method AddUserTemplates(disk: Disk) returns (r: Outcome)
      requires Valid()
      modifies this
      ensures Valid()
      ensures !IsDir(disk.tree, templateDirectory) ==> r == Fail(OSError(templateDirectory)) && templates == old(templates)
      ensures forall k :: k in old(templates) ==> k in templates && templates[k] == old(templates)[k]
      ensures forall k :: k in templates && k !in old(templates) ==>
        fresh(templates[k]) && LoadedFrom(templates[k], disk.tree, consts, k)
      ensures r.Pass? ==>
        && IsDir(disk.tree, templateDirectory)
        && templates.Keys == old(templates).Keys
           + set n | n in UserTemplates(disk.tree, templateDirectory, consts.htmlDir, old(templates).Keys,
                                        disk.tree[templateDirectory].entries)
      ensures r.Pass? <==>
        && IsDir(disk.tree, templateDirectory)
        && var found := UserTemplates(disk.tree, templateDirectory, consts.htmlDir, old(templates).Keys,
                                      disk.tree[templateDirectory].entries);
           forall n :: n in found ==> Loadable(disk.tree, consts, n)
      ensures r.Fail? && IsDir(disk.tree, templateDirectory) ==>
        var found := UserTemplates(disk.tree, templateDirectory, consts.htmlDir, old(templates).Keys,
                                   disk.tree[templateDirectory].entries);
        exists i ::
          && FirstUnloadable(disk.tree, consts, found, i) && r.error == LoadError(disk.tree, consts, found[i])
          && templates.Keys == old(templates).Keys + set n | n in found[..i]
    {
      var userTemplates := FindUserTemplates(disk);
      if userTemplates.Err? {
        return Fail(userTemplates.error);
      }
      r := LoadAll(disk, userTemplates.value);
    }

    /**
     * The loop of `add_user_templates()`: loads each name in turn and stores the
     * template under it, stopping at the first descriptor that cannot be loaded.
     */
    method LoadAll(disk: Disk, names: seq<string>) returns (r: Outcome)
      requires Valid()
      requires forall n :: n in names ==> n !in templates
      modifies this
      ensures Valid()
      ensures forall k :: k in old(templates) ==> k in templates && templates[k] == old(templates)[k]
      ensures forall k :: k in templates && k !in old(templates) ==>
        k in names && fresh(templates[k]) && LoadedFrom(templates[k], disk.tree, consts, k)
      ensures r.Pass? ==> templates.Keys == old(templates).Keys + set n | n in names
      ensures r.Pass? <==> forall n :: n in names ==> Loadable(disk.tree, consts, n)
      ensures r.Fail? ==> exists i ::
        && FirstUnloadable(disk.tree, consts, names, i) && r.error == LoadError(disk.tree, consts, names[i])
        && templates.Keys == old(templates).Keys + set n | n in names[..i]
    {
      r := LoadEach(disk, names);
      if r.Fail? {
        ghost var i :| && 0 <= i < |names| && !Loadable(disk.tree, consts, names[i])
                       && r.error == LoadError(disk.tree, consts, names[i])
                       && templates.Keys == old(templates).Keys + set n | n in names[..i];
        StoredAreLoadable(templates, disk.tree, consts, names[..i]);
        assert forall j :: 0 <= j < i ==> names[j] in names[..i];
        assert FirstUnloadable(disk.tree, consts, names, i);
      } else {
        StoredAreLoadable(templates, disk.tree, consts, names);
      }
    }

    /** `LoadAll` without the loadability summary: the loop and what it stores. */
    method LoadEach(disk: Disk, names: seq<string>) returns (r: Outcome)
      requires Valid()
      requires forall n :: n in names ==> n !in templates
      modifies this
      ensures Valid()
      ensures forall k :: k in old(templates) ==> k in templates && templates[k] == old(templates)[k]
      ensures forall k :: k in templates && k !in old(templates) ==>
        k in names && fresh(templates[k]) && LoadedFrom(templates[k], disk.tree, consts, k)
      ensures r.Pass? ==> templates.Keys == old(templates).Keys + set n | n in names
      ensures r.Fail? ==> exists i ::
        && 0 <= i < |names| && !Loadable(disk.tree, consts, names[i]) && r.error == LoadError(disk.tree, consts, names[i])
        && templates.Keys == old(templates).Keys + set n | n in names[..i]
    {
      var i := 0;
      while i < |names|
        invariant 0 <= i <= |names|
        invariant forall k :: k in old(templates) ==> k in templates && templates[k] == old(templates)[k]
        invariant forall k :: k in templates && k !in old(templates) ==>
          fresh(templates[k]) && LoadedFrom(templates[k], disk.tree, consts, k)
        invariant templates.Keys == old(templates).Keys + set n | n in names[..i]
      {
        assert names[..i + 1] == names[..i] + [names[i]];
        r := LoadStep(disk, names[i]);
        if r.Fail? {
          return;
        }
        i := i + 1;
      }
      assert names[..i] == names;
      r := Pass;
    }

    /** `on_exit()`: every template removes the files it staged. */
    method OnExit(disk: Disk)
      modifies disk
      ensures DeletedOnly(old(disk.tree), disk.tree, Staged(templates, templates.Keys))
      ensures forall p :: p in Staged(templates, templates.Keys) ==> !IsFile(disk.tree, p)
    {
      var rest := templates.Keys;
      ghost var done: set<string> := {};
      while rest != {}
        invariant rest + done == templates.Keys && rest !! done
        invariant DeletedOnly(old(disk.tree), disk.tree, Staged(templates, done))
        invariant forall p :: p in Staged(templates, done) ==> !IsFile(disk.tree, p)
        decreases rest
      {
        var k :| k in rest;
        ghost var before := disk.tree;
        templates[k].RemoveExtraFiles(disk);
        ghost var ps := set p | p in templates[k].extraFiles;
        DeletedOnlyTrans(old(disk.tree), before, disk.tree, Staged(templates, done), ps);
        assert Staged(templates, done + {k}) == Staged(templates, done) + ps;
        rest := rest - {k};
        done := done + {k};
      }
    }
  }
}
