# Phishing-page template registry

This project models wifiphisher's phishing-page template registry in Dafny, together with proofs about it. The registry is `wifiphisher/common/phishingpage.py`, and the model covers five parts of it:

- reading one section of a template descriptor (`config_section_map`);
- the template entity (`PhishingTemplate`), which holds:
  - its payload;
  - its two contexts;
  - the files it has staged;
- the descriptor rewrite performed when a new payload is chosen;
- the template validator;
- the template manager (`TemplateManager`), which:
  - discovers the built-in and user templates under the pages directory;
  - removes every staged file on exit.

The filesystem is an in-memory map from path to node, held in the mutable `Disk` object:

- A directory node carries its listing in listing order.
- A file node carries the descriptor sections that `ConfigParser` would read from it. A file that is not a descriptor has none.

The library calls the code makes are functions on that tree. `Listing` stands for `os.listdir` (its OSError is `None`), and `ReadIni` for `ConfigParser.read`. `IsFile` and `IsDir` stand for `os.path.isfile` and `os.path.isdir`. `WriteIni` stands for `open(..., 'wb')` followed by `config.write`, `CopyFile` for `shutil.copyfile`, and `Delete` for `os.remove`. `Listing` and `ReadIni` only read the tree, so they have no rows below. The validator's verdict `Validate` is a reference function: its rows are the lemmas about it and the loop proved equal to it.

Python exceptions that escape an operation become the `Err`/`Fail` value of a `Result`/`Outcome`. They use the exception's own name: `OSError`, `IOError`, `KeyError`, `NoSectionError`, `NoOptionError`, `AttributeError`, and `ShutilError` for the `shutil.Error` that Python 2's `copyfile` raises when source and destination are the same file.

## Layout

- `wrappers.dfy`: `Option`, `Result`, `Outcome` and the exception datatype.
- `paths.dfy`: the POSIX path helpers the code uses:
  - `os.path.join` of two parts, `dirname`, `basename`;
  - ASCII `lower`, `endswith`;
  - lemmas relating them.
- `filesystem.dfy`:
  - the tree;
  - the filesystem operations as functions on trees (listing, reading a descriptor, write, copy, delete);
  - the `Disk` class that applies them in place;
  - the `DeletedOnly` frame predicate and the cleanup fold `RemoveListed`.
- `phishingpage.dfy`: the registry itself.
  - `PhishingTemplate` and `TemplateManager` are classes whose methods update their fields and the disk.
  - The descriptor rewrite, the validator verdict, the context merge and the user-template filter are pure functions.
  - The methods are proved equal to these functions.

## Behaviour of the code the model keeps

- Descriptor rewrite:
  - The rewritten `context` section holds `update_path` alone. Any other key of the old `context` section is dropped (`phishingpage.py:86-90`).
  - A missing `info.payloadpath` is not an error. The rewrite skips it and rewrites only `update_path` (`phishingpage.py:76-83`).
- Merge: `merge_context` merges into `_context`, not into `context`.
  - `_context` is first assigned by `update_payload_path` (`phishingpage.py:105`).
  - Construction sets `context` and never sets `_context` (`phishingpage.py:60`).
  - So `merge_context` on a freshly built template raises `AttributeError`. `PhishingTemplate.MergeContext` reproduces this.
- `use_file` glues the static path and the file name with no separator (`phishingpage.py:129-130`). The copy therefore lands next to the `static` directory, not in it (`Paths.GluedName`, `PhishingPage.StaticCopyLocation`).
- The first scan in `TemplateManager.__init__` tests `os.path.isdir` on the bare entry name, not on its path under the pages directory (`phishingpage.py:160`). `TemplateManager.LoadPages` keeps that behaviour.

## Model

| member | source | states |
|---|---|---|
| PhishingPage.ConfigSectionMap | wifiphisher/common/phishingpage.py:10-25 | An absent section (including an unreadable file) gives the empty map. Otherwise the result is exactly that section's options with their values. |
| PhishingPage.PhishingTemplate.Load | wifiphisher/common/phishingpage.py:37-61 | A missing `info.name` raises KeyError('name'), then a missing `description` raises KeyError('description'). It succeeds exactly when both are present. It then builds a fresh, well-formed template whose config path is the descriptor it read. Display name and description come from `info`. The payload is `info.payloadpath` or none, so `has_payload()` holds exactly when `info.payloadpath` is present and non-empty. `context` is the context section. `_context` is unset and there are no staged files. |
| PhishingPage.PhishingTemplate.constructor | wifiphisher/common/phishingpage.py:37-61 | The config, HTML and static paths are derived from the pages directory and the name (the last two use the lower-cased name). `_context` is unset and the staged-file list is empty. |
| PhishingPage.RewriteDescriptor | wifiphisher/common/phishingpage.py:64-90 | It fails with NoSectionError('info'), then NoSectionError('context'), then NoOptionError('context','update_path'), in that order. It succeeds exactly when all three exist. The new descriptor has the sections `info` and `context` only. `info` has the same options, each value unchanged except `payloadpath`, which becomes join(dirname(old), filename). `context` holds exactly `update_path` = join(dirname(old update_path), filename). |
| PhishingPage.RewriteDescriptorIdempotent | wifiphisher/common/phishingpage.py:74-90 | For a bare file name, rewriting the rewritten descriptor again changes nothing. |
| PhishingPage.RewrittenPayloadNamesFile | wifiphisher/common/phishingpage.py:80-90 | After a rewrite for a bare file name, both `payloadpath` and `update_path` have that file name as their base name. |
| PhishingPage.PhishingTemplate.UpdateConfigFile | wifiphisher/common/phishingpage.py:63-92 | If the rewrite raises, the disk is unchanged and the error is returned. Otherwise the descriptor file is replaced by the rewritten descriptor and nothing else on disk changes. |
| PhishingPage.PhishingTemplate.UpdatePayloadPath | wifiphisher/common/phishingpage.py:94-106 | If the rewrite fails, the template and the disk are unchanged (the exception propagates). Otherwise the descriptor is rewritten and the payload becomes the new `info.payloadpath` (or none). `_context` becomes the new context section and the staged-file list becomes empty. `context` and the names are untouched. When the old descriptor had a `payloadpath` and the file name is a non-empty bare name, `has_payload()` holds afterwards and `get_payload_path()` has that file name as its base name. |
| PhishingPage.RewrittenPayloadIsSet | wifiphisher/common/phishingpage.py:80-83 | For a non-empty bare file name and a descriptor with a `payloadpath`, the rewritten payload is a non-empty path whose base name is the file name. |
| PhishingPage.PhishingTemplate.Reload | wifiphisher/common/phishingpage.py:99-106 | Re-reading gives a payload and `_context` equal to those of the descriptor currently on disk, and an empty staged-file list. |
| PhishingPage.MergedContext | wifiphisher/common/phishingpage.py:108-114 | The key set is the union of both. Every key of the template's context keeps the template's value, and the other keys get the incoming value. |
| PhishingPage.MergedContextIdempotent | wifiphisher/common/phishingpage.py:108-114 | Merging the same incoming context a second time changes nothing. |
| PhishingPage.PhishingTemplate.MergeContext | wifiphisher/common/phishingpage.py:108-114 | With `_context` unset it raises AttributeError and changes nothing. Otherwise `_context` becomes the merge, and no other field changes. |
| PhishingPage.PhishingTemplate.GetPayloadPath | wifiphisher/common/phishingpage.py:116-122 | `has_payload()` and `get_payload_path()` agree: the former holds exactly when the latter is a non-empty path (`bool(False)` and `bool('')` are both false). What the payload is after loading and after a payload update is stated by `Load`, `UpdatePayloadPath` and `RewrittenPayloadIsSet`. |
| PhishingPage.PhishingTemplate.UseFile | wifiphisher/common/phishingpage.py:124-131 | For an empty path or a path that is not a file, it returns None and changes nothing. Otherwise it copies the file to `static_path + basename(path)`. On success it appends that destination to the staged files and returns the base name. If the copy raises, the error is returned and nothing changes. |
| Paths.GluedName | wifiphisher/common/phishingpage.py:129-130 | The staged copy `join(parent, last) + f` sits in `parent`, named `last + f`: next to the static directory, not inside it. |
| PhishingPage.StaticCopyLocation | wifiphisher/common/phishingpage.py:129-130 | For an HTML directory name that is non-empty and has no separator, the copy made by `use_file` sits in the template's HTML directory, named `static` followed by the file's base name. |
| Paths.BasenameJoin | wifiphisher/common/phishingpage.py:80-90 | The base name of join(d, f), for a bare file name `f`, is `f`. |
| Paths.DirnameJoin | wifiphisher/common/phishingpage.py:80-90 | The directory name of join(d, f) is `d`, for `d` as `dirname` returns it. |
| Paths.ReplaceFileNameIdempotent | wifiphisher/common/phishingpage.py:80-90 | The payload-path rewrite join(dirname(p), f) is idempotent and names `f`. |
| PhishingPage.PhishingTemplate.RemoveExtraFiles | wifiphisher/common/phishingpage.py:133-138 | The disk afterwards is the cleanup fold over the staged files, and the staged list is not modified. |
| FileSystem.RemoveListed | wifiphisher/common/phishingpage.py:136-138 | Exactly the listed paths that are files are deleted. No other path appears or disappears, directories stay directories whose listings lose only the names of deleted files they held, no other file changes, and no listed path is a file afterwards. |
| FileSystem.RemoveListedIdempotent | wifiphisher/common/phishingpage.py:133-138 | A second cleanup of the same list deletes nothing. |
| FileSystem.DeletedOnlyTrans | wifiphisher/common/phishingpage.py:221-225 | Two rounds of deletions amount to one round of deleting what either named. |
| PhishingPage.TemplateManager.IsValidTemplate | wifiphisher/common/phishingpage.py:166-187 | The scan loop returns exactly the verdict function: an OSError for an unlistable template directory, then the three checks in order. |
| PhishingPage.ValidateWithoutConfig | wifiphisher/common/phishingpage.py:172-173 | Without `config.ini` in the listing, the verdict is (False, "Configuration file not found in: "), and it is the same for any tree with the same listing. |
| PhishingPage.ValidateWithoutHtmlDir | wifiphisher/common/phishingpage.py:174-178 | With `config.ini` present but no listable HTML directory, the verdict is (False, "No " + html dir + " directory found in: "). |
| PhishingPage.ValidateVerdict | wifiphisher/common/phishingpage.py:179-187 | With both present, the verdict is (True, name) if some entry ends with `.html`, and (False, "No HTML files found in: ") otherwise. |
| PhishingPage.HasHtmlFileExists | wifiphisher/common/phishingpage.py:179-187 | The scan for an HTML file finds one exactly when some entry of the listing ends with `.html`. |
| PhishingPage.TemplateIsDirectory | wifiphisher/common/phishingpage.py:166-187 | A name that validates names a directory with a listable HTML directory, and its verdict is (True, name). |
| PhishingPage.UserTemplates | wifiphisher/common/phishingpage.py:189-209 | A name is kept exactly when it is listed, its joined path is a directory, it is not yet a key of the registry, and it validates. |
| PhishingPage.UserTemplatesAppend | wifiphisher/common/phishingpage.py:194-202 | Discovery keeps listing order: the kept names of a concatenated listing are those of each part in turn. |
| PhishingPage.TemplateManager.FindUserTemplates | wifiphisher/common/phishingpage.py:189-209 | An unlistable template directory raises OSError. Otherwise the loop returns exactly the user-template filter of the listing, in order. |
| PhishingPage.TemplateManager.AddUserTemplates | wifiphisher/common/phishingpage.py:211-219 | Existing entries are never replaced, and every added entry is a freshly loaded template for its name. On success the keys are the old keys plus the discovered user templates. It succeeds exactly when the template directory is listable and every discovered user template has `info.name` and `info.description`. When a listable directory still fails, the error is the KeyError of the first discovered user template that cannot be loaded, and exactly the user templates before it were added. |
| PhishingPage.TemplateManager.LoadAll | wifiphisher/common/phishingpage.py:216-219 | Each name is loaded and stored under itself, stopping at the first error. Old entries are kept, and on success the keys are the old keys plus the names. It succeeds exactly when every name's descriptor has `info.name` and `info.description`. On failure the error is the KeyError of the first name that lacks one, and the keys are the old keys plus exactly the names before it, each stored. |
| PhishingPage.TemplateManager.LoadEach | wifiphisher/common/phishingpage.py:216-219 | The loop stores a freshly loaded template under each name in turn and keeps old entries. On success the keys are the old keys plus the names. On failure some name is not loadable, the error is its KeyError, and the keys are the old keys plus exactly the names before it. |
| PhishingPage.TemplateManager.LoadStep | wifiphisher/common/phishingpage.py:218-219 | One round: an unloadable name returns its KeyError and changes nothing. Otherwise a fresh template loaded for the name is stored under it, and no other entry changes. |
| PhishingPage.TemplateManager.ScanEntry | wifiphisher/common/phishingpage.py:159-161 | One entry of the first scan: it is skipped (registry unchanged) unless it is a directory by its bare name. Then a validation error is returned; an entry that does not validate is skipped. Otherwise the template is loaded: a load error is returned, and on success a fresh template for the entry is stored under its name and nothing else changes. |
| PhishingPage.TemplateManager.ScanStep | wifiphisher/common/phishingpage.py:159-161 | One round of the first scan, stated against the whole listing: a failing entry ends the scan with the scan's outcome, and a passing one extends the stored keys by that entry's scan result. |
| PhishingPage.ScanPageLoaded | wifiphisher/common/phishingpage.py:159-161 | An entry whose scan raises nothing is loaded exactly when it is a directory by its bare name and validates. |
| PhishingPage.ScanOutcomePass | wifiphisher/common/phishingpage.py:159-161 | The first scan completes exactly when no entry of the listing raises. |
| PhishingPage.ScanOutcomeFail | wifiphisher/common/phishingpage.py:159-161 | When the first scan fails, its error is that of the first listed entry that raises. |
| PhishingPage.ScannedKeysAll | wifiphisher/common/phishingpage.py:159-161 | When no entry raises, the stored keys are exactly the listed entries that are directories by their bare name and validate. |
| PhishingPage.TemplateManager.LoadPages | wifiphisher/common/phishingpage.py:157-161 | The first scan's outcome is the scan function over the listing: the first error raised, or success. Every stored entry is a freshly loaded template, and on success the keys are the scanned keys of the whole listing. |
| PhishingPage.TemplateManager.Open | wifiphisher/common/phishingpage.py:150-164 | An unlistable pages directory raises OSError. On success the registry's keys are exactly the listed entries that validate, whichever of the two scans found them, each with a freshly loaded template. It succeeds exactly when the pages directory is listable, no entry raises during the first scan, and every listed entry that validates has `info.name` and `info.description`. With a listable pages directory, a failure returns the first scan's error if that scan fails. Otherwise it returns the KeyError of the first user template of the second scan that cannot be loaded. |
| PhishingPage.TemplateManager.OnExit | wifiphisher/common/phishingpage.py:221-225 | Exactly the staged files of all templates that still exist are deleted. No other path appears or disappears, directories stay directories whose listings lose only the names of deleted files they held, no other file changes, and none of the staged paths is a file afterwards. |
| FileSystem.CopyFile | wifiphisher/common/phishingpage.py:129 | `copyfile` succeeds exactly when the source is a file, the destination differs from it and can be opened for writing. The destination then holds the source's content. No other path appears, no other file changes, and every path other than the destination and its directory is untouched. When the destination's directory is a directory, it stays one, keeps all its names, and gains only the destination's name, and only when the destination is new. |
| FileSystem.Put | wifiphisher/common/phishingpage.py:91-92 | Writing stores the node at its path, adds no other path and changes no other file. When the parent is a directory, it stays one, keeps all its names, and gains only the new name, and only when the path was not there before. |
| FileSystem.WriteIni | wifiphisher/common/phishingpage.py:91-92 | Writing a descriptor succeeds exactly when the path can be opened for writing, and reading it back gives the descriptor written. |
| FileSystem.Delete | wifiphisher/common/phishingpage.py:138 | `os.remove` takes away exactly that path. Every other path except its directory is untouched, and no file changes. The directory's listing only loses names, and only the removed path's own name. |

## Left out

- Real I/O. `os.listdir`, `os.path.isfile`/`isdir`, `copyfile`, `os.remove` and `open`/`write` act on the in-memory tree. Permissions, symbolic links, relative paths resolved against a working directory, and the content of non-descriptor files are not modelled.
- ConfigParser's text format. A descriptor is its section map, so these are not modelled:
  - parse errors;
  - the `DEFAULT` section;
  - `%` interpolation;
  - the lower-casing of option names;
  - the `KeyError` branch at line 23, which cannot arise on a section map.
- The constants module. `PHISHING_PAGES_DIR` and `SCENARIO_HTML_DIR` are the `Constants` parameter, and the colour codes are not used.
- Path semantics are simplified. `join` takes two parts, `lower` is ASCII-only, and nothing is normalised.
- The printed diagnostic for an invalid user template (lines 206-207) and `__str__` (lines 140-144) are output only.
- PhishingPage.PhishingTemplate.MergeContext: `merge_context` also updates the caller's dictionary in place and then shares it as `_context`. The model stores the merged map but does not model that aliasing of the caller's dictionary.
- FileSystem.Put: the contract says that the parent's listing gains the new name and keeps its other names, but not where the name lands. The body appends it; the real listing order of `os.listdir` is unspecified.
- PhishingPage.TemplateManager.FindUserTemplates: a validation error cannot arise there, because the entry was just found to be a directory. The model treats such an error like a failed validation.
- Atomicity of the descriptor rewrite, crash behaviour and concurrency: the code has none.
