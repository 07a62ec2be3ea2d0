/**
 * The Warehouse: saves files under the application's Document, Cache or
 * Temporary directory (optionally inside a sub-directory), and hands back
 * paths relative to the home directory that callers can persist and use
 * later to re-open the file.
 */
module Warehouses {
  import opened Wrappers
  import opened Paths
  import opened FileSystem

  /**
   * The directories the operating system supplies: `NSHomeDirectory()`,
   * the first user-domain result of `NSSearchPathForDirectoriesInDomains`
   * for documents and for caches, and `NSTemporaryDirectory()`.
   */
  datatype Platform = Platform(home: string, documents: string, caches: string, temporary: string)

  /** `Warehouse.temporaryDirectoryPath()`: the temporary directory without its trailing separator. */
  function TemporaryDirectoryPath(platform: Platform): (r: string)
    ensures if EndsWithSlash(platform.temporary) then r + "/" == platform.temporary
            else r == platform.temporary
  {
    DropTrailingSlash(platform.temporary)
  }

  datatype DirectoryType = Document | Cache | Temporary {

    /** The root directory of this storage area. */
    function Path(platform: Platform): (r: string)
      ensures this == Document ==> r == platform.documents
      ensures this == Cache ==> r == platform.caches
      ensures this == Temporary ==>
                if EndsWithSlash(platform.temporary) then r + "/" == platform.temporary
                else r == platform.temporary
    {
      match this
      case Document => platform.documents
      case Cache => platform.caches
      case Temporary => TemporaryDirectoryPath(platform)
    }
  }

  /** The shape every sub-directory value stored by the setter has: empty, or starting with '/'. */
  predicate SubDirectoryShape(s: string) {
    s == "" || s[0] == '/'
  }

  /**
   * What the `subDirectoryPath` setter stores for a present value: a '/'
   * is put in front when missing, then one trailing '/' is dropped.
   */
  function NormalizedSubDirectory(path: string): (r: string)
    ensures SubDirectoryShape(r)
    ensures var w := if "/" <= path then path else "/" + path;
            r <= w && |w| - |r| <= 1 && (|r| < |w| <==> EndsWithSlash(w))
  {
    var withLeadingSlash := if "/" <= path then path else "/" + path;
    DropTrailingSlash(withLeadingSlash)
  }

  /** A value the setter leaves as it is: empty, or starting with '/' and not ending with one. */
  predicate SettledSubDirectory(s: string) {
    s == "" || (s[0] == '/' && !EndsWithSlash(s))
  }

  /** Re-assigning a stored value leaves it unchanged exactly when it is settled. */
  lemma NormalizedSubDirectoryFixedPoints(s: string)
    ensures NormalizedSubDirectory(s) == s <==> SettledSubDirectory(s)
  {
    var r := NormalizedSubDirectory(s);
    if s != "" && s[0] != '/' {
      assert r[0] == '/';
    } else if s != "" && EndsWithSlash(s) {
      assert |r| < |s|;
    }
  }

  /** The setter's documented examples. */
  lemma NormalizedSubDirectoryExamples()
    ensures NormalizedSubDirectory("Test") == "/Test"
    ensures NormalizedSubDirectory("notes") == "/notes"
    ensures NormalizedSubDirectory("/") == ""
    ensures NormalizedSubDirectory("") == ""
  {
    assert "/" + "Test" == "/Test";
    assert "/" + "notes" == "/notes";
  }

  /** The setter is not idempotent: only one of two trailing separators is dropped. */
  lemma NormalizedSubDirectoryNotIdempotent()
    ensures NormalizedSubDirectory("a//") == "/a/"
    ensures NormalizedSubDirectory("/a/") == "/a"
  {
    assert "/" + "a//" == "/a//";
    assert "/a//"[..3] == "/a/";
    assert "/a/"[..2] == "/a";
  }

  /**
   * `translateAbsoluteToRelative`: a path under the home directory loses
   * every occurrence of the home path; any other path is returned as it is.
   */
  function TranslateAbsoluteToRelative(home: string, path: Option<string>): (r: Option<string>)
    ensures r.Some? <==> path.Some?
    ensures path.Some? && !(home <= path.value) ==> r == path
    ensures path.Some? && |home| > 0 && home <= path.value ==> |r.value| <= |path.value| - |home|
  {
    match path
    case None => None
    case Some(p) =>
      if home <= p then Some(ReplacingOccurrences(p, home, "")) else Some(p)
  }

  /**
   * `translateRelativeToAbsolute`: a path already under the home directory
   * is returned as it is; any other path is joined onto the home directory.
   */
  function TranslateRelativeToAbsolute(home: string, path: Option<string>): (r: Option<string>)
    ensures r.Some? <==> path.Some?
    ensures path.Some? && home <= path.value ==> r == path
    ensures path.Some? && !EndsWithSlash(home) ==> home <= r.value
    ensures path.Some? && !(home <= path.value) ==>
              TrimTrailingSlashes(home) + "/" <= r.value &&
              HasSuffix(r.value, TrimLeadingSlashes(path.value)) &&
              |r.value| == |TrimTrailingSlashes(home)| + 1 + |TrimLeadingSlashes(path.value)|
  {
    match path
    case None => None
    case Some(p) =>
      if home <= p then Some(p) else Some(AppendingPathComponent(home, p))
  }

  /** A path holding the home directory only as its prefix is translated to the rest of it. */
  lemma TranslateAbsoluteToRelativeStripsHome(home: string, path: string)
    requires |home| > 0 && home <= path
    requires OccursOnlyAtStart(path, home)
    ensures TranslateAbsoluteToRelative(home, Some(path)) == Some(path[|home|..])
  {
    RemovingOnlyPrefix(path, home);
  }

  /** Occurrences of the home path beyond the prefix are removed as well. */
  lemma TranslateAbsoluteToRelativeRemovesEveryOccurrence()
    ensures TranslateAbsoluteToRelative("/h", Some("/h/a/h")) == Some("/a")
  {
    assert ReplacingOccurrences("/h", "/h", "") == "";
    assert ReplacingOccurrences("a/h", "/h", "") == "a" by {
      assert "a/h"[..2][0] != "/h"[0] && "a/h"[1..] == "/h";
    }
    assert ReplacingOccurrences("/a/h", "/h", "") == "/a" by {
      assert "/a/h"[..2][1] != "/h"[1] && "/a/h"[1..] == "a/h";
      assert ['/'] + "a" == "/a";
    }
    assert ReplacingOccurrences("/h/a/h", "/h", "") == "/a" by {
      assert "/h/a/h"[..2] == "/h" && "/h/a/h"[2..] == "/a/h";
    }
  }

  /**
   * So a path that holds the home path a second time does not round-trip:
   * the relative path it is given leads to another file.
   */
  lemma HomeTwiceDoesNotRoundTrip()
    ensures TranslateRelativeToAbsolute("/h", TranslateAbsoluteToRelative("/h", Some("/h/a/h")))
         == Some("/h/a")
  {
    TranslateAbsoluteToRelativeRemovesEveryOccurrence();
    assert TranslateRelativeToAbsolute("/h", Some("/a")) == Some("/h/a") by {
      assert !("/h" <= "/a") by {
        assert "/a"[1] != "/h"[1];
      }
      assert TrimLeadingSlashes("/a") == "a" by {
        assert "/a"[1..] == "a";
      }
      assert "/h" + "/" + "a" == "/h/a";
    }
  }

  /** Translating to an absolute path twice is the same as translating once. */
  lemma TranslateRelativeToAbsoluteIdempotent(home: string, path: Option<string>)
    requires !EndsWithSlash(home)
    ensures TranslateRelativeToAbsolute(home, TranslateRelativeToAbsolute(home, path))
         == TranslateRelativeToAbsolute(home, path)
  {
  }

  /**
   * The paths whose relative form leads back to them: under a home
   * directory that does not end in '/', holding the home path only as
   * their prefix, and continuing after it with exactly one '/' and then
   * at least one more character.
   */
  ghost predicate RoundTrips(home: string, path: string) {
    |home| > 0 && !EndsWithSlash(home) && home <= path && OccursOnlyAtStart(path, home) &&
    var rest := path[|home|..];
    |rest| > 1 && rest[0] == '/' && rest[1] != '/'
  }

  /** The relative path handed to a caller translates back to the absolute path it came from. */
  lemma TranslateRoundTrip(home: string, path: string)
    requires RoundTrips(home, path)
    ensures TranslateRelativeToAbsolute(home, TranslateAbsoluteToRelative(home, Some(path))) == Some(path)
  {
    var rest := path[|home|..];
    TranslateAbsoluteToRelativeStripsHome(home, path);
    assert TrimLeadingSlashes(rest) == rest[1..] by {
      assert TrimLeadingSlashes(rest) == TrimLeadingSlashes(rest[1..]);
    }
    assert AppendingPathComponent(home, rest) == home + "/" + rest[1..];
    assert home + "/" + rest[1..] == path;
  }

  /** `Warehouse.openFile`: the contents of the file the relative path leads to. */
  function OpenFile(entries: Entries, home: string, relativePath: Option<string>): (r: Option<Bytes>)
    ensures relativePath.None? ==> r.None?
    ensures relativePath.Some? ==>
              var absolutePath := TranslateRelativeToAbsolute(home, relativePath).value;
              (r.Some? <==> absolutePath in entries && entries[absolutePath].File?) &&
              (r.Some? ==> entries[absolutePath] == File(r.value))
  {
    match relativePath
    case None => None
    case Some(path) =>
      match TranslateRelativeToAbsolute(home, Some(path))
      case Some(absolutePath) => ContentsOfFile(entries, absolutePath)
      case None => None
  }

  /** `Warehouse.fileExistsAtPath`: something exists at the translated path, and it is not a directory. */
  function FileExistsAtPath(entries: Entries, home: string, relativePath: Option<string>): (r: bool)
    ensures r <==> relativePath.Some? &&
                   var absolutePath := TranslateRelativeToAbsolute(home, relativePath).value;
                   absolutePath in entries && entries[absolutePath].File?
  {
    match TranslateRelativeToAbsolute(home, relativePath)
    case Some(absolutePath) =>
      var (found, isDirectory) := ItemAt(entries, absolutePath);
      found && !isDirectory
    case None => false
  }

  /**
   * What `saveAndWait` does to the file system: it creates the save
   * directory and, only when that succeeded, the file.  The result is
   * whether the save succeeded, and the new entries.
   */
  function SaveOutcome(entries: Entries, refused: set<string>, directory: string, savePath: string,
                       contents: Bytes): (r: (bool, Entries))
    ensures !CanCreateDirectory(entries, refused, directory) ==> r == (false, entries)
    ensures CanCreateDirectory(entries, refused, directory) ==> directory in r.1 && r.1[directory] == Directory
    ensures r.0 <==> CanCreateDirectory(entries, refused, directory) &&
                     CanCreateFile(entries[directory := Directory], refused, savePath)
    ensures r.0 ==> savePath != directory && savePath in r.1 && r.1[savePath] == File(contents)
    ensures !r.0 && savePath != directory ==>
              (savePath in r.1 <==> savePath in entries) &&
              (savePath in entries ==> r.1[savePath] == entries[savePath])
    ensures forall q :: q != directory && q != savePath ==>
              (q in r.1 <==> q in entries) && (q in entries ==> r.1[q] == entries[q])
  {
    if CanCreateDirectory(entries, refused, directory) then
      var afterDirectory := entries[directory := Directory];
      if CanCreateFile(afterDirectory, refused, savePath) then
        (true, afterDirectory[savePath := File(contents)])
      else
        (false, afterDirectory)
    else
      (false, entries)
  }

  /**
   * The requests `saveAndWait` makes, in order: the directory first, and
   * the file only when the directory could be created.
   */
  function SaveCalls(entries: Entries, refused: set<string>, directory: string, savePath: string): (r: seq<Call>)
    ensures |r| >= 1 && r[0] == CreateDirectoryCall(directory)
    ensures CreateFileCall(savePath) in r <==> CanCreateDirectory(entries, refused, directory)
    ensures |r| == if CanCreateDirectory(entries, refused, directory) then 2 else 1
  {
    [CreateDirectoryCall(directory)] +
      if CanCreateDirectory(entries, refused, directory) then [CreateFileCall(savePath)] else []
  }

  /**
   * A file saved at a path that round-trips can be re-opened, and reported
   * as existing, through the relative path the save hands back.
   */
  lemma ReopenSavedFile(entries: Entries, home: string, path: string, contents: Bytes)
    requires RoundTrips(home, path)
    ensures var saved := entries[path := File(contents)];
            var relativePath := TranslateAbsoluteToRelative(home, Some(path));
            OpenFile(saved, home, relativePath) == Some(contents) &&
            FileExistsAtPath(saved, home, relativePath)
  {
    TranslateRoundTrip(home, path);
  }

  /** The callback `saveFile` invokes when the caller supplied it: success or failure. */
  datatype SaveCallback = Succeeded(savedRelativePath: Option<string>) | Failed(error: Option<FileError>)

  class Warehouse {
    const platform: Platform
    var fileManager: FileManager
    var directoryType: DirectoryType
    /** The value behind the `subDirectoryPath` property. */
    var storedSubDirectoryPath: Option<string>

    ghost predicate Valid()
      reads this
    {
      storedSubDirectoryPath.None? || SubDirectoryShape(storedSubDirectoryPath.value)
    }

    /** `init()`: the Temporary area, no sub-directory, the given file manager. */
    constructor (platform: Platform, fileManager: FileManager)
      ensures Valid()
      ensures this.platform == platform && this.fileManager == fileManager
      ensures directoryType == Temporary && SubDirectoryPath() == None
    {
      this.platform := platform;
      this.fileManager := fileManager;
      directoryType := Temporary;
      storedSubDirectoryPath := None;
    }

    /** `init(directoryType:subDirectoryPath:)`: configures the area, then creates its directory. */
    constructor Configure(platform: Platform, fileManager: FileManager, directoryType: DirectoryType,
                          subDirectoryPath: Option<string>)
      modifies fileManager
      ensures Valid()
      ensures this.platform == platform && this.fileManager == fileManager
      ensures this.directoryType == directoryType
      ensures SubDirectoryPath() == Some(if subDirectoryPath.Some? then NormalizedSubDirectory(subDirectoryPath.value) else "")
      ensures fileManager.entries ==
                if CanCreateDirectory(old(fileManager.entries), old(fileManager.refused), SaveDirectoryAbsolutePath())
                then old(fileManager.entries)[SaveDirectoryAbsolutePath() := Directory]
                else old(fileManager.entries)
      ensures fileManager.refused == old(fileManager.refused)
      ensures fileManager.calls == old(fileManager.calls) + [CreateDirectoryCall(SaveDirectoryAbsolutePath())]
    {
      this.platform := platform;
      this.fileManager := fileManager;
      this.directoryType := Temporary;
      storedSubDirectoryPath := None;
      new;
      this.directoryType := directoryType;
      SetSubDirectoryPath(subDirectoryPath);
      ghost var directory := SaveDirectoryAbsolutePath();
      assert fileManager.entries == old(fileManager.entries) && fileManager.refused == old(fileManager.refused);
      assert fileManager.calls == old(fileManager.calls);
      var _ := CreateDirectoryIfNeeded();
      assert SaveDirectoryAbsolutePath() == directory;
    }

    /** The `subDirectoryPath` getter. */
    function SubDirectoryPath(): (r: Option<string>)
      reads this
      ensures r == storedSubDirectoryPath
      ensures Valid() ==> r.None? || SubDirectoryShape(r.value)
    {
      storedSubDirectoryPath
    }

    /** The `subDirectoryPath` setter. */
    method SetSubDirectoryPath(newValue: Option<string>)
      modifies this`storedSubDirectoryPath
      ensures Valid()
      ensures SubDirectoryPath() == Some(if newValue.Some? then NormalizedSubDirectory(newValue.value) else "")
    {
      if newValue.Some? {
        var path := newValue.value;
        if "/" <= path {
        } else {
          path := "/" + path;
        }
        if HasSuffix(path, "/") {
          path := path[..|path| - 1];
        }
        storedSubDirectoryPath := Some(path);
      } else {
        storedSubDirectoryPath := Some("");
      }
    }

    /** `saveDirectoryAbsolutePath()`: the area's root, the sub-directory, and a closing '/'. */
    function SaveDirectoryAbsolutePath(): (r: string)
      reads this
      ensures EndsWithSlash(r)
      ensures directoryType.Path(platform) <= r
      ensures Valid() ==> directoryType.Path(platform) + "/" <= r
    {
      directoryType.Path(platform) + SubDirectoryPath().GetOr("") + "/"
    }

    /** The path `saveFile` writes to: the same as `saveFileAndWait`'s. */
    function SaveFilePath(fileName: string): (r: string)
      reads this
      ensures r == SaveDirectoryAbsolutePath() + fileName
    {
      directoryType.Path(platform) + (SubDirectoryPath().GetOr("") + "/") + fileName
    }

    /** `createDirectoryIfNeeded()` */
    method CreateDirectoryIfNeeded() returns (ok: bool)
      modifies fileManager
      ensures ok == CanCreateDirectory(old(fileManager.entries), old(fileManager.refused), SaveDirectoryAbsolutePath())
      ensures fileManager.entries ==
                if ok then old(fileManager.entries)[SaveDirectoryAbsolutePath() := Directory]
                else old(fileManager.entries)
      ensures fileManager.refused == old(fileManager.refused)
      ensures fileManager.calls == old(fileManager.calls) + [CreateDirectoryCall(SaveDirectoryAbsolutePath())]
    {
      var directoryPath := SaveDirectoryAbsolutePath();
      var created, error := fileManager.CreateDirectoryAtPath(directoryPath);
      if created {
        if error.None? {
          ok := true;
        } else {
          ok := false;
        }
      } else {
        ok := false;
      }
    }

    /** `saveAndWait(savePath:contents:)` */
    method SaveAndWait(savePath: string, contents: Bytes) returns (ok: bool)
      modifies fileManager
      ensures (ok, fileManager.entries) ==
                SaveOutcome(old(fileManager.entries), old(fileManager.refused), SaveDirectoryAbsolutePath(),
                            savePath, contents)
      ensures fileManager.refused == old(fileManager.refused)
      ensures fileManager.calls == old(fileManager.calls) + SaveCalls(old(fileManager.entries), old(fileManager.refused),
                                                                      SaveDirectoryAbsolutePath(), savePath)
    {
      var created := CreateDirectoryIfNeeded();
      if created {
        ok := fileManager.CreateFileAtPath(savePath, contents);
      } else {
        ok := false;
      }
    }

    /**
     * `saveFile(fileName:contents:success:faiure:)`, with the hop to a
     * background queue and back left out: the callback that fires, with
     * the argument it receives.
     */
    method SaveFile(fileName: string, contents: Bytes) returns (callback: SaveCallback)
      modifies fileManager
      ensures var path := SaveFilePath(fileName);
              var outcome := SaveOutcome(old(fileManager.entries), old(fileManager.refused),
                                         SaveDirectoryAbsolutePath(), path, contents);
              fileManager.entries == outcome.1 &&
              callback == if outcome.0 then Succeeded(TranslateAbsoluteToRelative(platform.home, Some(path)))
                          else Failed(None)
      ensures fileManager.refused == old(fileManager.refused)
      ensures fileManager.calls == old(fileManager.calls) + SaveCalls(old(fileManager.entries), old(fileManager.refused),
                                                                      SaveDirectoryAbsolutePath(), SaveFilePath(fileName))
    {
      var subDirectoryPath := SubDirectoryPath().GetOr("");
      var path := directoryType.Path(platform) + (subDirectoryPath + "/") + fileName;
      var result := SaveAndWait(path, contents);
      if result {
        var relativePath := TranslateAbsoluteToRelative(platform.home, Some(path));
        callback := Succeeded(relativePath);
      } else {
        callback := Failed(None);
      }
    }

    /** `saveFileAndWait(fileName:contents:)` */
    method SaveFileAndWait(fileName: Option<string>, contents: Option<Bytes>) returns (relativePath: Option<string>)
      modifies fileManager
      ensures fileName.None? || contents.None? ==>
                relativePath == None && fileManager.entries == old(fileManager.entries) &&
                fileManager.calls == old(fileManager.calls)
      ensures fileName.Some? && contents.Some? ==>
                var path := SaveDirectoryAbsolutePath() + fileName.value;
                var outcome := SaveOutcome(old(fileManager.entries), old(fileManager.refused),
                                           SaveDirectoryAbsolutePath(), path, contents.value);
                fileManager.entries == outcome.1 &&
                relativePath == if outcome.0 then TranslateAbsoluteToRelative(platform.home, Some(path)) else None
      ensures fileName.Some? && contents.Some? ==>
                fileManager.calls == old(fileManager.calls) +
                  SaveCalls(old(fileManager.entries), old(fileManager.refused),
                            SaveDirectoryAbsolutePath(), SaveDirectoryAbsolutePath() + fileName.value)
      ensures fileManager.refused == old(fileManager.refused)
    {
      if fileName.Some? && contents.Some? {
        var path := SaveDirectoryAbsolutePath() + fileName.value;
        var result := SaveAndWait(path, contents.value);
        if result {
          relativePath := TranslateAbsoluteToRelative(platform.home, Some(path));
        } else {
          relativePath := None;
        }
      } else {
        relativePath := None;
      }
    }
  }

  /** Where a file saved by the scenario below lands, on a file system that was empty. */
  lemma SaveIntoEmptyFileSystem(directory: string, fileName: string, contents: Bytes)
    requires fileName != ""
    ensures var created := map[directory := Directory];
            SaveOutcome(created, {}, directory, directory + fileName, contents)
              == (true, created[directory + fileName := File(contents)])
  {
    var created := map[directory := Directory];
    assert directory + fileName != directory by {
      assert |directory + fileName| > |directory|;
    }
    assert created[directory := Directory] == created;
  }

  /** How the file saved by the scenario below is found again. */
  lemma SavedFileIsFound(home: string, root: string, tail: string, entries: Entries, contents: Bytes)
    requires home <= root
    requires RoundTrips(home, root + tail)
    ensures var path := root + tail;
            var saved := entries[path := File(contents)];
            var relativePath := TranslateAbsoluteToRelative(home, Some(path));
            HasSuffix(relativePath.value, tail) &&
            FileExistsAtPath(saved, home, relativePath) &&
            OpenFile(saved, home, relativePath) == Some(contents)
  {
    var path := root + tail;
    ReopenSavedFile(entries, home, path, contents);
    TranslateAbsoluteToRelativeStripsHome(home, path);
    SuffixSurvivesDrop(root, tail, |home|);
  }

  /**
   * The save-then-check scenario: a Temporary warehouse configured with a
   * sub-directory saves a file on an empty, permissive file system; the
   * relative path it hands back ends in the normalized sub-directory and
   * the file name, and the file can be found and re-opened through it.
   * With "notes" and "a.txt" (see NormalizedSubDirectoryExamples) that
   * suffix is "/notes/a.txt".
   */
  method SaveThenReopenScenario(platform: Platform, fileManager: FileManager, subDirectory: string,
                                fileName: string, contents: Bytes)
    returns (relativePath: Option<string>)
    requires fileManager.entries == map[] && fileManager.refused == {}
    requires fileName != ""
    requires platform.home <= TemporaryDirectoryPath(platform)
    requires RoundTrips(platform.home,
                        TemporaryDirectoryPath(platform) + (NormalizedSubDirectory(subDirectory) + "/" + fileName))
    modifies fileManager
    ensures relativePath.Some?
    ensures HasSuffix(relativePath.value, NormalizedSubDirectory(subDirectory) + "/" + fileName)
    ensures FileExistsAtPath(fileManager.entries, platform.home, relativePath)
    ensures OpenFile(fileManager.entries, platform.home, relativePath) == Some(contents)
  {
    var root := TemporaryDirectoryPath(platform);
    var tail := NormalizedSubDirectory(subDirectory) + "/" + fileName;
    var directory := root + NormalizedSubDirectory(subDirectory) + "/";
    var path := directory + fileName;
    RegroupPath(root, NormalizedSubDirectory(subDirectory), fileName);
    var created := map[directory := Directory];
    SaveIntoEmptyFileSystem(directory, fileName, contents);
    SavedFileIsFound(platform.home, root, tail, created, contents);
    var warehouse := new Warehouse.Configure(platform, fileManager, Temporary, Some(subDirectory));
    assert warehouse.SaveDirectoryAbsolutePath() == directory;
    assert fileManager.entries == created;
    relativePath := warehouse.SaveFileAndWait(Some(fileName), Some(contents));
    assert warehouse.SaveDirectoryAbsolutePath() == directory;
    assert fileManager.entries == created[path := File(contents)];
    assert relativePath == TranslateAbsoluteToRelative(platform.home, Some(path));
  }
}
