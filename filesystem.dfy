/**
 * The file-system capability the Warehouse is given (its `fileManager`,
 * and the default manager its class functions consult), modelled as a
 * map from path strings to files and directories.  Paths are compared as
 * plain strings; a path listed in `refused` is one at which the platform
 * will not create anything (no permission, no space left).
 */
module FileSystem {
  import opened Wrappers

  type Bytes = seq<bv8>

  datatype Node = File(contents: Bytes) | Directory

  type Entries = map<string, Node>

  /** A request made to the file manager, as recorded in its call log. */
  datatype Call = CreateDirectoryCall(path: string) | CreateFileCall(path: string)

  /** What a failed create reports through its error out-parameter. */
  datatype FileError = Refused(path: string) | FileInTheWay(path: string)

  /**
   * `createDirectoryAtPath(_, withIntermediateDirectories: true, ...)`
   * succeeds on an existing directory and on a free path, and fails on a
   * path that holds a file or that the platform refuses.
   */
  predicate CanCreateDirectory(entries: Entries, refused: set<string>, path: string) {
    path !in refused && (path !in entries || entries[path].Directory?)
  }

  /**
   * `createFileAtPath` overwrites an existing file and creates a new one,
   * and fails on a directory or a refused path.
   */
  predicate CanCreateFile(entries: Entries, refused: set<string>, path: string) {
    path !in refused && (path !in entries || entries[path].File?)
  }

  /** `fileExistsAtPath(_, isDirectory:)`: whether anything is there, and whether it is a directory. */
  function ItemAt(entries: Entries, path: string): (r: (bool, bool))
    ensures r.0 <==> path in entries
    ensures r.1 <==> path in entries && entries[path].Directory?
  {
    if path in entries then (true, entries[path].Directory?) else (false, false)
  }

  /** `NSData(contentsOfFile:)`: the bytes of a file, absent for a directory or a missing path. */
  function ContentsOfFile(entries: Entries, path: string): (r: Option<Bytes>)
    ensures r.Some? <==> path in entries && entries[path].File?
    ensures r.Some? ==> entries[path] == File(r.value)
  {
    if path in entries && entries[path].File? then Some(entries[path].contents) else None
  }

  class FileManager {
    var entries: Entries
    var refused: set<string>
    /** Every create request made so far, oldest first. */
    ghost var calls: seq<Call>

    constructor (entries: Entries, refused: set<string>)
      ensures this.entries == entries && this.refused == refused && calls == []
    {
      this.entries := entries;
      this.refused := refused;
      calls := [];
    }

    /** `NSFileManager.createDirectoryAtPath`, asked to create intermediate directories and report an error. */
    method CreateDirectoryAtPath(path: string) returns (created: bool, error: Option<FileError>)
      modifies this
      ensures created == CanCreateDirectory(old(entries), old(refused), path)
      ensures error.None? <==> created
      ensures entries == if created then old(entries)[path := Directory] else old(entries)
      ensures refused == old(refused)
      ensures calls == old(calls) + [CreateDirectoryCall(path)]
    {
      calls := calls + [CreateDirectoryCall(path)];
      if path in refused {
        created, error := false, Some(Refused(path));
      } else if path in entries && entries[path].File? {
        created, error := false, Some(FileInTheWay(path));
      } else {
        entries := entries[path := Directory];
        created, error := true, None;
      }
    }

    /** `NSFileManager.createFileAtPath`, with no attributes. */
    method CreateFileAtPath(path: string, contents: Bytes) returns (created: bool)
      modifies this
      ensures created == CanCreateFile(old(entries), old(refused), path)
      ensures entries == if created then old(entries)[path := File(contents)] else old(entries)
      ensures refused == old(refused)
      ensures calls == old(calls) + [CreateFileCall(path)]
    {
      calls := calls + [CreateFileCall(path)];
      created := CanCreateFile(entries, refused, path);
      if created {
        entries := entries[path := File(contents)];
      }
    }
  }
}
