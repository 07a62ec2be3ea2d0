# Warehouse, modelled in Dafny

Warehouse is a small Swift class. It saves files under an application's
Document, Cache or Temporary directory, optionally inside a sub-directory.
It re-opens those files and checks that they exist. It also converts
between absolute paths and paths relative to the home directory. Callers
persist the relative path that a save hands back, then use it later to
re-open the file.

The model has four modules:

- `Wrappers` holds `Option`, which stands for Swift optionals. `GetOr` is the `??` operator.
- `Paths` holds the string operations, each stated explicitly:
  - `hasSuffix`;
  - dropping one trailing `/`;
  - the join behind `stringByAppendingPathComponent` (exactly one `/` between the two sides);
  - the literal left-to-right replace-all behind `stringByReplacingOccurrencesOfString`.
- `FileSystem` models the file manager the class is given. It is a class over a map from path to
  `File(bytes)` or `Directory`, plus a set of paths where the platform refuses to create anything.
  Its create methods can therefore fail. A ghost call log records every create request in order.
- `Warehouses` holds the rest:
  - the `Warehouse` class, with mutable `directoryType`, `storedSubDirectoryPath` and `fileManager`;
  - `DirectoryType.Path`;
  - the class functions (`temporaryDirectoryPath`, the two translations, `openFile`, `fileExistsAtPath`),
    as module-level functions;
  - the lemmas about them.

Dafny identifiers cannot start with `_`, so the Swift `_subDirectoryPath` field is called
`storedSubDirectoryPath`. The getter `SubDirectoryPath()` returns it unchanged.

The operating system's directories (`NSHomeDirectory()`, the first
user-domain results of `NSSearchPathForDirectoriesInDomains` for documents
and caches, and `NSTemporaryDirectory()`) form a `Platform` value. It is
supplied at construction, like the file manager. The class functions take
the home directory and the file-system entries as parameters.

## Model

| member | source | states |
|---|---|---|
| `Warehouses.DirectoryType.Path` | Warehouse/Source/Warehouse.swift:37-46 | Document and Cache give the platform's directories. Temporary gives the temporary directory without its trailing '/' when it has one, and unchanged otherwise. |
| `Warehouses.TemporaryDirectoryPath` | Warehouse/Source/Warehouse.swift:219-225 | The temporary directory loses exactly one trailing '/' when it has one, and is unchanged otherwise. |
| `Paths.DropTrailingSlash` | Warehouse/Source/Warehouse.swift:64-65 | The result is a prefix of the input, at most one character shorter, and shorter exactly when the input ends in '/'. |
| `Warehouses.NormalizedSubDirectory` | Warehouse/Source/Warehouse.swift:58-69 | A stored value is "" or starts with '/'. It is a prefix of the input with '/' prepended when missing, and that string loses its last character exactly when the character is a '/'. |
| `Warehouses.Warehouse.SetSubDirectoryPath` | Warehouse/Source/Warehouse.swift:56-73 | Assigning nil stores "", so the getter then returns "" and not nil. Assigning a string stores its normalized form. The class invariant (stored value absent, "" or starting with '/') holds afterwards. |
| `Warehouses.NormalizedSubDirectoryFixedPoints` | Warehouse/Source/Warehouse.swift:58-69 | Re-assigning a value leaves it unchanged if and only if it is "" or starts with '/' and does not end with '/'. |
| `Warehouses.NormalizedSubDirectoryExamples` | Warehouse/Source/Warehouse.swift:57-69 | "Test" becomes "/Test", "notes" becomes "/notes", and both "/" and "" become "". |
| `Warehouses.NormalizedSubDirectoryNotIdempotent` | Warehouse/Source/Warehouse.swift:64-66 | The setter is not idempotent: "a//" is stored as "/a/", and assigning that again gives "/a". |
| `Warehouses.Warehouse.SubDirectoryPath` | Warehouse/Source/Warehouse.swift:52-55 | The getter returns the stored value as it is. Under the class invariant that value is absent, "" or starts with '/'. |
| `Warehouses.Warehouse.constructor` | Warehouse/Source/Warehouse.swift:49-76 | A new warehouse uses the Temporary area and the given file manager, and its sub-directory getter returns nil. |
| `Warehouses.Warehouse.Configure` | Warehouse/Source/Warehouse.swift:78-83 | The convenience initializer stores the directory type and the normalized sub-directory. It then makes exactly one create-directory request, for the save directory, which is created when the file system allows it. |
| `Warehouses.Warehouse.SaveDirectoryAbsolutePath` | Warehouse/Source/Warehouse.swift:167-172 | The save directory always ends in '/' and starts with the area's root. Under the class invariant it starts with the root followed by '/'. |
| `Warehouses.Warehouse.SaveFilePath` | Warehouse/Source/Warehouse.swift:123-124 | The path saveFile writes to equals saveFileAndWait's: the save directory followed by the file name. |
| `Warehouses.Warehouse.CreateDirectoryIfNeeded` | Warehouse/Source/Warehouse.swift:85-100 | Returns true exactly when the create call succeeds with no error. The directory is then present, and nothing else changes. One request is logged. |
| `FileSystem.FileManager.CreateDirectoryAtPath` | Warehouse/Source/Warehouse.swift:88 | Creating a directory succeeds on a free path or an existing directory. It fails with an error on a file or a refused path. The entries change only on success. |
| `FileSystem.FileManager.CreateFileAtPath` | Warehouse/Source/Warehouse.swift:105 | Creating a file succeeds (overwriting) unless the path is a directory or refused. The entries change only on success. |
| `Warehouses.SaveOutcome` | Warehouse/Source/Warehouse.swift:102-116 | If the directory cannot be created, the save fails and the file system is unchanged. On success the file holds the contents. It succeeds exactly when both creates are possible. A refused file write leaves the file path's entry as it was. Only the directory and file paths change. |
| `Warehouses.SaveCalls` | Warehouse/Source/Warehouse.swift:104-115 | The directory is requested first. The file write is requested if and only if the directory could be created. No other request is made. |
| `Warehouses.Warehouse.SaveAndWait` | Warehouse/Source/Warehouse.swift:102-116 | The save's result and the new entries are SaveOutcome's, and the requests made are SaveCalls'. |
| `Warehouses.Warehouse.SaveFile` | Warehouse/Source/Warehouse.swift:118-145 | It names the closure the save reaches: success when the save succeeded, failure otherwise. Success receives the home-relative form of the target path. Failure always receives a nil error. |
| `Warehouses.Warehouse.SaveFileAndWait` | Warehouse/Source/Warehouse.swift:147-165 | A nil file name or nil contents returns nil without touching the file system. Otherwise it returns the relative path exactly when both creates succeed, and nil otherwise. |
| `FileSystem.ItemAt` | Warehouse/Source/Warehouse.swift:203 | The existence query reports presence exactly for paths in the map. It reports a directory exactly for a path that holds a directory. |
| `FileSystem.ContentsOfFile` | Warehouse/Source/Warehouse.swift:180 | Reading gives the stored bytes for a file, and nil for a directory or a missing path. |
| `Warehouses.OpenFile` | Warehouse/Source/Warehouse.swift:176-188 | nil gives nil. Otherwise it returns the bytes of the file at the translated path, and nil when that path holds no file. |
| `Warehouses.FileExistsAtPath` | Warehouse/Source/Warehouse.swift:197-213 | True exactly when the input is present and its translated path holds something that is not a directory. nil and directories give false. |
| `Warehouses.TranslateAbsoluteToRelative` | Warehouse/Source/Warehouse.swift:237-247 | nil maps to nil, and a path not under home is returned unchanged. A path under home gets shorter by at least the length of home. |
| `Warehouses.TranslateAbsoluteToRelativeStripsHome` | Warehouse/Source/Warehouse.swift:239-240 | If home occurs in a path only as its prefix, the relative form is exactly the rest of the path. |
| `Warehouses.TranslateAbsoluteToRelativeRemovesEveryOccurrence` | Warehouse/Source/Warehouse.swift:240 | Every occurrence of home is removed, not just the prefix: with home "/h", "/h/a/h" becomes "/a". |
| `Warehouses.HomeTwiceDoesNotRoundTrip` | Warehouse/Source/Warehouse.swift:237-259 | Consequently "/h/a/h" translates back to "/h/a", a different file. |
| `Warehouses.TranslateRelativeToAbsolute` | Warehouse/Source/Warehouse.swift:249-259 | nil maps to nil, and a path already under home is unchanged. If home does not end in '/', every result starts with home. Any other path is joined onto home: the result is home without trailing '/'s, one '/', and the path without leading '/'s, and nothing else. |
| `Warehouses.TranslateRelativeToAbsoluteIdempotent` | Warehouse/Source/Warehouse.swift:249-259 | For a home not ending in '/', translating to absolute twice equals translating once. |
| `Warehouses.TranslateRoundTrip` | Warehouse/Source/Warehouse.swift:237-259 | Take a home that is non-empty and does not end in '/'. Take a path that holds home only as its prefix and continues with exactly one '/' and at least one more character. Translating that path to relative and back gives the original path. |
| `Warehouses.ReopenSavedFile` | Warehouse/Source/Warehouse.swift:176-213 | A file written at such a path can be found again through the relative path the save returns. It is reported as existing, and re-opening it yields the saved bytes. |
| `Warehouses.SaveThenReopenScenario` | Warehouse/Source/Warehouse.swift:78-213 | A Temporary warehouse with a sub-directory saves a file on an empty, permissive file system. The save returns a relative path ending in the normalized sub-directory, '/' and the file name. Through that path the file exists and re-opens with its contents. |
| `Paths.AppendingPathComponent` | Warehouse/Source/Warehouse.swift:254 | The join puts exactly one '/' between the base (its trailing '/'s removed) and the component (its leading '/'s removed), and ends with the latter. |
| `Paths.AppendingPathComponentAbsorbsSeparators` | Warehouse/Source/Warehouse.swift:254 | A '/' already at the end of the base or the start of the component does not change the joined path. |
| `Paths.ReplacingOccurrences` | Warehouse/Source/Warehouse.swift:240 | A replacement no longer than the target never lengthens the string. When the string starts with the target, at least the target's length minus the replacement's is removed. |
| `Paths.ReplacingAbsent` | Warehouse/Source/Warehouse.swift:240 | A string that does not contain the target is returned unchanged. |
| `Paths.RemovingOnlyPrefix` | Warehouse/Source/Warehouse.swift:239-240 | Removing a target that occurs only as the prefix leaves exactly the rest of the string. |

## Left out

- The `dispatch_async` hop to a background queue and back in `saveFile` is concurrency plumbing. `SaveFile` performs the save in one step and returns the callback that would fire. Races between concurrent saves are not modelled.
- `WHLog` debug printing, the `NSError` value and the `attributes:` arguments are I/O detail. The model's errors only say whether an error was reported.
- `NSHomeDirectory`, `NSTemporaryDirectory` and `NSSearchPathForDirectoriesInDomains` are foreign calls, so their results are fields of `Platform`. The crash of `paths.first as!` on an empty search result is not modelled.
- `homeDirectoryPath`, `documentDirectoryPath` and `cacheDirectoryPath` only return those `Platform` fields, so they are not separate functions.
- `NSFileManager` semantics are simplified, because they are platform code:
  - paths are compared as plain strings, with no standardisation;
  - intermediate directories are not created or checked;
  - a file needs no existing parent directory;
  - failures other than a file in the way come only from the `refused` set.
- `openFile` reads through `NSData(contentsOfFile:)` and `fileExistsAtPath` asks the default file manager. Both are class functions, so in the model they take the file-system entries as a parameter.
- `AppendingPathComponent`: keeps only the separator rule of `stringByAppendingPathComponent`. It does not model Foundation's other path standardisation, such as collapsing `//` inside the component or returning the base unchanged for an empty component.
- `ReplacingOccurrences`: a literal, character-by-character, non-overlapping scan. It does not model Unicode canonical equivalence.
- `TranslateRoundTrip`: requires the remainder after home to begin with exactly one '/', not just with '/'. The join drops every leading '/', so a remainder beginning with `//` comes back with a single '/'. A remainder of just '/' is excluded too, because Foundation returns the base unchanged for an empty component.
- `SaveFile`: both closures are optional in the source, and a nil closure is simply not called. The model returns the closure the save reaches and does not model whether the caller supplied it.
- String comparison: Swift's `hasPrefix`, `hasSuffix` and `substringToIndex` work on grapheme clusters with canonical equivalence. The model compares and slices Dafny `char`s, so strings that differ only in Unicode normalisation are different here.
- `TranslateRelativeToAbsolute`: tests `hasPrefix(home)` with Dafny's prefix relation. In the source an empty needle is not a prefix, so the two differ only for an empty home directory, which the platform never reports.
- File contents are opaque byte sequences.
