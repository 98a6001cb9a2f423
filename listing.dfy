/** The directory-listing filters of src-tauri/src/lib.rs and the
    `pick_video_files` / `pick_audio_files` responses built from them. The
    directory itself is an input: the entries `read_dir` yields (None when the
    folder cannot be read), each already resolved to its file name, path,
    whether it is a regular file, and its size when `metadata` succeeds. */
module Listing {
  import opened Wrappers
  import opened HostTypes

  datatype DirEntry = DirEntry(name: string, path: string, isFile: bool, size: Option<U64>)

  type Listing = Option<seq<DirEntry>>

  const VIDEO_EXTENSIONS: seq<string> := ["mp4", "mkv", "webm", "avi", "mov"]

  /** The index of the last '.' in s, if any. */
  function LastDot(s: string): (r: Option<nat>)
    ensures r.Some? ==> r.value < |s| && s[r.value] == '.' && '.' !in s[r.value + 1..]
    ensures r.None? ==> '.' !in s
  {
    if s == [] then None
    else if s[|s| - 1] == '.' then Some(|s| - 1)
    else
      var r := LastDot(s[..|s| - 1]);
      assert s[..|s| - 1] + [s[|s| - 1]] == s;
      if r.Some? then
        assert s[r.value + 1..] == s[..|s| - 1][r.value + 1..] + [s[|s| - 1]];
        r
      else None
  }

  /** `Path::extension` of a file name, with a missing extension read as the
      empty string: the text after the last dot, unless there is no dot or
      the only dot starts the name. (Rust's special case for ".." gives no
      extension, which this rule yields as the empty text too.) */
  function Extension(name: string): string {
    match LastDot(name)
    case None => ""
    case Some(i) => if i == 0 then "" else name[i + 1..]
  }

  /** `char::to_lowercase` on the characters that lower-case to an ASCII
      letter: 'A'..'Z' and the Kelvin sign. Every other character is kept;
      Rust maps some of them to other non-ASCII characters (or to two
      characters), which never turns a string into one of the extensions. */
  function LowerChar(c: char): char {
    if 'A' <= c <= 'Z' then (c as int + 32) as char
    else if c == '\U{212A}' then 'k'
    else c
  }

  function Lower(s: string): (r: string)
    ensures |r| == |s|
    ensures forall i :: 0 <= i < |s| ==> r[i] == LowerChar(s[i])
  {
    if s == [] then [] else [LowerChar(s[0])] + Lower(s[1..])
  }

  predicate HasVideoExtension(name: string) {
    Lower(Extension(name)) in VIDEO_EXTENSIONS
  }

  /** The item built for a directory entry. */
  function ItemOf(e: DirEntry, fileType: string): FileItem {
    FileItem(e.name, e.path, fileType, e.size)
  }

  /** Every regular file of the listing, in listing order, with the given tag. */
  function Regular(entries: seq<DirEntry>, fileType: string): seq<FileItem> {
    if entries == [] then []
    else (if entries[0].isFile then [ItemOf(entries[0], fileType)] else []) + Regular(entries[1..], fileType)
  }

  /** The item a single entry contributes to the movie listing, if any. */
  function VideoOf(e: DirEntry): seq<FileItem> {
    if e.isFile && HasVideoExtension(e.name) then [ItemOf(e, "video")] else []
  }

  /** The regular files with a video extension, in listing order, tagged "video". */
  function Videos(entries: seq<DirEntry>): seq<FileItem> {
    if entries == [] then [] else VideoOf(entries[0]) + Videos(entries[1..])
  }

  /** The item itself when its name has a video extension, else nothing. */
  function KeepVideo(item: FileItem): seq<FileItem> {
    if HasVideoExtension(item.name) then [item] else []
  }

  /** The items whose name has a video extension, in order. */
  function WithVideoExtension(items: seq<FileItem>): seq<FileItem> {
    if items == [] then [] else KeepVideo(items[0]) + WithVideoExtension(items[1..])
  }

  function Entries(listing: Listing): seq<DirEntry> {
    listing.GetOr([])
  }

  /** `list_movie_videos`: None (an unreadable folder) gives no items. */
  method ListMovieVideos(listing: Listing) returns (items: seq<FileItem>)
    ensures items == Videos(Entries(listing))
  {
    items := [];
    if listing.None? {
      return;
    }
    var entries := listing.value;
    for i := 0 to |entries|
      invariant items == Videos(entries[..i])
    {
      var entry := entries[i];
      VideosSnoc(entries, i);
      if !entry.isFile {
        continue;
      }
      var ext := Lower(Extension(entry.name));
      if ext !in VIDEO_EXTENSIONS {
        continue;
      }
      items := items + [FileItem(entry.name, entry.path, "video", entry.size)];
    }
    assert entries[..|entries|] == entries;
  }

  /** `list_folder_files`: every regular file, tagged "video". */
  method ListFolderFiles(listing: Listing) returns (items: seq<FileItem>)
    ensures items == Regular(Entries(listing), "video")
  {
    items := [];
    if listing.None? {
      return;
    }
    var entries := listing.value;
    for i := 0 to |entries|
      invariant items == Regular(entries[..i], "video")
    {
      var entry := entries[i];
      RegularSnoc(entries, i, "video");
      if !entry.isFile {
        continue;
      }
      items := items + [FileItem(entry.name, entry.path, "video", entry.size)];
    }
    assert entries[..|entries|] == entries;
  }

  /** The map in `pick_audio_files` that retags each item "audio". */
  function RetagAudio(items: seq<FileItem>): (r: seq<FileItem>)
    ensures |r| == |items|
  {
    seq(|items|, i requires 0 <= i < |items| => items[i].(fileType := "audio"))
  }

  // ---- The pick commands ----------------------------------------------
  // The dialogs are inputs: `folder` is the folder the folder dialog
  // returned, `file` the file the file dialog returned, None when canceled.

  const NOTHING_PICKED: PickResponse := PickResponse(None, [])

  /** `pick_video_files`: only "movie" and "series" open the dialog; a movie
      folder is filtered to videos, a series folder lists every regular file. */
  function PickVideoFiles(mode: string, folder: Option<string>, listing: Listing): (r: PickResponse)
    ensures r.folder.Some? <==> (mode == "movie" || mode == "series") && folder.Some?
    ensures r.folder.Some? ==> r.folder == folder
    ensures r.folder.None? ==> r.files == []
    ensures mode == "movie" && folder.Some? ==> r.files == Videos(Entries(listing))
    ensures mode == "series" && folder.Some? ==> r.files == Regular(Entries(listing), "video")
    ensures forall k :: 0 <= k < |r.files| ==> r.files[k].fileType == "video"
  {
    if mode != "movie" && mode != "series" then NOTHING_PICKED
    else if folder.None? then NOTHING_PICKED
    else
      var files := if mode == "movie" then Videos(Entries(listing)) else Regular(Entries(listing), "video");
      VideosAreTaggedVideos(Entries(listing));
      RegularIsTagged(Entries(listing), "video");
      PickResponse(folder, files)
  }

  /** What the file dialog yields for a picked file: its file name (empty
      when it has none), its path, its parent folder and its size. */
  datatype PickedFile = PickedFile(name: string, path: string, parent: Option<string>, size: Option<U64>)

  /** `pick_audio_files`: "movie" picks one file; every other mode picks a
      folder and lists its regular files, retagged "audio". */
  function PickAudioFiles(mode: string, file: Option<PickedFile>, folder: Option<string>, listing: Listing): (r: PickResponse)
    ensures forall k :: 0 <= k < |r.files| ==> r.files[k].fileType == "audio"
    ensures mode == "movie" ==> |r.files| == (if file.Some? then 1 else 0)
    ensures mode == "movie" && file.None? ==> r.folder.None?
    ensures mode == "movie" && file.Some? ==>
      && r.folder == file.value.parent
      && r.files[0].path == file.value.path && r.files[0].name == file.value.name
      && r.files[0].size == file.value.size
    ensures mode != "movie" ==> (r.folder.Some? <==> folder.Some?) && (r.folder.Some? ==> r.folder == folder)
    ensures mode != "movie" && folder.Some? ==> r.files == Regular(Entries(listing), "audio")
    ensures mode != "movie" && folder.None? ==> r.files == []
  {
    if mode == "movie" then
      match file
      case None => NOTHING_PICKED
      case Some(f) => PickResponse(f.parent, [FileItem(f.name, f.path, "audio", f.size)])
    else if folder.None? then NOTHING_PICKED
    else
      RetaggedFolderIsAudioListing(Entries(listing));
      RegularIsTagged(Entries(listing), "audio");
      PickResponse(folder, RetagAudio(Regular(Entries(listing), "video")))
  }

  // ---- Properties -------------------------------------------------------

  lemma {:induction false} RegularAppend(a: seq<DirEntry>, b: seq<DirEntry>, fileType: string)
    ensures Regular(a + b, fileType) == Regular(a, fileType) + Regular(b, fileType)
  {
    if a == [] {
      assert a + b == b;
    } else {
      assert (a + b)[1..] == a[1..] + b;
      RegularAppend(a[1..], b, fileType);
    }
  }

  lemma {:induction false} VideosAppend(a: seq<DirEntry>, b: seq<DirEntry>)
    ensures Videos(a + b) == Videos(a) + Videos(b)
  {
    if a == [] {
      assert a + b == b;
    } else {
      assert (a + b)[1..] == a[1..] + b;
      VideosAppend(a[1..], b);
    }
  }

  lemma {:induction false} VideosSnoc(entries: seq<DirEntry>, i: nat)
    requires i < |entries|
    ensures Videos(entries[..i + 1]) == Videos(entries[..i]) + VideoOf(entries[i])
  {
    assert entries[..i + 1] == entries[..i] + [entries[i]];
    VideosAppend(entries[..i], [entries[i]]);
    assert Videos([entries[i]]) == VideoOf(entries[i]) + Videos([]);
  }

  lemma {:induction false} RegularSnoc(entries: seq<DirEntry>, i: nat, fileType: string)
    requires i < |entries|
    ensures Regular(entries[..i + 1], fileType)
         == Regular(entries[..i], fileType) + (if entries[i].isFile then [ItemOf(entries[i], fileType)] else [])
  {
    assert entries[..i + 1] == entries[..i] + [entries[i]];
    RegularAppend(entries[..i], [entries[i]], fileType);
    assert Regular([entries[i]], fileType)
        == (if entries[i].isFile then [ItemOf(entries[i], fileType)] else []) + Regular([], fileType);
  }

  /** The movie filter is the folder listing narrowed to video extensions:
      same items, same order, same tag. */
  lemma {:induction false} VideosAreFilteredFolderFiles(entries: seq<DirEntry>)
    ensures Videos(entries) == WithVideoExtension(Regular(entries, "video"))
  {
    if entries != [] {
      VideosAreFilteredFolderFiles(entries[1..]);
      var head := if entries[0].isFile then [ItemOf(entries[0], "video")] else [];
      WithVideoExtensionAppend(head, Regular(entries[1..], "video"));
    }
  }

  lemma {:induction false} WithVideoExtensionAppend(a: seq<FileItem>, b: seq<FileItem>)
    ensures WithVideoExtension(a + b) == WithVideoExtension(a) + WithVideoExtension(b)
  {
    if a == [] {
      assert a + b == b;
    } else {
      calc {
        WithVideoExtension(a + b);
        { assert (a + b)[0] == a[0]; assert (a + b)[1..] == a[1..] + b; }
        KeepVideo(a[0]) + WithVideoExtension(a[1..] + b);
        { WithVideoExtensionAppend(a[1..], b); }
        KeepVideo(a[0]) + (WithVideoExtension(a[1..]) + WithVideoExtension(b));
        (KeepVideo(a[0]) + WithVideoExtension(a[1..])) + WithVideoExtension(b);
      }
    }
  }

  /** An item is listed exactly when some regular file of the listing has a
      video extension and yields it. */
  lemma {:induction false} VideosMembership(entries: seq<DirEntry>, item: FileItem)
    ensures item in Videos(entries) <==>
      exists i :: 0 <= i < |entries| && entries[i].isFile && HasVideoExtension(entries[i].name)
                  && item == ItemOf(entries[i], "video")
  {
    if entries != [] {
      VideosMembership(entries[1..], item);
      if item in Videos(entries[1..]) {
        var j :| 0 <= j < |entries[1..]| && entries[1..][j].isFile && HasVideoExtension(entries[1..][j].name)
                 && item == ItemOf(entries[1..][j], "video");
        assert entries[j + 1] == entries[1..][j];
      }
      if exists i :: 0 <= i < |entries| && entries[i].isFile && HasVideoExtension(entries[i].name)
                     && item == ItemOf(entries[i], "video") {
        var i :| 0 <= i < |entries| && entries[i].isFile && HasVideoExtension(entries[i].name)
                 && item == ItemOf(entries[i], "video");
        if i > 0 {
          assert entries[1..][i - 1] == entries[i];
        }
      }
    }
  }

  /** Every listed movie file is tagged "video" and has a video extension. */
  lemma {:induction false} VideosAreTaggedVideos(entries: seq<DirEntry>)
    ensures forall k :: 0 <= k < |Videos(entries)| ==>
      Videos(entries)[k].fileType == "video" && HasVideoExtension(Videos(entries)[k].name)
  {
    if entries != [] {
      VideosAreTaggedVideos(entries[1..]);
    }
  }

  lemma {:induction false} RegularIsTagged(entries: seq<DirEntry>, fileType: string)
    ensures forall k :: 0 <= k < |Regular(entries, fileType)| ==> Regular(entries, fileType)[k].fileType == fileType
  {
    if entries != [] {
      RegularIsTagged(entries[1..], fileType);
    }
  }

  /** Retagging changes the tag of every item to "audio" and nothing else. */
  lemma {:induction false} RetagAudioOnlyChangesTag(items: seq<FileItem>)
    ensures forall k :: 0 <= k < |items| ==>
      var r := RetagAudio(items)[k];
      r.fileType == "audio" && r.name == items[k].name && r.path == items[k].path && r.size == items[k].size
  {
  }

  /** The audio folder listing is the folder listing built with the "audio" tag. */
  lemma {:induction false} RetaggedFolderIsAudioListing(entries: seq<DirEntry>)
    ensures RetagAudio(Regular(entries, "video")) == Regular(entries, "audio")
  {
    if entries != [] {
      RetaggedFolderIsAudioListing(entries[1..]);
      var head := if entries[0].isFile then [ItemOf(entries[0], "video")] else [];
      RetagAudioAppend(head, Regular(entries[1..], "video"));
    }
  }

  lemma {:induction false} RetagAudioAppend(a: seq<FileItem>, b: seq<FileItem>)
    ensures RetagAudio(a + b) == RetagAudio(a) + RetagAudio(b)
  {
  }

  // ---- The extension test ---------------------------------------------

  /** The last dot of `prefix + "." + suffix`, when the suffix has none, is
      the one between them. */
  lemma {:induction false} LastDotBeforeSuffix(prefix: string, suffix: string)
    requires '.' !in suffix
    ensures LastDot(prefix + "." + suffix) == Some(|prefix|)
  {
    var name := prefix + "." + suffix;
    if suffix != [] {
      var shorter := suffix[..|suffix| - 1];
      assert name[..|name| - 1] == prefix + "." + shorter;
      assert suffix[|suffix| - 1] in suffix;
      LastDotBeforeSuffix(prefix, shorter);
    }
  }

  /** A name made of a non-empty stem, a dot and a dot-free suffix has that
      suffix as its extension, whatever the stem holds. */
  lemma {:induction false} ExtensionAfterLastDot(stem: string, ext: string)
    requires stem != [] && '.' !in ext
    ensures Extension(stem + "." + ext) == ext
  {
    LastDotBeforeSuffix(stem, ext);
    assert (stem + "." + ext)[|stem| + 1..] == ext;
  }

  /** A name without a dot, or whose only dot starts it, has no extension. */
  lemma {:induction false} NoExtension(name: string)
    requires '.' !in name || (name != [] && name[0] == '.' && '.' !in name[1..])
    ensures Extension(name) == ""
  {
    if '.' in name {
      assert name == [] + "." + name[1..];
      LastDotBeforeSuffix([], name[1..]);
    }
  }

  /** The test is case-insensitive: a name ending in ".MP4" is a video. */
  lemma {:induction false} UpperCaseExtensionIsVideo(stem: string)
    requires stem != []
    ensures HasVideoExtension(stem + ".MP4")
  {
    assert stem + ".MP4" == stem + "." + "MP4";
    ExtensionAfterLastDot(stem, "MP4");
    assert Lower("MP4") == "mp4";
  }

  /** The Kelvin sign lower-cases to 'k', so it matches "mkv". */
  lemma {:induction false} KelvinSignExtensionIsVideo()
    ensures HasVideoExtension("show.M\U{212A}V")
  {
    ExtensionAfterLastDot("show", "M\U{212A}V");
    assert Lower("M\U{212A}V") == "mkv";
  }

  /** A hidden file named after an extension, or a bare word, is not a video. */
  lemma {:induction false} DotFileIsNotVideo()
    ensures !HasVideoExtension(".mp4")
    ensures !HasVideoExtension("mp4")
  {
    NoExtension(".mp4");
    NoExtension("mp4");
  }
}
