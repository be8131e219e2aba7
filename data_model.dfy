/**
 * The media index (DataModel.java): catalogue queries answered from MediaStore cursors. A folder
 * listing reduces every audio file path to its directory and lists each directory once; a query
 * task turns cursor rows into browsable or playable items and, for a by-key query, rebuilds the
 * shared candidate queue with ids 0, 1, 2, ...; at most one task is pending at a time.
 *
 * The content resolver is a parameter: each URI's answer is given as a Response. Task
 * execution is a sequential call; the result objects are named by number.
 */
module LocalDataModel {
  import opened MediaTypes

  // MediaBrowser.MediaItem flags
  const FLAG_BROWSABLE: int := 1
  const FLAG_PLAYABLE: int := 2

  /** File.separator. */
  const SEPARATOR: char := '/'

  /** The selection QUERY_BY_KEY_WHERE_CLAUSE builds from the MediaStore column names. */
  const QUERY_BY_KEY_WHERE_CLAUSE: string := "album_key= ? or artist_key = ? or title_key = ? or _data like ?"

  datatype MediaItem = MediaItem(description: MediaDescription, flags: int)

  datatype Volume = Internal | External

  /** The MediaStore tables queried: audio files, albums, artists, genres and one genre's members. */
  datatype Uri =
    | AudioMedia(volume: Volume)
    | Albums(volume: Volume)
    | Artists(volume: Volume)
    | Genres(volume: Volume)
    | GenreMembers(volume: Volume, genreId: int)

  const ALL_AUDIO_URI: seq<Uri> := [AudioMedia(Internal), AudioMedia(External)]
  const ALBUMS_URI: seq<Uri> := [Albums(Internal), Albums(External)]
  const ARTISTS_URI: seq<Uri> := [Artists(Internal), Artists(External)]
  const GENRES_URI: seq<Uri> := [Genres(Internal), Genres(External)]

  /** The MediaStore columns the queries name. */
  datatype Column = AlbumKey | AlbumName | ArtistKey | ArtistName | GenreId | GenreName | TitleKey | TitleName

  /**
   * One cursor row: the key and title columns' values, the file path (the DATA column) and the
   * subtitle column's value.
   */
  datatype Row = Row(key: string, title: string, path: string, subtitle: string)

  /**
   * What the resolver answers for one URI: no cursor at all, or a cursor that says whether it
   * has the DATA and the subtitle column, yields its rows, and then throws SQLiteException if
   * `throws` (a query that throws at once is a cursor with no rows that throws).
   */
  datatype Response =
    | NoCursor
    | Cursor(hasPath: bool, hasSubtitle: bool, rows: seq<Row>, throws: bool)

  // ---------------------------------------------------------------------------
  // Folder listing (FilesystemListTask)

  /** String.lastIndexOf for one character: the last position of c in s, or -1. */
  function LastIndexOf(s: string, c: char): (r: int)
    ensures r == -1 <==> c !in s
    ensures r != -1 ==> 0 <= r < |s| && s[r] == c && c !in s[r + 1..]
  {
    if s == [] then -1
    else if s[|s| - 1] == c then |s| - 1
    else
      var r := LastIndexOf(s[..|s| - 1], c);
      assert s == s[..|s| - 1] + [s[|s| - 1]];
      r
  }

  /** The directory of a full path: the text before its last separator; none without one. */
  function DirectoryOf(path: string): (r: Option<string>)
    ensures r.None? <==> SEPARATOR !in path
    ensures r.Some? ==> |r.value| < |path| && path[..|r.value|] == r.value && path[|r.value|] == SEPARATOR
                        && SEPARATOR !in path[|r.value| + 1..]
  {
    var fileNameStart := LastIndexOf(path, SEPARATOR);
    if fileNameStart < 0 then None else Some(path[..fileNameStart])
  }

  /** The directory's own name: the text after its last separator (all of it without one). */
  function DirName(dir: string): (r: string)
    ensures SEPARATOR !in r && |r| <= |dir| && dir[|dir| - |r|..] == r
    ensures |r| < |dir| ==> dir[|dir| - |r| - 1] == SEPARATOR
  {
    var dirNameStart := LastIndexOf(dir, SEPARATOR) + 1;
    dir[dirNameStart..]
  }

  /** The browsable item listed for a directory: id dir + "%", its name as title, its path as subtitle. */
  function FolderItem(dir: string): MediaItem {
    MediaItem(MediaDescription(dir + "%", DirName(dir), dir, ""), FLAG_BROWSABLE)
  }

  /** The directories of the given rows' paths. */
  function RowDirectories(rows: seq<Row>): set<string> {
    if rows == [] then {}
    else
      var last := rows[|rows| - 1];
      RowDirectories(rows[..|rows| - 1]) + (match DirectoryOf(last.path) case None => {} case Some(d) => {d})
  }

  /** The directories of every row of every cursor. */
  function Directories(responses: seq<Response>): set<string> {
    if responses == [] then {}
    else
      var last := responses[|responses| - 1];
      Directories(responses[..|responses| - 1]) + (if last.Cursor? then RowDirectories(last.rows) else {})
  }

  /** Every row with a directory contributes it. */
  lemma {:induction false} RowDirectoriesComplete(rows: seq<Row>, j: nat, d: string)
    requires j < |rows| && DirectoryOf(rows[j].path) == Some(d)
    ensures d in RowDirectories(rows)
    decreases |rows|
  {
    var init := rows[..|rows| - 1];
    if j < |init| {
      assert init[j] == rows[j];
      RowDirectoriesComplete(init, j, d);
    }
  }

  /** Every collected directory comes from some row. */
  lemma {:induction false} RowDirectoriesSound(rows: seq<Row>, d: string)
    requires d in RowDirectories(rows)
    ensures exists j :: 0 <= j < |rows| && DirectoryOf(rows[j].path) == Some(d)
    decreases |rows|
  {
    var init := rows[..|rows| - 1];
    if d in RowDirectories(init) {
      RowDirectoriesSound(init, d);
      var j :| 0 <= j < |init| && DirectoryOf(init[j].path) == Some(d);
      assert rows[j] == init[j];
    } else {
      assert DirectoryOf(rows[|rows| - 1].path) == Some(d);
    }
  }

  lemma {:induction false} RowDirectoriesExactly(rows: seq<Row>, d: string)
    ensures d in RowDirectories(rows) <==> exists j :: 0 <= j < |rows| && DirectoryOf(rows[j].path) == Some(d)
  {
    if d in RowDirectories(rows) {
      RowDirectoriesSound(rows, d);
    }
    if exists j :: 0 <= j < |rows| && DirectoryOf(rows[j].path) == Some(d) {
      var j :| 0 <= j < |rows| && DirectoryOf(rows[j].path) == Some(d);
      RowDirectoriesComplete(rows, j, d);
    }
  }

  /** Whether d is the directory of some row of this response's cursor. */
  predicate InResponse(r: Response, d: string) {
    r.Cursor? && d in RowDirectories(r.rows)
  }

  lemma {:induction false} DirectoriesComplete(responses: seq<Response>, i: nat, d: string)
    requires i < |responses| && InResponse(responses[i], d)
    ensures d in Directories(responses)
    decreases |responses|
  {
    var init := responses[..|responses| - 1];
    if i < |init| {
      assert init[i] == responses[i];
      DirectoriesComplete(init, i, d);
    }
  }

  lemma {:induction false} DirectoriesSound(responses: seq<Response>, d: string)
    requires d in Directories(responses)
    ensures exists i :: 0 <= i < |responses| && InResponse(responses[i], d)
    decreases |responses|
  {
    var init := responses[..|responses| - 1];
    if d in Directories(init) {
      DirectoriesSound(init, d);
      var i :| 0 <= i < |init| && InResponse(init[i], d);
      assert responses[i] == init[i];
    } else {
      assert InResponse(responses[|responses| - 1], d);
    }
  }

  /**
   * A directory is listed exactly when some cursor has a row in it (a row whose path has no
   * separator contributes nothing, by RowDirectoriesExactly).
   */
  lemma {:induction false} DirectoriesExactly(responses: seq<Response>, d: string)
    ensures d in Directories(responses) <==> exists i :: 0 <= i < |responses| && InResponse(responses[i], d)
  {
    if d in Directories(responses) {
      DirectoriesSound(responses, d);
    }
    if exists i :: 0 <= i < |responses| && InResponse(responses[i], d) {
      var i :| 0 <= i < |responses| && InResponse(responses[i], d);
      DirectoriesComplete(responses, i, d);
    }
  }

  /** Distinct directories give distinct items, so the listing holds no duplicate. */
  lemma FolderItemInjective(d1: string, d2: string)
    ensures FolderItem(d1) == FolderItem(d2) ==> d1 == d2
  {
  }

  lemma RowDirectoriesSnoc(rows: seq<Row>, k: nat)
    requires k < |rows|
    ensures RowDirectories(rows[..k + 1])
      == RowDirectories(rows[..k]) + (match DirectoryOf(rows[k].path) case None => {} case Some(d) => {d})
  {
    assert rows[..k + 1][..k] == rows[..k];
  }

  lemma DirectoriesSnoc(responses: seq<Response>, u: nat)
    requires u < |responses|
    ensures Directories(responses[..u + 1])
      == Directories(responses[..u]) + (if responses[u].Cursor? then RowDirectories(responses[u].rows) else {})
  {
    assert responses[..u + 1][..u] == responses[..u];
  }

  /** The inner loop of the first loop: add the directory of every row's path. */
  method AddRowDirectories(paths: set<string>, rows: seq<Row>) returns (r: set<string>)
    ensures r == paths + RowDirectories(rows)
  {
    r := paths;
    var k := 0;
    while k < |rows|
      invariant 0 <= k <= |rows|
      invariant r == paths + RowDirectories(rows[..k])
    {
      RowDirectoriesSnoc(rows, k);
      var fullPath := rows[k].path;
      var fileNameStart := LastIndexOf(fullPath, SEPARATOR);
      if fileNameStart >= 0 {
        r := r + {fullPath[..fileNameStart]};
      }
      k := k + 1;
    }
    assert rows[..k] == rows;
  }

  /** The first loop of FilesystemListTask.doInBackground: the set of directories. */
  method CollectDirectories(responses: seq<Response>) returns (paths: set<string>)
    ensures paths == Directories(responses)
  {
    paths := {};
    var u := 0;
    while u < |responses|
      invariant 0 <= u <= |responses|
      invariant paths == Directories(responses[..u])
    {
      DirectoriesSnoc(responses, u);
      var response := responses[u];
      if response.Cursor? {
        paths := AddRowDirectories(paths, response.rows);
      }
      u := u + 1;
    }
    assert responses[..u] == responses;
  }

  /** The second loop's invariant: `listed` holds, without repeats, the directories already done. */
  ghost predicate ListedSoFar(paths: set<string>, remaining: set<string>, listed: seq<string>, results: seq<MediaItem>) {
    && remaining <= paths
    && |results| == |listed|
    && (forall i :: 0 <= i < |listed| ==> results[i] == FolderItem(listed[i]))
    && (forall i :: 0 <= i < |listed| ==> listed[i] in paths && listed[i] !in remaining)
    && (forall i, j :: 0 <= i < j < |listed| ==> listed[i] != listed[j])
    && (forall d :: d in paths && d !in remaining ==> d in listed)
    && |listed| + |remaining| == |paths|
  }

  /** Listing one more remaining directory keeps the invariant. */
  lemma ListedStep(paths: set<string>, remaining: set<string>, listed: seq<string>, results: seq<MediaItem>, path: string)
    requires ListedSoFar(paths, remaining, listed, results) && path in remaining
    ensures ListedSoFar(paths, remaining - {path}, listed + [path], results + [FolderItem(path)])
  {
    var listed', results', remaining' := listed + [path], results + [FolderItem(path)], remaining - {path};
    forall i | 0 <= i < |listed'|
      ensures results'[i] == FolderItem(listed'[i]) && listed'[i] in paths && listed'[i] !in remaining'
    {
      if i < |listed| {
        assert listed'[i] == listed[i] && results'[i] == results[i];
      }
    }
    forall i, j | 0 <= i < j < |listed'| ensures listed'[i] != listed'[j] {
      assert listed'[i] == listed[i];
      if j == |listed| {
        assert listed[i] !in remaining;
      } else {
        assert listed'[j] == listed[j];
      }
    }
    forall d | d in paths && d !in remaining' ensures d in listed' {
      if d != path {
        assert d in listed;
      }
    }
    assert |remaining'| == |remaining| - 1;
  }

  /** The second loop: one folder item per directory, in the set's (unspecified) order. */
  method ListDirectories(paths: set<string>) returns (results: seq<MediaItem>)
    ensures |results| == |paths|
    ensures forall d :: d in paths <==> FolderItem(d) in results
    ensures forall i :: 0 <= i < |results| ==>
      results[i].description.subtitle in paths && results[i] == FolderItem(results[i].description.subtitle)
    ensures forall i, j :: 0 <= i < j < |results| ==> results[i] != results[j]
  {
    results := [];
    ghost var listed: seq<string> := [];
    var remaining := paths;
    while remaining != {}
      invariant ListedSoFar(paths, remaining, listed, results)
      decreases |remaining|
    {
      var path :| path in remaining;
      ListedStep(paths, remaining, listed, results, path);
      results := results + [FolderItem(path)];
      listed := listed + [path];
      remaining := remaining - {path};
    }
    ListingCovers(paths, listed, results);
  }

  /** A duplicate-free listing of every directory, mapped through FolderItem, lists each one once. */
  lemma ListingCovers(paths: set<string>, listed: seq<string>, results: seq<MediaItem>)
    requires |results| == |listed|
    requires forall i :: 0 <= i < |listed| ==> results[i] == FolderItem(listed[i]) && listed[i] in paths
    requires forall i, j :: 0 <= i < j < |listed| ==> listed[i] != listed[j]
    requires forall d :: d in paths ==> d in listed
    ensures forall d :: d in paths <==> FolderItem(d) in results
    ensures forall i :: 0 <= i < |results| ==>
      results[i].description.subtitle in paths && results[i] == FolderItem(results[i].description.subtitle)
    ensures forall i, j :: 0 <= i < j < |results| ==> results[i] != results[j]
  {
    forall d | d in paths ensures FolderItem(d) in results {
      var i :| 0 <= i < |listed| && listed[i] == d;
      assert results[i] == FolderItem(d);
    }
    forall d | FolderItem(d) in results ensures d in paths {
      var i :| 0 <= i < |results| && results[i] == FolderItem(d);
      FolderItemInjective(listed[i], d);
    }
    forall i, j | 0 <= i < j < |results| ensures results[i] != results[j] {
      FolderItemInjective(listed[i], listed[j]);
    }
  }

  /**
   * FilesystemListTask.doInBackground: collect the directory of every path into a set, then
   * list each directory once.
   */
  method ListFolders(responses: seq<Response>) returns (results: seq<MediaItem>)
    ensures |results| == |Directories(responses)|
    ensures forall d :: d in Directories(responses) <==> FolderItem(d) in results
    ensures forall i :: 0 <= i < |results| ==>
      results[i].description.subtitle in Directories(responses)
      && results[i] == FolderItem(results[i].description.subtitle)
    ensures forall i, j :: 0 <= i < j < |results| ==> results[i] != results[j]
  {
    var paths := CollectDirectories(responses);
    results := ListDirectories(paths);
  }

  // ---------------------------------------------------------------------------
  // Query tasks (QueryTask, QueryTask.Builder)

  /** A built query: what is asked of which tables, and whether rows also feed the candidate queue. */
  datatype QueryTask = QueryTask(
    uris: seq<Uri>,
    whereClause: Option<string>,
    whereArgs: Option<seq<string>>,
    keyColumn: Column,
    titleColumn: Column,
    subtitleColumn: Option<Column>,
    flags: int,
    fillsQueue: bool)

  /**
   * QueryTask.Builder: every setter fills one field; `hasResolver`/`hasResult` say whether the
   * resolver and the result were given. The projection (setColumns) is never set and is omitted.
   */
  datatype Builder = Builder(
    hasResolver: bool,
    hasResult: bool,
    uris: Option<seq<Uri>>,
    whereClause: Option<string>,
    whereArgs: Option<seq<string>>,
    keyColumn: Option<Column>,
    titleColumn: Option<Column>,
    subtitleColumn: Option<Column>,
    flags: int,
    fillsQueue: bool)

  const EMPTY_BUILDER: Builder := Builder(false, false, None, None, None, None, None, None, 0, false)

  /** Builder.build: refuses (IllegalStateException) when a required field is missing. */
  function Build(b: Builder): (r: Option<QueryTask>)
    ensures r.None? <==> b.uris.None? || b.keyColumn.None? || !b.hasResolver || !b.hasResult || b.titleColumn.None?
    ensures r.Some? ==> && r.value.uris == b.uris.value && r.value.keyColumn == b.keyColumn.value
                        && r.value.titleColumn == b.titleColumn.value && r.value.subtitleColumn == b.subtitleColumn
                        && r.value.whereClause == b.whereClause && r.value.whereArgs == b.whereArgs
                        && r.value.flags == b.flags && r.value.fillsQueue == b.fillsQueue
  {
    if b.uris.None? || b.keyColumn.None? || !b.hasResolver || !b.hasResult || b.titleColumn.None? then None
    else Some(QueryTask(b.uris.value, b.whereClause, b.whereArgs, b.keyColumn.value, b.titleColumn.value,
                        b.subtitleColumn, b.flags, b.fillsQueue))
  }

  /** A browsable-category builder as onQueryByAlbum/Artist/Genre write it. */
  function CategoryBuilder(uris: seq<Uri>, keyColumn: Column, titleColumn: Column): Builder {
    EMPTY_BUILDER.(hasResolver := true, hasResult := true, uris := Some(uris), keyColumn := Some(keyColumn),
                   titleColumn := Some(titleColumn), flags := FLAG_BROWSABLE)
  }

  /** The item a row becomes: key as media id, title, subtitle and path when the cursor has them. */
  function RowItem(task: QueryTask, c: Response, row: Row): MediaItem
    requires c.Cursor?
  {
    var subtitle := if task.subtitleColumn.Some? && c.hasSubtitle then row.subtitle else "";
    var path := if c.hasPath then row.path else "";
    MediaItem(MediaDescription(row.key, row.title, subtitle, path), task.flags)
  }

  function RowItems(task: QueryTask, c: Response, rows: seq<Row>): seq<MediaItem>
    requires c.Cursor?
  {
    if rows == [] then [] else RowItems(task, c, rows[..|rows| - 1]) + [RowItem(task, c, rows[|rows| - 1])]
  }

  /** Every row of every cursor, in URI order then row order. */
  function QueryItems(task: QueryTask, responses: seq<Response>): seq<MediaItem> {
    if responses == [] then []
    else
      var last := responses[|responses| - 1];
      QueryItems(task, responses[..|responses| - 1]) + (if last.Cursor? then RowItems(task, last, last.rows) else [])
  }

  function RowCount(responses: seq<Response>): nat {
    if responses == [] then 0
    else
      var last := responses[|responses| - 1];
      RowCount(responses[..|responses| - 1]) + (if last.Cursor? then |last.rows| else 0)
  }

  lemma {:induction false} RowItemsShape(task: QueryTask, c: Response, rows: seq<Row>)
    requires c.Cursor?
    ensures |RowItems(task, c, rows)| == |rows|
    ensures forall k :: 0 <= k < |rows| ==> RowItems(task, c, rows)[k] == RowItem(task, c, rows[k])
    decreases |rows|
  {
    if rows != [] {
      RowItemsShape(task, c, rows[..|rows| - 1]);
    }
  }

  /**
   * One result per row of every cursor, each with the task's flags; a URI whose query throws
   * keeps the rows read before the throw and does not stop the later URIs.
   */
  lemma {:induction false} QueryItemsShape(task: QueryTask, responses: seq<Response>)
    ensures |QueryItems(task, responses)| == RowCount(responses)
    ensures forall m :: m in QueryItems(task, responses) ==> m.flags == task.flags
    decreases |responses|
  {
    if responses != [] {
      var last := responses[|responses| - 1];
      QueryItemsShape(task, responses[..|responses| - 1]);
      if last.Cursor? {
        RowItemsShape(task, last, last.rows);
      }
    }
  }

  lemma {:induction false} QueryItemsConcat(task: QueryTask, a: seq<Response>, b: seq<Response>)
    ensures QueryItems(task, a + b) == QueryItems(task, a) + QueryItems(task, b)
    decreases |b|
  {
    if b == [] {
      assert a + b == a;
    } else {
      var b' := b[..|b| - 1];
      assert (a + b)[..|a + b| - 1] == a + b';
      assert (a + b)[|a + b| - 1] == b[|b| - 1];
      QueryItemsConcat(task, a, b');
    }
  }

  /** The queue entries of a by-key query: each result's description, numbered from 0. */
  function NumberedQueue(results: seq<MediaItem>): seq<QueueItem> {
    seq(|results|, k requires 0 <= k < |results| => QueueItem(results[k].description, k))
  }

  lemma NumberedQueueSnoc(results: seq<MediaItem>, item: MediaItem)
    ensures NumberedQueue(results + [item]) == NumberedQueue(results) + [QueueItem(item.description, |results|)]
  {
  }

  lemma RowItemsSnoc(task: QueryTask, c: Response, rows: seq<Row>, k: nat)
    requires c.Cursor? && k < |rows|
    ensures RowItems(task, c, rows[..k + 1]) == RowItems(task, c, rows[..k]) + [RowItem(task, c, rows[k])]
  {
    assert rows[..k + 1][..k] == rows[..k];
  }

  lemma QueryItemsSnoc(task: QueryTask, responses: seq<Response>, u: nat)
    requires u < |responses|
    ensures QueryItems(task, responses[..u + 1]) == QueryItems(task, responses[..u])
      + (if responses[u].Cursor? then RowItems(task, responses[u], responses[u].rows) else [])
  {
    assert responses[..u + 1][..u] == responses[..u];
  }

  /**
   * The inner loop of QueryTask.doInBackground for one cursor: append each row's item and,
   * with a queue attached, its description with the running id.
   */
  method AppendRowItems(task: QueryTask, c: Response, results0: seq<MediaItem>, appended0: seq<QueueItem>)
    returns (results: seq<MediaItem>, appended: seq<QueueItem>)
    requires c.Cursor?
    requires appended0 == if task.fillsQueue then NumberedQueue(results0) else []
    ensures results == results0 + RowItems(task, c, c.rows)
    ensures appended == if task.fillsQueue then NumberedQueue(results) else []
  {
    results := results0;
    appended := appended0;
    var rows := c.rows;
    var idx := |results|;
    var k := 0;
    while k < |rows|
      invariant 0 <= k <= |rows|
      invariant results == results0 + RowItems(task, c, rows[..k])
      invariant idx == |results|
      invariant appended == if task.fillsQueue then NumberedQueue(results) else []
    {
      RowItemsSnoc(task, c, rows, k);
      var item := RowItem(task, c, rows[k]);
      NumberedQueueSnoc(results, item);
      results := results + [item];
      if task.fillsQueue {
        appended := appended + [QueueItem(item.description, idx)];
      }
      idx := idx + 1;
      k := k + 1;
    }
    assert rows[..k] == rows;
  }

  /**
   * QueryTask.doInBackground: read every row of every URI, catching SQLiteException per URI;
   * with a queue attached, append each row's description with the running id.
   */
  method RunQueryTask(task: QueryTask, responses: seq<Response>) returns (results: seq<MediaItem>, appended: seq<QueueItem>)
    ensures results == QueryItems(task, responses)
    ensures !task.fillsQueue ==> appended == []
    ensures task.fillsQueue ==>
      && |appended| == |results|
      && forall k :: 0 <= k < |appended| ==> appended[k] == QueueItem(results[k].description, k)
  {
    results := [];
    appended := [];
    var u := 0;
    while u < |responses|
      invariant 0 <= u <= |responses|
      invariant results == QueryItems(task, responses[..u])
      invariant appended == if task.fillsQueue then NumberedQueue(results) else []
    {
      QueryItemsSnoc(task, responses, u);
      var c := responses[u];
      if c.Cursor? {
        results, appended := AppendRowItems(task, c, results, appended);
      }
      u := u + 1;
    }
    assert responses[..u] == responses;
  }

  // ---------------------------------------------------------------------------
  // Long.parseLong (ASCII digits)

  predicate IsDigit(c: char) { '0' <= c <= '9' }

  function DigitsValue(s: string): nat
    requires forall i :: 0 <= i < |s| ==> IsDigit(s[i])
  {
    if s == [] then 0
    else
      assert IsDigit(s[|s| - 1]);
      DigitsValue(s[..|s| - 1]) * 10 + (s[|s| - 1] as int - '0' as int)
  }

  /**
   * Long.parseLong: an optional sign followed by at least one digit, whose value fits in a long;
   * anything else raises NumberFormatException (None).
   */
  function ParseLong(s: string): (r: Option<int>)
    ensures r.Some? ==> IsLong(r.value)
    ensures s == [] || s == "-" || s == "+" ==> r.None?
    ensures (exists i :: 0 <= i < |s| && !IsDigit(s[i]) && !(i == 0 && (s[0] == '-' || s[0] == '+'))) ==> r.None?
    ensures var digits := if |s| > 0 && (s[0] == '-' || s[0] == '+') then s[1..] else s;
      |digits| > 0 && (forall i :: 0 <= i < |digits| ==> IsDigit(digits[i])) ==>
        var v: int := if s[0] == '-' then -(DigitsValue(digits) as int) else DigitsValue(digits);
        r == (if IsLong(v) then Some(v) else None)
  {
    var negative := |s| > 0 && s[0] == '-';
    var digits := if |s| > 0 && (s[0] == '-' || s[0] == '+') then s[1..] else s;
    if digits == [] || exists i :: 0 <= i < |digits| && !IsDigit(digits[i]) then None
    else
      var magnitude: int := DigitsValue(digits);
      var v := if negative then -magnitude else magnitude;
      if IsLong(v) then Some(v) else None
  }

  function DigitChar(d: nat): char
    requires d < 10
  {
    ('0' as int + d) as char
  }

  /** The decimal digits of n, as String.valueOf writes them. */
  function Decimal(n: nat): (r: string)
    ensures |r| > 0 && forall i :: 0 <= i < |r| ==> IsDigit(r[i])
  {
    if n < 10 then [DigitChar(n)] else Decimal(n / 10) + [DigitChar(n % 10)]
  }

  lemma {:induction false} DecimalValue(n: nat)
    ensures DigitsValue(Decimal(n)) == n
  {
    if n >= 10 {
      DecimalValue(n / 10);
      var s := Decimal(n);
      assert s[..|s| - 1] == Decimal(n / 10);
    }
  }

  /** parseLong reads back every long written in decimal, so a genre id round-trips. */
  lemma ParseLongDecimal(n: int)
    requires IsLong(n)
    ensures n >= 0 ==> ParseLong(Decimal(n)) == Some(n)
    ensures n < 0 ==> ParseLong("-" + Decimal(-n)) == Some(n)
  {
    if n >= 0 {
      DecimalValue(n);
    } else {
      DecimalValue(-n);
      assert ("-" + Decimal(-n))[1..] == Decimal(-n);
    }
  }

  // ---------------------------------------------------------------------------
  // The index

  /** A started background task, with the number of the result it answers. */
  datatype Task =
    | FolderTask(result: nat, uris: seq<Uri>)
    | KeyedQuery(result: nat, query: QueryTask)

  /** One Result.sendResult call. */
  datatype Sent = Sent(result: nat, items: seq<MediaItem>)

  class DataModel {
    /** LocalMediaBrowserService.GENRES_ID, the id of the genre category. */
    const genresId: string
    /** mQueue: the candidate queue a by-key query rebuilds. */
    var queue: seq<QueueItem>
    /** mPendingTask. */
    var pending: Option<Task>
    /** Every task cancel(true) was called on, oldest first. */
    var cancelled: seq<Task>
    /** Every result detach() was called on, oldest first. */
    var detached: seq<nat>
    /** Every sendResult call, oldest first. */
    var sent: seq<Sent>

    constructor (genresId: string)
      ensures this.genresId == genresId && queue == [] && pending == None
      ensures cancelled == [] && detached == [] && sent == []
    {
      this.genresId := genresId;
      queue := [];
      pending := None;
      cancelled := [];
      detached := [];
      sent := [];
    }

    /** queryInBackground: detach the result, cancel the pending task and make this one pending. */
    method QueryInBackground(task: Task)
      modifies this`pending, this`cancelled, this`detached
      ensures pending == Some(task)
      ensures cancelled == old(cancelled) + (if old(pending).Some? then [old(pending).value] else [])
      ensures detached == old(detached) + [task.result]
    {
      detached := detached + [task.result];
      if pending.Some? {
        cancelled := cancelled + [pending.value];
      }
      pending := Some(task);
    }

    method OnQueryByFolder(result: nat)
      modifies this`pending, this`cancelled, this`detached
      ensures pending == Some(FolderTask(result, ALL_AUDIO_URI))
      ensures cancelled == old(cancelled) + (if old(pending).Some? then [old(pending).value] else [])
      ensures detached == old(detached) + [result]
    {
      QueryInBackground(FolderTask(result, ALL_AUDIO_URI));
    }

    /** onQueryByAlbum/Artist/Genre: a browsable query over the category's tables. */
    method OnQueryByCategory(result: nat, uris: seq<Uri>, keyColumn: Column, titleColumn: Column)
      modifies this`pending, this`cancelled, this`detached
      ensures pending == Some(KeyedQuery(result, QueryTask(uris, None, None, keyColumn, titleColumn, None, FLAG_BROWSABLE, false)))
      ensures cancelled == old(cancelled) + (if old(pending).Some? then [old(pending).value] else [])
      ensures detached == old(detached) + [result]
    {
      var built := Build(CategoryBuilder(uris, keyColumn, titleColumn));
      QueryInBackground(KeyedQuery(result, built.value));
    }

    method OnQueryByAlbum(result: nat)
      modifies this`pending, this`cancelled, this`detached
      ensures pending == Some(KeyedQuery(result, QueryTask(ALBUMS_URI, None, None, AlbumKey, AlbumName, None, FLAG_BROWSABLE, false)))
      ensures cancelled == old(cancelled) + (if old(pending).Some? then [old(pending).value] else [])
      ensures detached == old(detached) + [result]
    {
      OnQueryByCategory(result, ALBUMS_URI, AlbumKey, AlbumName);
    }

    method OnQueryByArtist(result: nat)
      modifies this`pending, this`cancelled, this`detached
      ensures pending == Some(KeyedQuery(result, QueryTask(ARTISTS_URI, None, None, ArtistKey, ArtistName, None, FLAG_BROWSABLE, false)))
      ensures cancelled == old(cancelled) + (if old(pending).Some? then [old(pending).value] else [])
      ensures detached == old(detached) + [result]
    {
      OnQueryByCategory(result, ARTISTS_URI, ArtistKey, ArtistName);
    }

    method OnQueryByGenre(result: nat)
      modifies this`pending, this`cancelled, this`detached
      ensures pending == Some(KeyedQuery(result, QueryTask(GENRES_URI, None, None, GenreId, GenreName, None, FLAG_BROWSABLE, false)))
      ensures cancelled == old(cancelled) + (if old(pending).Some? then [old(pending).value] else [])
      ensures detached == old(detached) + [result]
    {
      OnQueryByCategory(result, GENRES_URI, GenreId, GenreName);
    }

    /**
     * onQueryByKey: always clear the candidate queue. In the genre category the key must be a
     * long genre id, else an empty result is sent at once and no task starts; otherwise the key is
     * matched against album, artist and title keys and as a path pattern. Rows are playable and
     * feed the candidate queue.
     */
    method OnQueryByKey(lastCategory: string, parentId: string, result: nat)
      modifies this`queue, this`pending, this`cancelled, this`detached, this`sent
      ensures queue == []
      ensures lastCategory == genresId && ParseLong(parentId).None? ==>
        && sent == old(sent) + [Sent(result, [])]
        && pending == old(pending) && cancelled == old(cancelled) && detached == old(detached)
      ensures !(lastCategory == genresId && ParseLong(parentId).None?) ==>
        && sent == old(sent)
        && cancelled == old(cancelled) + (if old(pending).Some? then [old(pending).value] else [])
        && detached == old(detached) + [result]
        && pending.Some? && pending.value.KeyedQuery? && pending.value.result == result
        && var q := pending.value.query;
           && q.keyColumn == TitleKey && q.titleColumn == TitleName && q.subtitleColumn == Some(AlbumName)
           && q.flags == FLAG_PLAYABLE && q.fillsQueue
           && (lastCategory == genresId ==>
                 var id := ParseLong(parentId).value;
                 q.uris == [GenreMembers(External, id), GenreMembers(Internal, id)] && q.whereClause.None?)
           && (lastCategory != genresId ==>
                 && q.uris == ALL_AUDIO_URI && q.whereClause == Some(QUERY_BY_KEY_WHERE_CLAUSE)
                 && q.whereArgs == Some([parentId, parentId, parentId, parentId]))
    {
      queue := [];
      var b := EMPTY_BUILDER.(hasResolver := true, hasResult := true);
      if lastCategory == genresId {
        var id := ParseLong(parentId);
        if id.None? {
          sent := sent + [Sent(result, [])];
          return;
        }
        b := b.(uris := Some([GenreMembers(External, id.value), GenreMembers(Internal, id.value)]));
      } else {
        b := b.(uris := Some(ALL_AUDIO_URI), whereClause := Some(QUERY_BY_KEY_WHERE_CLAUSE),
                whereArgs := Some([parentId, parentId, parentId, parentId]));
      }
      b := b.(keyColumn := Some(TitleKey), titleColumn := Some(TitleName), subtitleColumn := Some(AlbumName),
              flags := FLAG_PLAYABLE, fillsQueue := true);
      var built := Build(b);
      QueryInBackground(KeyedQuery(result, built.value));
    }

    /**
     * Run the pending task to completion against the resolver's answers: exactly one result is
     * sent, holding every row read; a by-key query also appends its rows to the candidate queue.
     */
    method RunPending(responses: seq<Response>)
      requires pending.Some?
      modifies this`queue, this`sent
      ensures pending.value.FolderTask? ==>
        && queue == old(queue) && |sent| == |old(sent)| + 1
        && sent[..|old(sent)|] == old(sent) && sent[|old(sent)|].result == pending.value.result
        && var items := sent[|old(sent)|].items;
           && |items| == |Directories(responses)|
           && forall d :: d in Directories(responses) <==> FolderItem(d) in items
      ensures pending.value.KeyedQuery? ==>
        var results := QueryItems(pending.value.query, responses);
        && sent == old(sent) + [Sent(pending.value.result, results)]
        && (!pending.value.query.fillsQueue ==> queue == old(queue))
        && (pending.value.query.fillsQueue ==>
              && |queue| == |old(queue)| + |results|
              && queue[..|old(queue)|] == old(queue)
              && forall k :: 0 <= k < |results| ==> queue[|old(queue)| + k] == QueueItem(results[k].description, k))
    {
      match pending.value
      case FolderTask(result, _) =>
        var items := ListFolders(responses);
        sent := sent + [Sent(result, items)];
      case KeyedQuery(result, query) =>
        var results, appended := RunQueryTask(query, responses);
        queue := queue + appended;
        sent := sent + [Sent(result, results)];
    }

    /** getQueue: the candidate queue startPlayback copies. */
    function GetQueue(): (r: seq<QueueItem>)
      reads this
      ensures r == queue
    {
      queue
    }
  }

  /**
   * A by-key query on a fresh data model, run to completion: exactly one result is sent, and the
   * candidate queue holds its items' descriptions numbered by position, so the queue ids are
   * unique and skip-to-item by id and by position agree on it. An unparsable genre key sends an
   * empty result and leaves the queue empty.
   */
  method KeyQueryQueueIds(genresId: string, lastCategory: string, parentId: string, result: nat, responses: seq<Response>)
    returns (q: seq<QueueItem>, sent: seq<Sent>)
    ensures |sent| == 1 && sent[0].result == result
    ensures |q| == |sent[0].items|
    ensures forall k :: 0 <= k < |q| ==> q[k] == QueueItem(sent[0].items[k].description, k)
    ensures forall i, j :: 0 <= i < j < |q| ==> q[i].queueId != q[j].queueId
  {
    var model := new DataModel(genresId);
    model.OnQueryByKey(lastCategory, parentId, result);
    if model.pending.Some? {
      model.RunPending(responses);
    }
    q := model.GetQueue();
    sent := model.sent;
  }
}
