/**
 * The local playback engine (Player.java): a circular play queue with a current index, a
 * single decoder, the audio-focus broker, and the saved playlist in the preferences slot.
 * Every command and notification becomes a method of class Player; the queue arithmetic,
 * the playlist snapshot and the queue rebuilt from it are functions with lemmas.
 *
 * Collaborators are parameters: `loadOk` says whether reset/setDataSource/prepare succeed
 * (false is the IOException), `granted` is the broker's answer to every focus request made
 * during the command, `hasPermissions` is the permission check, `fileExists` says which paths
 * are still files, and `shuffledRest` is the order Collections.shuffle produced.
 */
module LocalPlayer {
  import opened MediaTypes

  const SHUFFLE: string := "android.car.media.localmediaplayer.shuffle"
  const CURRENT_PLAYLIST_KEY: string := "__CURRENT_PLAYLIST_KEY__"
  const PLAYBACK_POSITION_STOPPED: int := 0

  // The queue loops, so next and previous are always offered.
  const PLAYING_ACTIONS: bv64 := ACTION_PAUSE | ACTION_PLAY_FROM_MEDIA_ID | ACTION_SKIP_TO_NEXT
                                 | ACTION_SKIP_TO_PREVIOUS | ACTION_SKIP_TO_QUEUE_ITEM
  const PAUSED_ACTIONS: bv64 := ACTION_PLAY | ACTION_PLAY_FROM_MEDIA_ID | ACTION_SKIP_TO_NEXT
                                | ACTION_SKIP_TO_PREVIOUS
  const STOPPED_ACTIONS: bv64 := ACTION_PLAY | ACTION_PLAY_FROM_MEDIA_ID | ACTION_SKIP_TO_NEXT
                                 | ACTION_SKIP_TO_PREVIOUS

  // AudioManager focus-change codes
  const AUDIOFOCUS_GAIN: int := 1
  const AUDIOFOCUS_LOSS: int := -1
  const AUDIOFOCUS_LOSS_TRANSIENT: int := -2
  const AUDIOFOCUS_LOSS_TRANSIENT_CAN_DUCK: int := -3

  /** The fixed error state built once by the constructor (mErrorState). */
  const ERROR_STATE: PlaybackState := PlaybackState(STATE_ERROR, 0, 0, UNKNOWN_ID, [], PlaybackError)

  /** The state published when the required permissions are missing. */
  const PERMISSION_ERROR_STATE: PlaybackState := PlaybackState(STATE_ERROR, 0, 0, UNKNOWN_ID, [], PermissionError)

  const STOPPED_STATE: PlaybackState :=
    PlaybackState(STATE_STOPPED, PLAYBACK_POSITION_STOPPED, STOPPED_ACTIONS, UNKNOWN_ID, [], NoError)

  function PlayingState(position: int, queueId: int): PlaybackState {
    PlaybackState(STATE_PLAYING, position, PLAYING_ACTIONS, queueId, [CustomAction(SHUFFLE)], NoError)
  }

  function PausedState(position: int, queueId: int): PlaybackState {
    PlaybackState(STATE_PAUSED, position, PAUSED_ACTIONS, queueId, [CustomAction(SHUFFLE)], NoError)
  }

  /** The states a freshly loaded track publishes: none if loading threw, else playing or paused. */
  function LoadEmits(loadOk: bool, granted: bool, queueId: int): seq<PlaybackState> {
    if !loadOk then [] else if granted then [PlayingState(0, queueId)] else [PausedState(0, queueId)]
  }

  /** The same, when the caller catches the IOException and publishes the error state. */
  function SafeLoadEmits(loadOk: bool, granted: bool, queueId: int): seq<PlaybackState> {
    if loadOk then LoadEmits(loadOk, granted, queueId) else [ERROR_STATE]
  }

  /** Loading a track ends in PLAYING when focus is granted, PAUSED when denied, ERROR if it failed. */
  lemma LoadOutcomeStates(loadOk: bool, granted: bool, queueId: int)
    ensures var s := SafeLoadEmits(loadOk, granted, queueId);
      && |s| == 1
      && (!loadOk ==> s[0].state == STATE_ERROR && s[0].error == PlaybackError)
      && (loadOk && granted ==> s[0].state == STATE_PLAYING && s[0].actions == PLAYING_ACTIONS
                                && s[0].activeQueueItemId == queueId)
      && (loadOk && !granted ==> s[0].state == STATE_PAUSED && s[0].actions == PAUSED_ACTIONS
                                 && s[0].activeQueueItemId == queueId)
  {
  }

  /** An uncaught Java runtime exception: a null queue or an index outside it. */
  datatype Fault = NullQueue | IndexOutOfBounds

  /** How a command ends: normally, with the IOException of a failed load, or with a crash. */
  datatype Outcome = Done | IoFailure | Crash(fault: Fault)

  // ---------------------------------------------------------------------------
  // Circular index arithmetic (mCurrentQueueIdx is a Java int)

  /** The index after advance(): (index + 1) % size in Java int arithmetic. */
  function NextIndex(index: int, size: int): (r: int)
    requires size > 0
    ensures size <= INT_MAX ==> IsInt(r)
    ensures IsInt(size) && 0 <= index < size ==>
      0 <= r < size && r == (if index == size - 1 then 0 else index + 1)
  {
    var w := WrapInt(index + 1);
    if IsInt(size) && 0 <= index < size - 1 then JavaRemSmall(w, size); JavaRem(w, size)
    else if IsInt(size) && index == size - 1 then JavaRemSelf(size); JavaRem(w, size)
    else JavaRem(w, size)
  }

  /** The index after retreat(): decrement, and wrap to size - 1 below zero. */
  function PrevIndex(index: int, size: int): (r: int)
    requires 0 <= size <= INT_MAX
    ensures IsInt(r)
    ensures 0 <= index < size ==> 0 <= r < size && r == (if index == 0 then size - 1 else index - 1)
  {
    var d := WrapInt(index - 1);
    if d < 0 then size - 1 else d
  }

  /** Retreating undoes advancing, and advancing undoes retreating. */
  lemma NextPrevInverse(index: int, size: int)
    requires IsInt(size) && 0 <= index < size
    ensures PrevIndex(NextIndex(index, size), size) == index
    ensures NextIndex(PrevIndex(index, size), size) == index
  {
  }

  /** The index after n successive advances. */
  function AdvancedBy(index: int, size: int, n: nat): int
    requires size > 0
  {
    if n == 0 then index else NextIndex(AdvancedBy(index, size, n - 1), size)
  }

  lemma {:induction false} AdvancedByCompose(index: int, size: int, m: nat, n: nat)
    requires size > 0
    ensures AdvancedBy(index, size, m + n) == AdvancedBy(AdvancedBy(index, size, m), size, n)
  {
    if n > 0 {
      AdvancedByCompose(index, size, m, n - 1);
    }
  }

  lemma {:induction false} AdvancedByBelowEnd(index: int, size: int, k: nat)
    requires IsInt(size) && 0 <= index && index + k < size
    ensures AdvancedBy(index, size, k) == index + k
  {
    if k > 0 {
      AdvancedByBelowEnd(index, size, k - 1);
    }
  }

  lemma AdvancedByOne(index: int, size: int)
    requires IsInt(size) && 0 <= index < size
    ensures AdvancedBy(index, size, 1) == if index == size - 1 then 0 else index + 1
  {
    assert AdvancedBy(index, size, 1) == NextIndex(AdvancedBy(index, size, 0), size);
  }

  /** From a valid index, advancing to the end of the queue and one step more reaches the start. */
  lemma AdvanceToStart(index: int, size: int)
    requires IsInt(size) && 0 <= index < size
    ensures AdvancedBy(index, size, size - index) == 0
  {
    var toEnd := size - 1 - index;
    AdvancedByBelowEnd(index, size, toEnd);
    AdvancedByCompose(index, size, toEnd, 1);
    AdvancedByOne(size - 1, size);
  }

  /** Advancing a valid index `size` times returns to it: the queue is circular. */
  lemma AdvanceCycle(index: int, size: int)
    requires IsInt(size) && 0 <= index < size
    ensures AdvancedBy(index, size, size) == index
  {
    var toStart: nat := size - index;
    AdvanceToStart(index, size);
    AdvancedByBelowEnd(0, size, index);
    AdvancedByCompose(index, size, toStart, index);
    assert AdvancedBy(index, size, toStart + index) == index;
  }

  // ---------------------------------------------------------------------------
  // Shuffle

  function RemoveAt<T>(s: seq<T>, i: int): seq<T>
    requires 0 <= i < |s|
  {
    s[..i] + s[i + 1..]
  }

  /** Every item rebuilt with its position as its queue id. */
  function Renumbered(items: seq<QueueItem>): seq<QueueItem> {
    seq(|items|, i requires 0 <= i < |items| => QueueItem(items[i].description, i))
  }

  function Descriptions(q: seq<QueueItem>): seq<MediaDescription> {
    if q == [] then [] else [q[0].description] + Descriptions(q[1..])
  }

  lemma {:induction false} DescriptionsConcat(a: seq<QueueItem>, b: seq<QueueItem>)
    ensures Descriptions(a + b) == Descriptions(a) + Descriptions(b)
  {
    if a != [] {
      assert (a + b)[0] == a[0];
      assert (a + b)[1..] == a[1..] + b;
      DescriptionsConcat(a[1..], b);
      assert Descriptions(a + b) == [a[0].description] + Descriptions(a[1..] + b);
    } else {
      assert a + b == b;
    }
  }

  lemma {:induction false} DescriptionsRenumbered(items: seq<QueueItem>)
    ensures Descriptions(Renumbered(items)) == Descriptions(items)
    decreases |items|
  {
    if items != [] {
      var r := Renumbered(items);
      var tail := items[1..];
      DescriptionsRenumbered(tail);
      assert Descriptions(Renumbered(tail)) == Descriptions(tail);
      // the renumbered tail differs only in ids, so it has the same descriptions as r[1..]
      DescriptionsSameWhenPointwise(r[1..], Renumbered(tail));
    }
  }

  lemma {:induction false} DescriptionsSameWhenPointwise(a: seq<QueueItem>, b: seq<QueueItem>)
    requires |a| == |b| && forall i :: 0 <= i < |a| ==> a[i].description == b[i].description
    ensures Descriptions(a) == Descriptions(b)
    decreases |a|
  {
    if a != [] {
      DescriptionsSameWhenPointwise(a[1..], b[1..]);
    }
  }

  /** Rearranging the items rearranges their descriptions alike. */
  lemma {:induction false} DescriptionsPermuted(x: seq<QueueItem>, y: seq<QueueItem>)
    requires multiset(x) == multiset(y)
    ensures multiset(Descriptions(x)) == multiset(Descriptions(y))
    decreases |x|
  {
    if x == [] {
      assert |y| == |multiset(y)| == 0;
    } else {
      var a := x[0];
      assert a in multiset(y);
      var j :| 0 <= j < |y| && y[j] == a;
      var y' := y[..j] + y[j + 1..];
      assert y == y[..j] + [a] + y[j + 1..];
      assert x == [a] + x[1..];
      assert multiset(y) == multiset(y[..j]) + multiset{a} + multiset(y[j + 1..]);
      assert multiset(y') == multiset(y[..j]) + multiset(y[j + 1..]);
      assert multiset(x) == multiset{a} + multiset(x[1..]);
      assert multiset(x[1..]) == multiset(x) - multiset{a};
      assert multiset(y') == multiset(y) - multiset{a};
      assert multiset(x[1..]) == multiset(y');
      DescriptionsPermuted(x[1..], y');
      DescriptionsConcat(y[..j], y[j + 1..]);
      DescriptionsConcat(y[..j] + [a], y[j + 1..]);
      DescriptionsConcat(y[..j], [a]);
      DescriptionsConcat([a], x[1..]);
    }
  }

  /**
   * The queue shuffle builds: the removed current item first, then the shuffled rest, with
   * the current item first and every other item exactly once and ids equal to positions.
   */
  lemma ShuffleArrangement(q: seq<QueueItem>, index: int, rest: seq<QueueItem>)
    requires 0 <= index < |q|
    requires multiset(rest) == multiset(RemoveAt(q, index))
    ensures var r := Renumbered([q[index]] + rest);
      && |r| == |q|
      && r[0].description == q[index].description
      && (forall i :: 0 <= i < |r| ==> r[i].queueId == i)
      && multiset(Descriptions(r)) == multiset(Descriptions(q))
  {
    var arranged := [q[index]] + rest;
    assert q == q[..index] + [q[index]] + q[index + 1..];
    assert multiset(arranged) == multiset(q);
    assert |arranged| == |multiset(arranged)| == |q|;
    DescriptionsRenumbered(arranged);
    DescriptionsPermuted(arranged, q);
  }

  // ---------------------------------------------------------------------------
  // The saved playlist (Proto.Playlist / Proto.Song)

  datatype Song = Song(queueId: int, mediaId: string, title: string, subtitle: string, path: string)

  datatype Playlist = Playlist(name: string, songs: seq<Song>, currentQueueId: int, currentSongPosition: int)

  /**
   * The preferences value: the Base64 text of the encoded playlist, or text that does not
   * decode (a Base64 IllegalArgumentException or an InvalidProtocolBufferNanoException).
   */
  datatype StoredPlaylist = Encoded(playlist: Playlist) | Corrupt

  function Encode(p: Playlist): StoredPlaylist {
    Encoded(p)
  }

  function Decode(v: StoredPlaylist): (r: Option<Playlist>)
    ensures r.None? <==> v.Corrupt?
  {
    match v
    case Encoded(p) => Some(p)
    case Corrupt => None
  }

  function SongOf(item: QueueItem): Song {
    Song(item.queueId, item.description.mediaId, item.description.title, item.description.subtitle,
         item.description.path)
  }

  function ItemOf(song: Song): QueueItem {
    QueueItem(MediaDescription(song.mediaId, song.title, song.subtitle, song.path), song.queueId)
  }

  function SongsOf(q: seq<QueueItem>): seq<Song> {
    seq(|q|, i requires 0 <= i < |q| => SongOf(q[i]))
  }

  function ItemsOf(songs: seq<Song>): seq<QueueItem> {
    seq(|songs|, i requires 0 <= i < |songs| => ItemOf(songs[i]))
  }

  /** The playlist saveState writes for queue q, current index and decoder position. */
  function Snapshot(q: seq<QueueItem>, index: int, position: int): Playlist
    requires 0 <= index < |q|
  {
    Playlist(CURRENT_PLAYLIST_KEY, SongsOf(q), q[index].queueId, position)
  }

  /** The songs whose file still exists, in their saved order. */
  function KeptSongs(songs: seq<Song>, fileExists: string -> bool): (r: seq<Song>)
    ensures |r| <= |songs|
    ensures forall s :: s in r ==> s in songs && fileExists(s.path)
  {
    if songs == [] then []
    else
      var last := songs[|songs| - 1];
      KeptSongs(songs[..|songs| - 1], fileExists) + (if fileExists(last.path) then [last] else [])
  }

  /** The position of the last song with the given queue id, if any. */
  function LastMatch(songs: seq<Song>, queueId: int): (r: Option<nat>)
    ensures r.None? <==> forall j :: 0 <= j < |songs| ==> songs[j].queueId != queueId
    ensures r.Some? ==> r.value < |songs| && songs[r.value].queueId == queueId
                        && forall j :: r.value < j < |songs| ==> songs[j].queueId != queueId
  {
    if songs == [] then None
    else if songs[|songs| - 1].queueId == queueId then Some(|songs| - 1)
    else LastMatch(songs[..|songs| - 1], queueId)
  }

  /** The queue maybeRebuildQueue restores from the saved songs. */
  function RestoredQueue(songs: seq<Song>, fileExists: string -> bool): seq<QueueItem> {
    ItemsOf(KeptSongs(songs, fileExists))
  }

  /** The index it restores: the last kept song with the saved current id, else 0. */
  function RestoredIndex(songs: seq<Song>, currentQueueId: int, fileExists: string -> bool): int {
    match LastMatch(KeptSongs(songs, fileExists), currentQueueId)
    case None => 0
    case Some(p) => p
  }

  predicate UniqueQueueIds(q: seq<QueueItem>) {
    forall i, j :: 0 <= i < j < |q| ==> q[i].queueId != q[j].queueId
  }

  /** The filter keeps the relative order: filtering a concatenation filters each part. */
  lemma {:induction false} KeptSongsConcat(a: seq<Song>, b: seq<Song>, fileExists: string -> bool)
    ensures KeptSongs(a + b, fileExists) == KeptSongs(a, fileExists) + KeptSongs(b, fileExists)
    decreases |b|
  {
    if b != [] {
      var b' := b[..|b| - 1];
      assert (a + b)[..|a + b| - 1] == a + b';
      assert (a + b)[|a + b| - 1] == b[|b| - 1];
      KeptSongsConcat(a, b', fileExists);
    } else {
      assert a + b == a;
    }
  }

  /** A song is kept exactly when it was saved and its file still exists. */
  lemma {:induction false} KeptSongsExactly(songs: seq<Song>, fileExists: string -> bool, s: Song)
    ensures s in KeptSongs(songs, fileExists) <==> s in songs && fileExists(s.path)
    decreases |songs|
  {
    if songs != [] {
      var init := songs[..|songs| - 1];
      KeptSongsExactly(init, fileExists, s);
      assert songs == init + [songs[|songs| - 1]];
    }
  }

  lemma {:induction false} KeptSongsAll(songs: seq<Song>, fileExists: string -> bool)
    requires forall i :: 0 <= i < |songs| ==> fileExists(songs[i].path)
    ensures KeptSongs(songs, fileExists) == songs
    decreases |songs|
  {
    if songs != [] {
      var init := songs[..|songs| - 1];
      KeptSongsAll(init, fileExists);
      assert fileExists(songs[|songs| - 1].path);
      assert songs == init + [songs[|songs| - 1]];
    }
  }

  /**
   * Restore drops exactly the songs whose file is gone. When the queue ids are unique and
   * the current song is among the dropped ones, the restored index falls back to 0.
   */
  lemma RestoreDropsStale(songs: seq<Song>, currentQueueId: int, fileExists: string -> bool, k: nat)
    requires k < |songs| && !fileExists(songs[k].path)
    requires forall i, j :: 0 <= i < j < |songs| ==> songs[i].queueId != songs[j].queueId
    ensures songs[k] !in KeptSongs(songs, fileExists)
    ensures songs[k].queueId == currentQueueId ==> RestoredIndex(songs, currentQueueId, fileExists) == 0
  {
    KeptSongsExactly(songs, fileExists, songs[k]);
    var kept := KeptSongs(songs, fileExists);
    if songs[k].queueId == currentQueueId {
      forall j | 0 <= j < |kept| ensures kept[j].queueId != currentQueueId {
        KeptSongsExactly(songs, fileExists, kept[j]);
        var m :| 0 <= m < |songs| && songs[m] == kept[j];
        assert m != k;
      }
    }
  }

  /** The restored index lies in the restored queue and names the saved current song if kept. */
  lemma RestoredIndexInRange(songs: seq<Song>, currentQueueId: int, fileExists: string -> bool)
    requires |KeptSongs(songs, fileExists)| > 0
    ensures var kept := KeptSongs(songs, fileExists); var i := RestoredIndex(songs, currentQueueId, fileExists);
      && 0 <= i < |kept|
      && ((exists j :: 0 <= j < |kept| && kept[j].queueId == currentQueueId) ==> kept[i].queueId == currentQueueId)
  {
  }

  /**
   * Saving and then restoring with every file still present gives back the same queue, the
   * saved position, and, when queue ids are unique, the same current index.
   */
  lemma SaveRestoreRoundTrip(q: seq<QueueItem>, index: int, position: int, fileExists: string -> bool)
    requires 0 <= index < |q|
    requires forall i :: 0 <= i < |q| ==> fileExists(q[i].description.path)
    ensures Decode(Encode(Snapshot(q, index, position))).Some?
    ensures var p := Decode(Encode(Snapshot(q, index, position))).value;
      && RestoredQueue(p.songs, fileExists) == q
      && p.currentSongPosition == position
      && (UniqueQueueIds(q) ==> RestoredIndex(p.songs, p.currentQueueId, fileExists) == index)
  {
    var p := Snapshot(q, index, position);
    KeptSongsAll(p.songs, fileExists);
    assert ItemsOf(SongsOf(q)) == q;
    if UniqueQueueIds(q) {
      var m := LastMatch(p.songs, p.currentQueueId);
      assert p.songs[index].queueId == p.currentQueueId;
      assert m.Some?;
      assert m.value == index;
    }
  }

  // ---------------------------------------------------------------------------
  // Loops of the engine that only compute

  /** startPlayback's search: the first position whose media id is key, or -1. */
  method FirstIndexOfMediaId(queue: seq<QueueItem>, key: string) returns (found: int)
    ensures found == -1 <==> forall j :: 0 <= j < |queue| ==> queue[j].description.mediaId != key
    ensures found != -1 ==> 0 <= found < |queue| && queue[found].description.mediaId == key
                            && forall j :: 0 <= j < found ==> queue[j].description.mediaId != key
  {
    found := -1;
    var idx := 0;
    while idx < |queue|
      invariant 0 <= idx <= |queue|
      invariant forall j :: 0 <= j < idx ==> queue[j].description.mediaId != key
    {
      if queue[idx].description.mediaId == key {
        found := idx;
        return;
      }
      idx := idx + 1;
    }
  }

  /** The first position whose queue id is `queueId`, or -1 (the corrected skip-to-item). */
  method PositionOfQueueId(queue: seq<QueueItem>, queueId: int) returns (found: int)
    ensures found == -1 <==> forall j :: 0 <= j < |queue| ==> queue[j].queueId != queueId
    ensures found != -1 ==> 0 <= found < |queue| && queue[found].queueId == queueId
                            && forall j :: 0 <= j < found ==> queue[j].queueId != queueId
  {
    found := -1;
    var idx := 0;
    while idx < |queue|
      invariant 0 <= idx <= |queue|
      invariant forall j :: 0 <= j < idx ==> queue[j].queueId != queueId
    {
      if queue[idx].queueId == queueId {
        found := idx;
        return;
      }
      idx := idx + 1;
    }
  }

  /** saveState's loop: one Song per queue item, in queue order, filled into an array. */
  method SnapshotSongs(queue: seq<QueueItem>) returns (songs: seq<Song>)
    ensures |songs| == |queue|
    ensures forall i :: 0 <= i < |queue| ==> songs[i] == SongOf(queue[i])
  {
    var a := new Song[|queue|];
    var idx := 0;
    while idx < |queue|
      invariant 0 <= idx <= |queue|
      invariant forall i :: 0 <= i < idx ==> a[i] == SongOf(queue[i])
    {
      a[idx] := SongOf(queue[idx]);
      idx := idx + 1;
    }
    songs := a[..];
  }

  /** maybeRebuildQueue's loop invariant: queue and index restored from the first i songs. */
  ghost predicate RebuiltSoFar(songs: seq<Song>, id: int, fileExists: string -> bool, i: nat, queue: seq<QueueItem>, foundIdx: int) {
    && i <= |songs|
    && queue == RestoredQueue(songs[..i], fileExists)
    && foundIdx == RestoredIndex(songs[..i], id, fileExists)
  }

  lemma RebuiltStep(songs: seq<Song>, id: int, fileExists: string -> bool, i: nat, queue: seq<QueueItem>, foundIdx: int)
    requires RebuiltSoFar(songs, id, fileExists, i, queue, foundIdx) && i < |songs|
    ensures var song := songs[i];
      RebuiltSoFar(songs, id, fileExists, i + 1,
        if fileExists(song.path) then queue + [ItemOf(song)] else queue,
        if fileExists(song.path) && id == song.queueId then |queue| else foundIdx)
  {
    var song := songs[i];
    var kept := KeptSongs(songs[..i], fileExists);
    KeptSongsStep(songs, i, fileExists);
    if fileExists(song.path) {
      LastMatchStep(kept, song, id);
      ItemsOfStep(kept, song);
    }
  }

  /** maybeRebuildQueue's loop: keep the songs whose file exists and track the current one. */
  method RebuildQueue(playlist: Playlist, fileExists: string -> bool) returns (queue: seq<QueueItem>, foundIdx: int)
    ensures queue == RestoredQueue(playlist.songs, fileExists)
    ensures foundIdx == RestoredIndex(playlist.songs, playlist.currentQueueId, fileExists)
  {
    var songs := playlist.songs;
    var id := playlist.currentQueueId;
    queue := [];
    foundIdx := 0;
    var i := 0;
    assert songs[..0] == [];
    while i < |songs|
      invariant RebuiltSoFar(songs, id, fileExists, i, queue, foundIdx)
      decreases |songs| - i
    {
      var song := songs[i];
      RebuiltStep(songs, id, fileExists, i, queue, foundIdx);
      if fileExists(song.path) {
        if id == song.queueId {
          foundIdx := |queue|;
        }
        queue := queue + [ItemOf(song)];
      }
      i := i + 1;
    }
    assert songs[..|songs|] == songs;
  }

  lemma KeptSongsStep(songs: seq<Song>, i: nat, fileExists: string -> bool)
    requires i < |songs|
    ensures KeptSongs(songs[..i + 1], fileExists)
            == KeptSongs(songs[..i], fileExists) + (if fileExists(songs[i].path) then [songs[i]] else [])
  {
    assert songs[..i + 1][..i] == songs[..i];
  }

  lemma LastMatchStep(kept: seq<Song>, song: Song, queueId: int)
    ensures LastMatch(kept + [song], queueId) == if song.queueId == queueId then Some(|kept|) else LastMatch(kept, queueId)
  {
    assert (kept + [song])[..|kept|] == kept;
  }

  lemma ItemsOfStep(kept: seq<Song>, song: Song)
    ensures ItemsOf(kept + [song]) == ItemsOf(kept) + [ItemOf(song)]
  {
  }

  /** Stale entries break the id-equals-position assumption that skip-to-item relies on. */
  lemma StaleRestoreBreaksQueueIds()
    ensures var a := Song(0, "a", "A", "", "/m/a.mp3");
      var b := Song(1, "b", "B", "", "/m/b.mp3");
      var c := Song(2, "c", "C", "", "/m/c.mp3");
      var q := RestoredQueue([a, b, c], p => p != "/m/b.mp3");
      |q| == 2 && q[1].queueId == 2 && !(0 <= q[1].queueId < |q|)
  {
    var a := Song(0, "a", "A", "", "/m/a.mp3");
    var b := Song(1, "b", "B", "", "/m/b.mp3");
    var c := Song(2, "c", "C", "", "/m/c.mp3");
    var fileExists := p => p != "/m/b.mp3";
    assert [a, b, c][..2] == [a, b];
    assert [a, b][..1] == [a];
    assert [a][..0] == [];
    assert KeptSongs([a], fileExists) == [a];
    assert KeptSongs([a, b], fileExists) == [a];
    assert KeptSongs([a, b, c], fileExists) == [a, c];
  }

  // ---------------------------------------------------------------------------
  // The engine

  /** The engine's fields as one value, so that a command's effect can be stated against them. */
  datatype Fields = Fields(
    queue: Option<seq<QueueItem>>,
    index: int,
    emitted: seq<PlaybackState>,
    sessionQueue: Option<seq<QueueItem>>,
    sessionActive: bool,
    playing: bool,
    position: int,
    stored: Option<StoredPlaylist>)

  class Player {
    /** mQueue; null until a playlist is started or restored. */
    var queue: Option<seq<QueueItem>>
    /** mCurrentQueueIdx. */
    var index: int
    /** Every state passed to MediaSession.setPlaybackState, oldest first. */
    var emitted: seq<PlaybackState>
    /** The queue last passed to MediaSession.setQueue. */
    var sessionQueue: Option<seq<QueueItem>>
    var sessionActive: bool
    /** The decoder: MediaPlayer.isPlaying() and getCurrentPosition(). */
    var playing: bool
    var position: int
    /** The preferences value under CURRENT_PLAYLIST_KEY. */
    var stored: Option<StoredPlaylist>

    ghost predicate Valid()
      reads this
    {
      IsInt(index) && (queue.Some? ==> |queue.value| <= INT_MAX)
    }

    ghost function Current(): Fields
      reads this
    {
      Fields(queue, index, emitted, sessionQueue, sessionActive, playing, position, stored)
    }

    predicate HasCurrent()
      reads this
    {
      queue.Some? && 0 <= index < |queue.value|
    }

    function CurrentQueueId(): int
      reads this
      requires HasCurrent()
    {
      queue.value[index].queueId
    }

    function FaultHere(): Fault
      reads this
    {
      if queue.None? then NullQueue else IndexOutOfBounds
    }

    /**
     * The effect of setting the index to newIndex and loading that item (playCurrentQueueIndex),
     * from fields v; `safe` when the caller catches the IOException and publishes the error state.
     * An index outside the queue throws before anything but the index has changed.
     */
    ghost predicate LoadedAt(v: Fields, newIndex: int, loadOk: bool, granted: bool, safe: bool, o: Outcome)
      reads this
    {
      && queue == v.queue && index == newIndex && sessionQueue == v.sessionQueue && stored == v.stored
      && if v.queue.Some? && 0 <= newIndex < |v.queue.value| then
           var id := v.queue.value[newIndex].queueId;
           && position == 0 && playing == (loadOk && granted)
           && sessionActive == (v.sessionActive || (loadOk && granted))
           && emitted == v.emitted + (if safe then SafeLoadEmits(loadOk, granted, id) else LoadEmits(loadOk, granted, id))
           && o == (if loadOk || safe then Done else IoFailure)
         else
           && o == Crash(if v.queue.None? then NullQueue else IndexOutOfBounds)
           && position == v.position && playing == v.playing && sessionActive == v.sessionActive
           && emitted == v.emitted
    }

    /** stopPlayback's effect: decoder stopped and STOPPED published, nothing else changed. */
    ghost predicate StoppedFrom(v: Fields)
      reads this
    {
      Current() == v.(playing := false, emitted := v.emitted + [STOPPED_STATE])
    }

    /** The constructor only sets up the decoder and the builders: no queue, nothing published. */
    constructor (stored: Option<StoredPlaylist>)
      ensures Valid()
      ensures Current() == Fields(None, 0, [], None, false, false, 0, stored)
    {
      queue := None;
      index := 0;
      emitted := [];
      sessionQueue := None;
      sessionActive := false;
      playing := false;
      position := 0;
      this.stored := stored;
    }

    method UpdatePlaybackStatePlaying() returns (o: Outcome)
      modifies this`emitted, this`sessionActive
      ensures sessionActive
      ensures HasCurrent() ==> o == Done && emitted == old(emitted) + [PlayingState(position, CurrentQueueId())]
      ensures !HasCurrent() ==> o == Crash(FaultHere()) && emitted == old(emitted)
    {
      sessionActive := true;
      if !HasCurrent() {
        return Crash(FaultHere());
      }
      emitted := emitted + [PlayingState(position, CurrentQueueId())];
      o := Done;
    }

    method PausePlayback() returns (o: Outcome)
      modifies this`emitted, this`playing
      ensures !playing
      ensures HasCurrent() ==> o == Done && emitted == old(emitted) + [PausedState(if old(playing) then position else 0, CurrentQueueId())]
      ensures !HasCurrent() ==> o == Crash(FaultHere()) && emitted == old(emitted)
    {
      var currentPosition := 0;
      if playing {
        currentPosition := position;
        playing := false;
      }
      if !HasCurrent() {
        return Crash(FaultHere());
      }
      emitted := emitted + [PausedState(currentPosition, CurrentQueueId())];
      o := Done;
    }

    method StopPlayback()
      modifies this`emitted, this`playing
      ensures StoppedFrom(old(Current()))
    {
      playing := false;
      emitted := emitted + [STOPPED_STATE];
    }

    method ResumePlayback() returns (o: Outcome)
      modifies this`emitted, this`sessionActive, this`playing
      ensures sessionActive
      ensures HasCurrent() ==> o == Done && playing && emitted == old(emitted) + [PlayingState(position, CurrentQueueId())]
      ensures !HasCurrent() ==> o == Crash(FaultHere()) && emitted == old(emitted) && playing == old(playing)
    {
      o := UpdatePlaybackStatePlaying();
      if o == Done && !playing {
        playing := true;
      }
    }

    /** play(path, metadata): reset and load the current item, then start it if focus is granted. */
    method Play(loadOk: bool, granted: bool) returns (o: Outcome)
      requires HasCurrent()
      modifies this`emitted, this`sessionActive, this`playing, this`position
      ensures LoadedAt(old(Current()), index, loadOk, granted, false, o)
    {
      playing := false;
      position := 0;
      if !loadOk {
        return IoFailure;
      }
      if granted {
        playing := true;
        o := UpdatePlaybackStatePlaying();
      } else {
        o := PausePlayback();
      }
    }

    method PlayCurrentQueueIndex(loadOk: bool, granted: bool) returns (o: Outcome)
      modifies this`emitted, this`sessionActive, this`playing, this`position
      ensures LoadedAt(old(Current()), index, loadOk, granted, false, o)
    {
      if !HasCurrent() {
        return Crash(FaultHere());
      }
      o := Play(loadOk, granted);
    }

    /** playCurrentQueueIndex inside a try that publishes the error state on IOException. */
    method SafePlayCurrentQueueIndex(loadOk: bool, granted: bool) returns (o: Outcome)
      modifies this`emitted, this`sessionActive, this`playing, this`position
      ensures LoadedAt(old(Current()), index, loadOk, granted, true, o)
    {
      o := PlayCurrentQueueIndex(loadOk, granted);
      if o == IoFailure {
        emitted := emitted + [ERROR_STATE];
        o := Done;
      }
    }

    /** safeAdvance: next item, wrapping at the end; a null or empty queue stops playback. */
    method SafeAdvance(loadOk: bool, granted: bool) returns (o: Outcome)
      requires Valid()
      modifies this`emitted, this`sessionActive, this`playing, this`position, this`index
      ensures Valid()
      ensures old(queue).Some? && |old(queue).value| > 0 ==>
        LoadedAt(old(Current()), NextIndex(old(index), |old(queue).value|), loadOk, granted, true, o)
      ensures !(old(queue).Some? && |old(queue).value| > 0) ==> o == Done && StoppedFrom(old(Current()))
    {
      if queue.Some? && |queue.value| > 0 {
        index := NextIndex(index, |queue.value|);
        o := SafePlayCurrentQueueIndex(loadOk, granted);
      } else {
        StopPlayback();
        o := Done;
      }
    }

    /**
     * safeRetreat: previous item, wrapping below zero; only a null queue stops playback.
     * An empty non-null queue gives index -1 and an out-of-bounds get.
     */
    method SafeRetreat(loadOk: bool, granted: bool) returns (o: Outcome)
      requires Valid()
      modifies this`emitted, this`sessionActive, this`playing, this`position, this`index
      ensures Valid()
      ensures old(queue).Some? ==>
        LoadedAt(old(Current()), PrevIndex(old(index), |old(queue).value|), loadOk, granted, true, o)
      ensures old(queue).None? ==> o == Done && StoppedFrom(old(Current()))
    {
      if queue.Some? {
        index := PrevIndex(index, |queue.value|);
        o := SafePlayCurrentQueueIndex(loadOk, granted);
      } else {
        StopPlayback();
        o := Done;
      }
    }

    method OnSkipToNext(loadOk: bool, granted: bool) returns (o: Outcome)
      requires Valid()
      modifies this`emitted, this`sessionActive, this`playing, this`position, this`index
      ensures Valid()
      ensures old(queue).Some? && |old(queue).value| > 0 ==>
        LoadedAt(old(Current()), NextIndex(old(index), |old(queue).value|), loadOk, granted, true, o)
      ensures !(old(queue).Some? && |old(queue).value| > 0) ==> o == Done && StoppedFrom(old(Current()))
    {
      o := SafeAdvance(loadOk, granted);
    }

    /** The completion listener: a finished track advances exactly like skip-to-next. */
    method OnCompletion(loadOk: bool, granted: bool) returns (o: Outcome)
      requires Valid()
      modifies this`emitted, this`sessionActive, this`playing, this`position, this`index
      ensures Valid()
      ensures old(queue).Some? && |old(queue).value| > 0 ==>
        LoadedAt(old(Current()), NextIndex(old(index), |old(queue).value|), loadOk, granted, true, o)
      ensures !(old(queue).Some? && |old(queue).value| > 0) ==> o == Done && StoppedFrom(old(Current()))
    {
      o := SafeAdvance(loadOk, granted);
    }

    method OnSkipToPrevious(loadOk: bool, granted: bool) returns (o: Outcome)
      requires Valid()
      modifies this`emitted, this`sessionActive, this`playing, this`position, this`index
      ensures Valid()
      ensures old(queue).Some? ==>
        LoadedAt(old(Current()), PrevIndex(old(index), |old(queue).value|), loadOk, granted, true, o)
      ensures old(queue).None? ==> o == Done && StoppedFrom(old(Current()))
    {
      o := SafeRetreat(loadOk, granted);
    }

    /** onSkipToQueueItem: the id, cast to int, becomes the index with no bounds check. */
    method OnSkipToQueueItem(id: int, loadOk: bool, granted: bool) returns (o: Outcome)
      requires Valid() && IsLong(id)
      modifies this`emitted, this`sessionActive, this`playing, this`position, this`index
      ensures Valid()
      ensures LoadedAt(old(Current()), WrapInt(id), loadOk, granted, true, o)
    {
      index := WrapInt(id);
      o := SafePlayCurrentQueueIndex(loadOk, granted);
    }

    /**
     * The corrected skip-to-item: look the id up as a queue id; an id that names no item
     * publishes the error state and changes nothing else, and the method never crashes.
     */
    method OnSkipToQueueItemById(id: int, loadOk: bool, granted: bool) returns (o: Outcome)
      requires Valid()
      modifies this`emitted, this`sessionActive, this`playing, this`position, this`index
      ensures Valid()
      ensures !o.Crash?
      ensures old(queue).Some? && (exists j :: 0 <= j < |old(queue).value| && old(queue).value[j].queueId == id) ==>
        && 0 <= index < |old(queue).value| && old(queue).value[index].queueId == id
        && (forall j :: 0 <= j < index ==> old(queue).value[j].queueId != id)
        && LoadedAt(old(Current()), index, loadOk, granted, true, o)
      ensures !(old(queue).Some? && exists j :: 0 <= j < |old(queue).value| && old(queue).value[j].queueId == id) ==>
        o == Done && Current() == old(Current()).(emitted := old(emitted) + [ERROR_STATE])
    {
      var found := -1;
      if queue.Some? {
        found := PositionOfQueueId(queue.value, id);
      }
      if found == -1 {
        emitted := emitted + [ERROR_STATE];
        return Done;
      }
      index := found;
      o := SafePlayCurrentQueueIndex(loadOk, granted);
    }

    /** onPlay: permission check, then resume once audio focus is granted. */
    method OnPlay(hasPermissions: bool, granted: bool) returns (o: Outcome)
      modifies this`emitted, this`sessionActive, this`playing
      ensures !hasPermissions ==> o == Done && Current() == old(Current()).(emitted := old(emitted) + [PERMISSION_ERROR_STATE])
      ensures hasPermissions && !granted ==> o == Done && Current() == old(Current())
      ensures hasPermissions && granted ==>
        && sessionActive
        && (if HasCurrent() then o == Done && playing && emitted == old(emitted) + [PlayingState(position, CurrentQueueId())]
            else o == Crash(FaultHere()) && emitted == old(emitted) && playing == old(playing))
    {
      if !hasPermissions {
        emitted := emitted + [PERMISSION_ERROR_STATE];
        return Done;
      }
      o := Done;
      if granted {
        o := ResumePlayback();
      }
    }

    /** onPause: pause the decoder and publish PAUSED at its position (0 if it was not playing). */
    method OnPause() returns (o: Outcome)
      modifies this`emitted, this`playing
      ensures !playing
      ensures HasCurrent() ==> o == Done && emitted == old(emitted) + [PausedState(if old(playing) then position else 0, CurrentQueueId())]
      ensures !HasCurrent() ==> o == Crash(FaultHere()) && emitted == old(emitted)
    {
      o := PausePlayback();
    }

    /** The audio-focus listener: GAIN resumes, every LOSS variant pauses, others are logged. */
    method OnAudioFocusChange(focus: int) returns (o: Outcome)
      modifies this`emitted, this`sessionActive, this`playing
      ensures focus == AUDIOFOCUS_GAIN ==>
        && sessionActive
        && (if HasCurrent() then o == Done && playing && emitted == old(emitted) + [PlayingState(position, CurrentQueueId())]
            else o == Crash(FaultHere()) && emitted == old(emitted) && playing == old(playing))
      ensures focus in {AUDIOFOCUS_LOSS, AUDIOFOCUS_LOSS_TRANSIENT, AUDIOFOCUS_LOSS_TRANSIENT_CAN_DUCK} ==>
        && !playing && sessionActive == old(sessionActive)
        && (if HasCurrent() then o == Done && emitted == old(emitted) + [PausedState(if old(playing) then position else 0, CurrentQueueId())]
            else o == Crash(FaultHere()) && emitted == old(emitted))
      ensures focus !in {AUDIOFOCUS_GAIN, AUDIOFOCUS_LOSS, AUDIOFOCUS_LOSS_TRANSIENT, AUDIOFOCUS_LOSS_TRANSIENT_CAN_DUCK} ==>
        o == Done && Current() == old(Current())
    {
      if focus == AUDIOFOCUS_GAIN {
        o := ResumePlayback();
      } else if focus == AUDIOFOCUS_LOSS || focus == AUDIOFOCUS_LOSS_TRANSIENT || focus == AUDIOFOCUS_LOSS_TRANSIENT_CAN_DUCK {
        o := PausePlayback();
      } else {
        o := Done;
      }
    }

    /** startPlayback: copy the data-model queue and play the first item whose media id is key. */
    method StartPlayback(key: string, candidates: seq<QueueItem>, loadOk: bool, granted: bool) returns (o: Outcome)
      requires Valid() && |candidates| <= INT_MAX
      modifies this
      ensures Valid()
      ensures (forall j :: 0 <= j < |candidates| ==> candidates[j].description.mediaId != key) ==>
        o == Done && Current() == old(Current()).(emitted := old(emitted) + [ERROR_STATE])
      ensures (exists j :: 0 <= j < |candidates| && candidates[j].description.mediaId == key) ==>
        && 0 <= index < |candidates| && candidates[index].description.mediaId == key
        && (forall j :: 0 <= j < index ==> candidates[j].description.mediaId != key)
        && LoadedAt(old(Current()).(queue := Some(candidates), sessionQueue := Some(candidates)), index, loadOk, granted, true, o)
    {
      var found := FirstIndexOfMediaId(candidates, key);
      if found == -1 {
        emitted := emitted + [ERROR_STATE];
        return Done;
      }
      ghost var v := old(Current()).(queue := Some(candidates), sessionQueue := Some(candidates));
      queue := Some(candidates);
      index := found;
      sessionQueue := queue;
      o := Play(loadOk, granted);
      assert LoadedAt(v, found, loadOk, granted, false, o);
      if o == IoFailure {
        emitted := emitted + [ERROR_STATE];
        o := Done;
      }
    }

    /** onPlayFromMediaId: start playback from key once audio focus is granted. */
    method OnPlayFromMediaId(key: string, candidates: seq<QueueItem>, loadOk: bool, granted: bool) returns (o: Outcome)
      requires Valid() && |candidates| <= INT_MAX
      modifies this
      ensures Valid()
      ensures !granted ==> o == Done && Current() == old(Current())
      ensures granted && (forall j :: 0 <= j < |candidates| ==> candidates[j].description.mediaId != key) ==>
        o == Done && Current() == old(Current()).(emitted := old(emitted) + [ERROR_STATE])
      ensures granted && (exists j :: 0 <= j < |candidates| && candidates[j].description.mediaId == key) ==>
        && 0 <= index < |candidates| && candidates[index].description.mediaId == key
        && (forall j :: 0 <= j < index ==> candidates[j].description.mediaId != key)
        && LoadedAt(old(Current()).(queue := Some(candidates), sessionQueue := Some(candidates)), index, loadOk, granted, true, o)
    {
      o := Done;
      if granted {
        o := StartPlayback(key, candidates, loadOk, granted);
      }
    }

    /** The precondition Collections.shuffle meets: it permutes what remains after the removal. */
    predicate ShuffleOrderOk(shuffledRest: seq<QueueItem>)
      reads this
    {
      queue.Some? && |queue.value| > 2 && 0 <= index < |queue.value| ==>
        multiset(shuffledRest) == multiset(RemoveAt(queue.value, index))
    }

    /**
     * The effect of shuffle from the fields v: nothing for a null queue or one of two items or
     * fewer; a crash for an index outside a longer queue; otherwise the current item first, then
     * the shuffled rest, renumbered and published, with the index at 0.
     */
    ghost predicate ShuffledFrom(v: Fields, shuffledRest: seq<QueueItem>, o: Outcome)
      reads this
    {
      if !(v.queue.Some? && |v.queue.value| > 2) then o == Done && Current() == v
      else if !(0 <= v.index < |v.queue.value|) then o == Crash(IndexOutOfBounds) && Current() == v
      else
        var q := Some(Renumbered([v.queue.value[v.index]] + shuffledRest));
        o == Done && Current() == v.(queue := q, index := 0, sessionQueue := q)
    }

    /**
     * shuffle: for more than two items, move the current item to the front, put the rest in the
     * shuffled order, renumber every queue id to its position, and publish the queue.
     */
    method Shuffle(shuffledRest: seq<QueueItem>) returns (o: Outcome)
      requires Valid() && ShuffleOrderOk(shuffledRest)
      modifies this`queue, this`index, this`sessionQueue
      ensures Valid()
      ensures ShuffledFrom(old(Current()), shuffledRest, o)
    {
      o := Done;
      if queue.Some? && |queue.value| > 2 {
        var q := queue.value;
        if !(0 <= index < |q|) {
          return Crash(IndexOutOfBounds);
        }
        var current := q[index];
        ShuffleArrangement(q, index, shuffledRest);
        var arranged := [current] + shuffledRest;
        var i := 0;
        while i < |arranged|
          invariant 0 <= i <= |arranged| == |q|
          invariant forall k :: 0 <= k < i ==> arranged[k] == QueueItem(([current] + shuffledRest)[k].description, k)
          invariant forall k :: i <= k < |arranged| ==> arranged[k] == ([current] + shuffledRest)[k]
        {
          arranged := arranged[i := QueueItem(arranged[i].description, i)];
          i := i + 1;
        }
        assert arranged == Renumbered([current] + shuffledRest);
        queue := Some(arranged);
        index := 0;
        sessionQueue := queue;
      }
    }

    /** onCustomAction: the shuffle action shuffles; any other action is only logged. */
    method OnCustomAction(action: string, shuffledRest: seq<QueueItem>) returns (o: Outcome)
      requires Valid() && ShuffleOrderOk(shuffledRest)
      modifies this`queue, this`index, this`sessionQueue
      ensures Valid()
      ensures action != SHUFFLE ==> o == Done && Current() == old(Current())
      ensures action == SHUFFLE ==> ShuffledFrom(old(Current()), shuffledRest, o)
    {
      o := Done;
      if action == SHUFFLE {
        o := Shuffle(shuffledRest);
      }
    }

    /** destroy: stop the decoder (notifications, focus and the decoder's release are not modelled). */
    method Destroy()
      modifies this`emitted, this`playing
      ensures StoppedFrom(old(Current()))
    {
      StopPlayback();
    }

    /** saveState: write the queue, the current queue id and the decoder position to the slot. */
    method SaveState() returns (o: Outcome)
      modifies this`stored
      ensures old(queue).None? || |old(queue).value| == 0 ==> o == Done && stored == old(stored)
      ensures old(queue).Some? && |old(queue).value| > 0 && !HasCurrent() ==> o == Crash(IndexOutOfBounds) && stored == old(stored)
      ensures HasCurrent() ==> o == Done && stored == Some(Encode(Snapshot(queue.value, index, position)))
    {
      if queue.None? || |queue.value| == 0 {
        return Done;
      }
      var q := queue.value;
      var songs := SnapshotSongs(q);
      if !(0 <= index < |q|) {
        return Crash(IndexOutOfBounds);
      }
      assert songs == SongsOf(q);
      var playlist := Playlist(CURRENT_PLAYLIST_KEY, songs, q[index].queueId, position);
      stored := Some(Encode(playlist));
      o := Done;
    }

    /** maybeRebuildQueue: install the songs whose file exists; false if none is left. */
    method MaybeRebuildQueue(playlist: Playlist, fileExists: string -> bool) returns (ok: bool)
      requires Valid() && |playlist.songs| <= INT_MAX
      modifies this`queue, this`index
      ensures Valid()
      ensures ok <==> |RestoredQueue(playlist.songs, fileExists)| > 0
      ensures !ok ==> queue == old(queue) && index == old(index)
      ensures ok ==> && queue == Some(RestoredQueue(playlist.songs, fileExists))
                     && index == RestoredIndex(playlist.songs, playlist.currentQueueId, fileExists)
                     && HasCurrent()
    {
      var q, foundIdx := RebuildQueue(playlist, fileExists);
      if |q| == 0 {
        return false;
      }
      if |KeptSongs(playlist.songs, fileExists)| > 0 {
        RestoredIndexInRange(playlist.songs, playlist.currentQueueId, fileExists);
      }
      queue := Some(q);
      index := foundIdx;
      ok := true;
    }

    /**
     * maybeRestoreState: with permissions and a decodable saved playlist that still has a file
     * left, rebuild the queue, publish it, and once focus is granted load the current item,
     * seek to the saved position and publish PLAYING. A load failure is only logged.
     */
    method MaybeRestoreState(hasPermissions: bool, fileExists: string -> bool, loadOk: bool, granted: bool)
      returns (restored: bool, o: Outcome)
      requires Valid()
      requires stored.Some? && stored.value.Encoded? ==> |stored.value.playlist.songs| <= INT_MAX
      modifies this
      ensures Valid()
      ensures !hasPermissions ==>
        && !restored && o == Done
        && Current() == old(Current()).(emitted := old(emitted) + [PERMISSION_ERROR_STATE])
      ensures hasPermissions && (old(stored).None? || old(stored).value.Corrupt?) ==>
        !restored && o == Done && Current() == old(Current())
      ensures hasPermissions && old(stored).Some? && old(stored).value.Encoded? ==>
        var p := old(stored).value.playlist;
        var q := RestoredQueue(p.songs, fileExists);
        && (restored <==> |q| > 0)
        && (!restored ==> o == Done && Current() == old(Current()))
        && (restored ==>
              && o == Done && queue == Some(q) && sessionQueue == Some(q)
              && index == RestoredIndex(p.songs, p.currentQueueId, fileExists)
              && stored == old(stored)
              && (!granted ==> Current() == old(Current()).(queue := Some(q), index := index, sessionQueue := Some(q)))
              && (granted && loadOk ==>
                    && playing && position == p.currentSongPosition && sessionActive
                    && emitted == old(emitted) + [PlayingState(0, q[index].queueId), PlayingState(p.currentSongPosition, q[index].queueId)])
              && (granted && !loadOk ==>
                    Current() == old(Current()).(queue := Some(q), index := index, sessionQueue := Some(q),
                                                 playing := false, position := 0)))
    {
      if !hasPermissions {
        emitted := emitted + [PERMISSION_ERROR_STATE];
        return false, Done;
      }
      if stored.None? {
        return false, Done;
      }
      var decoded := Decode(stored.value);
      if decoded.None? {
        return false, Done;
      }
      var playlist := decoded.value;
      var ok := MaybeRebuildQueue(playlist, fileExists);
      if !ok {
        return false, Done;
      }
      sessionQueue := queue;
      o := PlayRestored(playlist.currentSongPosition, loadOk, granted);
      restored := true;
    }

    /**
     * maybeRestoreState's last step: once focus is granted, load the current item, seek to the
     * saved position and publish PLAYING; a load failure only resets the decoder.
     */
    method PlayRestored(songPosition: int, loadOk: bool, granted: bool) returns (o: Outcome)
      requires HasCurrent()
      modifies this`emitted, this`sessionActive, this`playing, this`position
      ensures o == Done
      ensures !granted ==> Current() == old(Current())
      ensures granted && !loadOk ==> Current() == old(Current()).(playing := false, position := 0)
      ensures granted && loadOk ==>
        Current() == old(Current()).(playing := true, position := songPosition, sessionActive := true,
                                     emitted := old(emitted) + [PlayingState(0, CurrentQueueId()), PlayingState(songPosition, CurrentQueueId())])
    {
      o := Done;
      if granted {
        ghost var v := Current();
        var loaded := PlayCurrentQueueIndex(loadOk, granted);
        assert LoadedAt(v, v.index, loadOk, granted, false, loaded);
        if loaded == Done {
          position := songPosition;
          o := UpdatePlaybackStatePlaying();
        }
      }
    }
  }
}
