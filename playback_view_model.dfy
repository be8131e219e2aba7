/**
 * The playback view model (PlaybackViewModel.java): the pure projections of a session's
 * playback state that the UI reads (PlaybackStateWrapper), and the controller callback that
 * follows the browsing state, installs and drops the session's MediaController, filters its
 * queue, normalises its metadata and publishes the wrapper.
 *
 * A MediaControllerCompat is a value carrying what the callback reads from it; the one the
 * InputFactory creates for a connected browser is a parameter. LiveData values are fields,
 * with None standing for null.
 */
module Playback {
  import opened MediaTypes
  import opened SourceConnection
  import LocalPlayer

  // ---------------------------------------------------------------------------
  // Values read from the session

  /** The main action shown by the play/pause button: ACTION_DISABLED 0, PLAY 1, STOP 2, PAUSE 3. */
  datatype MainAction = ActionDisabled | ActionPlay | ActionStop | ActionPause

  /** RatingCompat.RATING_HEART. */
  const RATING_HEART: int := 1

  /** A RatingCompat: its style and, for a heart rating, whether it is rated with a heart. */
  datatype Rating = Rating(ratingStyle: int, heart: bool)

  /** RatingCompat.hasHeart: false for any style other than the heart. */
  predicate HasHeart(r: Rating) {
    r.ratingStyle == RATING_HEART && r.heart
  }

  /**
   * Metadata keys: the two the view model reads, then every other key by how MediaMetadata.equals
   * treats it. KeyText is a standard text key (title, artist, media id, ...); KeyLong is a
   * standard long key other than the duration (year, track number, ...); KeyOther is a bitmap,
   * rating or custom key, which equals ignores.
   */
  datatype MetadataKey =
    | KeyDuration
    | KeyUserRating
    | KeyText(name: string)
    | KeyLong(name: string)
    | KeyOther(name: string)

  datatype MetadataValue = LongValue(n: int) | TextValue(text: string) | RatingValue(rating: Rating)

  /** MediaMetadataCompat: the bundle of its entries. */
  datatype Metadata = Metadata(values: map<MetadataKey, MetadataValue>)

  /** Bundle.getLong: 0 when the key is missing or holds no long. */
  function GetLong(m: Metadata, key: MetadataKey): int {
    if key in m.values && m.values[key].LongValue? then m.values[key].n else 0
  }

  /** MediaMetadataCompat.getRating: null when the key is missing or holds no rating. */
  function GetRating(m: Metadata, key: MetadataKey): Option<Rating> {
    if key in m.values && m.values[key].RatingValue? then Some(m.values[key].rating) else None
  }

  /** The controller extras the slot-reservation flags are read from. */
  datatype ExtraKey =
    | SlotReservationSkipToNext | PlaybackSlotReservationSkipToNext
    | SlotReservationSkipToPrev | PlaybackSlotReservationSkipToPrev

  /** Bundle.getBoolean: false when the key is missing. */
  function GetBoolean(extras: map<ExtraKey, bool>, key: ExtraKey): bool {
    key in extras && extras[key]
  }

  /** A session queue item's description: the title may be null. */
  datatype QueueDescription = QueueDescription(mediaId: string, title: Option<string>, subtitle: string)

  /** MediaSessionCompat.QueueItem; the description may be null. */
  datatype SessionQueueItem = SessionQueueItem(description: Option<QueueDescription>, queueId: int)

  /** MediaItemMetadata built from a queue item that has a title. */
  datatype QueueEntry = QueueEntry(mediaId: string, title: string, subtitle: string, queueId: int)

  /**
   * What the callback reads from a MediaControllerCompat: its identity, package, rating type and
   * extras, and the metadata, playback state, queue and queue title it reports when installed.
   */
  datatype Controller = Controller(
    id: nat,
    packageName: string,
    ratingType: int,
    extras: Option<map<ExtraKey, bool>>,
    metadata: Option<Metadata>,
    playbackState: Option<PlaybackState>,
    queue: Option<seq<Option<SessionQueueItem>>>,
    queueTitle: Option<string>)

  /** PlaybackStateWrapper: a controller, its metadata (maybe null) and a non-null state. */
  datatype Wrapper = Wrapper(controller: Controller, metadata: Option<Metadata>, state: PlaybackState)

  /** RawCustomPlaybackAction without its icon resource. */
  datatype RawAction =
    | RatingAction(filledStar: bool, setHeart: bool)
    | SessionAction(packageName: string, action: string)

  // ---------------------------------------------------------------------------
  // PlaybackStateWrapper

  /** The states in which something is playing or about to play. */
  predicate PlayingLike(s: int) {
    s == STATE_PLAYING || s == STATE_BUFFERING || s == STATE_CONNECTING || s == STATE_FAST_FORWARDING
    || s == STATE_REWINDING || s == STATE_SKIPPING_TO_NEXT || s == STATE_SKIPPING_TO_PREVIOUS
    || s == STATE_SKIPPING_TO_QUEUE_ITEM
  }

  /** The states in which nothing plays. */
  predicate Resting(s: int) {
    s == STATE_STOPPED || s == STATE_PAUSED || s == STATE_NONE || s == STATE_ERROR
  }

  /** The action that stops what is playing: pause, else stop, else none. */
  function StopAction(actions: bv64): MainAction {
    if actions & (ACTION_PAUSE | ACTION_PLAY_PAUSE) != 0 then ActionPause
    else if actions & ACTION_STOP != 0 then ActionStop
    else ActionDisabled
  }

  /** getMainAction. */
  function GetMainAction(w: Wrapper): (r: MainAction)
    ensures var a := w.state.actions;
      PlayingLike(w.state.state) ==>
        && (r == ActionPause <==> HasAction(a, ACTION_PAUSE) || HasAction(a, ACTION_PLAY_PAUSE))
        && (r == ActionStop <==> !HasAction(a, ACTION_PAUSE) && !HasAction(a, ACTION_PLAY_PAUSE) && HasAction(a, ACTION_STOP))
        && r != ActionPlay
    ensures Resting(w.state.state) ==>
      (r == ActionPlay <==> HasAction(w.state.actions, ACTION_PLAY)) && (r == ActionPlay || r == ActionDisabled)
    ensures !PlayingLike(w.state.state) && !Resting(w.state.state) ==> r == ActionDisabled
  {
    var actions := w.state.actions;
    var stopAction := StopAction(actions);
    match w.state.state
    case 3 | 6 | 8 | 4 | 5 | 10 | 9 | 11 => stopAction
    case 1 | 2 | 0 | 7 => if actions & ACTION_PLAY != 0 then ActionPlay else ActionDisabled
    case _ => ActionDisabled
  }

  /** shouldDisplay: never in STATE_NONE; otherwise when there is metadata or a main action. */
  function ShouldDisplay(w: Wrapper): (r: bool)
    ensures w.state.state == STATE_NONE ==> !r
    ensures w.state.state != STATE_NONE ==> (r <==> w.metadata.Some? || GetMainAction(w) != ActionDisabled)
    ensures var s := w.state.state; var a := w.state.actions;
      w.metadata.None? ==>
        (r <==> (PlayingLike(s) && (HasAction(a, ACTION_PAUSE) || HasAction(a, ACTION_PLAY_PAUSE) || HasAction(a, ACTION_STOP)))
                || (Resting(s) && s != STATE_NONE && HasAction(a, ACTION_PLAY)))
  {
    w.state.state != STATE_NONE && (w.metadata.Some? || GetMainAction(w) != ActionDisabled)
  }

  /** isPlaying: exactly STATE_PLAYING, a playing-like state whose main action is never play. */
  function IsPlaying(w: Wrapper): (r: bool)
    ensures r ==> PlayingLike(w.state.state) && !Resting(w.state.state) && GetMainAction(w) != ActionPlay
    ensures !PlayingLike(w.state.state) ==> !r
    ensures r <==> PlayingLike(w.state.state) && !IsLoading(w)
  {
    w.state.state == STATE_PLAYING
  }

  /** isSkipNextEnabled: bit 5 of the actions mask. */
  function IsSkipNextEnabled(w: Wrapper): (r: bool)
    ensures r <==> (w.state.actions >> 5) & 1 == 1
  {
    HasAction(w.state.actions, ACTION_SKIP_TO_NEXT)
  }

  /** isSkipPreviousEnabled: bit 4 of the actions mask. */
  function IsSkipPreviousEnabled(w: Wrapper): (r: bool)
    ensures r <==> (w.state.actions >> 4) & 1 == 1
  {
    HasAction(w.state.actions, ACTION_SKIP_TO_PREVIOUS)
  }

  /** isSeekToEnabled: bit 8 of the actions mask. */
  function IsSeekToEnabled(w: Wrapper): (r: bool)
    ensures r <==> (w.state.actions >> 8) & 1 == 1
  {
    HasAction(w.state.actions, ACTION_SEEK_TO)
  }

  /** The two extras keys that reserve the skip-to-next slot. */
  predicate ReservesNext(k: ExtraKey) {
    k == SlotReservationSkipToNext || k == PlaybackSlotReservationSkipToNext
  }

  /** The two extras keys that reserve the skip-to-previous slot. */
  predicate ReservesPrev(k: ExtraKey) {
    k == SlotReservationSkipToPrev || k == PlaybackSlotReservationSkipToPrev
  }

  /** isSkipNextReserved: the controller has extras in which some skip-next reservation key is true. */
  function IsSkipNextReserved(w: Wrapper): (r: bool)
    ensures r <==> (w.controller.extras.Some? &&
                    exists k :: k in w.controller.extras.value && w.controller.extras.value[k] && ReservesNext(k))
  {
    w.controller.extras.Some?
    && (GetBoolean(w.controller.extras.value, SlotReservationSkipToNext)
        || GetBoolean(w.controller.extras.value, PlaybackSlotReservationSkipToNext))
  }

  /** iSkipPreviousReserved: the controller has extras in which some skip-previous reservation key is true. */
  function IsSkipPreviousReserved(w: Wrapper): (r: bool)
    ensures r <==> (w.controller.extras.Some? &&
                    exists k :: k in w.controller.extras.value && w.controller.extras.value[k] && ReservesPrev(k))
  {
    w.controller.extras.Some?
    && (GetBoolean(w.controller.extras.value, SlotReservationSkipToPrev)
        || GetBoolean(w.controller.extras.value, PlaybackSlotReservationSkipToPrev))
  }

  /** isLoading: exactly the transitional states, that is the playing-like ones except PLAYING. */
  function IsLoading(w: Wrapper): (r: bool)
    ensures r <==> PlayingLike(w.state.state) && w.state.state != STATE_PLAYING
    ensures r ==> !Resting(w.state.state)
  {
    var s := w.state.state;
    s == STATE_BUFFERING || s == STATE_CONNECTING || s == STATE_FAST_FORWARDING || s == STATE_REWINDING
    || s == STATE_SKIPPING_TO_NEXT || s == STATE_SKIPPING_TO_PREVIOUS || s == STATE_SKIPPING_TO_QUEUE_ITEM
  }

  /** getMaxProgress: the duration from the metadata, 0 without metadata or duration. */
  function GetMaxProgress(w: Wrapper): (r: int)
    ensures w.metadata.None? ==> r == 0
    ensures w.metadata.Some? && KeyDuration !in w.metadata.value.values ==> r == 0
    ensures w.metadata.Some? && KeyDuration in w.metadata.value.values && w.metadata.value.values[KeyDuration].LongValue? ==>
      r == w.metadata.value.values[KeyDuration].n
    ensures w.metadata.Some? && KeyDuration in w.metadata.value.values && !w.metadata.value.values[KeyDuration].LongValue? ==>
      r == 0
  {
    if w.metadata.None? then 0 else GetLong(w.metadata.value, KeyDuration)
  }

  /** Whether the current item carries a user rating with a heart. */
  predicate RatedWithHeart(w: Wrapper) {
    w.metadata.Some? && var rating := GetRating(w.metadata.value, KeyUserRating); rating.Some? && HasHeart(rating.value)
  }

  /**
   * getRatingAction: offered iff the state supports SET_RATING and the session rates with hearts;
   * the star is filled iff the item has a heart, and pressing it sets the opposite.
   */
  function GetRatingAction(w: Wrapper): (r: Option<RawAction>)
    ensures r.Some? <==> HasAction(w.state.actions, ACTION_SET_RATING) && w.controller.ratingType == RATING_HEART
    ensures r.Some? ==> r.value.RatingAction? && r.value.filledStar == RatedWithHeart(w) && r.value.setHeart == !r.value.filledStar
  {
    if w.state.actions & ACTION_SET_RATING == 0 then None
    else if w.controller.ratingType != RATING_HEART then None
    else
      var hasHeart := if w.metadata.Some? then
        (var rating := GetRating(w.metadata.value, KeyUserRating); rating.Some? && HasHeart(rating.value))
      else false;
      Some(RatingAction(hasHeart, !hasHeart))
  }

  /**
   * getCustomActions: the rating action first when there is one, then each of the state's custom
   * actions, in order, attributed to the controller's package.
   */
  method GetCustomActions(w: Wrapper) returns (actions: seq<RawAction>)
    ensures var rating := GetRatingAction(w);
      var offset := if rating.Some? then 1 else 0;
      && |actions| == offset + |w.state.customActions|
      && (rating.Some? ==> actions[0] == rating.value)
      && forall i :: 0 <= i < |w.state.customActions| ==>
           actions[offset + i] == SessionAction(w.controller.packageName, w.state.customActions[i].action)
  {
    actions := [];
    var ratingAction := GetRatingAction(w);
    if ratingAction.Some? {
      actions := actions + [ratingAction.value];
    }
    var offset := |actions|;
    var custom := w.state.customActions;
    for i := 0 to |custom|
      invariant |actions| == offset + i
      invariant ratingAction.Some? ==> actions[0] == ratingAction.value
      invariant forall j :: 0 <= j < i ==> actions[offset + j] == SessionAction(w.controller.packageName, custom[j].action)
    {
      var packageName := w.controller.packageName;
      actions := actions + [SessionAction(packageName, custom[i].action)];
    }
  }

  // ---------------------------------------------------------------------------
  // Queue and metadata sanitising

  /** A queue item the UI can show: present, with a description that has a title. */
  predicate Displayable(item: Option<SessionQueueItem>) {
    item.Some? && item.value.description.Some? && item.value.description.value.title.Some?
  }

  function EntryOf(item: Option<SessionQueueItem>): QueueEntry
    requires Displayable(item)
  {
    var d := item.value.description.value;
    QueueEntry(d.mediaId, d.title.value, d.subtitle, item.value.queueId)
  }

  /** The displayable items of a queue, in order, as queue entries. */
  function FilterQueue(items: seq<Option<SessionQueueItem>>): (r: seq<QueueEntry>)
    ensures |r| <= |items|
  {
    if items == [] then []
    else
      var rest := FilterQueue(items[..|items| - 1]);
      var last := items[|items| - 1];
      if Displayable(last) then rest + [EntryOf(last)] else rest
  }

  /** onQueueChanged's sanitised queue: a null queue gives the empty list. */
  function SanitizedQueue(queue: Option<seq<Option<SessionQueueItem>>>): seq<QueueEntry> {
    if queue.None? then [] else FilterQueue(queue.value)
  }

  lemma {:induction false} FilterQueueConcat(a: seq<Option<SessionQueueItem>>, b: seq<Option<SessionQueueItem>>)
    ensures FilterQueue(a + b) == FilterQueue(a) + FilterQueue(b)
    decreases |b|
  {
    if b == [] {
      assert a + b == a;
    } else {
      var b' := b[..|b| - 1];
      assert (a + b)[..|a + b| - 1] == a + b';
      assert (a + b)[|a + b| - 1] == b[|b| - 1];
      FilterQueueConcat(a, b');
    }
  }

  /** The sanitised queue keeps exactly the displayable items. */
  lemma {:induction false} FilterQueueExactly(items: seq<Option<SessionQueueItem>>, e: QueueEntry)
    ensures e in FilterQueue(items) <==> exists i :: 0 <= i < |items| && Displayable(items[i]) && EntryOf(items[i]) == e
  {
    if items != [] {
      var init := items[..|items| - 1];
      FilterQueueExactly(init, e);
      if e in FilterQueue(init) {
        var i :| 0 <= i < |init| && Displayable(init[i]) && EntryOf(init[i]) == e;
        assert items[i] == init[i];
      }
      if exists i :: 0 <= i < |items| && Displayable(items[i]) && EntryOf(items[i]) == e {
        var i :| 0 <= i < |items| && Displayable(items[i]) && EntryOf(items[i]) == e;
        if i < |init| {
          assert init[i] == items[i];
        }
      }
    }
  }

  /** An all-displayable queue is kept whole, in order. */
  lemma {:induction false} FilterQueueKeepsDisplayable(items: seq<Option<SessionQueueItem>>)
    requires forall i :: 0 <= i < |items| ==> Displayable(items[i])
    ensures |FilterQueue(items)| == |items|
    ensures forall i :: 0 <= i < |items| ==> FilterQueue(items)[i] == EntryOf(items[i])
  {
    if items != [] {
      FilterQueueKeepsDisplayable(items[..|items| - 1]);
    }
  }

  /** A queue with no displayable item sanitises to the empty list, so hasQueue is false. */
  lemma {:induction false} FilterQueueDropsHidden(items: seq<Option<SessionQueueItem>>)
    requires forall i :: 0 <= i < |items| ==> !Displayable(items[i])
    ensures FilterQueue(items) == []
  {
    if items != [] {
      FilterQueueDropsHidden(items[..|items| - 1]);
    }
  }

  /** MediaMetadata.getText: null unless the key holds text. */
  function GetText(m: Metadata, key: MetadataKey): Option<string> {
    if key in m.values && m.values[key].TextValue? then Some(m.values[key].text) else None
  }

  /**
   * MediaMetadata.equals: every standard text key reads the same text (null when missing) and
   * every standard long key the same long (0 when missing); all other keys are ignored.
   */
  ghost predicate MetadataEquals(a: Metadata, b: Metadata) {
    && (forall k: MetadataKey :: k.KeyText? ==> GetText(a, k) == GetText(b, k))
    && (forall k: MetadataKey :: k.KeyDuration? || k.KeyLong? ==> GetLong(a, k) == GetLong(b, k))
  }

  /** EMPTY_MEDIA_METADATA: a freshly built MediaMetadata, with no entries. */
  const EMPTY_METADATA := Metadata(map[])

  /** An entry that MediaMetadata.equals tells apart from a missing one. */
  predicate Distinguished(k: MetadataKey, v: MetadataValue) {
    || (k.KeyText? && v.TextValue?)
    || ((k.KeyDuration? || k.KeyLong?) && v.LongValue? && v.n != 0)
  }

  /**
   * onMetadataChanged: metadata that MediaMetadata.equals finds equal to EMPTY_MEDIA_METADATA
   * becomes null, so metadata holding only a zero duration, a rating or custom keys is dropped too.
   */
  function NormalizeMetadata(m: Option<Metadata>): (r: Option<Metadata>)
    ensures r.None? <==> m.None? || MetadataEquals(EMPTY_METADATA, m.value)
    ensures r.Some? ==> r == m
  {
    if m.Some? && (forall k :: k in m.value.values ==> !Distinguished(k, m.value.values[k])) then None else m
  }

  // ---------------------------------------------------------------------------
  // The player's own states, as the UI sees them

  /**
   * The states the local player publishes show the expected controls: while playing, pause with
   * next and previous; while paused or stopped, play; in either error, nothing.
   */
  lemma PlayerStatesProjection(c: Controller, m: Option<Metadata>, position: int, id: int)
    ensures var w := Wrapper(c, m, LocalPlayer.PlayingState(position, id));
      GetMainAction(w) == ActionPause && IsPlaying(w) && !IsLoading(w) && ShouldDisplay(w)
      && IsSkipNextEnabled(w) && IsSkipPreviousEnabled(w) && !IsSeekToEnabled(w)
    ensures var w := Wrapper(c, m, LocalPlayer.PausedState(position, id));
      GetMainAction(w) == ActionPlay && !IsPlaying(w) && ShouldDisplay(w)
      && IsSkipNextEnabled(w) && IsSkipPreviousEnabled(w) && !IsSeekToEnabled(w)
    ensures GetMainAction(Wrapper(c, m, LocalPlayer.STOPPED_STATE)) == ActionPlay
    ensures GetMainAction(Wrapper(c, m, LocalPlayer.ERROR_STATE)) == ActionDisabled
    ensures GetMainAction(Wrapper(c, m, LocalPlayer.PERMISSION_ERROR_STATE)) == ActionDisabled
    ensures ShouldDisplay(Wrapper(c, None, LocalPlayer.ERROR_STATE)) == false
    ensures GetRatingAction(Wrapper(c, m, LocalPlayer.PlayingState(position, id))) == None
  {
  }

  // ---------------------------------------------------------------------------
  // MediaControllerCallback

  /** The callback's observable state; used to say that a call changed nothing. */
  datatype CallbackFields = CallbackFields(
    browsingState: Option<BrowsingState>,
    controller: Option<Controller>,
    metadata: Option<Metadata>,
    playbackState: Option<PlaybackState>,
    registered: set<nat>,
    metadataLive: Option<Metadata>,
    queueLive: Option<seq<QueueEntry>>,
    hasQueueLive: Option<bool>,
    queueTitleLive: Option<string>,
    colorsLive: Option<string>,
    controlsLive: Option<Option<Controller>>,
    wrapperLive: Option<Wrapper>)

  class MediaControllerCallback {
    /** mBrowsingState. */
    var browsingState: Option<BrowsingState>
    /** mMediaController. */
    var controller: Option<Controller>
    /** mMediaMetadata. */
    var metadata: Option<Metadata>
    /** mPlaybackState. */
    var playbackState: Option<PlaybackState>
    /** The ids of the controllers this callback is registered with. */
    var registered: set<nat>
    /** mMetadata. */
    var metadataLive: Option<Metadata>
    /** mSanitizedQueue. */
    var queueLive: Option<seq<QueueEntry>>
    /** mHasQueue. */
    var hasQueueLive: Option<bool>
    /** mQueueTitle. */
    var queueTitleLive: Option<string>
    /** mColors: the package the colours were extracted for. */
    var colorsLive: Option<string>
    /** mPlaybackControls: a PlaybackController around the (possibly null) controller. */
    var controlsLive: Option<Option<Controller>>
    /** mPlaybackStateWrapper. */
    var wrapperLive: Option<Wrapper>

    ghost function Current(): CallbackFields
      reads this
    {
      CallbackFields(browsingState, controller, metadata, playbackState, registered, metadataLive,
                     queueLive, hasQueueLive, queueTitleLive, colorsLive, controlsLive, wrapperLive)
    }

    /** The wrapper updatePlaybackStatus publishes: only with both a controller and a state. */
    ghost function PublishedWrapper(): Option<Wrapper>
      reads this
    {
      if controller.Some? && playbackState.Some? then Some(Wrapper(controller.value, metadata, playbackState.value))
      else None
    }

    /** The published wrapper and metadata always reflect the current fields. */
    ghost predicate Valid()
      reads this
    {
      wrapperLive == PublishedWrapper() && metadataLive == metadata
    }

    /** The state right after setMediaController(c) (the registrations aside). */
    ghost predicate Shows(c: Option<Controller>)
      reads this
    {
      && controller == c
      && metadata == (if c.Some? then NormalizeMetadata(c.value.metadata) else None)
      && playbackState == (if c.Some? then c.value.playbackState else None)
      && metadataLive == metadata
      && queueLive == Some(SanitizedQueue(if c.Some? then c.value.queue else None))
      && hasQueueLive == Some(|queueLive.value| > 1)
      && queueTitleLive == (if c.Some? then c.value.queueTitle else None)
      && colorsLive == (if c.Some? then Some(c.value.packageName) else None)
      && controlsLive == Some(c)
      && wrapperLive == PublishedWrapper()
    }

    constructor ()
      ensures Valid()
      ensures browsingState == None && controller == None && metadata == None && playbackState == None
      ensures registered == {} && queueLive == None && hasQueueLive == None && queueTitleLive == None
      ensures colorsLive == None && controlsLive == None && wrapperLive == None
    {
      browsingState := None;
      controller := None;
      metadata := None;
      playbackState := None;
      registered := {};
      metadataLive := None;
      queueLive := None;
      hasQueueLive := None;
      queueTitleLive := None;
      colorsLive := None;
      controlsLive := None;
      wrapperLive := None;
    }

    /** updatePlaybackStatus. */
    method UpdatePlaybackStatus()
      modifies this`wrapperLive
      ensures wrapperLive == PublishedWrapper()
    {
      if controller.Some? && playbackState.Some? {
        wrapperLive := Some(Wrapper(controller.value, metadata, playbackState.value));
      } else {
        wrapperLive := None;
      }
    }

    /** onMetadataChanged: store the normalised metadata, publish it and the wrapper. */
    method OnMetadataChanged(m: Option<Metadata>)
      modifies this`metadata, this`metadataLive, this`wrapperLive
      ensures metadata == NormalizeMetadata(m) && metadataLive == metadata
      ensures wrapperLive == PublishedWrapper()
    {
      metadata := NormalizeMetadata(m);
      metadataLive := metadata;
      UpdatePlaybackStatus();
    }

    method OnQueueTitleChanged(title: Option<string>)
      modifies this`queueTitleLive
      ensures queueTitleLive == title
    {
      queueTitleLive := title;
    }

    /** onQueueChanged: publish the sanitised queue, and whether it has more than one item. */
    method OnQueueChanged(queue: Option<seq<Option<SessionQueueItem>>>)
      modifies this`queueLive, this`hasQueueLive
      ensures queueLive == Some(SanitizedQueue(queue))
      ensures hasQueueLive == Some(|SanitizedQueue(queue)| > 1)
    {
      var filtered := if queue.None? then [] else FilterQueue(queue.value);
      queueLive := Some(filtered);
      hasQueueLive := Some(|filtered| > 1);
    }

    method OnPlaybackStateChanged(state: Option<PlaybackState>)
      modifies this`playbackState, this`wrapperLive
      ensures playbackState == state && wrapperLive == PublishedWrapper()
    {
      playbackState := state;
      UpdatePlaybackStatus();
    }

    /**
     * setMediaController: forget the old metadata and state, install c, register with it and
     * replay what it reports (or nulls for no controller), then publish the wrapper.
     */
    method SetMediaController(c: Option<Controller>)
      modifies this
      ensures Valid() && Shows(c)
      ensures registered == old(registered) + (if c.Some? then {c.value.id} else {})
      ensures browsingState == old(browsingState)
    {
      metadata := None;
      playbackState := None;
      controller := c;
      controlsLive := Some(c);
      if c.Some? {
        registered := registered + {c.value.id};
        colorsLive := Some(c.value.packageName);
      } else {
        colorsLive := None;
      }
      ReplayReports(c);
      UpdatePlaybackStatus();
    }

    /**
     * The reports setMediaController replays: the controller's metadata, playback state, queue
     * and queue title, or null for each without a controller.
     */
    method ReplayReports(c: Option<Controller>)
      modifies this`metadata, this`metadataLive, this`playbackState, this`wrapperLive
      modifies this`queueLive, this`hasQueueLive, this`queueTitleLive
      ensures metadata == (if c.Some? then NormalizeMetadata(c.value.metadata) else None)
      ensures playbackState == (if c.Some? then c.value.playbackState else None)
      ensures metadataLive == metadata
      ensures queueLive == Some(SanitizedQueue(if c.Some? then c.value.queue else None))
      ensures hasQueueLive == Some(|queueLive.value| > 1)
      ensures queueTitleLive == (if c.Some? then c.value.queueTitle else None)
    {
      OnMetadataChanged(if c.Some? then c.value.metadata else None);
      OnPlaybackStateChanged(if c.Some? then c.value.playbackState else None);
      OnQueueChanged(if c.Some? then c.value.queue else None);
      OnQueueTitleChanged(if c.Some? then c.value.queueTitle else None);
    }

    /** onSessionDestroyed: drop the controller without unregistering. */
    method OnSessionDestroyed()
      modifies this
      ensures Valid() && Shows(None)
      ensures registered == old(registered) && browsingState == old(browsingState)
    {
      SetMediaController(None);
    }

    /**
     * onMediaBrowsingStateChanged: an equal state changes nothing. Otherwise an installed
     * controller is dropped (and unregistered unless the connection is only suspended), the state
     * is recorded, and for CONNECTED the factory's controller for the browser is installed.
     */
    method OnMediaBrowsingStateChanged(newState: BrowsingState, factoryController: Controller)
      requires Valid()
      modifies this
      ensures old(browsingState) == Some(newState) ==> Current() == old(Current())
      ensures old(browsingState) != Some(newState) ==>
        && browsingState == Some(newState)
        && Valid()
        && var dropped := if old(controller).Some? && newState.status != SUSPENDED then {old(controller).value.id} else {};
           && (newState.status == CONNECTED ==>
                 Shows(Some(factoryController)) && registered == old(registered) - dropped + {factoryController.id})
           && (newState.status != CONNECTED && old(controller).Some? ==>
                 Shows(None) && registered == old(registered) - dropped)
           && (newState.status != CONNECTED && old(controller).None? ==>
                 Current() == old(Current()).(browsingState := Some(newState)))
      ensures old(browsingState) != Some(newState) ==> (controller.Some? <==> newState.status == CONNECTED)
    {
      if browsingState == Some(newState) {
        return;
      }
      if controller.Some? {
        if newState.status != SUSPENDED {
          registered := registered - {controller.value.id};
        }
        SetMediaController(None);
      }
      browsingState := Some(newState);
      if newState.status == CONNECTED {
        SetMediaController(Some(factoryController));
      }
    }
  }
}
