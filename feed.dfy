/** The feed ("Home") screen's view state: the list of beads and its loading
    flags, the set of expanded cards, and audio playback, where at most one
    sound is ever loaded. The backend reply and the audio library's results
    are inputs. */
module Feed {
  import opened Outcomes
  import opened JsText

  type BeadId = string

  /** A bead's `audio_url` as the feed's JSON delivers it: the key may be
      missing, null, or a string. */
  datatype AudioField = Absent | Null | Url(text: string)

  /** The fields of a bead the view state depends on. */
  datatype Bead = Bead(id: BeadId, title: string, content: string, audioUrl: AudioField)

  /** `expandedCards` after tapping card `id`: the card's membership flips
      and every other card's stays. */
  function Toggled(expanded: set<BeadId>, id: BeadId): (r: set<BeadId>)
    ensures id in r <==> id !in expanded
    ensures forall other :: other != id ==> (other in r <==> other in expanded)
  {
    if id in expanded then expanded - {id} else expanded + {id}
  }

  /** Tapping the same card twice restores the set of expanded cards. */
  lemma ToggleTwice(expanded: set<BeadId>, id: BeadId)
    ensures Toggled(Toggled(expanded, id), id) == expanded
  {
  }

  /** `playAudio` goes past its null check with this `audio_url`: it is a
      truthy string. The addresses it stops at are exactly the missing, the
      null and the empty one. */
  predicate Playable(url: AudioField)
    ensures !Playable(url) <==> url == Absent || url == Null || url == Url("")
  {
    url.Url? && url.text != ""
  }

  /** The card shows a play button and "Audio ready": `audio_url !== null`.
      A card without the button holds nothing `playAudio` would play. */
  predicate HasAudio(b: Bead)
    ensures !HasAudio(b) ==> b.audioUrl == Null && !Playable(b.audioUrl)
  {
    !b.audioUrl.Null?
  }

  /** The card shows "Tap to read more": collapsed, and its content is longer
      than 200 UTF-16 code units. So it never shows on an expanded card nor
      on content of at most 100 characters, and always shows on a collapsed
      card with more than 200 characters; for content within the Basic
      Multilingual Plane the threshold is exactly 200 characters. */
  predicate ShowsReadMore(expanded: set<BeadId>, b: Bead)
    ensures ShowsReadMore(expanded, b) ==> b.id !in expanded && |b.content| > 100
    ensures b.id !in expanded && |b.content| > 200 ==> ShowsReadMore(expanded, b)
    ensures InBmp(b.content) ==>
      (ShowsReadMore(expanded, b) <==> b.id !in expanded && |b.content| > 200)
  {
    b.id !in expanded && Utf16Length(b.content) > 200
  }

  /** Every bead `playAudio` would play shows a play button. The beads that
      show the button but are not played are exactly those whose
      `audio_url` is missing or empty: tapping their button does nothing. */
  lemma PlayButtonCoversPlayable(b: Bead)
    ensures Playable(b.audioUrl) ==> HasAudio(b)
    ensures HasAudio(b) && !Playable(b.audioUrl) <==> b.audioUrl == Absent || b.audioUrl == Url("")
  {
  }

  /** Where a sound stands: playing, paused by the screen, played to its end
      (still loaded, no longer playing), or unloaded. */
  datatype PlaybackState = Playing | Paused | Finished | Unloaded

  /** A sound loaded through the audio library with `shouldPlay: true`. */
  class Sound {
    const uri: string
    var state: PlaybackState

    constructor (uri: string)
      ensures this.uri == uri && state == Playing
    {
      this.uri := uri;
      state := Playing;
    }
  }

  /** Whether each asynchronous audio call resolves when made on a loaded
      sound: `pauseAsync`, `unloadAsync` and `Sound.createAsync`. The audio
      library rejects `pauseAsync` on a sound that is not loaded and resolves
      `unloadAsync` on one at once. A call that rejects is caught and
      logged, and the rest of `playAudio` is skipped. */
  datatype AudioWorld = AudioWorld(pauseOk: bool, unloadOk: bool, createOk: bool)

  class FeedScreen {
    var beads: seq<Bead>
    var loading: bool
    var refreshing: bool
    var expandedCards: set<BeadId>
    var currentSound: Sound?
    var playingBeadId: Option<BeadId>
    /** Every sound this screen has created. */
    ghost var sounds: set<Sound>

    /** Every created sound other than the current one is unloaded, so at
        most one sound is loaded; a bead is marked playing only once a
        sound exists. */
    ghost predicate Valid()
      reads this, sounds
    {
      (currentSound != null ==> currentSound in sounds)
      && (forall s :: s in sounds && s != currentSound ==> s.state == Unloaded)
      && (playingBeadId.Some? ==> currentSound != null)
    }

    /** The sounds that are loaded. */
    ghost function Loaded(): set<Sound>
      reads this, sounds
    {
      set s | s in sounds && s.state != Unloaded
    }

    /** The screen when mounted: no beads yet and loading, nothing expanded,
        no sound. */
    constructor ()
      ensures Valid()
      ensures beads == [] && loading && !refreshing && expandedCards == {}
      ensures currentSound == null && playingBeadId == None && sounds == {}
    {
      beads := [];
      loading := true;
      refreshing := false;
      expandedCards := {};
      currentSound := null;
      playingBeadId := None;
      sounds := {};
    }

    /** At most one sound is loaded: the current one. */
    lemma AtMostOneLoaded()
      requires Valid()
      ensures currentSound == null ==> Loaded() == {}
      ensures currentSound != null ==> Loaded() <= {currentSound}
    {
    }

    /** The completion of a feed request: the beads are replaced only by a
        truthy `feed`, a rejected request or body leaves them, and both
        loading flags are cleared whatever happened. */
    method FetchFeed(response: Attempt<Option<seq<Bead>>>)
      requires Valid()
      modifies this`beads, this`loading, this`refreshing
      ensures Valid()
      ensures beads == if response.Returned? && response.value.Some? then response.value.value else old(beads)
      ensures !loading && !refreshing
    {
      if response.Returned? && response.value.Some? {
        beads := response.value.value;
      }
      loading := false;
      refreshing := false;
    }

    /** Pull to refresh: the refreshing flag is raised and a feed request is
        started; its completion is `FetchFeed`. */
    method OnRefresh()
      requires Valid()
      modifies this`refreshing
      ensures Valid()
      ensures refreshing
    {
      refreshing := true;
    }

    /** Tapping a card. */
    method ToggleCard(id: BeadId)
      requires Valid()
      modifies this`expandedCards
      ensures Valid()
      ensures expandedCards == Toggled(old(expandedCards), id)
    {
      expandedCards := Toggled(expandedCards, id);
    }

    /** Tapping a bead's play button. A falsy address does nothing. Tapping
        the bead that is playing pauses its sound and clears the playing bead,
        unless that sound is already unloaded, when the pause rejects.
        Otherwise the current sound is unloaded first, then a new sound is
        created and its bead marked playing; a rejected call stops the
        sequence where it happened. */
    method PlayAudio(audioUrl: AudioField, beadId: BeadId, w: AudioWorld)
      requires Valid()
      modifies this, sounds
      ensures Valid()
      ensures beads == old(beads) && loading == old(loading) && refreshing == old(refreshing)
      ensures expandedCards == old(expandedCards)
      ensures sounds == old(sounds) || (currentSound != null && sounds == old(sounds) + {currentSound})
      ensures !Playable(audioUrl) ==>
        currentSound == old(currentSound) && playingBeadId == old(playingBeadId) && sounds == old(sounds)
        && forall s :: s in sounds ==> s.state == old(s.state)
      // pause: the same sound stays current, nothing new is loaded
      ensures Playable(audioUrl) && old(playingBeadId) == Some(beadId) && old(currentSound) != null ==>
        currentSound == old(currentSound) && sounds == old(sounds)
        && var paused := w.pauseOk && old(currentSound.state) != Unloaded;
           currentSound.state == (if paused then Paused else old(currentSound.state))
           && playingBeadId == (if paused then None else old(playingBeadId))
      // switch: the previous sound is unloaded before a new one is created
      ensures Playable(audioUrl) && !(old(playingBeadId) == Some(beadId) && old(currentSound) != null) ==>
        (old(currentSound) != null ==>
           old(currentSound).state == (if w.unloadOk then Unloaded else old(currentSound.state)))
        && var started := w.createOk
             && (old(currentSound) == null || w.unloadOk || old(currentSound.state) == Unloaded);
           (started ==>
              currentSound != null && fresh(currentSound) && sounds == old(sounds) + {currentSound}
              && currentSound.uri == audioUrl.text && currentSound.state == Playing
              && playingBeadId == Some(beadId))
           && (!started ==>
              currentSound == old(currentSound) && playingBeadId == old(playingBeadId) && sounds == old(sounds))
    {
      if !Playable(audioUrl) {
        return;
      }
      if playingBeadId == Some(beadId) && currentSound != null {
        if !w.pauseOk || currentSound.state == Unloaded {
          return;
        }
        currentSound.state := Paused;
        playingBeadId := None;
        return;
      }
      if currentSound != null && currentSound.state != Unloaded {
        if !w.unloadOk {
          return;
        }
        currentSound.state := Unloaded;
      }
      if !w.createOk {
        return;
      }
      var sound := new Sound(audioUrl.text);
      sounds := sounds + {sound};
      currentSound := sound;
      playingBeadId := Some(beadId);
    }

    /** A playback-status update. Only the current sound can be loaded, so
        only it reports; when it has just played to its end it stops there,
        and the callback clears the playing bead. */
    method OnPlaybackStatus(didJustFinish: bool)
      requires Valid()
      modifies this`playingBeadId, currentSound
      ensures Valid()
      ensures playingBeadId == if didJustFinish then None else old(playingBeadId)
      ensures currentSound == old(currentSound)
      ensures currentSound != null ==>
        currentSound.state == if didJustFinish && old(currentSound.state) == Playing then Finished
                              else old(currentSound.state)
    {
      if didJustFinish {
        if currentSound != null && currentSound.state == Playing {
          currentSound.state := Finished;
        }
        playingBeadId := None;
      }
    }
  }
}
