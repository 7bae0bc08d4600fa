/** The background-music button: the configured audio URL, one lazily created
    looping audio element, and a play error that disables the button for
    good. */
module Bgm {
  import opened Js

  /** The value of `portfolio/bgm/audioUrl` as kept: trimmed when something
      is left after trimming, otherwise none. */
  function NormalizeUrl(snapshot: Option<string>): (url: Option<string>)
    ensures url.Some? <==> snapshot.Some? && !IsBlank(snapshot.value)
    ensures url.Some? ==> url.value == Trim(snapshot.value)
  {
    if snapshot.None? then None
    else
      TrimEmptyIffBlank(snapshot.value);
      if snapshot.value != "" && Trim(snapshot.value) != "" then Some(Trim(snapshot.value)) else None
  }

  /** A kept URL is kept again unchanged. */
  lemma NormalizeIdempotent(snapshot: Option<string>)
    ensures NormalizeUrl(NormalizeUrl(snapshot)) == NormalizeUrl(snapshot)
  {
    var url := NormalizeUrl(snapshot);
    if url.Some? {
      TrimShape(snapshot.value);
      TrimEmptyIffBlank(url.value);
    }
  }

  /** The component's state; `audio` is the URL the audio element was created
      with, none while no element exists. */
  datatype BgmState = BgmState(url: Option<string>, isPlaying: bool, hasError: bool, audio: Option<string>)

  const Mounted := BgmState(None, false, false, None)

  /** The subscription delivers a value. */
  function OnSnapshot(s: BgmState, snapshot: Option<string>): BgmState {
    s.(url := NormalizeUrl(snapshot))
  }

  /** The subscription reports an error: no URL. */
  function OnSubscriptionError(s: BgmState): BgmState {
    s.(url := None)
  }

  /** `togglePlay()`; `playOk` is whether `play()` would resolve, consulted
      only when a play is attempted. */
  function Toggle(s: BgmState, playOk: bool): (t: BgmState)
    ensures s.hasError || s.url.None? ==> t == s
    ensures !s.hasError && s.url.Some? ==>
      && t.url == s.url
      && t.audio == (if s.audio.Some? then s.audio else s.url)
      && (s.isPlaying ==> !t.isPlaying && !t.hasError)
      && (!s.isPlaying && playOk ==> t.isPlaying && !t.hasError)
      && (!s.isPlaying && !playOk ==> !t.isPlaying && t.hasError)
  {
    if s.hasError || s.url.None? then s
    else
      var audio := if s.audio.None? then s.url else s.audio;
      if s.isPlaying then s.(audio := audio, isPlaying := false)
      else if playOk then s.(audio := audio, isPlaying := true)
      else s.(audio := audio, hasError := true, isPlaying := false)
  }

  /** Music plays only through an existing audio element and never after an
      error. */
  predicate Inv(s: BgmState) {
    s.isPlaying ==> s.audio.Some? && !s.hasError
  }

  lemma InvPreserved(s: BgmState, snapshot: Option<string>, playOk: bool)
    requires Inv(s)
    ensures Inv(OnSnapshot(s, snapshot)) && Inv(OnSubscriptionError(s)) && Inv(Toggle(s, playOk))
  {
  }

  /** Once set, the error flag stays set and every later toggle does nothing. */
  lemma ErrorIsSticky(s: BgmState, snapshot: Option<string>, playOk: bool)
    requires s.hasError
    ensures Toggle(s, playOk) == s
    ensures OnSnapshot(s, snapshot).hasError && OnSubscriptionError(s).hasError
  {
  }

  /** The audio element is created at most once, only from a URL, and a later
      change of the configured URL does not replace it. */
  lemma AudioCreatedOnce(s: BgmState, snapshot: Option<string>, playOk: bool)
    ensures s.audio.Some? ==> Toggle(OnSnapshot(s, snapshot), playOk).audio == s.audio
    ensures s.audio.None? && Toggle(s, playOk).audio.Some? ==> Toggle(s, playOk).audio == s.url
  {
  }

  /** What is rendered: nothing without a URL, else the button. */
  datatype BgmButton = BgmButton(disabled: bool, title: string, caption: string)

  function View(s: BgmState): (v: Option<BgmButton>)
    ensures v.None? <==> s.url.None?
    ensures v.Some? ==> v.value.disabled == s.hasError
    ensures v.Some? ==> (v.value.title == "Unable to play audio" <==> s.hasError)
    ensures v.Some? ==> v.value.title in {"Unable to play audio", "Toggle ambient BGM"}
    ensures v.Some? ==> v.value.caption == (if s.isPlaying then "Pause BGM" else "Play BGM")
  {
    if s.url.None? then None
    else Some(BgmButton(
      s.hasError,
      if s.hasError then "Unable to play audio" else "Toggle ambient BGM",
      if s.isPlaying then "Pause BGM" else "Play BGM"))
  }

  class BgmToggle {
    var bgmUrl: Option<string>
    var isPlaying: bool
    var hasError: bool
    /** `audioRef.current`, by the URL it was created with. */
    var audioRef: Option<string>

    function State(): BgmState
      reads this
    {
      BgmState(bgmUrl, isPlaying, hasError, audioRef)
    }

    constructor ()
      ensures State() == Mounted
    {
      bgmUrl, isPlaying, hasError, audioRef := None, false, false, None;
    }

    method Snapshot(value: Option<string>)
      modifies this
      ensures State() == OnSnapshot(old(State()), value)
    {
      if value.Some? && value.value != "" && Trim(value.value) != "" {
        bgmUrl := Some(Trim(value.value));
      } else {
        bgmUrl := None;
      }
      TrimEmptyIffBlank(if value.Some? then value.value else "");
    }

    method SubscriptionError()
      modifies this
      ensures State() == OnSubscriptionError(old(State()))
    {
      bgmUrl := None;
    }

    method TogglePlay(playOk: bool)
      modifies this
      ensures State() == Toggle(old(State()), playOk)
    {
      if hasError || bgmUrl.None? {
        return;
      }
      if audioRef.None? {
        audioRef := bgmUrl;
      }
      if isPlaying {
        isPlaying := false;
      } else if playOk {
        isPlaying := true;
      } else {
        hasError := true;
        isPlaying := false;
      }
    }

    /** The unmount cleanup: the element is paused and dropped. */
    method Unmount()
      modifies this
      ensures State() == old(State()).(audio := None)
    {
      audioRef := None;
    }
  }
}
