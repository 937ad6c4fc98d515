/**
 * The AudioRecorder page component: its state and the handlers that the page's
 * buttons, file input, audio element and ranking selector invoke.
 *
 * The browser is outside the model: microphone access arrives as a MicOutcome,
 * the recorder's finished blob and each `URL.createObjectURL` result arrive as
 * parameters, the results request arrives as a RetrievalOutcome, per-song
 * fetches as an Enricher, and the toasts a handler raises are returned.
 */
module Recorder {
  import opened Wrappers
  import opened Search
  import opened Ranking

  /** A browser File: display name, declared media type, contents. */
  datatype AudioFile = AudioFile(name: string, mimeType: string, bytes: seq<bv8>)

  /** The blob the recorder hands back when it stops. */
  datatype Blob = Blob(mimeType: string, bytes: seq<bv8>)

  /** How `startRecording` got on before its first state update. */
  datatype MicOutcome =
    | NoWindow    // no browser window: the handler returns at once
    | MicFailed   // getUserMedia, the recorder import or its construction threw
    | MicReady    // a recorder was created and started

  /** The notification a handler raises, by variant. */
  datatype Toast = NoToast | DefaultToast | DestructiveToast

  /** The anchor `handleDownload` clicks: its href and its download name. */
  datatype DownloadLink = DownloadLink(href: string, fileName: string)

  const RECORDING_NAME: string := "recording.mp3"
  const INITIAL_RANKING: string := "final"

  /** `file.type.startsWith('audio')`. */
  predicate IsAudioType(mimeType: string) {
    "audio" <= mimeType
  }

  class AudioRecorder {
    var isRecording: bool
    var isPlaying: bool
    var audioFile: Option<AudioFile>
    var audioUrl: Option<string>
    var videoInfos: seq<Candidate>
    var rankingScore: string
    var isSearching: bool
    /** Whether `recorderRef.current` holds a recorder. */
    var hasRecorder: bool

    /** A live recording has a recorder; an artifact and its object URL are set and cleared together. */
    ghost predicate Valid()
      reads this
    {
      && (isRecording ==> hasRecorder)
      && (audioFile.Some? <==> audioUrl.Some?)
    }

    constructor ()
      ensures Valid()
      ensures !isRecording && !isPlaying && !isSearching && !hasRecorder
      ensures audioFile == None && audioUrl == None
      ensures videoInfos == [] && rankingScore == INITIAL_RANKING
    {
      isRecording, isPlaying, isSearching, hasRecorder := false, false, false, false;
      audioFile, audioUrl := None, None;
      videoInfos, rankingScore := [], INITIAL_RANKING;
    }

    /** The `<audio>` element, and so `audioRef.current`, exists while the URL is truthy. */
    predicate AudioMounted()
      reads this
    {
      audioUrl.Some? && audioUrl.value != ""
    }

    /** The Search button is enabled while no search is in flight and an object URL is held. */
    function SubmitEnabled(): (enabled: bool)
      reads this
      requires Valid()
      ensures enabled ==> !isSearching && audioFile.Some?
      ensures !isSearching && audioFile.Some? && audioUrl != Some("") ==> enabled
    {
      !isSearching && audioUrl.Some? && audioUrl.value != ""
    }

    /** `startRecording`: a started recorder begins a recording and drops the previous artifact. */
    method StartRecording(mic: MicOutcome) returns (toast: Toast)
      requires Valid()
      modifies this`isRecording, this`audioFile, this`audioUrl, this`hasRecorder
      ensures Valid()
      ensures mic == MicReady ==>
        isRecording && hasRecorder && audioFile == None && audioUrl == None && toast == NoToast
      ensures mic != MicReady ==>
        && isRecording == old(isRecording) && hasRecorder == old(hasRecorder)
        && audioFile == old(audioFile) && audioUrl == old(audioUrl)
      ensures mic == MicFailed ==> toast == DestructiveToast
      ensures mic == NoWindow ==> toast == NoToast
    {
      toast := NoToast;
      match mic
      case NoWindow =>
        return;
      case MicFailed =>
        toast := DestructiveToast;
      case MicReady =>
        hasRecorder := true;
        isRecording := true;
        audioUrl := None;
        audioFile := None;
    }

    /**
     * `stopRecording` with its callback: the blob becomes the artifact under the
     * fixed name, with the object URL given for it, and the recording ends. With
     * no recorder in the ref the call does nothing.
     */
    method StopRecording(blob: Blob, url: string)
      requires Valid()
      modifies this`isRecording, this`audioFile, this`audioUrl
      ensures Valid()
      ensures old(hasRecorder) ==>
        && audioFile == Some(AudioFile(RECORDING_NAME, blob.mimeType, blob.bytes))
        && audioUrl == Some(url)
        && !isRecording
      ensures !old(hasRecorder) ==>
        isRecording == old(isRecording) && audioFile == old(audioFile) && audioUrl == old(audioUrl)
    {
      if hasRecorder {
        audioFile := Some(AudioFile(RECORDING_NAME, blob.mimeType, blob.bytes));
        audioUrl := Some(url);
        isRecording := false;
      }
    }

    /** `togglePlayback`: flips the playing flag when the audio element exists. */
    method TogglePlayback()
      modifies this`isPlaying
      ensures isPlaying == (if AudioMounted() then !old(isPlaying) else old(isPlaying))
    {
      if !AudioMounted() {
        return;
      }
      if isPlaying {
        isPlaying := false;
      } else {
        isPlaying := true;
      }
    }

    /** The audio element's `onEnded`: playback is over. */
    method PlaybackEnded()
      modifies this`isPlaying
      ensures !isPlaying
    {
      isPlaying := false;
    }

    /**
     * `handleDownload`: with an artifact, the anchor it clicks points at the object
     * URL (or at "" when there is none) under the artifact's name, and a truthy
     * URL is revoked. No state changes, so the held URL stays set after it has
     * been revoked.
     */
    method HandleDownload() returns (link: Option<DownloadLink>, revoked: Option<string>)
      ensures audioFile.None? ==> link == None && revoked == None
      ensures audioFile.Some? ==>
        link == Some(DownloadLink(if audioUrl.Some? then audioUrl.value else "", audioFile.value.name))
      ensures audioFile.Some? ==>
        revoked == (if audioUrl.Some? && audioUrl.value != "" then audioUrl else None)
    {
      if audioFile.None? {
        return None, None;
      }
      var href := if audioUrl.Some? then audioUrl.value else "";
      link := Some(DownloadLink(href, audioFile.value.name));
      revoked := if audioUrl.Some? && audioUrl.value != "" then audioUrl else None;
    }

    /**
     * `handleFileUpload`: a selected file whose declared type starts with "audio"
     * becomes the artifact with its object URL; otherwise nothing changes. Either
     * way a toast reports the result.
     */
    method HandleFileUpload(file: Option<AudioFile>, url: string) returns (toast: Toast)
      requires Valid()
      modifies this`audioFile, this`audioUrl
      ensures Valid()
      ensures file.Some? && IsAudioType(file.value.mimeType) ==>
        audioFile == file && audioUrl == Some(url) && toast == DefaultToast
      ensures !(file.Some? && IsAudioType(file.value.mimeType)) ==>
        audioFile == old(audioFile) && audioUrl == old(audioUrl) && toast == DestructiveToast
    {
      if file.Some? && IsAudioType(file.value.mimeType) {
        audioUrl := Some(url);
        audioFile := file;
        toast := DefaultToast;
      } else {
        toast := DestructiveToast;
      }
    }

    /**
     * The part of `handleSubmit` before its first await: without an artifact it
     * returns; otherwise the search is marked in flight and the old results are
     * cleared before any network outcome is known.
     */
    method BeginSubmit() returns (started: bool)
      requires Valid()
      modifies this`isSearching, this`videoInfos
      ensures Valid()
      ensures started <==> audioFile.Some?
      ensures started ==> isSearching && videoInfos == []
      ensures !started ==> isSearching == old(isSearching) && videoInfos == old(videoInfos)
    {
      if audioFile.None? {
        return false;
      }
      isSearching := true;
      videoInfos := [];
      started := true;
    }

    /**
     * The rest of `handleSubmit`, once the results request has settled. The
     * `finally` block clears the in-flight flag on every path. The three early
     * returns leave the results and the artifact as they were; an assembled list
     * replaces the results; an exception leaves the results. After a success or
     * an exception the artifact and its URL are cleared.
     */
    method SettleSubmit(outcome: RetrievalOutcome, enrich: Enricher) returns (toast: Toast)
      requires Valid()
      modifies this`isSearching, this`videoInfos, this`audioFile, this`audioUrl
      ensures Valid()
      ensures !isSearching
      ensures toast == (if outcome.Ranked? then NoToast else DestructiveToast)
      ensures outcome.Ranked? ==> videoInfos == Assemble(outcome.ranks, enrich)
      ensures !outcome.Ranked? ==> videoInfos == old(videoInfos)
      ensures outcome.ReturnsEarly() ==> audioFile == old(audioFile) && audioUrl == old(audioUrl)
      ensures !outcome.ReturnsEarly() ==> audioFile == None && audioUrl == None
    {
      match outcome {
        case TransportFail | NotOk | BadPayload =>
          toast := DestructiveToast;
          // reset before the return; the finally block resets it once more
          isSearching := false;
          return;
        case NotAList =>
          toast := DestructiveToast;
        case Ranked(ranks) =>
          videoInfos := Assemble(ranks, enrich);
          toast := NoToast;
      }
      // the finally block
      isSearching := false;
      audioFile := None;
      audioUrl := None;
    }

    /** `handleSubmit` from start to end. */
    method HandleSubmit(outcome: RetrievalOutcome, enrich: Enricher) returns (toast: Toast)
      requires Valid()
      modifies this`isSearching, this`videoInfos, this`audioFile, this`audioUrl
      ensures Valid()
      ensures old(audioFile).None? ==>
        && toast == NoToast
        && isSearching == old(isSearching) && videoInfos == old(videoInfos)
        && audioFile == None && audioUrl == old(audioUrl)
      ensures old(audioFile).Some? ==>
        && !isSearching
        && toast == (if outcome.Ranked? then NoToast else DestructiveToast)
        && videoInfos == (if outcome.Ranked? then Assemble(outcome.ranks, enrich) else [])
      ensures old(audioFile).Some? && outcome.ReturnsEarly() ==>
        audioFile == old(audioFile) && audioUrl == old(audioUrl)
      ensures old(audioFile).Some? && !outcome.ReturnsEarly() ==>
        audioFile == None && audioUrl == None
    {
      var started := BeginSubmit();
      if !started {
        return NoToast;
      }
      toast := SettleSubmit(outcome, enrich);
    }

    /**
     * `handleRankingScoreChange`: the active dimension again changes nothing.
     * Otherwise a recognised dimension re-sorts the current results stably in
     * descending order of its score, and the selector value is stored whether or
     * not it was recognised.
     */
    method HandleRankingScoreChange(value: string)
      modifies this`videoInfos, this`rankingScore
      ensures value == old(rankingScore) ==>
        videoInfos == old(videoInfos) && rankingScore == old(rankingScore)
      ensures value != old(rankingScore) ==> rankingScore == value
      ensures ParseDimension(value).None? ==> videoInfos == old(videoInfos)
      ensures value != old(rankingScore) && ParseDimension(value).Some? ==>
        var d := ParseDimension(value).value;
        && videoInfos == SortByScore(old(videoInfos), d)
        && multiset(videoInfos) == multiset(old(videoInfos))
        && SortedDesc(videoInfos, d)
        && SameTies(videoInfos, old(videoInfos), d)
    {
      if value == rankingScore {
        return;
      }
      match ParseDimension(value) {
        case Some(d) =>
          SortByScorePermutation(videoInfos, d);
          SortByScoreSorted(videoInfos, d);
          SortByScoreStable(videoInfos, d);
          videoInfos := SortByScore(videoInfos, d);
        case None =>
      }
      rankingScore := value;
    }
  }
}
