/** Playback of assistant audio (`AudioPlayer`): one media element at a time, its volume,
    the release of object URLs the player created, and sequential playback of decoded
    chunks. The media element and the audio decoder are outside the model; their
    outcomes are inputs. */
module Playback {
  import opened Common

  /** What `play` accepts: a URL, a `Blob`, or an `ArrayBuffer`. */
  datatype Source = UrlSource(url: string) | BlobSource(blob: Bytes) | BufferSource(buffer: Bytes)

  /** The current media element: its `src`, its volume and whether it is paused. */
  datatype Clip = Clip(src: string, volume: real, paused: bool)

  /** What the player reports or releases, in order. */
  datatype PlayerEvent =
    | PlaybackFailed(message: string)  // `onError`
    | Ended                            // `onEnded`
    | Revoked(url: string)             // `URL.revokeObjectURL`

  predicate IsBlobUrl(u: string) {
    |u| >= 5 && u[..5] == "blob:"
  }

  /** The URL a source plays from: a string as given, anything else through the object
      URL made for it. */
  function SourceUrl(source: Source, objectUrl: string): (url: string)
    ensures source.UrlSource? ==> url == source.url
    ensures !source.UrlSource? ==> url == objectUrl
  {
    match source
    case UrlSource(u) => u
    case _ => objectUrl
  }

  /** What `cleanup` releases for the current element: its URL when it is an object URL. */
  function Released(clip: Option<Clip>): (r: seq<PlayerEvent>)
    ensures |r| <= 1
    ensures r != [] <==> clip.Some? && IsBlobUrl(clip.value.src)
    ensures r != [] ==> r == [Revoked(clip.value.src)]
  {
    if clip.Some? && IsBlobUrl(clip.value.src) then [Revoked(clip.value.src)] else []
  }

  /** The chunks `playChunks` plays: the ones the decoder accepts, in order. */
  function Decoded(chunks: seq<Bytes>, decodes: Bytes -> bool): (r: seq<Bytes>)
    ensures |r| <= |chunks|
    ensures forall i | 0 <= i < |r| :: decodes(r[i])
  {
    if chunks == [] then []
    else (if decodes(chunks[0]) then [chunks[0]] else []) + Decoded(chunks[1..], decodes)
  }

  /** Decoding is chunk by chunk: a longer list plays what the shorter one did, then
      the new chunk if it decodes. */
  lemma {:induction false} DecodedSnoc(chunks: seq<Bytes>, c: Bytes, decodes: Bytes -> bool)
    ensures Decoded(chunks + [c], decodes) == Decoded(chunks, decodes) + (if decodes(c) then [c] else [])
  {
    if chunks == [] {
      assert [] + [c] == [c];
    } else {
      assert (chunks + [c])[1..] == chunks[1..] + [c];
      DecodedSnoc(chunks[1..], c, decodes);
    }
  }

  /** Every chunk the decoder accepts is played, and only those. */
  lemma {:induction false} DecodedMembers(chunks: seq<Bytes>, decodes: Bytes -> bool, c: Bytes)
    ensures c in Decoded(chunks, decodes) <==> c in chunks && decodes(c)
  {
    if chunks != [] {
      DecodedMembers(chunks[1..], decodes, c);
      assert chunks == [chunks[0]] + chunks[1..];
    }
  }

  class AudioPlayer {
    /** `options.volume`. */
    var volume: real
    /** `audio`: the current media element, if any. */
    var clip: Option<Clip>
    /** `audioContext` exists. */
    var hasContext: bool
    var events: seq<PlayerEvent>
    /** The chunks `playChunks` has started, in order. */
    var played: seq<Bytes>

    /** `new AudioPlayer({volume})`: the volume defaults to 1. */
    constructor (initialVolume: Option<real>)
      ensures volume == initialVolume.GetOr(1.0)
      ensures clip == None && !hasContext && events == [] && played == []
    {
      volume := initialVolume.GetOr(1.0);
      clip := None;
      hasContext := false;
      events := [];
      played := [];
    }

    /** `isPlaying`. */
    function IsPlaying(): (r: bool)
      reads this
      ensures r ==> clip.Some?
      ensures r <==> clip.Some? && !clip.value.paused
    {
      clip.Some? && !clip.value.paused
    }

    /** `stop()`: drop the current element, releasing its object URL. */
    method Stop()
      modifies this`clip, this`events
      ensures clip == None
      ensures events == old(events) + Released(old(clip))
    {
      if clip.Some? {
        Cleanup();
      }
    }

    method Cleanup()
      modifies this`clip, this`events
      ensures clip == None
      ensures events == old(events) + Released(old(clip))
    {
      if clip.Some? {
        if IsBlobUrl(clip.value.src) {
          events := events + [Revoked(clip.value.src)];
        }
        clip := None;
      }
    }

    /** `play(source)`: stop what is playing, then play `source` at the current volume.
        `objectUrl` is the URL made for a `Blob` or `ArrayBuffer` source; `failure` is
        the rejection of the element's `play()`, if any, which is reported and releases
        the new element. */
    method Play(source: Source, objectUrl: string, failure: Option<string>)
      requires !source.UrlSource? ==> IsBlobUrl(objectUrl)
      modifies this`clip, this`events
      ensures var next := Clip(SourceUrl(source, objectUrl), volume, false);
              failure.None? ==>
                clip == Some(next) &&
                events == old(events) + Released(old(clip))
      ensures var next := Clip(SourceUrl(source, objectUrl), volume, false);
              failure.Some? ==>
                clip == None &&
                events == old(events) + Released(old(clip)) + [PlaybackFailed(failure.value)] + Released(Some(next))
    {
      Stop();
      var url := SourceUrl(source, objectUrl);
      clip := Some(Clip(url, volume, false));
      if failure.Some? {
        events := events + [PlaybackFailed(failure.value)];
        Cleanup();
      }
    }

    /** The element's `ended` event. */
    method OnEnded()
      requires clip.Some?
      modifies this`clip, this`events
      ensures clip == None
      ensures events == old(events) + [Ended] + Released(old(clip))
    {
      events := events + [Ended];
      Cleanup();
    }

    /** The element's `error` event. */
    method OnMediaError()
      requires clip.Some?
      modifies this`clip, this`events
      ensures clip == None
      ensures events == old(events) + [PlaybackFailed("Audio playback failed")] + Released(old(clip))
    {
      events := events + [PlaybackFailed("Audio playback failed")];
      Cleanup();
    }

    /** `pause()`. */
    method Pause()
      modifies this`clip
      ensures old(clip).None? ==> clip == None
      ensures old(clip).Some? ==> clip == Some(old(clip).value.(paused := true))
    {
      if clip.Some? {
        clip := Some(clip.value.(paused := true));
      }
    }

    /** `resume()` (a rejected `play()` here is ignored). */
    method Resume()
      modifies this`clip
      ensures old(clip).None? ==> clip == None
      ensures old(clip).Some? ==> clip == Some(old(clip).value.(paused := false))
    {
      if clip.Some? {
        clip := Some(clip.value.(paused := false));
      }
    }

    /** `setVolume(level)`: clamp to [0, 1] and apply to the current element. */
    method SetVolume(level: real)
      modifies this`volume, this`clip
      ensures volume == ClampReal(0.0, 1.0, level)
      ensures 0.0 <= volume <= 1.0
      ensures old(clip).None? ==> clip == None
      ensures old(clip).Some? ==> clip == Some(old(clip).value.(volume := volume))
    {
      volume := ClampReal(0.0, 1.0, level);
      if clip.Some? {
        clip := Some(clip.value.(volume := volume));
      }
    }

    /** `playChunks(chunks)`: play each chunk the decoder accepts, one after the other,
        skipping the rest, then report the end once. */
    method PlayChunks(chunks: seq<Bytes>, decodes: Bytes -> bool)
      modifies this`hasContext, this`played, this`events
      ensures hasContext
      ensures played == old(played) + Decoded(chunks, decodes)
      ensures events == old(events) + [Ended]
    {
      if !hasContext {
        hasContext := true;
      }
      var i := 0;
      while i < |chunks|
        invariant 0 <= i <= |chunks|
        invariant hasContext
        invariant played == old(played) + Decoded(chunks[..i], decodes)
        modifies this`played
      {
        DecodedSnoc(chunks[..i], chunks[i], decodes);
        assert chunks[..i + 1] == chunks[..i] + [chunks[i]];
        if decodes(chunks[i]) {
          played := played + [chunks[i]];
        }
        i := i + 1;
      }
      assert chunks[..i] == chunks;
      events := events + [Ended];
    }

    /** `dispose()`. */
    method Dispose()
      modifies this`clip, this`events, this`hasContext
      ensures clip == None && !hasContext
      ensures events == old(events) + Released(old(clip))
    {
      Stop();
      hasContext := false;
    }
  }

  /** A blob source's object URL is released when the clip ends, and a user URL that is
      not an object URL is never released. */
  method PlaybackScenario() returns (events: seq<PlayerEvent>, playing: bool)
    ensures events == [Ended, Revoked("blob:a"), PlaybackFailed("NotAllowedError")]
    ensures !playing
  {
    var player := new AudioPlayer(None);
    player.Play(BlobSource([1, 2]), "blob:a", None);
    assert player.IsPlaying();
    player.SetVolume(1.5);
    assert player.clip == Some(Clip("blob:a", 1.0, false));
    player.OnEnded();
    assert player.events == [Ended, Revoked("blob:a")];
    assert "https://x/a.mp3"[..5][0] == 'h';
    player.Play(UrlSource("https://x/a.mp3"), "", Some("NotAllowedError"));
    events := player.events;
    playing := player.IsPlaying();
  }
}
