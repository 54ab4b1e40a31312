/** The SDL wrappers (src/sdl.hpp): audio_spec, a C++ view of an
    SDL_AudioSpec whose fields have SDL's own widths, and audio's name for
    an audio status. Pointers (callback, userdata) are kept as addresses,
    0 being NULL. */
module Sdl {
  import opened CValues

  /** AUDIO_S16SYS on a little-endian host. */
  const AUDIO_S16SYS: int := 0x8010
  const DEFAULT_FREQUENCY: int := 44100
  const DEFAULT_SAMPLES: int := 1024
  const DEFAULT_CHANNELS: int := 2

  /** The SDL_audiostatus values. */
  const SDL_AUDIO_STOPPED: int := 0
  const SDL_AUDIO_PLAYING: int := 1
  const SDL_AUDIO_PAUSED: int := 2

  const MSG_BAD_STATUS := "unpossible value for SDL_GetAudioStatus()."

  /** status_name's result: the name, or the logic_error it throws. */
  datatype StatusName = Name(name: string) | LogicError(message: string)

  /** audio::status_name: the three statuses by name; anything else is a
      logic error. */
  function AudioStatusName(s: int): (r: StatusName)
    ensures r.Name? <==> s in {SDL_AUDIO_STOPPED, SDL_AUDIO_PLAYING, SDL_AUDIO_PAUSED}
    ensures r.LogicError? ==> r.message == MSG_BAD_STATUS
    ensures s == SDL_AUDIO_STOPPED ==> r == Name("stopped")
    ensures s == SDL_AUDIO_PLAYING ==> r == Name("playing")
    ensures s == SDL_AUDIO_PAUSED ==> r == Name("paused")
  {
    if s == SDL_AUDIO_STOPPED then Name("stopped")
    else if s == SDL_AUDIO_PLAYING then Name("playing")
    else if s == SDL_AUDIO_PAUSED then Name("paused")
    else LogicError(MSG_BAD_STATUS)
  }

  /** Distinct statuses get distinct names. */
  lemma StatusNamesDistinct(a: int, b: int)
    requires AudioStatusName(a).Name? && AudioStatusName(b).Name? && a != b
    ensures AudioStatusName(a) != AudioStatusName(b)
  {
  }

  class AudioSpec {
    /** SDL_AudioSpec.freq, an int. */
    var freq: int
    /** Uint16 format. */
    var format: int
    var callback: int
    /** Uint8 channels. */
    var channels: int
    /** Uint16 samples. */
    var samples: int
    var userdata: int
    /** Uint8 silence. */
    var silence: int
    /** Uint32 size. */
    var size: int

    ghost predicate Valid()
      reads this
    {
      0 <= format < 0x1_0000 && 0 <= channels < 256 && 0 <= samples < 0x1_0000 &&
      0 <= silence < 256 && 0 <= size < TWO_32
    }

    /** The callback constructor: each argument stored in its field with
        the field's width, no userdata, silence and size 0. Called with
        the callback alone, it gives 44100 Hz, 1024 samples, 2 channels,
        AUDIO_S16SYS. */
    constructor (callback: int, freq: int, samples: int, channels: int, format: int)
      ensures Valid()
      ensures this.freq == freq && this.format == ToUInt16(format) && this.callback == callback
      ensures this.channels == ToUInt8(channels) && this.samples == ToUInt16(samples)
      ensures userdata == 0 && silence == 0 && size == 0
    {
      this.freq := freq;
      this.format := ToUInt16(format);
      this.callback := callback;
      this.channels := ToUInt8(channels);
      this.samples := ToUInt16(samples);
      userdata := 0;
      silence := 0;
      size := 0;
    }

    function Channels(): (n: int)
      reads this
      requires Valid()
      ensures 0 <= n < 256
    {
      channels
    }

    /** channels(n): stores n in the 8-bit field. */
    method SetChannels(n: int)
      requires Valid()
      modifies this
      ensures Valid() && channels == ToUInt8(n)
      ensures freq == old(freq) && format == old(format) && samples == old(samples)
      ensures callback == old(callback) && userdata == old(userdata)
      ensures silence == old(silence) && size == old(size)
    {
      channels := ToUInt8(n);
    }

    /** buffer_size(): the Uint32 size field. */
    function BufferSize(): (n: int)
      reads this
      requires Valid()
      ensures 0 <= n < TWO_32
    {
      size
    }

    function BufferSamples(): (n: int)
      reads this
      requires Valid()
      ensures 0 <= n < 0x1_0000
    {
      samples
    }

    /** frequency(): the int field as a uint32_t. */
    function Frequency(): (f: UInt32)
      reads this
      ensures 0 <= freq < TWO_32 ==> f == freq
    {
      ToUInt32(freq)
    }

    /** frequency(f): stores f in the int field and returns the stored
        value as a uint32_t, which is f again. */
    method SetFrequency(f: UInt32) returns (r: UInt32)
      requires Valid()
      modifies this
      ensures Valid() && r == f && Frequency() == f
      ensures freq == UInt32ToInt32(f)
      ensures format == old(format) && channels == old(channels) && samples == old(samples)
      ensures callback == old(callback) && userdata == old(userdata)
      ensures silence == old(silence) && size == old(size)
    {
      freq := UInt32ToInt32(f);
      r := ToUInt32(freq);
    }

    /** silence(): the Uint8 silence field. */
    function Silence(): (n: int)
      reads this
      requires Valid()
      ensures 0 <= n < 256
    {
      silence
    }

    /** period(): milliseconds in one buffer, by integer division. The
        division is unsigned and the dividend is never negative. */
    function Period(): (ms: int)
      reads this
      requires Valid() && Frequency() != 0
      ensures ms >= 0
      ensures ms * Frequency() <= BufferSamples() * 1000 < (ms + 1) * Frequency()
    {
      (BufferSamples() * 1000) / Frequency()
    }
  }

  /** operator==: frequency, format, callback, channels, samples and
      userdata; silence and size are not compared. */
  predicate Equal(lhs: AudioSpec, rhs: AudioSpec)
    reads lhs, rhs
    ensures lhs == rhs ==> Equal(lhs, rhs)
    ensures Equal(lhs, rhs) ==> lhs.Frequency() == rhs.Frequency()
    ensures Equal(lhs, rhs) && lhs.Valid() && rhs.Valid() ==>
      lhs.Channels() == rhs.Channels() && lhs.BufferSamples() == rhs.BufferSamples()
  {
    lhs.freq == rhs.freq && lhs.format == rhs.format && lhs.callback == rhs.callback &&
    lhs.channels == rhs.channels && lhs.samples == rhs.samples && lhs.userdata == rhs.userdata
  }

  /** operator!=: the negation of rhs == lhs. */
  predicate NotEqual(lhs: AudioSpec, rhs: AudioSpec)
    reads lhs, rhs
    ensures NotEqual(lhs, rhs) <==> !Equal(lhs, rhs)
    ensures lhs == rhs ==> !NotEqual(lhs, rhs)
  {
    !Equal(rhs, lhs)
  }

  /** != is exactly the negation of ==, and == is symmetric. */
  lemma NotEqualIsNegation(a: AudioSpec, b: AudioSpec)
    ensures NotEqual(a, b) <==> !Equal(a, b)
    ensures Equal(a, b) <==> Equal(b, a)
  {
  }

  /** Two specs built with the same arguments compare equal, whatever
      their silence and size: those fields are ignored. */
  method EqualIgnoresComputedFields(callback: int, freq: int, samples: int, channels: int, format: int,
                                    silence: int, size: int)
    returns (same: bool)
    requires 0 <= silence < 256 && 0 <= size < TWO_32
    ensures same
  {
    var a := new AudioSpec(callback, freq, samples, channels, format);
    var b := new AudioSpec(callback, freq, samples, channels, format);
    b.silence, b.size := silence, size;
    same := Equal(a, b) && !NotEqual(a, b);
  }

  /** The default callback spec: 44100 Hz, 1024 samples, stereo, whose
      buffer lasts 23 ms. */
  method DefaultSpec(callback: int) returns (spec: AudioSpec)
    ensures fresh(spec) && spec.Valid()
    ensures spec.Frequency() == 44100 && spec.BufferSamples() == 1024 && spec.Channels() == 2
    ensures spec.format == AUDIO_S16SYS && spec.userdata == 0 && spec.silence == 0 && spec.size == 0
    ensures spec.Period() == 23
  {
    spec := new AudioSpec(callback, DEFAULT_FREQUENCY, DEFAULT_SAMPLES, DEFAULT_CHANNELS, AUDIO_S16SYS);
  }
}
