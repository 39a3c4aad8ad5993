/**
 * The sound-feedback engine of the roster widget (the `AudioProvider`
 * component): three persisted preferences, a device created on the first
 * user gesture, a uniform gate in front of every tone, two-note chimes for
 * save and delete, and a keystroke shimmer with a 300 ms drop-not-queue
 * cooldown.
 *
 * Time is a logical millisecond clock (`now`); a tone is recorded as an
 * event with its start time instead of being rendered by an audio graph.
 */
module Audio {
  import opened Wrappers

  /** A JavaScript number as `parseFloat` can produce it. */
  datatype Num = Finite(value: real) | PosInf | NegInf | NaN

  /** Persistent key-value storage (`localStorage`). */
  type Store = map<string, string>

  const EnabledKey: string := "nightquad_sound_enabled"
  const VolumeKey: string := "nightquad_sound_volume"
  const ShimmerKey: string := "nightquad_keypress_shimmer"

  const DefaultVolume: real := 0.3
  /** Length of the shimmer cooldown, in milliseconds. */
  const ShimmerCooldown: int := 300

  /** The three preferences as they are read back from storage. */
  datatype Prefs = Prefs(enabled: bool, volume: Num, keypressShimmer: bool)

  function Min(a: real, b: real): real { if a <= b then a else b }
  function Max(a: real, b: real): real { if a >= b then a else b }

  /** `Math.min(1, Math.max(0, v))`: the stored volume always lies in [0,1]. */
  function Clamp(v: real): (r: real)
    ensures 0.0 <= r <= 1.0
    ensures 0.0 <= v <= 1.0 ==> r == v
    ensures v < 0.0 ==> r == 0.0
    ensures v > 1.0 ==> r == 1.0
  {
    Min(1.0, Max(0.0, v))
  }

  /** The same clamp on a parsed number; `NaN` passes through both `max` and `min`. */
  function ClampNum(n: Num): (r: Num)
    ensures r.Finite? ==> 0.0 <= r.value <= 1.0
    ensures r.NaN? <==> n.NaN?
    ensures n.Finite? ==> r == Finite(Clamp(n.value))
    ensures n.PosInf? ==> r == Finite(1.0)
    ensures n.NegInf? ==> r == Finite(0.0)
  {
    match n
    case Finite(v) => Finite(Clamp(v))
    case PosInf => Finite(1.0)
    case NegInf => Finite(0.0)
    case NaN => NaN
  }

  /**
   * Reading the preferences at start-up: a missing enabled key means on,
   * a missing volume key means 0.3, the shimmer is on only when stored as
   * `"true"`; a present volume is parsed and clamped.
   */
  function LoadPrefs(store: Store, parseFloat: string -> Num): (p: Prefs)
    ensures EnabledKey !in store ==> p.enabled
    ensures EnabledKey in store ==> (p.enabled <==> store[EnabledKey] == "true")
    ensures VolumeKey !in store ==> p.volume == Finite(DefaultVolume)
    ensures VolumeKey in store ==> p.volume == ClampNum(parseFloat(store[VolumeKey]))
    ensures p.volume.Finite? ==> 0.0 <= p.volume.value <= 1.0
    ensures p.keypressShimmer <==> ShimmerKey in store && store[ShimmerKey] == "true"
  {
    Prefs(
      if EnabledKey !in store then true else store[EnabledKey] == "true",
      if VolumeKey !in store then Finite(DefaultVolume) else ClampNum(parseFloat(store[VolumeKey])),
      ShimmerKey in store && store[ShimmerKey] == "true")
  }

  /** `String(b)` for a boolean. */
  function BoolString(b: bool): string {
    if b then "true" else "false"
  }

  /** The three preferences as written to storage, as strings. */
  predicate Persisted(store: Store, enabled: bool, volume: real, shimmer: bool, numberToString: real -> string) {
    && EnabledKey in store && store[EnabledKey] == BoolString(enabled)
    && VolumeKey in store && store[VolumeKey] == numberToString(volume)
    && ShimmerKey in store && store[ShimmerKey] == BoolString(shimmer)
  }

  /**
   * The write-back effect: all three preferences are written together and
   * nothing else in storage changes. Reading them back gives both booleans
   * exactly, and the volume whenever `parseFloat` inverts `String` on it.
   */
  function Persist(store: Store, enabled: bool, volume: real, shimmer: bool, numberToString: real -> string): (r: Store)
    ensures Persisted(r, enabled, volume, shimmer, numberToString)
    ensures r.Keys == store.Keys + {EnabledKey, VolumeKey, ShimmerKey}
    ensures forall k :: k in store && k != EnabledKey && k != VolumeKey && k != ShimmerKey ==> r[k] == store[k]
    ensures forall parseFloat: string -> Num ::
      LoadPrefs(r, parseFloat).enabled == enabled && LoadPrefs(r, parseFloat).keypressShimmer == shimmer
    ensures forall parseFloat: string -> Num ::
      0.0 <= volume <= 1.0 && parseFloat(numberToString(volume)) == Finite(volume) ==>
      LoadPrefs(r, parseFloat).volume == Finite(volume)
  {
    store[EnabledKey := BoolString(enabled)][VolumeKey := numberToString(volume)][ShimmerKey := BoolString(shimmer)]
  }

  /** A scheduled tone: frequency (Hz), duration (s), peak gain and start time (logical ms). */
  datatype Tone = Tone(freq: real, duration: real, gain: real, at: int)

  /** The options object of `playTinn`; an absent option takes its default. */
  datatype ToneOpts = ToneOpts(freq: Option<real>, duration: Option<real>, gain: Option<real>)

  /** What the synthesiser derives from a tone: low-pass cutoff, envelope peak and stop offset (s). */
  datatype Voice = Voice(cutoff: real, peak: real, stopAfter: real)

  /** The near-silent floor the envelope starts from and decays to. */
  const EnvelopeFloor: real := 0.0001

  /** `playTinn`'s parameters: 880 Hz, 0.22 s and `volume * 0.9` unless given. */
  function ResolveTone(opts: ToneOpts, volume: real, now: int): (t: Tone)
    ensures t.at == now
    ensures t.freq == (if opts.freq.Some? then opts.freq.value else 880.0)
    ensures t.duration == (if opts.duration.Some? then opts.duration.value else 0.22)
    ensures t.gain == (if opts.gain.Some? then opts.gain.value else volume * 0.9)
  {
    Tone(opts.freq.GetOr(880.0), opts.duration.GetOr(0.22), opts.gain.GetOr(volume * 0.9), now)
  }

  /**
   * The synthesis parameters of a tone: the cutoff never exceeds 8000 Hz nor
   * six times the frequency, the envelope peak is the gain but never below
   * the floor, and the oscillators stop 20 ms after the nominal duration.
   */
  function Voicing(t: Tone): (v: Voice)
    ensures v.cutoff <= 8000.0 && v.cutoff <= t.freq * 6.0
    ensures v.cutoff == 8000.0 || v.cutoff == t.freq * 6.0
    ensures v.peak >= EnvelopeFloor && v.peak >= t.gain
    ensures v.peak == EnvelopeFloor || v.peak == t.gain
    ensures v.stopAfter == t.duration + 0.02
  {
    Voice(Min(8000.0, t.freq * 6.0), Max(EnvelopeFloor, t.gain), t.duration + 0.02)
  }

  /** The ascending save dyad: 932 Hz now, 1244 Hz 70 ms later. */
  function SuccessTones(volume: real, now: int): (ts: seq<Tone>)
    ensures |ts| == 2 && ts[0].freq < ts[1].freq && ts[1].at - ts[0].at == 70
  {
    [Tone(932.0, 0.18, volume * 0.9, now), Tone(1244.0, 0.16, volume * 0.8, now + 70)]
  }

  /** The descending delete motif: 392 Hz now, 330 Hz 60 ms later. */
  function DeleteTones(volume: real, now: int): (ts: seq<Tone>)
    ensures |ts| == 2 && ts[0].freq > ts[1].freq && ts[1].at - ts[0].at == 60
  {
    [Tone(392.0, 0.16, volume * 0.7, now), Tone(330.0, 0.12, volume * 0.6, now + 60)]
  }

  /**
   * The keystroke shimmer: the tone `playTinn` resolves from 740 Hz, 0.08 s
   * and a fifth of the volume, quieter than a default tone at any audible
   * volume.
   */
  function ShimmerTone(volume: real, now: int): (t: Tone)
    ensures t == ResolveTone(ToneOpts(Some(740.0), Some(0.08), Some(volume * 0.2)), volume, now)
    ensures volume > 0.0 ==> t.gain < ResolveTone(ToneOpts(None, None, None), volume, now).gain
  {
    Tone(740.0, 0.08, volume * 0.2, now)
  }

  /** What happens when the platform's audio context constructor is looked up and called. */
  datatype DeviceCtor = Unsupported | Throws | Created

  class AudioEngine {
    var enabled: bool
    var volume: real
    var keypressShimmer: bool
    const reducedMotion: bool
    /** Whether the audio context exists (`audioCtxRef.current` is set). */
    var device: bool
    /** `gesturePrimedRef.current`. */
    var primed: bool
    ghost var devicesCreated: nat
    /** Logical clock, in milliseconds. */
    var now: int
    /** The pending cooldown timeout, by the time it fires; `None` when idle. */
    var shimmerTimer: Option<int>
    var store: Store
    /** Every tone scheduled so far, in order of scheduling. */
    var log: seq<Tone>
    const numberToString: real -> string

    ghost predicate Valid()
      reads this
    {
      && 0.0 <= volume <= 1.0
      && primed == device
      && devicesCreated == (if device then 1 else 0)
      && (shimmerTimer.Some? ==> now < shimmerTimer.value <= now + ShimmerCooldown)
      && Persisted(store, enabled, volume, keypressShimmer, numberToString)
    }

    /** The gate in front of every tone. */
    predicate CanPlay()
      reads this
    {
      enabled && !reducedMotion && device
    }

    /** The gate of `playShimmer`: the shimmer toggle, the common gate and no cooldown. */
    predicate ShimmerReady()
      reads this
    {
      keypressShimmer && CanPlay() && shimmerTimer.None?
    }

    /**
     * Mounting the provider: the preferences are loaded, the device is not
     * created yet, and the write-back effect stores all three preferences.
     */
    constructor (stored: Store, parseFloat: string -> Num, numberToString: real -> string, reducedMotion: bool)
      requires LoadPrefs(stored, parseFloat).volume.Finite?
      ensures Valid()
      ensures enabled == LoadPrefs(stored, parseFloat).enabled
      ensures volume == LoadPrefs(stored, parseFloat).volume.value
      ensures keypressShimmer == LoadPrefs(stored, parseFloat).keypressShimmer
      ensures this.reducedMotion == reducedMotion && this.numberToString == numberToString
      ensures !device && !primed && devicesCreated == 0
      ensures now == 0 && shimmerTimer == None && log == []
      ensures store == Persist(stored, enabled, volume, keypressShimmer, numberToString)
    {
      var prefs := LoadPrefs(stored, parseFloat);
      enabled := prefs.enabled;
      volume := prefs.volume.value;
      keypressShimmer := prefs.keypressShimmer;
      this.reducedMotion := reducedMotion;
      this.numberToString := numberToString;
      device, primed := false, false;
      devicesCreated := 0;
      now, shimmerTimer, log := 0, None, [];
      store := Persist(stored, prefs.enabled, prefs.volume.value, prefs.keypressShimmer, numberToString);
    }

    /**
     * `primeAudio`, run on every pointer-down and key-down: once primed it
     * does nothing; otherwise it is primed exactly when the device gets
     * created, and a missing or throwing constructor leaves it unprimed so
     * that the next gesture tries again.
     */
    method PrimeAudio(ctor: DeviceCtor)
      requires Valid()
      modifies this`device, this`primed, this`devicesCreated
      ensures Valid()
      ensures old(primed) ==> primed && device && devicesCreated == old(devicesCreated)
      ensures !old(primed) ==> (primed <==> ctor == Created)
      ensures devicesCreated <= 1
    {
      if primed {
        return;
      }
      if ctor == Unsupported {
        return;
      }
      if ctor == Created {
        device := true;
        devicesCreated := devicesCreated + 1;
        primed := true;
      }
    }

    method SetEnabled(v: bool)
      requires Valid()
      modifies this`enabled, this`store
      ensures Valid() && enabled == v
      ensures store == Persist(old(store), v, volume, keypressShimmer, numberToString)
    {
      enabled := v;
      store := Persist(store, enabled, volume, keypressShimmer, numberToString);
    }

    method SetVolume(v: real)
      requires Valid()
      modifies this`volume, this`store
      ensures Valid() && volume == Clamp(v)
      ensures store == Persist(old(store), enabled, Clamp(v), keypressShimmer, numberToString)
    {
      volume := Clamp(v);
      store := Persist(store, enabled, volume, keypressShimmer, numberToString);
    }

    method SetKeypressShimmer(v: bool)
      requires Valid()
      modifies this`keypressShimmer, this`store
      ensures Valid() && keypressShimmer == v
      ensures store == Persist(old(store), enabled, volume, v, numberToString)
    {
      keypressShimmer := v;
      store := Persist(store, enabled, volume, keypressShimmer, numberToString);
    }

    /** `playTinn`: one tone if the gate is open, nothing otherwise. */
    method PlayTinn(opts: ToneOpts)
      requires Valid()
      modifies this`log
      ensures Valid()
      ensures log == old(log) + (if CanPlay() then [ResolveTone(opts, volume, now)] else [])
    {
      if !enabled || reducedMotion {
        return;
      }
      if !device {
        return;
      }
      log := log + [ResolveTone(opts, volume, now)];
    }

    /**
     * `playSuccess`. The 70 ms delayed second note calls `playTinn` with
     * the preferences of the call, whose gate has just passed, on a device
     * that is never released; so both notes are scheduled here.
     */
    method PlaySuccess()
      requires Valid()
      modifies this`log
      ensures Valid()
      ensures log == old(log) + (if CanPlay() then SuccessTones(volume, now) else [])
    {
      if !enabled || reducedMotion {
        return;
      }
      if !device {
        return;
      }
      PlayTinn(ToneOpts(Some(932.0), Some(0.18), Some(volume * 0.9)));
      log := log + [Tone(1244.0, 0.16, volume * 0.8, now + 70)];
    }

    /** `playDelete`, scheduled like `PlaySuccess` with a 60 ms gap. */
    method PlayDelete()
      requires Valid()
      modifies this`log
      ensures Valid()
      ensures log == old(log) + (if CanPlay() then DeleteTones(volume, now) else [])
    {
      if !enabled || reducedMotion {
        return;
      }
      if !device {
        return;
      }
      PlayTinn(ToneOpts(Some(392.0), Some(0.16), Some(volume * 0.7)));
      log := log + [Tone(330.0, 0.12, volume * 0.6, now + 60)];
    }

    /**
     * `playShimmer`: while a cooldown is pending the request is dropped;
     * otherwise one tick plays and a 300 ms cooldown starts.
     */
    method PlayShimmer()
      requires Valid()
      modifies this`log, this`shimmerTimer
      ensures Valid()
      ensures old(ShimmerReady()) ==>
        log == old(log) + [ShimmerTone(volume, now)] && shimmerTimer == Some(now + ShimmerCooldown)
      ensures !old(ShimmerReady()) ==> log == old(log) && shimmerTimer == old(shimmerTimer)
    {
      if !keypressShimmer || !enabled || reducedMotion {
        return;
      }
      if !device {
        return;
      }
      if shimmerTimer.Some? {
        return;
      }
      shimmerTimer := Some(now + ShimmerCooldown);
      PlayTinn(ToneOpts(Some(740.0), Some(0.08), Some(volume * 0.2)));
    }

    /** Time passes; a cooldown timeout that is due fires and clears the handle. */
    method Advance(ms: nat)
      requires Valid()
      modifies this`now, this`shimmerTimer
      ensures Valid() && now == old(now) + ms
      ensures shimmerTimer == if old(shimmerTimer).Some? && old(shimmerTimer).value <= now then None else old(shimmerTimer)
    {
      now := now + ms;
      if shimmerTimer.Some? && shimmerTimer.value <= now {
        shimmerTimer := None;
      }
    }
  }

  /** A fresh engine with nothing stored, after a gesture that created the device. */
  method PrimedEngine(parseFloat: string -> Num, numberToString: real -> string) returns (e: AudioEngine)
    ensures fresh(e) && e.Valid() && e.CanPlay()
    ensures e.enabled && e.volume == DefaultVolume && !e.keypressShimmer
    ensures e.now == 0 && e.shimmerTimer == None && e.log == []
  {
    e := new AudioEngine(map[], parseFloat, numberToString, false);
    e.PrimeAudio(Created);
  }

  /**
   * On a fresh engine with nothing stored the sound is on, the volume is
   * 0.3 and the shimmer is off; after a gesture that creates the device, a
   * save schedules 932 Hz at 0 ms and 1244 Hz at 70 ms.
   */
  method FirstSuccessChime(parseFloat: string -> Num, numberToString: real -> string)
    returns (enabled: bool, volume: real, shimmer: bool, tones: seq<Tone>)
    ensures enabled && volume == DefaultVolume && !shimmer
    ensures |tones| == 2
    ensures tones[0].freq == 932.0 && tones[0].at == 0 && tones[0].gain == DefaultVolume * 0.9
    ensures tones[1].freq == 1244.0 && tones[1].at == 70 && tones[1].gain == DefaultVolume * 0.8
  {
    var e := PrimedEngine(parseFloat, numberToString);
    e.PlaySuccess();
    enabled, volume, shimmer, tones := e.enabled, e.volume, e.keypressShimmer, e.log;
  }

  /**
   * Two shimmer requests `gap` milliseconds apart on a primed engine with
   * the shimmer on: the second one plays only once the 300 ms cooldown has
   * run out.
   */
  method ShimmerTwice(gap: nat) returns (ticks: nat)
    ensures ticks == if gap < ShimmerCooldown then 1 else 2
  {
    var e := PrimedEngine(s => NaN, v => "");
    e.SetKeypressShimmer(true);
    e.PlayShimmer();
    e.Advance(gap);
    e.PlayShimmer();
    ticks := |e.log|;
  }
}
