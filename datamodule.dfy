/**
 * Batch collation of `MiipherDataModule`: `custom_padding` for the phoneme
 * token sequences, and `collate_fn`, which normalises every sample's clean and
 * degraded waveform to 16 kHz and at most 20 s, pads the degraded waveforms
 * and records their lengths, hands the unpadded waveform lists to the speech
 * feature extractor, and attaches the padded phoneme ids only when every
 * sample carries them.
 *
 * Resampling (`torchaudio.functional.resample(...).squeeze()`) and the feature
 * extractor are foreign code: both are parameters of the model.
 */
module DataModule {
  import opened Wrappers
  import opened Padding

  /** Canonical sample rate, in Hz. */
  const SampleRate: nat := 16000
  /** Longest kept duration, in seconds. */
  const MaxSeconds: nat := 20
  /** Longest kept waveform, in samples: `16000*20`. */
  const MaxSamples: nat := SampleRate * MaxSeconds

  // Keys of a decoded corpus record.
  const SpeechKey: string := "speech.wav"
  const DegradedSpeechKey: string := "degraded_speech.wav"
  const PhonemeIdsKey: string := "phoneme_input_ids.pth"

  // Keys of the output batch.
  const DegradedWavKey: string := "degraded_wav_16k"
  const DegradedWavLengthsKey: string := "degraded_wav_16k_lengths"
  const CleanSslInputKey: string := "clean_ssl_input"
  const DegradedSslInputKey: string := "degraded_ssl_input"
  const PhonemeInputIdsKey: string := "phoneme_input_ids"

  /** A mono waveform: one sample value per time step. */
  type Signal = seq<real>

  /** A decoded audio field: the waveform (channels by time) and its sample rate. */
  datatype Audio = Audio(wav: seq<seq<real>>, sr: int)

  /**
   * One decoded corpus record. Each field is `None` when the record lacks
   * the corresponding key.
   */
  datatype Sample = Sample(
    speech: Option<Audio>,              // "speech.wav"
    degradedSpeech: Option<Audio>,      // "degraded_speech.wav"
    phonemeInputIds: Option<seq<int>>)  // "phoneme_input_ids.pth"

  /** `resample(wav, sr, new_freq=16000).squeeze()`: a mono 16 kHz signal. */
  type Resampler = (seq<seq<real>>, int) -> Signal

  /**
   * The output dictionary. The first four keys are always written;
   * `phonemeInputIds` is `None` when the key is absent from the dictionary.
   */
  datatype Batch<S> = Batch(
    degradedWav16k: seq<Signal>,
    degradedWav16kLengths: seq<nat>,
    cleanSslInput: S,
    degradedSslInput: S,
    phonemeInputIds: Option<seq<seq<int>>>)

  /** Errors that escape `collate_fn` and abort the batch. */
  datatype CollateError =
    | KeyError(key: string)  // a required audio key is missing from a record
    | EmptyBatch             // `pad_sequence` was given no sequence at all

  /** The keys present in the output dictionary. */
  function BatchKeys<S>(b: Batch<S>): (keys: set<string>)
    ensures {DegradedWavKey, DegradedWavLengthsKey, CleanSslInputKey, DegradedSslInputKey} <= keys
    ensures PhonemeInputIdsKey in keys <==> b.phonemeInputIds.Some?
    ensures |keys| == if b.phonemeInputIds.Some? then 5 else 4
  {
    {DegradedWavKey, DegradedWavLengthsKey, CleanSslInputKey, DegradedSslInputKey}
    + (if b.phonemeInputIds.Some? then {PhonemeInputIdsKey} else {})
  }

  // ---------------------------------------------------------------------------
  // custom_padding

  /** The contents of a two-dimensional array, row by row. */
  function Rows<T>(m: array2<T>): seq<seq<T>>
    reads m
  {
    seq(m.Length0, i requires 0 <= i < m.Length0 reads m =>
      seq(m.Length1, j requires 0 <= j < m.Length1 reads m => m[i, j]))
  }

  /**
   * `custom_padding`: a fresh zero matrix with one row per token sequence and
   * as many columns as the longest one, whose row `i` is overwritten with
   * sequence `i`. `max` over an empty batch raises, hence the precondition.
   */
  method CustomPadding(texts: seq<seq<int>>) returns (padded: array2<int>)
    requires |texts| > 0
    ensures fresh(padded)
    ensures padded.Length0 == |texts| && padded.Length1 == MaxLen(texts)
    ensures forall i, j :: 0 <= i < padded.Length0 && 0 <= j < padded.Length1 ==>
              padded[i, j] == if j < |texts[i]| then texts[i][j] else 0
    ensures Rows(padded) == PadToLongest(texts, 0)
  {
    var maxLength := MaxLen(texts);
    padded := new int[|texts|, maxLength]((_, _) => 0);
    var i := 0;
    while i < |texts|
      invariant 0 <= i <= |texts|
      invariant forall r, c :: 0 <= r < |texts| && 0 <= c < maxLength ==>
                  padded[r, c] == if r < i && c < |texts[r]| then texts[r][c] else 0
    {
      var text := texts[i];
      var j := 0;
      while j < |text|
        invariant 0 <= j <= |text| <= maxLength
        invariant forall r, c :: 0 <= r < |texts| && 0 <= c < maxLength ==>
                    padded[r, c] == if (r < i && c < |texts[r]|) || (r == i && c < j) then texts[r][c] else 0
      {
        padded[i, j] := text[j];
        j := j + 1;
      }
      i := i + 1;
    }
    var want := PadToLongest(texts, 0);
    forall r | 0 <= r < |texts|
      ensures Rows(padded)[r] == want[r]
    {
      assert forall c :: 0 <= c < maxLength ==> Rows(padded)[r][c] == want[r][c];
    }
  }

  // ---------------------------------------------------------------------------
  // Audio normalisation

  /**
   * The slice `[:16000*20]`: the leading part of `s`, never longer than
   * 320,000 samples, and all of `s` when it is already that short.
   */
  function Truncate(s: Signal): (r: Signal)
    ensures r <= s
    ensures |r| == if |s| <= MaxSamples then |s| else MaxSamples
  {
    if |s| <= MaxSamples then s else s[..MaxSamples]
  }

  /** Truncating a second time changes nothing. */
  lemma TruncateIdempotent(s: Signal)
    ensures Truncate(Truncate(s)) == Truncate(s)
  {
  }

  /** A waveform resampled to 16 kHz, flattened to mono and cut to 20 s. */
  function Normalize(a: Audio, resample: Resampler): (r: Signal)
    ensures r <= resample(a.wav, a.sr)
    ensures |r| == if |resample(a.wav, a.sr)| <= MaxSamples then |resample(a.wav, a.sr)| else MaxSamples
  {
    Truncate(resample(a.wav, a.sr))
  }

  // ---------------------------------------------------------------------------
  // collate_fn, as a specification

  /** Both required audio keys are present. */
  predicate HasAudio(s: Sample)
  {
    s.speech.Some? && s.degradedSpeech.Some?
  }

  /** The key whose lookup raises first for a record lacking audio: clean is read before degraded. */
  function MissingAudioKey(s: Sample): (key: string)
    requires !HasAudio(s)
    ensures key == SpeechKey <==> s.speech.None?
    ensures key == DegradedSpeechKey <==> s.speech.Some? && s.degradedSpeech.None?
  {
    if s.speech.None? then SpeechKey else DegradedSpeechKey
  }

  /**
   * The key of the first failing lookup when the samples are read in batch
   * order, or `None` when every sample has both audio keys.
   */
  function FirstMissingKey(batch: seq<Sample>): (r: Option<string>)
    ensures r.None? <==> forall k :: 0 <= k < |batch| ==> HasAudio(batch[k])
    ensures r.Some? ==> exists k :: (0 <= k < |batch| && !HasAudio(batch[k]) &&
              (forall j :: 0 <= j < k ==> HasAudio(batch[j])) && r.value == MissingAudioKey(batch[k]))
  {
    if |batch| == 0 then None
    else if !HasAudio(batch[0]) then Some(MissingAudioKey(batch[0]))
    else
      var rest := FirstMissingKey(batch[1..]);
      if rest.Some? then
        var k :| 0 <= k < |batch[1..]| && !HasAudio(batch[1..][k]) &&
                 (forall j :: 0 <= j < k ==> HasAudio(batch[1..][j])) && rest.value == MissingAudioKey(batch[1..][k]);
        assert forall j :: 0 <= j < k + 1 ==> HasAudio(batch[j]) by {
          forall j | 0 <= j < k + 1 ensures HasAudio(batch[j]) {
            if j > 0 { assert batch[j] == batch[1..][j - 1]; }
          }
        }
        assert batch[k + 1] == batch[1..][k];
        rest
      else
        assert forall k :: 0 <= k < |batch| ==> HasAudio(batch[k]) by {
          forall k | 0 <= k < |batch| ensures HasAudio(batch[k]) {
            if k > 0 { assert batch[k] == batch[1..][k - 1]; }
          }
        }
        rest
  }

  /** The normalised clean waveforms, in batch order. */
  function CleanWavs(batch: seq<Sample>, resample: Resampler): seq<Signal>
    requires forall k :: 0 <= k < |batch| ==> HasAudio(batch[k])
  {
    seq(|batch|, k requires 0 <= k < |batch| && HasAudio(batch[k]) => Normalize(batch[k].speech.value, resample))
  }

  /** The normalised degraded waveforms, in batch order. */
  function DegradedWavs(batch: seq<Sample>, resample: Resampler): seq<Signal>
    requires forall k :: 0 <= k < |batch| ==> HasAudio(batch[k])
  {
    seq(|batch|, k requires 0 <= k < |batch| && HasAudio(batch[k]) => Normalize(batch[k].degradedSpeech.value, resample))
  }

  /** Every sample has the key "phoneme_input_ids.pth". */
  predicate AllHavePhonemes(batch: seq<Sample>)
  {
    forall k :: 0 <= k < |batch| ==> batch[k].phonemeInputIds.Some?
  }

  /** The phoneme token sequences, in batch order. */
  function PhonemeLists(batch: seq<Sample>): seq<seq<int>>
    requires AllHavePhonemes(batch)
  {
    seq(|batch|, k requires 0 <= k < |batch| => batch[k].phonemeInputIds.value)
  }

  /** What `collate_fn` returns, or the error that escapes it. */
  function Collation<S>(batch: seq<Sample>, resample: Resampler, processor: seq<Signal> -> S)
    : (r: Result<Batch<S>, CollateError>)
    ensures r.Err? ==> r.error == EmptyBatch || r.error.key in {SpeechKey, DegradedSpeechKey}
    ensures r.Ok? ==> |r.value.degradedWav16k| == |batch| && |r.value.degradedWav16kLengths| == |batch|
  {
    match FirstMissingKey(batch)
    case Some(key) => Err(KeyError(key))
    case None =>
      if |batch| == 0 then Err(EmptyBatch)
      else
        var clean := CleanWavs(batch, resample);
        var degraded := DegradedWavs(batch, resample);
        var phonemes := if AllHavePhonemes(batch) then Some(PadToLongest(PhonemeLists(batch), 0)) else None;
        Ok(Batch(PadToLongest(degraded, 0.0), Lengths(degraded), processor(clean), processor(degraded), phonemes))
  }

  // ---------------------------------------------------------------------------
  // collate_fn

  /**
   * The list comprehension over "phoneme_input_ids.pth" inside `collate_fn`'s
   * `try`: the ids of every sample in batch order, or `None` when a lookup
   * raises `KeyError` (the first sample without the key ends the scan).
   */
  method GatherPhonemeIds(batch: seq<Sample>) returns (texts: Option<seq<seq<int>>>)
    ensures texts.Some? <==> AllHavePhonemes(batch)
    ensures texts.Some? ==> texts.value == PhonemeLists(batch)
  {
    var batchTexts: seq<seq<int>> := [];
    var j := 0;
    while j < |batch|
      invariant 0 <= j <= |batch|
      invariant |batchTexts| == j
      invariant forall k :: 0 <= k < j ==>
                  batch[k].phonemeInputIds.Some? && batchTexts[k] == batch[k].phonemeInputIds.value
    {
      match batch[j].phonemeInputIds {
        case None =>
          return None;
        case Some(text) =>
          batchTexts := batchTexts + [text];
      }
      j := j + 1;
    }
    return Some(batchTexts);
  }

  /**
   * `collate_fn`: reads the samples in order, appending each normalised clean
   * and degraded waveform to its list, pads the degraded list, records its
   * lengths, runs the feature extractor once on each unpadded list, and then
   * tries to gather every sample's phoneme ids; a missing key ends that
   * attempt and leaves the field out.
   */
  method Collate<S>(batch: seq<Sample>, resample: Resampler, processor: seq<Signal> -> S)
    returns (r: Result<Batch<S>, CollateError>)
    ensures r == Collation(batch, resample, processor)
  {
    var cleanWavs: seq<Signal> := [];
    var degradedWavs: seq<Signal> := [];
    var i := 0;
    while i < |batch|
      invariant 0 <= i <= |batch|
      invariant forall k :: 0 <= k < i ==> HasAudio(batch[k])
      invariant |cleanWavs| == i && |degradedWavs| == i
      invariant forall k :: 0 <= k < i ==>
                  cleanWavs[k] == Normalize(batch[k].speech.value, resample) &&
                  degradedWavs[k] == Normalize(batch[k].degradedSpeech.value, resample)
    {
      var sample := batch[i];
      match sample.speech {
        case None =>
          CollationMissingKey(batch, resample, processor, i);
          return Err(KeyError(SpeechKey));
        case Some(clean) =>
          cleanWavs := cleanWavs + [Normalize(clean, resample)];
      }
      match sample.degradedSpeech {
        case None =>
          CollationMissingKey(batch, resample, processor, i);
          return Err(KeyError(DegradedSpeechKey));
        case Some(degraded) =>
          degradedWavs := degradedWavs + [Normalize(degraded, resample)];
      }
      i := i + 1;
    }
    assert cleanWavs == CleanWavs(batch, resample);
    assert degradedWavs == DegradedWavs(batch, resample);
    if |degradedWavs| == 0 {
      return Err(EmptyBatch);
    }
    var degradedWav16k := PadToLongest(degradedWavs, 0.0);
    var lengths := Lengths(degradedWavs);
    var cleanSslInput := processor(cleanWavs);
    var degradedSslInput := processor(degradedWavs);

    var phonemeInputIds: Option<seq<seq<int>>> := None;
    var batchTexts := GatherPhonemeIds(batch);
    if batchTexts.Some? {
      var padded := CustomPadding(batchTexts.value);
      phonemeInputIds := Some(Rows(padded));
    }
    r := Ok(Batch(degradedWav16k, lengths, cleanSslInput, degradedSslInput, phonemeInputIds));
  }

  // ---------------------------------------------------------------------------
  // Properties of collation

  /**
   * Collation fails only for an empty batch or a record without one of the
   * two audio keys; missing phoneme ids never abort it.
   */
  lemma CollationSucceeds<S>(batch: seq<Sample>, resample: Resampler, processor: seq<Signal> -> S)
    ensures Collation(batch, resample, processor).Ok? <==>
              |batch| > 0 && forall k :: 0 <= k < |batch| ==> HasAudio(batch[k])
  {

  }

  /**
   * A missing audio key is not caught: the `KeyError` of the first record
   * that lacks one escapes, naming "speech.wav" before "degraded_speech.wav".
   */
  lemma CollationMissingKey<S>(batch: seq<Sample>, resample: Resampler, processor: seq<Signal> -> S, i: nat)
    requires i < |batch| && !HasAudio(batch[i])
    requires forall k :: 0 <= k < i ==> HasAudio(batch[k])
    ensures Collation(batch, resample, processor) == Err(KeyError(MissingAudioKey(batch[i])))
  {

  }

  /**
   * The padded degraded waveforms: one row per sample in batch order, all as
   * wide as the longest normalised degraded waveform; row `i` is that
   * sample's normalised waveform followed by zeros, and the recorded length
   * `i` is the unpadded length, `min(resampled length, 320000)`.
   */
  lemma CollationDegraded<S>(batch: seq<Sample>, resample: Resampler, processor: seq<Signal> -> S, b: Batch<S>)
    requires Collation(batch, resample, processor) == Ok(b)
    ensures forall k :: 0 <= k < |batch| ==> HasAudio(batch[k])
    ensures |b.degradedWav16k| == |batch| && |b.degradedWav16kLengths| == |batch|
    ensures forall i :: 0 <= i < |batch| ==>
              var resampled := resample(batch[i].degradedSpeech.value.wav, batch[i].degradedSpeech.value.sr);
              b.degradedWav16kLengths[i] == (if |resampled| <= MaxSamples then |resampled| else MaxSamples) &&
              b.degradedWav16k[i][..b.degradedWav16kLengths[i]] == resampled[..b.degradedWav16kLengths[i]]
    ensures forall i :: 0 <= i < |batch| ==> |b.degradedWav16k[i]| == MaxLen(DegradedWavs(batch, resample))
    ensures forall i, j :: 0 <= i < |batch| && b.degradedWav16kLengths[i] <= j < |b.degradedWav16k[i]| ==>
              b.degradedWav16k[i][j] == 0.0
    ensures forall i :: 0 <= i < |batch| ==> b.degradedWav16kLengths[i] <= MaxLen(DegradedWavs(batch, resample))
    ensures exists i :: 0 <= i < |batch| && b.degradedWav16kLengths[i] == MaxLen(DegradedWavs(batch, resample))
  {

  }

  /**
   * The feature extractor sees each stream once, unpadded: the clean and the
   * degraded lists hold the normalised waveforms in batch order, and the
   * degraded list is exactly what the padded matrix and the recorded lengths
   * describe.
   */
  lemma CollationFeatureInputs<S>(batch: seq<Sample>, resample: Resampler, processor: seq<Signal> -> S, b: Batch<S>)
    requires Collation(batch, resample, processor) == Ok(b)
    ensures forall k :: 0 <= k < |batch| ==> HasAudio(batch[k])
    ensures b.cleanSslInput == processor(CleanWavs(batch, resample))
    ensures b.degradedSslInput == processor(DegradedWavs(batch, resample))
    ensures |CleanWavs(batch, resample)| == |batch| && |DegradedWavs(batch, resample)| == |batch|
    ensures forall i :: 0 <= i < |batch| ==>
              var resampled := resample(batch[i].speech.value.wav, batch[i].speech.value.sr);
              CleanWavs(batch, resample)[i] <= resampled &&
              |CleanWavs(batch, resample)[i]| == (if |resampled| <= MaxSamples then |resampled| else MaxSamples)
    ensures |b.degradedWav16kLengths| == |b.degradedWav16k| &&
            (forall i :: 0 <= i < |b.degradedWav16k| ==> b.degradedWav16kLengths[i] <= |b.degradedWav16k[i]|) &&
            Unpad(b.degradedWav16k, b.degradedWav16kLengths) == DegradedWavs(batch, resample)
  {

  }

  /**
   * All or nothing: the phoneme ids are in the output exactly when every
   * sample has them, and then they are the zero-padded token matrix, one
   * row per sample in batch order.
   */
  lemma CollationPhonemes<S>(batch: seq<Sample>, resample: Resampler, processor: seq<Signal> -> S, b: Batch<S>)
    requires Collation(batch, resample, processor) == Ok(b)
    ensures b.phonemeInputIds.Some? <==> AllHavePhonemes(batch)
    ensures forall k :: 0 <= k < |batch| && batch[k].phonemeInputIds.None? ==> b.phonemeInputIds.None?
    ensures b.phonemeInputIds.Some? ==>
              var ids := b.phonemeInputIds.value;
              |ids| == |batch| &&
              forall i :: 0 <= i < |batch| ==>
                var text := batch[i].phonemeInputIds.value;
                |ids[i]| == MaxLen(PhonemeLists(batch)) && |text| <= |ids[i]| &&
                ids[i][..|text|] == text &&
                forall j :: |text| <= j < |ids[i]| ==> ids[i][j] == 0
  {

  }

  /**
   * The four tensor keys are always written; "phoneme_input_ids" is written
   * exactly when every sample has "phoneme_input_ids.pth".
   */
  lemma CollationKeys<S>(batch: seq<Sample>, resample: Resampler, processor: seq<Signal> -> S, b: Batch<S>)
    requires Collation(batch, resample, processor) == Ok(b)
    ensures BatchKeys(b) ==
              {DegradedWavKey, DegradedWavLengthsKey, CleanSslInputKey, DegradedSslInputKey}
              + (if AllHavePhonemes(batch) then {PhonemeInputIdsKey} else {})
    ensures PhonemeInputIdsKey in BatchKeys(b) <==> AllHavePhonemes(batch)
  {

  }

  /** The first missing audio key depends on the audio fields only. */
  lemma FirstMissingKeyIgnoresPhonemes(batch: seq<Sample>, other: seq<Sample>)
    requires |batch| == |other|
    requires forall k :: 0 <= k < |batch| ==>
               batch[k].speech == other[k].speech && batch[k].degradedSpeech == other[k].degradedSpeech
    ensures FirstMissingKey(batch) == FirstMissingKey(other)
  {

  }

  /**
   * Whether phoneme ids are present changes nothing but the phoneme field:
   * two batches with the same audio collate to the same outcome, apart from
   * "phoneme_input_ids".
   */
  lemma CollationIgnoresPhonemes<S>(batch: seq<Sample>, other: seq<Sample>, resample: Resampler, processor: seq<Signal> -> S)
    requires |batch| == |other|
    requires forall k :: 0 <= k < |batch| ==>
               batch[k].speech == other[k].speech && batch[k].degradedSpeech == other[k].degradedSpeech
    ensures var r, q := Collation(batch, resample, processor), Collation(other, resample, processor);
            r.Ok? == q.Ok? &&
            (r.Err? ==> r == q) &&
            (r.Ok? ==> r.value.(phonemeInputIds := None) == q.value.(phonemeInputIds := None))
  {
    FirstMissingKeyIgnoresPhonemes(batch, other);
    if FirstMissingKey(batch).None? && |batch| > 0 {
      assert CleanWavs(batch, resample) == CleanWavs(other, resample);
      assert DegradedWavs(batch, resample) == DegradedWavs(other, resample);
    }
  }

  /**
   * Two samples whose degraded waveforms resample to 25 s and 3 s of 16 kHz
   * audio: the first is cut to exactly 320,000 samples, the padded matrix
   * is 2 by 320,000 and the recorded lengths are [320000, 48000].
   */
  lemma CollationTwoSamples<S>(batch: seq<Sample>, resample: Resampler, processor: seq<Signal> -> S)
    requires |batch| == 2 && HasAudio(batch[0]) && HasAudio(batch[1])
    requires |resample(batch[0].degradedSpeech.value.wav, batch[0].degradedSpeech.value.sr)| == 25 * SampleRate
    requires |resample(batch[1].degradedSpeech.value.wav, batch[1].degradedSpeech.value.sr)| == 3 * SampleRate
    ensures Collation(batch, resample, processor).Ok?
    ensures var b := Collation(batch, resample, processor).value;
            b.degradedWav16kLengths == [320000, 48000] &&
            |b.degradedWav16k| == 2 && |b.degradedWav16k[0]| == 320000 && |b.degradedWav16k[1]| == 320000
  {

  }
}
