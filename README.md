# Miipher batch collation, modelled in Dafny

This project models the batch-collation engine of `MiipherDataModule`, the
data module that feeds the Miipher speech-restoration model. A batch is a
list of decoded corpus records. Each record has a clean waveform (`speech.wav`),
a degraded waveform (`degraded_speech.wav`) and, optionally, phoneme token ids
(`phoneme_input_ids.pth`). Collation turns the list into one training batch:

- every waveform is resampled to 16 kHz and cut to its leading 320,000 samples (20 s);
- the degraded waveforms are zero-padded into a `B x T_max` matrix, and their true lengths are recorded;
- the clean and the degraded lists go, unpadded, to the speech feature extractor;
- the phoneme ids are zero-padded by `custom_padding` into a `B x L_max` matrix. This happens only when every record has them. A single missing key leaves the field out and does not abort the batch.

Files:

- `wrappers.dfy` (module `Wrappers`): `Option` and `Result`.
- `padding.dfy` (module `Padding`): padding to the longest sequence. It is shared by `pad_sequence(batch_first=True)` and `custom_padding`. It also holds the inverse of padding (cut each row back to its recorded length).
- `datamodule.dfy` (module `DataModule`): records, the output batch, `CustomPadding` (a method that fills a fresh `array2<int>`), truncation, `Collate` (the imperative `collate_fn`), the specification function `Collation` that `Collate` is proved against, and the properties of `Collation`.

Records are typed: each of the three keys is an `Option` field.
- A record without an audio key makes `collate_fn` raise `KeyError` outside the `try`. The model returns `Err(KeyError(key))` for the first such lookup, in batch order, with the clean waveform read before the degraded one.
- An empty batch makes `pad_sequence` raise. The model returns `Err(EmptyBatch)`.
- Resampling followed by `.squeeze()` is a parameter `resample: (wav, sr) -> Signal`.
- The feature extractor is a parameter `processor: seq<Signal> -> S` whose result type `S` is opaque.

`collate_fn` catches only `KeyError` (lines 121-127), so the phoneme field is dropped only when a record lacks the key. Any other error raised while gathering or padding the ids escapes. The model follows the code, and malformed ids cannot arise in it because the field is typed.

## Model

| member | source | states |
|---|---|---|
| `Padding.MaxLen` | src/miipher/dataset/datamodule.py:72 | the result bounds every sequence's length and equals the length of one of them; 0 for an empty batch |
| `Padding.PadRow` | src/miipher/dataset/datamodule.py:74-77 | a padded row has the requested width, starts with the whole sequence and is zero after it |
| `Padding.PadToLongest` | src/miipher/dataset/datamodule.py:72-77 | one row per sequence in input order; every row is as wide as the longest sequence; cell `[i][j]` is element `j` of sequence `i` when `j` is inside it and zero otherwise |
| `Padding.Lengths` | src/miipher/dataset/datamodule.py:100-102 | one recorded length per sequence, in batch order: the true length of sequence `i`, never above the padded width |
| `Padding.UnpadPadToLongest` | src/miipher/dataset/datamodule.py:99-102 | cutting each padded row back to its recorded length gives back exactly the original sequences (padding loses nothing) |
| `DataModule.CustomPadding` | src/miipher/dataset/datamodule.py:70-78 | needs a non-empty batch; returns a fresh `B x max_len` array with sequence `i` at the head of row `i` and zeros in every later cell, i.e. the rows of `PadToLongest(texts, 0)` |
| `DataModule.Truncate` | src/miipher/dataset/datamodule.py:89-97 | the kept waveform is a prefix of the resampled one and its length is `min(resampled length, 320000)` |
| `DataModule.Normalize` | src/miipher/dataset/datamodule.py:91-97 | a normalised waveform is a prefix of the resampled signal, of length `min(resampled length, 320000)` |
| `DataModule.TruncateIdempotent` | src/miipher/dataset/datamodule.py:91-97 | truncating an already truncated waveform changes nothing |
| `DataModule.MissingAudioKey` | src/miipher/dataset/datamodule.py:89-93 | for a record lacking audio, the key of the lookup that raises: "speech.wav" when the clean waveform is missing, otherwise "degraded_speech.wav" |
| `DataModule.FirstMissingKey` | src/miipher/dataset/datamodule.py:87-97 | `None` exactly when every record has both audio keys; otherwise the missing key of the first record that lacks one |
| `DataModule.GatherPhonemeIds` | src/miipher/dataset/datamodule.py:121-122 | yields the ids of every record in batch order exactly when every record has the key, and nothing otherwise |
| `DataModule.Collation` | src/miipher/dataset/datamodule.py:81-130 | the outcome of `collate_fn`: an error is a `KeyError` or the empty-batch error; a batch has one padded row and one length per record |
| `DataModule.Collate` | src/miipher/dataset/datamodule.py:81-130 | the loop over the batch, the padding, the lengths, the two extractor calls and the guarded phoneme step give exactly `Collation(batch, resample, processor)` |
| `DataModule.CollationSucceeds` | src/miipher/dataset/datamodule.py:87-127 | collation succeeds if and only if the batch is non-empty and every record has both audio keys; phoneme ids play no part |
| `DataModule.CollationMissingKey` | src/miipher/dataset/datamodule.py:87-97 | when record `i` is the first without an audio key, the result is `KeyError` naming its missing key ("speech.wav" before "degraded_speech.wav") |
| `DataModule.CollationDegraded` | src/miipher/dataset/datamodule.py:99-102 | `B` rows and `B` lengths; length `i` is `min(resampled length, 320000)` for sample `i`; row `i` starts with that sample's resampled waveform and is zero after its length; the width is the largest length and is reached |
| `DataModule.CollationFeatureInputs` | src/miipher/dataset/datamodule.py:103-114 | the extractor is called once per stream, on the unpadded normalised lists in batch order; each clean waveform is a prefix of its resampled signal of length `min(resampled length, 320000)`; the degraded list is exactly the padded matrix cut to the recorded lengths |
| `DataModule.CollationPhonemes` | src/miipher/dataset/datamodule.py:121-127 | phoneme ids are present if and only if every record has them; one record without them omits the field; when present: `B` rows, width the longest token sequence, row `i` is sequence `i` followed by zeros |
| `DataModule.BatchKeys` | src/miipher/dataset/datamodule.py:99-124 | the output dictionary always holds the four tensor keys and holds "phoneme_input_ids" exactly when the phoneme field was written |
| `DataModule.CollationKeys` | src/miipher/dataset/datamodule.py:99-127 | the output keys are always the four tensor keys, plus "phoneme_input_ids" exactly when every record has "phoneme_input_ids.pth" |
| `DataModule.FirstMissingKeyIgnoresPhonemes` | src/miipher/dataset/datamodule.py:87-97 | the audio key error depends only on the audio fields of the records |
| `DataModule.CollationIgnoresPhonemes` | src/miipher/dataset/datamodule.py:121-127 | two batches with the same audio have the same outcome: the same error, or batches that differ at most in "phoneme_input_ids" |
| `DataModule.CollationTwoSamples` | src/miipher/dataset/datamodule.py:91-102 | degraded waveforms resampling to 25 s and 3 s give lengths `[320000, 48000]` and a `2 x 320000` padded matrix |

## Left out

- Resampling (`torchaudio.functional.resample`) and `.squeeze()`: a band-limited floating-point transform in a foreign library. It is the parameter `resample`, and only truncation, padding and lengths are modelled after it. This also leaves out multi-channel squeeze shapes, and the 0-dimensional tensor that `.squeeze()` gives for a one-sample waveform.
- The speech feature extractor (`speech_ssl_processor`, created through hydra): it is the opaque parameter `processor`. Its own padding and its `return_tensors`, `sampling_rate` and `padding` arguments are not modelled.
- Record decoding (`wds.torch_audio`): records arrive already decoded. Each of the three keys is present or absent, and every present field has the right type. Type errors from wrongly typed fields are therefore not modelled.
- `setup` (WebDataset sharding, `split_by_node`, `shuffle(1000)`, `repeat(2)`, `with_length`), `train_dataloader` and `val_dataloader` (PyTorch `DataLoader` with 8 workers): streaming and multiprocessing plumbing around external libraries.
- The `print` logging, `@torch.no_grad()` and the Lightning/hydra configuration: they do not change the values computed.
- Tensor element types: waveform samples are `real` and token ids are unbounded `int`. The 64-bit `torch.long` range and float precision are not modelled.
